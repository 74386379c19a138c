/** Runs that show the exceptions to what approvals record, each from an empty ledger. */
module ApprovalCases {
  import opened Options
  import opened Approvals
  import opened ApprovalSent

  function Asked(task: nat, request: string, kind: Kind): seq<Step> { [Arrive(task, request, kind, PLAIN), Consume(true, false)] }

  function Clicked(click: nat, id: nat, action: Action, watch: set<nat>): seq<Step> {
    [Begin(id, action, true), Deliver(click, true, watch)]
  }

  /** One request that becomes a row. */
  lemma Asks(w: World, task: nat, request: string, kind: Kind)
    requires task < |w.tasks| && w.queue == [] && !Known(w.rows, task, request)
    ensures var t := w.tasks[task];
            Run(w, Asked(task, request, kind)) ==
              w.(rows := w.rows + [Row(task, request, w.arrivals, kind, PLAIN, Pending, "", Open)],
                 held := w.held[request := w.arrivals], arrivals := w.arrivals + 1,
                 tasks := w.tasks[task := t.(pending := t.pending + 1)])
  {
    hide Run, Known, Next;
    TwoSteps(w, Arrive(task, request, kind, PLAIN), Consume(true, false));
    Arrives(w, task, request, kind);
    var n := Requested(w.arrivals, task, request, kind, PLAIN);
    Becomes(w.(held := w.held[request := w.arrivals], arrivals := w.arrivals + 1, queue := [n]), n);
  }

  lemma Arrives(w: World, task: nat, request: string, kind: Kind)
    requires w.queue == []
    ensures Next(w, Arrive(task, request, kind, PLAIN))
         == w.(held := w.held[request := w.arrivals], arrivals := w.arrivals + 1, queue := [Requested(w.arrivals, task, request, kind, PLAIN)])
  {}

  lemma Becomes(w: World, n: Notice)
    requires w.queue == [n] && n.Requested? && n.task < |w.tasks| && !Known(w.rows, n.task, n.request)
    ensures Next(w, Consume(true, false)) == InsertRow(w.(queue := []), n, true)
  {
    hide Known, InsertRow;
    assert w.queue[1..] == [];
  }

  // ---- A projection that comes first ----

  const ONE_TASK: seq<Task> := [Task(Running, 0, false)]

  const ONE_ROW: Row := Row(0, "q", 0, Command, PLAIN, Pending, "", Open)

  const ONE_ASKED: World := World([ONE_ROW], [Task(Running, 1, false)], map["q" := 0], 1, [], [], [])

  lemma OneAsked()
    ensures Run(Initial(ONE_TASK), Asked(0, "q", Command)) == ONE_ASKED
  {
    hide Run, Next;
    Asks(Initial(ONE_TASK), 0, "q", Command);
  }

  /** A run in which one request arrives, as its first step, keeps the condition on ids. */
  lemma {:induction false} OneRequest(rest: seq<Step>)
    requires forall i :: 0 <= i < |rest| ==> !rest[i].Arrive?
    ensures AllAdmissible(Initial(ONE_TASK), Asked(0, "q", Command) + rest)
  {
    hide Run;
    var steps := Asked(0, "q", Command) + rest;
    if rest == [] {
      var first := Asked(0, "q", Command)[..1];
      assert steps == Asked(0, "q", Command) && steps[..1] == first && first[..0] == [];
      assert Run(Initial(ONE_TASK), []) == Initial(ONE_TASK) by { StartsThere(); }
      assert AllAdmissible(Initial(ONE_TASK), first);
    } else {
      assert steps[..|steps| - 1] == Asked(0, "q", Command) + rest[..|rest| - 1];
      OneRequest(rest[..|rest| - 1]);
    }
  }

  lemma StartsThere()
    ensures Run(Initial(ONE_TASK), []) == Initial(ONE_TASK)
  {}

  /** A cancelled command approval, sent while a prompt is open for its task, is answered as cancelled and recorded as denied. */
  lemma CancelRecordedAsDenied()
    ensures AllAdmissible(Initial(ONE_TASK), Asked(0, "q", Command) + Clicked(0, 0, Cancel, {0}))
    ensures var w := Run(Initial(ONE_TASK), Asked(0, "q", Command) + Clicked(0, 0, Cancel, {0}));
            && w.answers == [Answer(0, 0, Cancel)] && |w.rows| == 1
            && w.rows[0].status.Denied? && w.rows[0].closing == Projected(true, Some(0)) && !Agrees(Command, PLAIN, Cancel)
  {
    hide Run, Next, AllAdmissible;
    OneRequest(Clicked(0, 0, Cancel, {0}));
    OneAsked();
    RunSplit(Initial(ONE_TASK), Asked(0, "q", Command), Clicked(0, 0, Cancel, {0}));
    TwoSteps(ONE_ASKED, Begin(0, Cancel, true), Deliver(0, true, {0}));
    CancelBegins();
    var w := ONE_ASKED.(clicks := [Sending(0, Cancel)]);
    NextBooks(w, Deliver(0, true, {0}));
    CancelDecides(w);
  }

  lemma CancelBegins()
    ensures Next(ONE_ASKED, Begin(0, Cancel, true)) == ONE_ASKED.(clicks := [Sending(0, Cancel)])
  {}

  lemma CancelDecides(w: World)
    requires w == ONE_ASKED.(clicks := [Sending(0, Cancel)])
    ensures Booked(w, Deliver(0, true, {0})) == Decide(w, 0, Cancel, {0})
    ensures var d := Decide(w, 0, Cancel, {0});
            d.answers == [Answer(0, 0, Cancel)] && |d.rows| == 1 && d.rows[0].status.Denied? && d.rows[0].closing == Projected(true, Some(0))
  {
    DecideAlone(w, 0, Cancel, {0});
  }

  // ---- A click that outlives its task ----

  const LATE_ANSWER: seq<Step> := [TaskMoves(0, Aborted), Begin(0, Deny, true), Deliver(0, true, {})]

  const APPROVING: World := ONE_ASKED.(clicks := [Sending(0, ApproveOnce)])

  const LATE: World := World(
    [ONE_ROW.(status := Cancelled, resolution := "task_terminal", closing := TaskOver)],
    [Task(Aborted, 0, false)], map["q" := 0], 1, [], [], [Sending(0, ApproveOnce), Ended])

  lemma LateCloses()
    ensures Next(Next(APPROVING, TaskMoves(0, Aborted)), Begin(0, Deny, true)) == LATE
  {
    assert Next(APPROVING, TaskMoves(0, Aborted)) == APPROVING.(tasks := [Task(Aborted, 1, false)]);
  }

  lemma LateDecides()
    ensures Booked(LATE, Deliver(0, true, {})) == Decide(LATE, 0, ApproveOnce, {})
    ensures var d := Decide(LATE, 0, ApproveOnce, {});
            d.answers == [Answer(0, 0, ApproveOnce)] && |d.rows| == 1 && d.rows[0].status.Cancelled?
  {
    DecideAlone(LATE, 0, ApproveOnce, {});
  }

  /** A click in flight when the task ends is delivered as an approval of a row that another click has closed as cancelled. */
  lemma LateAnswerDisagrees()
    ensures AllAdmissible(Initial(ONE_TASK), Asked(0, "q", Command) + ([Begin(0, ApproveOnce, true)] + LATE_ANSWER))
    ensures var w := Run(Initial(ONE_TASK), Asked(0, "q", Command) + ([Begin(0, ApproveOnce, true)] + LATE_ANSWER));
            w.answers == [Answer(0, 0, ApproveOnce)] && |w.rows| == 1 && w.rows[0].status.Cancelled?
  {
    hide Run, Next, AllAdmissible;
    var w0 := Initial(ONE_TASK);
    OneRequest([Begin(0, ApproveOnce, true)] + LATE_ANSWER);
    OneAsked();
    RunSplit(w0, Asked(0, "q", Command), [Begin(0, ApproveOnce, true)]);
    OneStep(ONE_ASKED, Begin(0, ApproveOnce, true));
    ApproveBegins();
    RunSplit(w0, Asked(0, "q", Command) + [Begin(0, ApproveOnce, true)], LATE_ANSWER);
    assert Asked(0, "q", Command) + [Begin(0, ApproveOnce, true)] + LATE_ANSWER == Asked(0, "q", Command) + ([Begin(0, ApproveOnce, true)] + LATE_ANSWER);
    ThreeSteps(APPROVING, LATE_ANSWER[0], LATE_ANSWER[1], LATE_ANSWER[2]);
    LateCloses();
    NextBooks(LATE, Deliver(0, true, {}));
    LateDecides();
  }

  lemma ApproveBegins()
    ensures Next(ONE_ASKED, Begin(0, ApproveOnce, true)) == APPROVING
  {}

  // ---- An id that two tasks share ----

  const TWO_TASKS: seq<Task> := [Task(Running, 0, false), Task(Running, 0, false)]

  const BOTH_ASKED: World := World(
    [Row(0, "1", 0, Command, PLAIN, Pending, "", Open), Row(1, "1", 1, Command, PLAIN, Pending, "", Open)],
    [Task(Running, 1, false), Task(Running, 1, false)], map["1" := 1], 2, [], [], [])

  const FIRST_ANSWERED: World := World(
    [Row(0, "1", 0, Command, PLAIN, Approved, "approve_once", ByClick(Some(0))), Row(1, "1", 1, Command, PLAIN, Pending, "", Open)],
    [Task(Running, 0, false), Task(Running, 1, false)], map[], 2, [Answer(0, 1, ApproveOnce)], [Resolved("1", true)], [Ended])

  lemma BothAsked()
    ensures Run(Initial(TWO_TASKS), Asked(0, "1", Command) + Asked(1, "1", Command)) == BOTH_ASKED
  {
    hide Run, Next;
    var w0 := Initial(TWO_TASKS);
    Asks(w0, 0, "1", Command);
    var w1 := Run(w0, Asked(0, "1", Command));
    assert w1 == World([Row(0, "1", 0, Command, PLAIN, Pending, "", Open)], [Task(Running, 1, false), Task(Running, 0, false)],
                       map["1" := 0], 1, [], [], []);
    Asks(w1, 1, "1", Command);
    RunSplit(w0, Asked(0, "1", Command), Asked(1, "1", Command));
    assert map["1" := 0]["1" := 1] == map["1" := 1];
  }

  lemma FirstMisled()
    ensures Next(Next(BOTH_ASKED, Begin(0, ApproveOnce, true)), Deliver(0, true, {})) == FIRST_ANSWERED
  {
    hide PendingIds, BatchIds;
    assert Next(BOTH_ASKED, Begin(0, ApproveOnce, true)) == BOTH_ASKED.(clicks := [Sending(0, ApproveOnce)]);
    var w := BOTH_ASKED.(clicks := [Sending(0, ApproveOnce)]);
    FirstDecides(w);
  }

  lemma FirstDecides(w: World)
    requires w == BOTH_ASKED.(clicks := [Sending(0, ApproveOnce)])
    ensures Decide(w, 0, ApproveOnce, {}) == FIRST_ANSWERED.(tasks := w.tasks, clicks := w.clicks)
  {
    hide ProjectRows;
    assert w.held - {"1"} == map[];
    assert Send(w, 0, ApproveOnce, {}).rows == w.rows;
  }

  lemma SecondDenied()
    ensures var w := Next(Next(FIRST_ANSWERED, Begin(1, Deny, true)), Deliver(1, true, {}));
            && w.answers == FIRST_ANSWERED.answers && |w.rows| == 2 && w.rows[0] == FIRST_ANSWERED.rows[0]
            && w.rows[1].serial == 1 && w.rows[1].status.Denied? && w.rows[1].closing == ByClick(None)
  {
    hide PendingIds, BatchIds;
    var w := FIRST_ANSWERED.(clicks := [Ended, Sending(1, Deny)]);
    assert Next(FIRST_ANSWERED, Begin(1, Deny, true)) == w;
    NextBooks(w, Deliver(1, true, {}));
    DecideAlone(w, 1, Deny, {});
  }

  /**
   Two tasks with the same id, which the ledger accepts: approving the first answers the second task's request, and the
   second is then recorded as denied although its request was approved.
   */
  lemma TwoTasksShareAnId()
    ensures var w := Run(Initial(TWO_TASKS), Asked(0, "1", Command) + Asked(1, "1", Command)
                                             + Clicked(0, 0, ApproveOnce, {}) + Clicked(1, 1, Deny, {}));
            && w.answers == [Answer(0, 1, ApproveOnce)] && |w.rows| == 2
            && w.rows[0].serial == 0 && w.rows[0].status.Approved?
            && w.rows[1].serial == 1 && w.rows[1].status.Denied? && w.rows[1].closing == ByClick(None)
  {
    hide Run, Next;
    var w0 := Initial(TWO_TASKS);
    var asked := Asked(0, "1", Command) + Asked(1, "1", Command);
    BothAsked();
    RunSplit(w0, asked, Clicked(0, 0, ApproveOnce, {}));
    TwoSteps(BOTH_ASKED, Begin(0, ApproveOnce, true), Deliver(0, true, {}));
    FirstMisled();
    RunSplit(w0, asked + Clicked(0, 0, ApproveOnce, {}), Clicked(1, 1, Deny, {}));
    TwoSteps(FIRST_ANSWERED, Begin(1, Deny, true), Deliver(1, true, {}));
    SecondDenied();
  }
}
