/** The status recorded for an approval, against the answer its server request was given. */
module ApprovalSent {
  import opened Options
  import opened Approvals
  import opened ApprovalCounter

  /** A click under way still has row `i` to decide. */
  ghost predicate Aims(c: Click, i: nat) { (c.Sending? && c.row == i) || (c.Batching? && i in c.todo) }

  /** Row `i` may still be decided: it is pending, or some click under way is aimed at it. */
  ghost predicate InPlay(w: World, i: nat)
    requires i < |w.rows|
  {
    w.rows[i].status.Pending? || exists k :: 0 <= k < |w.clicks| && Aims(w.clicks[k], i)
  }

  /** The request of the bridge's event at `p` waits to become a row: its task is known and has no row with its id yet. */
  predicate Waits(w: World, p: nat) {
    && p < |w.queue| && w.queue[p].Requested?
    && w.queue[p].task < |w.tasks| && !Known(w.rows, w.queue[p].task, w.queue[p].request)
  }

  /** The bridge's event at `p` is a request. */
  predicate Queued(w: World, p: nat) { p < |w.queue| && w.queue[p].Requested? }

  /** No row that may still be decided carries the id, and no request that waits to become one. */
  ghost predicate Idle(w: World, request: string) {
    && (forall i: nat :: i < |w.rows| && w.rows[i].request == request ==> !InPlay(w, i))
    && (forall p: nat :: Waits(w, p) ==> w.queue[p].request != request)
  }

  /** An id may come back, for the same task or another, once nothing that carries it is in play. */
  ghost predicate Admissible(w: World, step: Step) { step.Arrive? ==> Idle(w, step.request) }

  ghost predicate AllAdmissible(w: World, steps: seq<Step>) {
    steps == [] ||
    (AllAdmissible(w, steps[..|steps| - 1]) && Admissible(Run(w, steps[..|steps| - 1]), steps[|steps| - 1]))
  }

  // ---- The invariant of the books ----

  ghost predicate Holds(w: World, serial: nat) { exists q :: q in w.held && w.held[q] == serial }

  ghost predicate SerialsOk(w: World) {
    && (forall i: nat :: i < |w.rows| ==> w.rows[i].serial < w.arrivals && w.rows[i].task < |w.tasks|)
    && (forall i: nat, j: nat :: i < j < |w.rows| ==> w.rows[i].serial != w.rows[j].serial)
    && (forall q :: q in w.held ==> w.held[q] < w.arrivals)
    && (forall i: nat, q :: i < |w.rows| && q in w.held && w.held[q] == w.rows[i].serial ==> q == w.rows[i].request)
  }

  ghost predicate WaitingOk(w: World) {
    && (forall p: nat :: Queued(w, p) ==> w.queue[p].serial < w.arrivals)
    && (forall p: nat, r: nat :: p < r && Queued(w, p) && Queued(w, r) ==> w.queue[p].serial != w.queue[r].serial)
    && (forall p: nat, i: nat :: Queued(w, p) && i < |w.rows| ==> w.queue[p].serial != w.rows[i].serial)
    && (forall p: nat, q :: Queued(w, p) && q in w.held && w.held[q] == w.queue[p].serial ==> q == w.queue[p].request)
  }

  /** The row was closed by a click, or by the projection of an answer. */
  predicate Sent(c: Closing) { c.ByClick? || c.Projected? }

  /** What a row records of the action of its answer. */
  function Recorded(r: Row, action: Action): Status {
    if r.closing.Projected? then ProjectedStatus(r.kind, r.shape, action) else StatusOf(action)
  }

  ghost predicate RowOk(w: World, i: nat)
    requires i < |w.rows|
  {
    var r := w.rows[i];
    && (r.status.Pending? <==> r.closing.Open?)
    && (r.closing.TaskOver? ==> r.status.Cancelled?)
    && (Sent(r.closing) ==> !Holds(w, r.serial) && !Strayed(r))
    && (Sent(r.closing) && r.closing.answer.None? ==> forall a :: 0 <= a < |w.answers| ==> w.answers[a].serial != r.serial)
    && (Sent(r.closing) && r.closing.answer.Some? ==>
          && r.closing.answer.value < |w.answers|
          && var a := w.answers[r.closing.answer.value]; a.row == i && a.serial == r.serial && r.status == Recorded(r, a.action))
  }

  /** An answer went to the request of the row it was given for, and closed that row unless its task had ended before. */
  ghost predicate AnswerOk(w: World, a: nat)
    requires a < |w.answers|
  {
    var ans := w.answers[a];
    && ans.row < |w.rows| && ans.serial == w.rows[ans.row].serial && !Holds(w, ans.serial)
    && var c := w.rows[ans.row].closing; c.TaskOver? || (Sent(c) && c.answer == Some(a))
  }

  ghost predicate BookInv(w: World) {
    && SerialsOk(w) && WaitingOk(w)
    && (forall i: nat :: i < |w.rows| ==> RowOk(w, i))
    && (forall a: nat :: a < |w.answers| ==> AnswerOk(w, a))
    && (forall a: nat, b: nat :: a < b < |w.answers| ==> w.answers[a].serial != w.answers[b].serial)
  }

  // ---- The invariant of the aims ----

  /** Whoever decides row `i` now answers the row's own request, or none. */
  ghost predicate OwnAim(w: World, i: nat)
    requires i < |w.rows|
  {
    w.rows[i].request in w.held ==> w.held[w.rows[i].request] == w.rows[i].serial
  }

  ghost predicate AimsOk(w: World) { forall i: nat :: i < |w.rows| && InPlay(w, i) ==> OwnAim(w, i) }

  /** Rows in play have different ids. */
  ghost predicate PlaysApart(w: World) {
    forall i: nat, j: nat :: i < j < |w.rows| && InPlay(w, i) && InPlay(w, j) ==> w.rows[i].request != w.rows[j].request
  }

  /** A request that waits has an id of its own, and holds it. */
  ghost predicate WaitsApart(w: World) {
    && (forall p: nat, i: nat :: Waits(w, p) && i < |w.rows| && InPlay(w, i) ==> w.rows[i].request != w.queue[p].request)
    && (forall p: nat, r: nat :: p < r && Waits(w, p) && Waits(w, r) ==> w.queue[p].request != w.queue[r].request)
    && (forall p: nat :: Waits(w, p) && w.queue[p].request in w.held ==> w.held[w.queue[p].request] == w.queue[p].serial)
  }

  /** An answer on its way to the bridge meets no pending row with its id, now or when the bridge gets to it. */
  ghost predicate AnswersAhead(w: World) {
    forall p: nat :: p < |w.queue| && w.queue[p].Resolved? ==>
      && (forall i: nat :: i < |w.rows| && w.rows[i].status.Pending? ==> w.rows[i].request != w.queue[p].request)
      && (forall r: nat :: r < p && Waits(w, r) ==> w.queue[r].request != w.queue[p].request)
  }

  ghost predicate AimInv(w: World) { AimsOk(w) && PlaysApart(w) && WaitsApart(w) && AnswersAhead(w) }

  // ---- The ledger side ----

  /** A step after which fewer requests are held and nothing else in the books has changed but one row's text. */
  lemma FewerHeld(w: World, w': World)
    requires BookInv(w) && w'.arrivals == w.arrivals && w'.answers == w.answers && w'.queue == w.queue
    requires |w'.tasks| == |w.tasks| && |w'.rows| == |w.rows|
    requires forall i: nat :: i < |w.rows| ==> w'.rows[i] == w.rows[i].(resolution := w'.rows[i].resolution)
    requires forall q :: q in w'.held ==> q in w.held && w'.held[q] == w.held[q]
    ensures BookInv(w')
  {
    hide ReadsApproved;
    forall i: nat | i < |w'.rows| ensures RowOk(w', i) { assert RowOk(w, i); }
    forall a: nat | a < |w'.answers| ensures AnswerOk(w', a) { assert AnswerOk(w, a); }
    assert WaitingOk(w');
  }

  lemma CloseKeepsBook(w: World, id: nat)
    requires BookInv(w)
    ensures BookInv(ResolveRow(w, id, Cancelled, "task_terminal", TaskOver))
  {
    hide ReadsApproved;
    var w' := ResolveRow(w, id, Cancelled, "task_terminal", TaskOver);
    forall i: nat | i < |w'.rows| ensures RowOk(w', i) { assert RowOk(w, i); }
    forall a: nat | a < |w'.answers| ensures AnswerOk(w', a) { assert AnswerOk(w, a) && RowOk(w, w.answers[a].row); }
  }

  lemma HoldKeepsBook(w: World, task: nat, request: string, kind: Kind, shape: Shape)
    requires BookInv(w)
    ensures BookInv(Hold(w, task, request, kind, shape))
  {
    hide ReadsApproved;
    var w' := Hold(w, task, request, kind, shape);
    assert forall q :: q in w'.held ==> w'.held[q] == w.arrivals || (q in w.held && w'.held[q] == w.held[q]);
    forall i: nat | i < |w'.rows| ensures RowOk(w', i) { assert RowOk(w, i); }
    forall a: nat | a < |w'.answers| ensures AnswerOk(w', a) { assert AnswerOk(w, a); }
    assert forall p: nat :: Queued(w', p) ==>
             (Queued(w, p) && w'.queue[p] == w.queue[p]) || (p == |w.queue| && w'.queue[p].serial == w.arrivals);
  }

  lemma InsertKeepsBook(w: World, n: Notice, counted: bool)
    requires BookInv(w) && n.Requested? && n.task < |w.tasks| && n.serial < w.arrivals
    requires forall i: nat :: i < |w.rows| ==> w.rows[i].serial != n.serial
    requires forall p: nat :: Queued(w, p) ==> w.queue[p].serial != n.serial
    requires forall q :: q in w.held && w.held[q] == n.serial ==> q == n.request
    ensures BookInv(InsertRow(w, n, counted))
  {
    hide ReadsApproved;
    var w' := InsertRow(w, n, counted);
    forall i: nat | i < |w'.rows| ensures RowOk(w', i) {
      if i < |w.rows| { assert RowOk(w, i); }
    }
    forall a: nat | a < |w'.answers| ensures AnswerOk(w', a) { assert AnswerOk(w, a); }
    assert forall p: nat :: Queued(w', p) ==> Queued(w, p);
  }

  /** An answer that the bridge takes finds nothing to project onto. */
  lemma AnswerPasses(w: World, counted: bool, managed: bool)
    requires AnswersAhead(w) && w.queue != [] && w.queue[0].Resolved?
    ensures TakeNotice(w, counted, managed) == w.(queue := w.queue[1..])
  {
    hide ProjectRows;
    var t, n := w.(queue := w.queue[1..]), w.queue[0];
    var r := LatestRow(t.rows, n.request);
    if r.Some? {
      assert ProjectRows(t.rows, {t.rows[r.value].task}, n.request, Verdict(n.approved), |t.rows|, None) == t.rows;
    }
  }

  lemma PopKeepsBook(w: World)
    requires BookInv(w) && w.queue != []
    ensures BookInv(w.(queue := w.queue[1..]))
  {
    hide ReadsApproved;
    var w' := w.(queue := w.queue[1..]);
    assert forall p: nat :: Queued(w', p) ==> Queued(w, p + 1) && w'.queue[p] == w.queue[p + 1];
    forall i: nat | i < |w'.rows| ensures RowOk(w', i) { assert RowOk(w, i); }
    forall a: nat | a < |w'.answers| ensures AnswerOk(w', a) { assert AnswerOk(w, a); }
  }

  /** What the head of the queue brings to a row of its own. */
  lemma HeadIsNew(w: World)
    requires BookInv(w) && w.queue != [] && w.queue[0].Requested?
    ensures var n, t := w.queue[0], w.(queue := w.queue[1..]);
            && n.serial < w.arrivals
            && (forall i: nat :: i < |t.rows| ==> t.rows[i].serial != n.serial)
            && (forall p: nat :: Queued(t, p) ==> t.queue[p].serial != n.serial)
            && (forall q :: q in t.held && t.held[q] == n.serial ==> q == n.request)
  {
    var t := w.(queue := w.queue[1..]);
    assert Queued(w, 0);
    forall p: nat | Queued(t, p) ensures t.queue[p].serial != w.queue[0].serial {
      assert Queued(w, p + 1) && t.queue[p] == w.queue[p + 1];
    }
  }

  /** The decided row, when no other pending row shares its id: a projection for its task comes before the click's own record. */
  function DecidedRow(w: World, id: nat, action: Action, watch: set<nat>): Row
    requires id < |w.rows|
  {
    var r := w.rows[id];
    var answer := if r.request in w.held then Some(|w.answers|) else None;
    if !r.status.Pending? then r
    else if r.task in watch
    then r.(status := ProjectedStatus(r.kind, r.shape, action), resolution := "", closing := Projected(true, answer))
    else r.(status := StatusOf(action), resolution := NameOf(action), closing := ByClick(answer))
  }

  lemma DecideAlone(w: World, id: nat, action: Action, watch: set<nat>)
    requires id < |w.rows|
    requires forall j: nat :: j < |w.rows| && j != id && w.rows[j].status.Pending? ==> w.rows[j].request != w.rows[id].request
    ensures var d := Decide(w, id, action, watch);
            && d.rows == w.rows[id := DecidedRow(w, id, action, watch)] && d.arrivals == w.arrivals && d.clicks == w.clicks && d.tasks == w.tasks
            && d.queue == w.queue + [Resolved(w.rows[id].request, ReadsApproved(w.rows[id].kind, w.rows[id].shape, action))]
            && d.held == w.held - {w.rows[id].request}
            && d.answers == w.answers + if w.rows[id].request in w.held then [Answer(id, w.held[w.rows[id].request], action)] else []
  {
    hide ProjectRows, ReadsApproved;
    var r := w.rows[id];
    var answer := if r.request in w.held then Some(|w.answers|) else None;
    var s := Send(w, id, action, watch);
    assert s.rows == w.rows[id := s.rows[id]];
    if r.request !in w.held { assert w.held - {r.request} == w.held; }
  }

  /** A decision for a request that is not held any more. */
  lemma UnheldDecide(w: World, d: World, id: nat, action: Action, watch: set<nat>, n: Notice)
    requires BookInv(w) && id < |w.rows| && w.rows[id].request !in w.held && n.Resolved?
    requires d.rows == w.rows[id := DecidedRow(w, id, action, watch)] && d.arrivals == w.arrivals && d.tasks == w.tasks
    requires d.queue == w.queue + [n] && d.held == w.held && d.answers == w.answers
    ensures BookInv(d)
  {
    hide ReadsApproved;
    assert !Holds(w, w.rows[id].serial);
    assert forall p: nat :: Queued(d, p) ==> Queued(w, p) && d.queue[p] == w.queue[p];
    forall i: nat | i < |d.rows| ensures RowOk(d, i) {
      assert RowOk(w, i);
      if i == id && w.rows[i].status.Pending? {
        forall a | 0 <= a < |w.answers| ensures w.answers[a].serial != w.rows[id].serial { assert AnswerOk(w, a); }
      }
    }
    forall a: nat | a < |d.answers| ensures AnswerOk(d, a) { assert AnswerOk(w, a) && RowOk(w, w.answers[a].row); }
  }

  /** A decision that reaches the row's own request. */
  lemma HeldDecide(w: World, d: World, id: nat, action: Action, watch: set<nat>, n: Notice)
    requires BookInv(w) && id < |w.rows| && w.rows[id].request in w.held && OwnAim(w, id) && n.Resolved?
    requires d.rows == w.rows[id := DecidedRow(w, id, action, watch)] && d.arrivals == w.arrivals && d.tasks == w.tasks
    requires d.queue == w.queue + [n] && d.held == w.held - {w.rows[id].request}
    requires d.answers == w.answers + [Answer(id, w.rows[id].serial, action)]
    ensures BookInv(d)
  {
    hide ReadsApproved, WaitingOk;
    var serial := w.rows[id].serial;
    assert Holds(w, serial) && RowOk(w, id);
    assert !Holds(d, serial);
    assert WaitingOk(d) by { HeldWaiting(w, d, id, n); }
    forall a: nat | a < |w.answers| ensures w.answers[a].serial != serial { assert AnswerOk(w, a); }
    HeldRows(w, d, id, action, watch);
    forall a: nat | a < |d.answers| ensures AnswerOk(d, a) {
      if a < |w.answers| { assert AnswerOk(w, a) && RowOk(w, w.answers[a].row); }
    }
  }

  lemma HeldRows(w: World, d: World, id: nat, action: Action, watch: set<nat>)
    requires BookInv(w) && id < |w.rows| && w.rows[id].request in w.held && w.held[w.rows[id].request] == w.rows[id].serial
    requires d.rows == w.rows[id := DecidedRow(w, id, action, watch)] && d.held == w.held - {w.rows[id].request}
    requires d.answers == w.answers + [Answer(id, w.rows[id].serial, action)] && !Holds(d, w.rows[id].serial)
    ensures forall i: nat :: i < |d.rows| ==> RowOk(d, i)
  {
    hide ReadsApproved, WaitingOk;
    assert Holds(w, w.rows[id].serial);
    forall n: nat | !Holds(w, n) ensures !Holds(d, n) {}
    forall i: nat | i < |d.rows| ensures RowOk(d, i) { assert RowOk(w, i); }
  }

  lemma HeldWaiting(w: World, d: World, id: nat, n: Notice)
    requires WaitingOk(w) && id < |w.rows| && n.Resolved? && d.arrivals == w.arrivals && d.queue == w.queue + [n]
    requires |d.rows| == |w.rows| && forall i: nat :: i < |w.rows| ==> d.rows[i].serial == w.rows[i].serial
    requires d.held == w.held - {w.rows[id].request}
    ensures WaitingOk(d)
  {
    assert forall p: nat :: Queued(d, p) ==> Queued(w, p) && d.queue[p] == w.queue[p];
  }

  /** Books that differ only in clicks, counters and task statuses carry the same invariant. */
  lemma BookCarries(w: World, w': World)
    requires SameBook(w, w') && |w.tasks| == |w'.tasks| && BookInv(w)
    ensures BookInv(w')
  {
    hide ReadsApproved;
    forall i: nat | i < |w'.rows| ensures RowOk(w', i) { assert RowOk(w, i); }
    forall a: nat | a < |w'.answers| ensures AnswerOk(w', a) { assert AnswerOk(w, a); }
    assert WaitingOk(w');
  }

  lemma BookedTasks(w: World, step: Step)
    ensures |Next(w, step).tasks| == |w.tasks| == |Booked(w, step).tasks|
  {
    hide Next, Known, ClickMoves;
    NextMoves(w, step);
    TasksStay(w, step);
  }

  lemma TasksStay(w: World, step: Step)
    requires ClickMoves(w, step, Next(w, step))
    ensures |Next(w, step).tasks| == |w.tasks| == |Booked(w, step).tasks|
  {
    hide Next, Known, ProjectRows;
  }

  lemma DecideKeepsBook(w: World, id: nat, action: Action, watch: set<nat>)
    requires BookInv(w) && AimInv(w) && id < |w.rows| && InPlay(w, id)
    ensures BookInv(Decide(w, id, action, watch))
  {
    hide BookInv, Decide, ReadsApproved;
    PlaysAlone(w, id);
    DecideAlone(w, id, action, watch);
    var d := Decide(w, id, action, watch);
    var n := d.queue[|w.queue|];
    if w.rows[id].request in w.held {
      HeldDecide(w, d, id, action, watch, n);
    } else {
      assert w.held - {w.rows[id].request} == w.held;
      UnheldDecide(w, d, id, action, watch, n);
    }
  }

  /** No other pending row shares the id of a row in play. */
  lemma PlaysAlone(w: World, id: nat)
    requires AimInv(w) && id < |w.rows| && InPlay(w, id)
    ensures forall j: nat :: j < |w.rows| && j != id && w.rows[j].status.Pending? ==> w.rows[j].request != w.rows[id].request
    ensures OwnAim(w, id)
  {
    forall j: nat | j < |w.rows| && j != id && w.rows[j].status.Pending? ensures w.rows[j].request != w.rows[id].request {
      assert InPlay(w, j);
    }
  }

  lemma NoteKeepsBook(w: World, id: nat)
    requires BookInv(w)
    ensures BookInv(NoteError(w, id))
  {
    hide BookInv;
    FewerHeld(w, NoteError(w, id));
  }

  lemma NoticeKeepsBook(w: World, counted: bool, managed: bool)
    requires BookInv(w) && AimInv(w)
    ensures BookInv(TakeNotice(w, counted, managed))
  {
    hide BookInv, ProjectLatest, InsertRow, Known;
    if w.queue != [] {
      PopKeepsBook(w);
      if w.queue[0].Requested? {
        HeadIsNew(w);
        if w.queue[0].task < |w.tasks| { InsertKeepsBook(w.(queue := w.queue[1..]), w.queue[0], counted); }
      } else {
        AnswerPasses(w, counted, managed);
      }
    }
  }

  lemma NextKeepsBook(w: World, step: Step)
    requires BookInv(w) && AimInv(w)
    ensures BookInv(Next(w, step))
  {
    hide BookInv, AimInv, Next, Decide, NoteError, ResolveRow, TakeNotice, Hold, SameBook;
    NextBooks(w, step);
    BookedTasks(w, step);
    BookCarriesBack(Booked(w, step), Next(w, step));
    match step
    case Arrive(task, request, kind, shape) => HoldKeepsBook(w, task, request, kind, shape);
    case Consume(counted, managed) => NoticeKeepsBook(w, counted, managed);
    case Forget(request) => FewerHeld(w, w.(held := w.held - {request}));
    case Disconnect => FewerHeld(w, w.(held := map[]));
    case Begin(id, _, _) => CloseKeepsBook(w, id);
    case Deliver(k, _, watch) =>
      if k < |w.clicks| && w.clicks[k].Sending? && w.clicks[k].row < |w.rows| {
        assert Aims(w.clicks[k], w.clicks[k].row);
        assert InPlay(w, w.clicks[k].row);
        DecideKeepsBook(w, w.clicks[k].row, w.clicks[k].action, watch);
        NoteKeepsBook(w, w.clicks[k].row);
      }
    case BatchDeliver(k, _, watch) =>
      if k < |w.clicks| && w.clicks[k].Batching? && w.clicks[k].todo != [] && w.clicks[k].todo[0] < |w.rows| {
        assert Aims(w.clicks[k], w.clicks[k].todo[0]);
        assert InPlay(w, w.clicks[k].todo[0]);
        DecideKeepsBook(w, w.clicks[k].todo[0], ApproveSession, watch);
        NoteKeepsBook(w, w.clicks[k].todo[0]);
      }
    case _ =>
  }

  lemma BookCarriesBack(b: World, w': World)
    requires SameBook(w', b) && |w'.tasks| == |b.tasks|
    ensures BookInv(b) ==> BookInv(w')
  {
    hide BookInv;
    if BookInv(b) { BookCarries(b, w'); }
  }

  // ---- The click side ----

  /** No step brings an old row back into play. */
  lemma PlayShrinks(w: World, step: Step, i: nat)
    requires i < |w.rows| && RowsKept(w.rows, Next(w, step).rows) && InPlay(Next(w, step), i)
    ensures InPlay(w, i)
  {
    hide Next, BatchIds;
    var w' := Next(w, step);
    NextMoves(w, step);
    if !w.rows[i].status.Pending? {
      var k :| 0 <= k < |w'.clicks| && Aims(w'.clicks[k], i);
      var c := w'.clicks[k];
      if c.Batching? { BatchIdsAreRows(w'.rows, c.task, c.row); }
      assert k < |w.clicks| && Aims(w.clicks[k], i);
    }
  }

  /** What a step may do to the requests held under ids: drop them, or put a new arrival in place. */
  lemma HeldMoves(w: World, step: Step, q: string)
    requires q in Booked(w, step).held
    ensures (q in w.held && Booked(w, step).held[q] == w.held[q])
            || (step.Arrive? && step.request == q && Booked(w, step).held[q] == w.arrivals)
  {
    hide Known, Terminal, ProjectRows, ReadsApproved, LatestRow;
  }

  /** The row a step decides, if its send works. */
  function SentRow(w: World, step: Step): Option<nat> {
    match step
    case Deliver(k, true, _) =>
      if k < |w.clicks| && w.clicks[k].Sending? && w.clicks[k].row < |w.rows| && w.rows[w.clicks[k].row].task < |w.tasks|
      then Some(w.clicks[k].row) else None
    case BatchDeliver(k, true, _) =>
      if k < |w.clicks| && w.clicks[k].Batching? && w.clicks[k].todo != [] && w.clicks[k].todo[0] < |w.rows|
      then Some(w.clicks[k].todo[0]) else None
    case _ => None
  }

  lemma SentRowPlays(w: World, step: Step)
    requires SentRow(w, step).Some?
    ensures SentRow(w, step).value < |w.rows| && InPlay(w, SentRow(w, step).value)
  {
    if step.Deliver? { assert Aims(w.clicks[step.click], w.clicks[step.click].row); }
    else { assert Aims(w.clicks[step.click], w.clicks[step.click].todo[0]); }
  }

  /** How many events of the bridge's queue a step takes. */
  function Taken(w: World, step: Step): nat { if step.Consume? && w.queue != [] then 1 else 0 }

  /** The event a step puts at the end of the bridge's queue. */
  ghost predicate Posts(w: World, step: Step, b: World, n: Notice) {
    || (step.Arrive? && n == Requested(w.arrivals, step.task, step.request, step.kind, step.shape))
    || (SentRow(w, step).Some? && n.Resolved? && SentRow(w, step).value < |w.rows| && SentRow(w, step).value < |b.rows|
        && n.request == w.rows[SentRow(w, step).value].request && !b.rows[SentRow(w, step).value].status.Pending?)
  }

  /** Every event of the new queue was there before, or is the one the step posts. */
  lemma QueueMoves(w: World, step: Step, p: nat)
    requires p < |Booked(w, step).queue|
    ensures var b := Booked(w, step);
            if p + Taken(w, step) < |w.queue| then b.queue[p] == w.queue[p + Taken(w, step)]
            else p == |w.queue| && Taken(w, step) == 0 && Posts(w, step, b, b.queue[p])
  {
    hide Known, Terminal, ProjectRows, ReadsApproved, LatestRow, Decide, ResolveRow, NoteError;
    if SentRow(w, step).Some? {
      var id := SentRow(w, step).value;
      DecidePosts(w, id, if step.Deliver? then w.clicks[step.click].action else ApproveSession, step.watch);
    } else {
      BookedQueue(w, step);
    }
  }

  lemma DecidePosts(w: World, id: nat, action: Action, watch: set<nat>)
    requires id < |w.rows|
    ensures var d := Decide(w, id, action, watch);
            |d.rows| == |w.rows| && !d.rows[id].status.Pending?
            && |d.queue| == |w.queue| + 1 && d.queue[..|w.queue|] == w.queue
            && d.queue[|w.queue|].Resolved? && d.queue[|w.queue|].request == w.rows[id].request
  {
    hide ProjectRows, ReadsApproved;
  }

  lemma BookedQueue(w: World, step: Step)
    requires SentRow(w, step).None?
    ensures var b := Booked(w, step);
            || b.queue == w.queue
            || (step.Arrive? && b.queue == w.queue + [Requested(w.arrivals, step.task, step.request, step.kind, step.shape)])
            || (step.Consume? && w.queue != [] && b.queue == w.queue[1..])
  {
    hide Known, Terminal, ProjectRows, ReadsApproved, LatestRow;
  }

  lemma NewRow(w: World, step: Step, i: nat)
    requires |w.rows| <= i < |Booked(w, step).rows|
    ensures step.Consume? && Waits(w, 0) && Booked(w, step).held == w.held && i == |w.rows| && |Booked(w, step).rows| == |w.rows| + 1
    ensures Booked(w, step).rows[i].request == w.queue[0].request && Booked(w, step).rows[i].serial == w.queue[0].serial
    ensures Booked(w, step).queue == w.queue[1..]
  {
    hide Known, Terminal, ProjectRows, ReadsApproved, LatestRow;
  }

  /** The facts about a step that the lemmas below share. */
  ghost predicate Moved(w: World, step: Step, w': World) {
    && w' == Next(w, step) && SameBook(w', Booked(w, step)) && RowsKept(w.rows, w'.rows)
  }

  lemma StepMoves(w: World, step: Step)
    ensures Moved(w, step, Next(w, step))
  {
    hide Next, Booked, SameBook;
    NextBooks(w, step);
    BookedKeepsRows(w, step);
    RowsOfBook(w, step);
  }

  lemma RowsOfBook(w: World, step: Step)
    requires SameBook(Next(w, step), Booked(w, step)) && RowsKept(w.rows, Booked(w, step).rows)
    ensures RowsKept(w.rows, Next(w, step).rows)
  {
    hide Next, Booked, RowsKept;
  }

  lemma KeepsAims(w: World, step: Step, w': World)
    requires AimInv(w) && Admissible(w, step) && Moved(w, step, w')
    ensures AimsOk(w')
  {
    hide Next, Booked, InPlay, PlaysApart, AnswersAhead;
    forall i: nat | i < |w'.rows| && InPlay(w', i) ensures OwnAim(w', i) {
      if i < |w.rows| {
        PlayShrinks(w, step, i);
        if w.rows[i].request in w'.held { HeldMoves(w, step, w.rows[i].request); }
      } else {
        NewRow(w, step, i);
      }
    }
  }

  lemma KeepsPlays(w: World, step: Step, w': World)
    requires AimInv(w) && Moved(w, step, w')
    ensures PlaysApart(w')
  {
    hide Next, Booked, InPlay, AimsOk, AnswersAhead;
    forall i: nat, j: nat | i < j < |w'.rows| && InPlay(w', i) && InPlay(w', j) ensures w'.rows[i].request != w'.rows[j].request {
      if i < |w.rows| { PlayShrinks(w, step, i); } else { NewRow(w, step, i); }
      if j < |w.rows| { PlayShrinks(w, step, j); } else { NewRow(w, step, j); }
    }
  }

  /** An event of the new queue, seen from the world after the step. */
  lemma NoticeFrom(w: World, step: Step, w': World, p: nat)
    requires Moved(w, step, w') && p < |w'.queue|
    ensures if p + Taken(w, step) < |w.queue| then w'.queue[p] == w.queue[p + Taken(w, step)]
            else p == |w.queue| && Taken(w, step) == 0 && Posts(w, step, w', w'.queue[p])
  {
    hide Next, Booked, RowsKept, InPlay;
    QueueMoves(w, step, p);
  }

  /** A request that still waits waited before the step, unless the step posts it. */
  lemma WaitsBefore(w: World, step: Step, w': World, p: nat)
    requires Moved(w, step, w') && Waits(w', p)
    ensures p + Taken(w, step) < |w.queue| ==> Waits(w, p + Taken(w, step)) && w'.queue[p] == w.queue[p + Taken(w, step)]
    ensures p + Taken(w, step) >= |w.queue| ==> p == |w.queue| && Posts(w, step, w', w'.queue[p])
  {
    hide Next, Booked, Posts;
    NoticeFrom(w, step, w', p);
    BookedTasks(w, step);
    KnownStays(w.rows, w'.rows, w'.queue[p].task, w'.queue[p].request);
  }

  lemma KnownStays(rows: seq<Row>, next: seq<Row>, task: nat, request: string)
    requires RowsKept(rows, next)
    ensures Known(rows, task, request) ==> Known(next, task, request)
  {
    if i :| 0 <= i < |rows| && rows[i].task == task && rows[i].request == request {
      assert next[i].task == task && next[i].request == request;
    }
  }

  lemma KeepsWaits(w: World, step: Step, w': World)
    requires AimInv(w) && Admissible(w, step) && Moved(w, step, w')
    ensures WaitsApart(w')
  {
    hide Next, Booked, InPlay, AimsOk, PlaysApart, AnswersAhead, Moved;
    forall p: nat, i: nat | Waits(w', p) && i < |w'.rows| && InPlay(w', i) ensures w'.rows[i].request != w'.queue[p].request {
      NoticeFrom(w, step, w', p);
      WaitsAndPlays(w, step, w', p, i);
    }
    forall p: nat, r: nat | p < r && Waits(w', p) && Waits(w', r) ensures w'.queue[p].request != w'.queue[r].request {
      NoticeFrom(w, step, w', p);
      NoticeFrom(w, step, w', r);
      WaitsBefore(w, step, w', p);
      WaitsBefore(w, step, w', r);
    }
    forall p: nat | Waits(w', p) && w'.queue[p].request in w'.held ensures w'.held[w'.queue[p].request] == w'.queue[p].serial {
      NoticeFrom(w, step, w', p);
      WaitsBefore(w, step, w', p);
      HeldAfter(w, step, w', w'.queue[p].request);
    }
  }

  lemma HeldAfter(w: World, step: Step, w': World, q: string)
    requires Moved(w, step, w') && q in w'.held
    ensures (q in w.held && w'.held[q] == w.held[q]) || (step.Arrive? && step.request == q && w'.held[q] == w.arrivals)
    ensures step.Arrive? && step.request == q ==> w'.held[q] == w.arrivals
  {
    hide Next, RowsKept;
    HeldMoves(w, step, q);
  }

  lemma WaitsAndPlays(w: World, step: Step, w': World, p: nat, i: nat)
    requires AimInv(w) && Admissible(w, step) && Moved(w, step, w') && Waits(w', p) && i < |w'.rows| && InPlay(w', i)
    requires if p + Taken(w, step) < |w.queue| then w'.queue[p] == w.queue[p + Taken(w, step)]
             else p == |w.queue| && Taken(w, step) == 0 && Posts(w, step, w', w'.queue[p])
    ensures w'.rows[i].request != w'.queue[p].request
  {
    hide Next, Booked, InPlay, AimsOk, PlaysApart, AnswersAhead, RowsKept;
    WaitsBefore(w, step, w', p);
    if i < |w.rows| {
      OldPlay(w, step, w', i);
    } else {
      NewRow(w, step, i);
      assert Waits(w, 0);
    }
  }

  lemma OldPlay(w: World, step: Step, w': World, i: nat)
    requires Moved(w, step, w') && i < |w.rows| && i < |w'.rows| && InPlay(w', i)
    ensures InPlay(w, i) && w'.rows[i].request == w.rows[i].request
  {
    hide Next, Booked, InPlay;
    PlayShrinks(w, step, i);
  }

  lemma KeepsAnswers(w: World, step: Step, w': World)
    requires AimInv(w) && Moved(w, step, w')
    ensures AnswersAhead(w')
  {
    hide Next, Booked, InPlay, AimsOk, PlaysApart, WaitsApart, Moved, Posts;
    forall p: nat | p < |w'.queue| && w'.queue[p].Resolved?
      ensures forall i: nat :: i < |w'.rows| && w'.rows[i].status.Pending? ==> w'.rows[i].request != w'.queue[p].request
      ensures forall r: nat :: r < p && Waits(w', r) ==> w'.queue[r].request != w'.queue[p].request
    {
      NoticeFrom(w, step, w', p);
      if p + Taken(w, step) < |w.queue| {
        OldAnswerAhead(w, step, w', p);
      } else {
        NewAnswerAhead(w, step, w', p);
      }
    }
  }

  lemma OldAnswerAhead(w: World, step: Step, w': World, p: nat)
    requires AnswersAhead(w) && Moved(w, step, w') && p < |w'.queue| && w'.queue[p].Resolved?
    requires p + Taken(w, step) < |w.queue| && w'.queue[p] == w.queue[p + Taken(w, step)]
    ensures forall i: nat :: i < |w'.rows| && w'.rows[i].status.Pending? ==> w'.rows[i].request != w'.queue[p].request
    ensures forall r: nat :: r < p && Waits(w', r) ==> w'.queue[r].request != w'.queue[p].request
  {
    hide Next, Booked;
    forall i: nat | i < |w'.rows| && w'.rows[i].status.Pending? ensures w'.rows[i].request != w'.queue[p].request {
      if i >= |w.rows| { NewRow(w, step, i); }
    }
    forall r: nat | r < p && Waits(w', r) ensures w'.queue[r].request != w'.queue[p].request {
      NoticeFrom(w, step, w', r);
      WaitsBefore(w, step, w', r);
    }
  }

  lemma NewAnswerAhead(w: World, step: Step, w': World, p: nat)
    requires AimInv(w) && Moved(w, step, w') && p == |w.queue| && p < |w'.queue| && w'.queue[p].Resolved? && Taken(w, step) == 0
    requires Posts(w, step, w', w'.queue[p])
    ensures forall i: nat :: i < |w'.rows| && w'.rows[i].status.Pending? ==> w'.rows[i].request != w'.queue[p].request
    ensures forall r: nat :: r < p && Waits(w', r) ==> w'.queue[r].request != w'.queue[p].request
  {
    hide Next, Booked, InPlay, AimsOk, AnswersAhead;
    var id := SentRow(w, step).value;
    SentRowPlays(w, step);
    forall i: nat | i < |w'.rows| && w'.rows[i].status.Pending? ensures w'.rows[i].request != w'.queue[p].request {
      if i >= |w.rows| { NewRow(w, step, i); }
      PendingPlays(w', i);
      OldPlay(w, step, w', i);
    }
    forall r: nat | r < p && Waits(w', r) ensures w'.queue[r].request != w'.queue[p].request {
      NoticeFrom(w, step, w', r);
      WaitsBefore(w, step, w', r);
    }
  }

  lemma PendingPlays(w: World, i: nat)
    requires i < |w.rows| && w.rows[i].status.Pending?
    ensures InPlay(w, i)
  {
  }

  lemma NextKeepsAim(w: World, step: Step)
    requires AimInv(w) && Admissible(w, step)
    ensures AimInv(Next(w, step))
  {
    hide Next, Moved, AimsOk, PlaysApart, WaitsApart, AnswersAhead, Idle;
    StepMoves(w, step);
    KeepsAims(w, step, Next(w, step));
    KeepsPlays(w, step, Next(w, step));
    KeepsWaits(w, step, Next(w, step));
    KeepsAnswers(w, step, Next(w, step));
  }

  lemma {:induction false} RunKeepsSent(tasks: seq<Task>, steps: seq<Step>)
    requires AllAdmissible(Initial(tasks), steps)
    ensures BookInv(Run(Initial(tasks), steps)) && AimInv(Run(Initial(tasks), steps)) && ClicksOk(Run(Initial(tasks), steps))
  {
    hide Next, BookInv, AimInv, ClicksOk;
    if steps == [] {
      NothingYet(tasks);
    } else {
      var before := Run(Initial(tasks), steps[..|steps| - 1]);
      RunKeepsSent(tasks, steps[..|steps| - 1]);
      NextKeepsBook(before, steps[|steps| - 1]);
      NextKeepsAim(before, steps[|steps| - 1]);
      NextKeepsClicks(before, steps[|steps| - 1]);
    }
  }

  lemma NothingYet(tasks: seq<Task>)
    ensures BookInv(Initial(tasks)) && AimInv(Initial(tasks)) && ClicksOk(Initial(tasks))
  {
  }

  // ---- What was recorded and what was sent ----

  /** A projection records what the click would have recorded, for every action on a row of this kind and shape but these. */
  predicate Agrees(kind: Kind, shape: Shape, action: Action) {
    match action
    case ApproveOnce => shape.legacy || !kind.Permissions? || shape.asks
    case ApproveSession => if shape.legacy then !shape.sessions else !kind.Permissions? || shape.asks
    case Deny => true
    case Cancel => false
  }

  lemma ProjectionAgrees(kind: Kind, shape: Shape, action: Action)
    ensures ProjectedStatus(kind, shape, action) == StatusOf(action) <==> Agrees(kind, shape, action)
  {
  }

  /**
   However clicks overlap, and however often ids come back once they are idle: every answer goes to the request of the
   row it was given for, no request is answered twice, and the recorded status is the one the answer carries, except
   exactly in two cases: the row had been closed because its task was over and the answer was no cancellation, or an open
   prompt's projection recorded the answer first and reads another status off it.
   */
  lemma RecordedIsSent(tasks: seq<Task>, steps: seq<Step>, a: nat)
    requires AllAdmissible(Initial(tasks), steps) && a < |Run(Initial(tasks), steps).answers|
    ensures var w := Run(Initial(tasks), steps);
            var ans := w.answers[a];
            && ans.row < |w.rows| && w.rows[ans.row].serial == ans.serial
            && var r := w.rows[ans.row];
               && (r.status == StatusOf(ans.action) <==>
                     && (r.closing.TaskOver? ==> ans.action.Cancel?)
                     && (r.closing.Projected? ==> Agrees(r.kind, r.shape, ans.action)))
               && (forall b: nat :: b < |w.answers| && w.answers[b].serial == ans.serial ==> b == a)
  {
    hide Run, AllAdmissible, ReadsApproved, Agrees;
    RunKeepsSent(tasks, steps);
    var w := Run(Initial(tasks), steps);
    assert AnswerOk(w, a) && RowOk(w, w.answers[a].row);
    ProjectionAgrees(w.rows[w.answers[a].row].kind, w.rows[w.answers[a].row].shape, w.answers[a].action);
  }

  /**
   From the row's side: a row closed by a click or by a projection has an answer exactly if its own request was still
   held, carries the status recorded for that answer, and its request is not held any more.
   */
  lemma RowTellsItsAnswer(tasks: seq<Task>, steps: seq<Step>, i: nat)
    requires AllAdmissible(Initial(tasks), steps) && i < |Run(Initial(tasks), steps).rows|
    requires Sent(Run(Initial(tasks), steps).rows[i].closing)
    ensures var w := Run(Initial(tasks), steps);
            var r := w.rows[i];
            && !Holds(w, r.serial) && !Strayed(r)
            && (r.closing.answer.Some? <==> exists a: nat :: a < |w.answers| && w.answers[a].serial == r.serial)
            && (forall a: nat :: a < |w.answers| && w.answers[a].serial == r.serial ==>
                  r.closing.answer == Some(a) && w.answers[a].row == i && r.status == Recorded(r, w.answers[a].action))
  {
    hide Run, AllAdmissible, ReadsApproved;
    RunKeepsSent(tasks, steps);
    var w := Run(Initial(tasks), steps);
    assert RowOk(w, i);
    var r := w.rows[i];
    if r.closing.answer.Some? { assert w.answers[r.closing.answer.value].serial == r.serial; }
    forall a: nat | a < |w.answers| && w.answers[a].serial == r.serial ensures r.closing.answer == Some(a) {
      assert AnswerOk(w, a);
    }
  }

  /** When a projection comes first: the row is pending and a prompt is open for its task as the answer is sent. */
  lemma ProjectedExactly(tasks: seq<Task>, steps: seq<Step>, step: Step, id: nat)
    requires AllAdmissible(Initial(tasks), steps) && SentRow(Run(Initial(tasks), steps), step) == Some(id)
    ensures var w := Run(Initial(tasks), steps);
            && id < |w.rows| && id < |Next(w, step).rows|
            && (w.rows[id].status.Pending? ==>
                  (Next(w, step).rows[id].closing.Projected? <==> w.rows[id].task in step.watch)
                  && (Next(w, step).rows[id].closing.ByClick? <==> w.rows[id].task !in step.watch))
            && (!w.rows[id].status.Pending? ==> Next(w, step).rows[id] == w.rows[id])
  {
    hide Run, AllAdmissible, ReadsApproved, Next, BookInv, AimInv, Decide;
    RunKeepsSent(tasks, steps);
    var w := Run(Initial(tasks), steps);
    SentRowPlays(w, step);
    PlaysAlone(w, id);
    DecideAlone(w, id, if step.Deliver? then w.clicks[step.click].action else ApproveSession, step.watch);
    NextBooks(w, step);
  }

  // ---- Idle ids are necessary ----

  /** Some decision was handed to a request other than the one its row was created for. */
  ghost predicate Misled(w: World) {
    exists a: nat :: a < |w.answers| && w.answers[a].row < |w.rows| && w.answers[a].serial != w.rows[w.answers[a].row].serial
  }

  lemma DecideMisleads(w: World, w': World, id: nat, action: Action, watch: set<nat>)
    requires id < |w.rows| && SameBook(w', Decide(w, id, action, watch))
    requires w.rows[id].request in w.held && w.held[w.rows[id].request] != w.rows[id].serial
    ensures Misled(w')
  {
    hide ReadsApproved, ProjectRows;
    assert w'.answers[|w.answers|].serial != w'.rows[id].serial;
  }

  /** A batch that still has row `i` on its list reaches it, whatever happens to the others. */
  lemma {:induction false} BatchMisleads(w: World, k: nat, m: nat) returns (steps: seq<Step>)
    requires k < |w.clicks| && w.clicks[k].Batching? && m < |w.clicks[k].todo|
    requires forall j :: 0 <= j <= m ==> w.clicks[k].todo[j] < |w.rows|
    requires var i := w.clicks[k].todo[m]; w.rows[i].request in w.held && w.held[w.rows[i].request] != w.rows[i].serial
    ensures forall j :: 0 <= j < |steps| ==> steps[j].BatchDeliver?
    ensures Misled(Run(w, steps))
    decreases m
  {
    hide Run, Misled, Decide;
    var c := w.clicks[k];
    if m == 0 {
      steps := [BatchDeliver(k, true, {})];
      OneStep(w, steps[0]);
      NextBooks(w, steps[0]);
      DecideMisleads(w, Next(w, steps[0]), c.todo[0], ApproveSession, {});
    } else {
      var w1 := Next(w, BatchDeliver(k, false, {}));
      SkipsOne(w, k);
      var rest := BatchMisleads(w1, k, m - 1);
      steps := [BatchDeliver(k, false, {})] + rest;
      Cons(w, BatchDeliver(k, false, {}), rest);
    }
  }

  lemma SkipsOne(w: World, k: nat)
    requires k < |w.clicks| && w.clicks[k].Batching? && |w.clicks[k].todo| > 1 && w.clicks[k].todo[0] < |w.rows|
    ensures var w1 := Next(w, BatchDeliver(k, false, {}));
            var c := w.clicks[k];
            && w1.held == w.held && |w1.rows| == |w.rows|
            && (forall i :: 0 <= i < |w.rows| ==> w1.rows[i].request == w.rows[i].request && w1.rows[i].serial == w.rows[i].serial)
            && |w1.clicks| == |w.clicks| && w1.clicks[k] == Batching(c.row, c.task, c.todo[1..])
  {
  }

  /** The steps by which a click under way, aimed at `i`, answers another request. */
  lemma AimMisleads(w: World, k: nat, i: nat) returns (steps: seq<Step>)
    requires ClicksOk(w) && i < |w.rows| && k < |w.clicks| && Aims(w.clicks[k], i) && w.rows[i].task < |w.tasks|
    requires w.rows[i].request in w.held && w.held[w.rows[i].request] != w.rows[i].serial
    ensures forall j :: 0 <= j < |steps| ==> steps[j].Deliver? || steps[j].BatchDeliver?
    ensures Misled(Run(w, steps))
  {
    hide Run, Misled, Decide, Next;
    assert ClickOk(w.rows, w.tasks, w.clicks[k]);
    var c := w.clicks[k];
    if c.Sending? {
      steps := [Deliver(k, true, {})];
      OneStep(w, steps[0]);
      NextBooks(w, steps[0]);
      DecideMisleads(w, Next(w, steps[0]), i, c.action, {});
    } else {
      var m: nat :| m < |c.todo| && c.todo[m] == i;
      steps := BatchMisleads(w, k, m);
    }
  }

  /** The click that decides a pending row, once its task is running. */
  lemma PendingMisleads(w: World, i: nat) returns (steps: seq<Step>)
    requires i < |w.rows| && w.rows[i].status.Pending? && w.rows[i].task < |w.tasks|
    requires w.rows[i].request in w.held && w.held[w.rows[i].request] != w.rows[i].serial
    ensures steps == [TaskMoves(w.rows[i].task, Running), Begin(i, Deny, true), Deliver(|w.clicks|, true, {})]
    ensures Misled(Run(w, steps))
  {
    hide Run, Misled, Decide;
    var k := |w.clicks|;
    steps := [TaskMoves(w.rows[i].task, Running), Begin(i, Deny, true), Deliver(k, true, {})];
    var w1 := Next(w, steps[0]);
    var w2 := Next(w1, steps[1]);
    assert w2.clicks == w.clicks + [Sending(i, Deny)] && w2.rows == w.rows && w2.held == w.held;
    ThreeSteps(w, steps[0], steps[1], steps[2]);
    NextBooks(w2, steps[2]);
    DecideMisleads(w2, Next(w2, steps[2]), i, Deny, {});
  }

  /** A request that waits becomes a row, and a click on it then answers whatever its id leads to. */
  lemma {:induction false} WaitMisleads(w: World, p: nat) returns (steps: seq<Step>)
    requires Waits(w, p) && forall r: nat :: r < p && Waits(w, r) ==> w.queue[r].request != w.queue[p].request
    requires w.queue[p].request in w.held && w.held[w.queue[p].request] != w.queue[p].serial
    ensures forall j :: 0 <= j < |steps| ==> steps[j].Consume? || steps[j].TaskMoves? || steps[j].Begin? || steps[j].Deliver?
    ensures Misled(Run(w, steps))
    decreases p
  {
    hide Run, Misled, Known;
    var step := Consume(true, true);
    var w1 := Next(w, step);
    if p == 0 {
      var more := PendingMisleads(w1, |w.rows|);
      steps := [step] + more;
      Cons(w, step, more);
    } else {
      StillWaits(w, p);
      var more := WaitMisleads(w1, p - 1);
      steps := [step] + more;
      Cons(w, step, more);
    }
  }

  lemma StillWaits(w: World, p: nat)
    requires p > 0 && Waits(w, p) && forall r: nat :: r < p && Waits(w, r) ==> w.queue[r].request != w.queue[p].request
    ensures var w1 := Next(w, Consume(true, true));
            && Waits(w1, p - 1) && w1.queue[p - 1] == w.queue[p] && w1.held == w.held
            && forall r: nat :: r < p - 1 && Waits(w1, r) ==> w1.queue[r].request != w1.queue[p - 1].request
  {
    var w1 := Next(w, Consume(true, true));
    forall r: nat | r < p - 1 && Waits(w1, r) ensures w1.queue[r].request != w1.queue[p - 1].request {
      StepMoves(w, Consume(true, true));
      WaitsBefore(w, Consume(true, true), w1, r);
    }
    OtherInsert(w, p);
  }

  lemma OtherInsert(w: World, p: nat)
    requires p > 0 && Waits(w, p) && (Waits(w, 0) ==> w.queue[0].request != w.queue[p].request)
    ensures var w1 := Next(w, Consume(true, true));
            !Known(w1.rows, w.queue[p].task, w.queue[p].request) && |w1.tasks| == |w.tasks| && w1.queue == w.queue[1..] && w1.held == w.held
  {
  }

  /**
   Idle ids are necessary: whenever a request arrives under an id that a row in play carries, or a request that waits to
   become a row, for whatever task, there are events of the bridge, clicks and at most one change of a task's status that
   lead to an answer given to the wrong request.
   */
  lemma ReusedIdMisleads(tasks: seq<Task>, steps: seq<Step>, task: nat, request: string, kind: Kind, shape: Shape) returns (more: seq<Step>)
    requires AllAdmissible(Initial(tasks), steps) && !Idle(Run(Initial(tasks), steps), request)
    ensures forall j :: 0 <= j < |more| ==>
              more[j].Consume? || more[j].TaskMoves? || more[j].Begin? || more[j].Deliver? || more[j].BatchDeliver?
    ensures Misled(Run(Next(Run(Initial(tasks), steps), Arrive(task, request, kind, shape)), more))
  {
    hide Run, AllAdmissible, Misled, BookInv, AimInv, Known;
    RunKeepsSent(tasks, steps);
    var w := Run(Initial(tasks), steps);
    RowsKnown(w);
    var w1 := Next(w, Arrive(task, request, kind, shape));
    assert w1.rows == w.rows && w1.clicks == w.clicks && w1.tasks == w.tasks && w1.held[request] == w.arrivals;
    if i: nat :| i < |w.rows| && w.rows[i].request == request && InPlay(w, i) {
      if w.rows[i].status.Pending? {
        more := PendingMisleads(w1, i);
      } else {
        var k :| 0 <= k < |w.clicks| && Aims(w.clicks[k], i);
        NextKeepsClicks(w, Arrive(task, request, kind, shape));
        more := AimMisleads(w1, k, i);
      }
    } else {
      var p: nat :| Waits(w, p) && w.queue[p].request == request;
      assert Queued(w, p);
      assert forall r: nat :: r <= p ==> w1.queue[r] == w.queue[r];
      WaitersApart(w, p);
      more := WaitMisleads(w1, p);
    }
  }

  lemma WaitersApart(w: World, p: nat)
    requires AimInv(w) && Waits(w, p)
    ensures forall r: nat :: r < p && Waits(w, r) ==> w.queue[r].request != w.queue[p].request
  {
  }

  lemma RowsKnown(w: World)
    requires BookInv(w)
    ensures forall i: nat :: i < |w.rows| ==> w.rows[i].serial < w.arrivals && w.rows[i].task < |w.tasks|
    ensures forall p: nat :: Queued(w, p) ==> w.queue[p].serial < w.arrivals
  {
  }

  // ---- An id that comes back for the same task ----

  /** The step neither brings the id again nor makes the client let go of it. */
  predicate Leaves(step: Step, request: string) {
    && (step.Arrive? ==> step.request != request) && (step.Forget? ==> step.request != request) && !step.Disconnect?
  }

  /**
   A request whose id its task has used before gets no row.  If the id was idle, no later click of any kind answers it:
   it stays held, under the number it arrived with, until the client itself lets go of it.
   */
  lemma {:induction false} SecondUseStrands(w: World, task: nat, request: string, kind: Kind, shape: Shape, steps: seq<Step>)
    requires BookInv(w) && AimInv(w) && Idle(w, request) && Known(w.rows, task, request)
    requires forall i :: 0 <= i < |steps| ==> Leaves(steps[i], request)
    ensures var t := Run(Next(w, Arrive(task, request, kind, shape)), steps);
            Idle(t, request) && request in t.held && t.held[request] == w.arrivals
  {
    hide Next, Known, BookInv, AimInv, Idle;
    var w1 := Next(w, Arrive(task, request, kind, shape));
    if steps == [] {
      StrandedIsIdle(w, task, request, kind, shape);
    } else {
      var n := |steps| - 1;
      SecondUseStrands(w, task, request, kind, shape, steps[..n]);
      IdleStays(Run(w1, steps[..n]), request, steps[n]);
    }
  }

  lemma StrandedIsIdle(w: World, task: nat, request: string, kind: Kind, shape: Shape)
    requires Idle(w, request) && Known(w.rows, task, request)
    ensures var w1 := Next(w, Arrive(task, request, kind, shape)); Idle(w1, request) && request in w1.held && w1.held[request] == w.arrivals
  {
    hide Known;
    var w1 := Next(w, Arrive(task, request, kind, shape));
    forall p: nat | Waits(w1, p) ensures w1.queue[p].request != request {
      if p < |w.queue| { assert Waits(w, p); }
    }
    forall i: nat | i < |w1.rows| && w1.rows[i].request == request ensures !InPlay(w1, i) { assert !InPlay(w, i); }
  }

  lemma IdleStays(w: World, request: string, step: Step)
    requires Idle(w, request) && request in w.held && Leaves(step, request)
    ensures var w' := Next(w, step); Idle(w', request) && request in w'.held && w'.held[request] == w.held[request]
  {
    hide Next, Booked, InPlay, RowsKept;
    var w' := Next(w, step);
    StepMoves(w, step);
    IdleHolds(w, request, step);
    forall i: nat | i < |w'.rows| && w'.rows[i].request == request ensures !InPlay(w', i) {
      if InPlay(w', i) {
        if i < |w.rows| { OldPlay(w, step, w', i); } else { NewRow(w, step, i); }
      }
    }
    forall p: nat | Waits(w', p) ensures w'.queue[p].request != request { WaitsBefore(w, step, w', p); }
  }

  /** A decision takes only the id of a row in play. */
  lemma IdleHolds(w: World, request: string, step: Step)
    requires Idle(w, request) && request in w.held && Leaves(step, request)
    ensures request in Booked(w, step).held && Booked(w, step).held[request] == w.held[request]
  {
    hide Known, Terminal, ProjectRows, ReadsApproved, LatestRow;
    if SentRow(w, step).Some? { SentRowPlays(w, step); }
  }
}
