/** The approval service as an object: one callback at a time, with a send that may fail at every call. */
module ApprovalServiceObject {
  import opened Options
  import opened Approvals
  import opened ApprovalCounter

  /** A row the session approval of `clicked` releases along the way. */
  ghost predicate InBatch(rows: seq<Row>, task: nat, clicked: nat, i: nat) {
    i < |rows| && rows[i].task == task && rows[i].status.Pending? && i != clicked && rows[i].kind.Command?
  }

  lemma {:induction false} PendingIdsAreRows(rows: seq<Row>, task: nat)
    ensures forall i :: 0 <= i < |PendingIds(rows, task)| ==>
              var p := PendingIds(rows, task)[i]; p < |rows| && rows[p].task == task && rows[p].status.Pending?
    ensures forall i, j :: 0 <= i < j < |PendingIds(rows, task)| ==> PendingIds(rows, task)[i] < PendingIds(rows, task)[j]
    ensures forall p :: 0 <= p < |rows| && rows[p].task == task && rows[p].status.Pending? ==> p in PendingIds(rows, task)
  {
    if rows != [] {
      PendingIdsAreRows(rows[..|rows| - 1], task);
    }
  }

  /** The ledger's unique index: a task has one row for an id. */
  predicate Unique(rows: seq<Row>) {
    forall i: nat, j: nat :: i < j < |rows| ==> !(rows[i].task == rows[j].task && rows[i].request == rows[j].request)
  }

  /** The same requests, whatever has become of them. */
  predicate SameRequests(rows: seq<Row>, next: seq<Row>) {
    && |next| == |rows|
    && forall i: nat :: i < |rows| ==>
         && next[i].task == rows[i].task && next[i].request == rows[i].request
         && next[i].kind == rows[i].kind && next[i].shape == rows[i].shape
  }

  /** The status a sent decision leaves on a row: the projection's, if a prompt is open for its task. */
  function SettledStatus(r: Row, action: Action, watch: set<nat>): Status {
    if r.task in watch then ProjectedStatus(r.kind, r.shape, action) else StatusOf(action)
  }

  lemma {:induction false} PendingOfTask(rows: seq<Row>, next: seq<Row>, task: nat)
    requires |rows| == |next|
    requires forall i: nat :: i < |rows| ==> next[i].task == rows[i].task && (rows[i].task == task ==> next[i].status == rows[i].status)
    ensures PendingIn(next, task) == PendingIn(rows, task)
  {
    if rows != [] { PendingOfTask(rows[..|rows| - 1], next[..|next| - 1], task); }
  }

  /** A decision on a pending row, as its own task sees it. */
  lemma DecideInTask(w: World, id: nat, action: Action, watch: set<nat>)
    requires id < |w.rows| && w.rows[id].status.Pending? && Unique(w.rows)
    ensures var d, task := Decide(w, id, action, watch), w.rows[id].task;
            && SameRequests(w.rows, d.rows) && Unique(d.rows) && d.tasks == w.tasks
            && d.rows[id].status == SettledStatus(w.rows[id], action, watch) && !d.rows[id].status.Pending?
            && (forall i: nat :: i < |w.rows| && i != id && w.rows[i].task == task ==> d.rows[i] == w.rows[i])
            && PendingIn(d.rows, task) + 1 == PendingIn(w.rows, task)
  {
    hide PendingIn, ReadsApproved, ProjectRows;
    var d, task := Decide(w, id, action, watch), w.rows[id].task;
    var s := Send(w, id, action, watch);
    forall i: nat | i < |w.rows| && i != id && w.rows[i].task == task ensures d.rows[i] == w.rows[i] {
      assert w.rows[i].request != w.rows[id].request;
      assert s.rows[i] == w.rows[i];
    }
    PendingUpdate(w.rows, id, d.rows[id], task);
    PendingOfTask(w.rows[id := d.rows[id]], d.rows, task);
  }

  lemma DecideNotes(w: World, id: nat, action: Action, watch: set<nat>)
    requires id < |w.rows| && w.rows[id].status.Pending? && w.rows[id].task !in watch
    ensures var d := Decide(w, id, action, watch);
            id < |d.rows| && d.rows[id].status == StatusOf(action) && d.rows[id].resolution == NameOf(action)
  {
    hide ProjectRows, ReadsApproved, StatusOf, NameOf;
  }

  /** The answer the client is given with a decision, if it holds the request. */
  function Told(w: World, id: nat, action: Action): seq<Answer>
    requires id < |w.rows|
  {
    if w.rows[id].request in w.held then [Answer(id, w.held[w.rows[id].request], action)] else []
  }

  lemma DecideTells(w: World, id: nat, action: Action, watch: set<nat>)
    requires id < |w.rows|
    ensures var d := Decide(w, id, action, watch);
            d.answers == w.answers + Told(w, id, action) && d.held == w.held - {w.rows[id].request}
  {
    hide ProjectRows, ReadsApproved;
    if w.rows[id].request !in w.held { assert w.held - {w.rows[id].request} == w.held; }
  }

  datatype Outcome = Missing | TaskFinished | AlreadyDecided | ReadOnly | SendFailed | Resolved(released: nat)

  function Reduced(n: nat, k: nat): nat { if n > k then n - k else 0 }

  /** The request held under `q` has been given a session approval. */
  ghost predicate Given(w: World, next: World, q: string)
    requires q in w.held
  {
    exists a :: |w.answers| <= a < |next.answers| && next.answers[a].serial == w.held[q]
  }

  /** Everything said so far stands, further answers are session approvals, and exactly the requests given one are let go. */
  ghost predicate Further(w: World, next: World) {
    && |w.answers| <= |next.answers| && next.answers[..|w.answers|] == w.answers
    && (forall a :: |w.answers| <= a < |next.answers| ==> next.answers[a].action.ApproveSession?)
    && next.held.Keys <= w.held.Keys
    && forall q :: q in w.held ==> if q in next.held then next.held[q] == w.held[q] else Given(w, next, q)
  }

  lemma ReducedTwice(n: nat, a: nat, b: nat)
    ensures Reduced(Reduced(n, a), b) == Reduced(n, a + b) && Reduced(n, 0) == n
  {}

  /** The batch loop has been through `done`. */
  ghost predicate Batched(before: seq<Row>, rows: seq<Row>, task: nat, clicked: nat, ok: set<nat>, watch: set<nat>, done: seq<nat>) {
    forall i: nat :: i < |rows| && i < |before| && rows[i].task == task ==>
      rows[i].status == if InBatch(before, task, clicked, i) && i in ok && i in done
                        then SettledStatus(before[i], ApproveSession, watch) else before[i].status
  }

  lemma NoneBatched(before: seq<Row>, held: map<string, nat>, task: nat, clicked: nat, ok: set<nat>, watch: set<nat>)
    ensures Batched(before, before, task, clicked, ok, watch, []) && LetGo(before, held, task, clicked, ok, [])
  {}

  lemma InBatchExactly(before: seq<Row>, rows: seq<Row>, task: nat, clicked: nat, p: nat)
    requires SameRequests(before, rows) && p < |before| && before[p].task == task && before[p].status.Pending?
    ensures InBatch(before, task, clicked, p) <==> !(p == clicked || !rows[p].kind.Command?)
  {}

  lemma StillPending(before: seq<Row>, rows: seq<Row>, task: nat, clicked: nat, ok: set<nat>, watch: set<nat>, done: seq<nat>, p: nat)
    requires SameRequests(before, rows) && Batched(before, rows, task, clicked, ok, watch, done) && p !in done
    requires p < |before| && before[p].task == task && before[p].status.Pending?
    ensures rows[p].task == task && rows[p].status.Pending?
  {}

  lemma BatchedOn(
    before: seq<Row>, rows: seq<Row>, next: seq<Row>, task: nat, clicked: nat, ok: set<nat>, watch: set<nat>, done: seq<nat>, p: nat)
    requires SameRequests(before, rows) && SameRequests(rows, next) && Batched(before, rows, task, clicked, ok, watch, done)
    requires p < |rows| && p !in done
    requires forall i: nat :: i < |rows| && i != p && rows[i].task == task ==> next[i].status == rows[i].status
    requires if InBatch(before, task, clicked, p) && p in ok then next[p].status == SettledStatus(rows[p], ApproveSession, watch)
             else next[p].status == rows[p].status
    ensures Batched(before, next, task, clicked, ok, watch, done + [p])
  {
    hide ProjectedStatus;
  }

  lemma AllBatched(before: seq<Row>, rows: seq<Row>, task: nat, clicked: nat, ok: set<nat>, watch: set<nat>, ids: seq<nat>)
    requires SameRequests(before, rows) && Batched(before, rows, task, clicked, ok, watch, ids)
    requires forall p :: 0 <= p < |before| && before[p].task == task && before[p].status.Pending? ==> p in ids
    ensures forall i: nat :: i < |rows| && rows[i].task == task ==>
              rows[i].status == if InBatch(before, task, clicked, i) && i in ok
                                then SettledStatus(before[i], ApproveSession, watch) else before[i].status
  {}

  lemma StandsOne(w: World, d: World, id: nat)
    requires id < |w.rows| && d.answers == w.answers + Told(w, id, ApproveSession) && d.held == w.held - {w.rows[id].request}
    ensures Further(w, d)
  {
    if w.rows[id].request in w.held { assert d.answers[|w.answers|].serial == w.held[w.rows[id].request]; }
  }

  /** The released rows' requests are not held any more. */
  ghost predicate LetGo(before: seq<Row>, held: map<string, nat>, task: nat, clicked: nat, ok: set<nat>, done: seq<nat>) {
    forall i: nat :: InBatch(before, task, clicked, i) && i in ok && i in done ==> before[i].request !in held
  }

  lemma LetsGo(
    before: seq<Row>, held: map<string, nat>, next: map<string, nat>, task: nat, clicked: nat, ok: set<nat>, done: seq<nat>, p: nat)
    requires LetGo(before, held, task, clicked, ok, done) && next.Keys <= held.Keys
    requires InBatch(before, task, clicked, p) && p in ok ==> before[p].request !in next
    ensures LetGo(before, next, task, clicked, ok, done + [p])
  {}

  lemma AllLetGo(before: seq<Row>, held: map<string, nat>, task: nat, clicked: nat, ok: set<nat>, ids: seq<nat>)
    requires LetGo(before, held, task, clicked, ok, ids)
    requires forall p :: 0 <= p < |before| && before[p].task == task && before[p].status.Pending? ==> p in ids
    ensures forall i: nat :: InBatch(before, task, clicked, i) && i in ok ==> before[i].request !in held
  {}

  lemma StandsAlike(w: World, d: World)
    requires d.answers == w.answers && d.held == w.held
    ensures Further(w, d)
  {}

  lemma StandsOn(a: World, b: World, c: World)
    requires Further(a, b) && Further(b, c)
    ensures Further(a, c) && c.held.Keys <= b.held.Keys
  {
    assert c.answers[..|a.answers|] == c.answers[..|b.answers|][..|a.answers|];
    forall i | |a.answers| <= i < |c.answers| ensures c.answers[i].action.ApproveSession? {
      if i < |b.answers| { assert c.answers[i] == c.answers[..|b.answers|][i]; }
    }
    forall q | q in a.held && q !in c.held ensures Given(a, c, q) {
      if q in b.held {
        assert Given(b, c, q);
      } else {
        var i :| |a.answers| <= i < |b.answers| && b.answers[i].serial == a.held[q];
        assert c.answers[i] == c.answers[..|b.answers|][i];
      }
    }
  }

  class ApprovalService {
    var rows: seq<Row>
    var tasks: seq<Task>
    var held: map<string, nat>
    var arrivals: nat
    var answers: seq<Answer>
    var queue: seq<Notice>
    var interrupts: seq<nat>   // the tasks whose turn the backend was asked to interrupt

    ghost function View(): World
      reads this
    {
      World(rows, tasks, held, arrivals, answers, queue, [])
    }

    constructor (tasks: seq<Task>)
      ensures View() == Initial(tasks) && interrupts == []
    {
      rows, this.tasks, held, arrivals, answers, queue := [], tasks, map[], 0, [], [];
      interrupts := [];
    }

    /** `backend.resolve_approval`, with the projections of open prompts, followed by `ledger.resolve_approval`. */
    method SendAndRecord(id: nat, action: Action, watch: set<nat>)
      requires id < |rows|
      modifies this`rows, this`held, this`answers, this`queue
      ensures View() == Decide(old(View()), id, action, watch)
    {
      var row := rows[id];
      var answer := None;
      if row.request in held {
        answer := Some(|answers|);
        answers := answers + [Answer(id, held[row.request], action)];
        held := held - {row.request};
      }
      var approved := ReadsApproved(row.kind, row.shape, action);
      queue := queue + [Notice.Resolved(row.request, approved)];
      rows := ProjectRows(rows, watch, row.request, Verdict(approved), id, answer);
      if rows[id].status.Pending? {
        rows := rows[id := rows[id].(status := StatusOf(action), resolution := NameOf(action), closing := ByClick(answer))];
      }
    }

    method DecrementPending(task: nat)
      requires task < |tasks|
      modifies this`tasks
      ensures View() == Decrement(old(View()), task)
    {
      if tasks[task].pending > 0 {
        tasks := tasks[task := tasks[task].(pending := tasks[task].pending - 1)];
      }
    }

    /** One turn of the batch loop for a row that is to be released. */
    method ReleaseOne(p: nat, task: nat, sent: bool, watch: set<nat>) returns (freed: nat)
      requires p < |rows| && task < |tasks| && rows[p].task == task && rows[p].status.Pending? && Unique(rows)
      modifies this`rows, this`tasks, this`held, this`answers, this`queue
      ensures SameRequests(old(rows), rows) && Unique(rows)
      ensures forall i: nat :: i < |rows| && i != p && rows[i].task == task ==> rows[i] == old(rows)[i]
      ensures rows[p].status == if sent then SettledStatus(old(rows)[p], ApproveSession, watch) else Pending
      ensures freed == (if sent then 1 else 0) && PendingIn(rows, task) + freed == PendingIn(old(rows), task)
      ensures |tasks| == |old(tasks)|
      ensures tasks[task] == old(tasks)[task].(pending := Reduced(old(tasks)[task].pending, freed))
      ensures forall t :: 0 <= t < |tasks| && t != task ==> tasks[t] == old(tasks)[t]
      ensures Further(old(View()), View()) && (sent ==> rows[p].request !in held)
    {
      hide PendingIn, Decide, ReadsApproved, Further;
      if !sent {
        NoteRow(p, task);
        StandsAlike(old(View()), View());
        return 0;
      }
      DecideInTask(View(), p, ApproveSession, watch);
      DecideTells(View(), p, ApproveSession, watch);
      SendAndRecord(p, ApproveSession, watch);
      DecrementPending(task);
      StandsOne(old(View()), View(), p);
      freed := 1;
    }

    /**
     `_approve_pending_command_batch`: exactly the other pending command rows of the task whose send succeeds are
     settled; every other status of the task is left alone, and the counter goes down by what was released.
     */
    method ApproveBatch(task: nat, clicked: nat, ok: set<nat>, watch: set<nat>) returns (released: nat)
      requires task < |tasks| && Unique(rows)
      modifies this`rows, this`tasks, this`held, this`answers, this`queue
      ensures SameRequests(old(rows), rows)
      ensures forall i: nat :: i < |rows| && rows[i].task == task ==>
                rows[i].status == if InBatch(old(rows), task, clicked, i) && i in ok
                                  then SettledStatus(old(rows)[i], ApproveSession, watch) else old(rows)[i].status
      ensures PendingIn(rows, task) + released == PendingIn(old(rows), task)
      ensures |tasks| == |old(tasks)|
      ensures tasks[task] == old(tasks)[task].(pending := Reduced(old(tasks)[task].pending, released))
      ensures forall t :: 0 <= t < |tasks| && t != task ==> tasks[t] == old(tasks)[t]
      ensures Further(old(View()), View())
      ensures clicked < |rows| && rows[clicked].task == task ==> rows[clicked] == old(rows)[clicked]
      ensures forall i: nat :: InBatch(old(rows), task, clicked, i) && i in ok ==> old(rows)[i].request !in held
    {
      hide PendingIn, PendingIds, SettledStatus, Further, Batched, Reduced, Unique, LetGo, InBatch;
      released := 0;
      ReducedTwice(tasks[task].pending, 0, 0);
      StandsAlike(View(), View());
      var ids := PendingIds(rows, task);
      PendingIdsAreRows(rows, task);
      ghost var before := rows;
      NoneBatched(before, held, task, clicked, ok, watch);
      var n := 0;
      assert ids[..0] == [];
      while n < |ids|
        invariant n <= |ids| && SameRequests(before, rows) && Unique(rows)
        invariant clicked < |rows| && rows[clicked].task == task ==> rows[clicked] == before[clicked]
        invariant Batched(before, rows, task, clicked, ok, watch, ids[..n])
        invariant PendingIn(rows, task) + released == PendingIn(before, task)
        invariant |tasks| == |old(tasks)|
        invariant tasks[task] == old(tasks)[task].(pending := Reduced(old(tasks)[task].pending, released))
        invariant forall t :: 0 <= t < |tasks| && t != task ==> tasks[t] == old(tasks)[t]
        invariant Further(old(View()), View()) && LetGo(before, held, task, clicked, ok, ids[..n])
      {
        var p := ids[n];
        assert p !in ids[..n] && ids[..n + 1] == ids[..n] + [p];
        n := n + 1;
        InBatchExactly(before, rows, task, clicked, p);
        if p == clicked || !rows[p].kind.Command? {
          BatchedOn(before, rows, rows, task, clicked, ok, watch, ids[..n - 1], p);
          LetsGo(before, held, held, task, clicked, ok, ids[..n - 1], p);
          continue;
        }
        ghost var mid := View();
        StillPending(before, rows, task, clicked, ok, watch, ids[..n - 1], p);
        var freed := ReleaseOne(p, task, p in ok, watch);
        BatchedOn(before, mid.rows, rows, task, clicked, ok, watch, ids[..n - 1], p);
        StandsOn(old(View()), mid, View());
        LetsGo(before, mid.held, held, task, clicked, ok, ids[..n - 1], p);
        ReducedTwice(old(tasks)[task].pending, released, freed);
        released := released + freed;
      }
      assert ids[..|ids|] == ids;
      AllBatched(before, rows, task, clicked, ok, watch, ids);
      AllLetGo(before, held, task, clicked, ok, ids);
    }

    method NoteRow(id: nat, t: nat)
      requires id < |rows|
      modifies this`rows
      ensures View() == NoteError(old(View()), id)
      ensures PendingIn(rows, t) == PendingIn(old(rows), t)
      ensures SameRequests(old(rows), rows) && (Unique(old(rows)) ==> Unique(rows))
    {
      rows := rows[id := rows[id].(resolution := "error")];
      PendingUpdate(old(rows), id, rows[id], t);
    }

    /** Step 9: a waiting task with nothing pending goes back to running. */
    method SettleTask(task: nat)
      requires task < |tasks|
      modifies this`tasks
      ensures |tasks| == |old(tasks)| && forall t :: 0 <= t < |tasks| && t != task ==> tasks[t] == old(tasks)[t]
      ensures tasks[task] == old(tasks)[task] || tasks[task] == old(tasks)[task].(status := Running)
      ensures tasks[task].status.WaitingApproval? ==> PendingIn(rows, task) > 0
      ensures tasks[task] != old(tasks)[task] ==> old(tasks)[task].status.WaitingApproval? && PendingIn(rows, task) == 0
    {
      NonePending(rows, task);
      if tasks[task].status.WaitingApproval? && PendingIds(rows, task) == [] {
        tasks := tasks[task := tasks[task].(status := Running)];
      }
    }

    /** What a resolved click has done to the rows and the task. */
    ghost predicate Recorded(before: World, id: nat, action: Action, ok: set<nat>, watch: set<nat>, released: nat)
      reads this
      requires id < |before.rows| && before.rows[id].task < |before.tasks|
    {
      var task := before.rows[id].task;
      && SameRequests(before.rows, rows) && |tasks| == |before.tasks|
      && rows[id].status == SettledStatus(before.rows[id], action, watch) && (task !in watch ==> Noted(rows[id], action))
      && (forall i: nat :: i < |rows| && i != id && rows[i].task == task ==>
            rows[i].status == if action.ApproveSession? && before.rows[id].kind.Command?
                                 && InBatch(before.rows, task, id, i) && i in ok
                              then SettledStatus(before.rows[i], ApproveSession, watch) else before.rows[i].status)
      && PendingIn(rows, task) + released + 1 == PendingIn(before.rows, task)
      && (before.tasks[task].pending == PendingIn(before.rows, task) ==> tasks[task].pending == PendingIn(rows, task))
      && (tasks[task].status.WaitingApproval? ==> PendingIn(rows, task) > 0)
      && (forall t :: 0 <= t < |tasks| && t != task ==> tasks[t] == before.tasks[t])
      && Further(before.(answers := before.answers + Told(before, id, action), held := before.held - {before.rows[id].request}), View())
      && (action.ApproveSession? && before.rows[id].kind.Command? ==>
            forall i: nat :: InBatch(before.rows, task, id, i) && i in ok ==> before.rows[i].request !in held)
      && (!(action.ApproveSession? && before.rows[id].kind.Command?) ==> answers == before.answers + Told(before, id, action))
    }

    /** The turn a cancelled permission request interrupts. */
    function Interrupted(before: World, id: nat, action: Action): seq<nat>
      requires id < |before.rows| && before.rows[id].task < |before.tasks|
    {
      var row := before.rows[id];
      if action.Cancel? && row.kind.Permissions? && before.tasks[row.task].turnActive then [row.task] else []
    }

    /** What a click records on its row when no projection comes first. */
    predicate Noted(row: Row, action: Action) {
      match action
      case ApproveOnce => row.status.Approved? && row.resolution == "approve_once"
      case ApproveSession => row.status.Approved? && row.resolution == "approve_session"
      case Deny => row.status.Denied? && row.resolution == "deny"
      case Cancel => row.status.Cancelled? && row.resolution == "cancel"
    }

    /** Steps 6 to 8 for the clicked row. */
    method RecordOne(id: nat, action: Action, watch: set<nat>)
      requires id < |rows| && rows[id].task < |tasks| && rows[id].status.Pending? && Unique(rows)
      modifies this
      ensures SameRequests(old(rows), rows) && Unique(rows) && |tasks| == |old(tasks)|
      ensures rows[id].status == SettledStatus(old(rows)[id], action, watch) && !rows[id].status.Pending?
      ensures rows[id].task !in watch ==> Noted(rows[id], action)
      ensures forall i: nat :: i < |rows| && i != id && rows[i].task == rows[id].task ==> rows[i] == old(rows)[i]
      ensures PendingIn(rows, rows[id].task) + 1 == PendingIn(old(rows), rows[id].task)
      ensures tasks[rows[id].task] == old(tasks)[rows[id].task].(pending := Reduced(old(tasks)[rows[id].task].pending, 1))
      ensures forall t :: 0 <= t < |tasks| && t != rows[id].task ==> tasks[t] == old(tasks)[t]
      ensures answers == old(answers) + Told(old(View()), id, action) && held == old(held) - {old(rows)[id].request}
      ensures interrupts == old(interrupts) + Interrupted(old(View()), id, action)
    {
      hide PendingIn, Decide, ReadsApproved;
      var row, task := rows[id], rows[id].task;
      DecideInTask(View(), id, action, watch);
      DecideTells(View(), id, action, watch);
      if row.task !in watch { DecideNotes(View(), id, action, watch); }
      SendAndRecord(id, action, watch);
      if action.Cancel? && row.kind.Permissions? && tasks[task].turnActive {
        interrupts := interrupts + [task];
      }
      DecrementPending(task);
    }

    /** Steps 6 to 9 of a click whose send works. */
    method Record(id: nat, action: Action, ok: set<nat>, watch: set<nat>) returns (released: nat)
      requires id < |rows| && rows[id].task < |tasks| && rows[id].status.Pending? && Unique(rows)
      modifies this
      ensures Recorded(old(View()), id, action, ok, watch, released)
      ensures interrupts == old(interrupts) + Interrupted(old(View()), id, action)
    {
      hide PendingIn, PendingIds, SettledStatus, Interrupted, Told;
      var row, task := rows[id], rows[id].task;
      RecordOne(id, action, watch);
      released := 0;
      if action.ApproveSession? && row.kind.Command? {
        released := ApproveBatch(task, id, ok, watch);
      }
      SettleTask(task);
    }

    /** The row exists, and its task is in one of the six statuses in which it still matters. */
    predicate Alive(id: nat)
      reads this
      requires forall i :: 0 <= i < |rows| ==> rows[i].task < |tasks|
    {
      && id < |rows|
      && var status := tasks[rows[id].task].status;
         (status.Queued? || status.Running? || status.WaitingApproval? || status.Paused? || status.WaitingSlot? || status.Archived?)
    }

    /**
     `resolve_callback`.  Each outcome has its exact condition.  A resolved click leaves the clicked row with the status
     of its action, or of its projection if a prompt is open for the task, gives the client that action's answer and to the
     batch session approvals, settles exactly the batch, keeps an accurate counter accurate, leaves the task waiting only if
     something is still pending and other tasks alone, and interrupts the turn of a cancelled permission request; a failed
     send changes no status, counter or task.
     */
    method ResolveCallback(id: nat, action: Action, writable: bool, ok: set<nat>, watch: set<nat>) returns (r: Outcome)
      requires (forall i :: 0 <= i < |rows| ==> rows[i].task < |tasks|) && Unique(rows)
      modifies this
      ensures r.Missing? <==> id >= |old(rows)|
      ensures r.TaskFinished? <==>
                id < |old(rows)| && var status := old(tasks)[old(rows)[id].task].status; status.Done? || status.Failed? || status.Aborted?
      ensures r.AlreadyDecided? <==> old(Alive(id)) && !old(rows)[id].status.Pending?
      ensures r.ReadOnly? <==>
                old(Alive(id)) && old(rows)[id].status.Pending? && (action.ApproveOnce? || action.ApproveSession?) && !writable
      ensures r.SendFailed? || r.Resolved? <==>
                old(Alive(id)) && old(rows)[id].status.Pending? && (action.Deny? || action.Cancel? || writable)
      ensures r.Resolved? ==> id in ok
      ensures r.SendFailed? ==> id !in ok
      ensures r.Missing? || r.AlreadyDecided? || r.ReadOnly? ==> View() == old(View())
      ensures r.SendFailed? ==> View() == NoteError(old(View()), id)
      ensures r.TaskFinished? ==>
                View() == Decrement(ResolveRow(old(View()), id, Cancelled, "task_terminal", TaskOver), old(rows)[id].task)
                && rows[id].status == if old(rows)[id].status.Pending? then Cancelled else old(rows)[id].status
      ensures r.Resolved? ==>
                && Recorded(old(View()), id, action, ok, watch, r.released)
                && var row := old(rows)[id];
                   interrupts == old(interrupts) + if action.Cancel? && row.kind.Permissions? && old(tasks)[row.task].turnActive then [row.task] else []
      ensures !r.Resolved? ==> interrupts == old(interrupts)
    {
      hide PendingIn, PendingIds, Recorded;
      if id >= |rows| {
        return Missing;
      }
      var row := rows[id];
      var task := row.task;
      if Terminal(tasks[task].status) {
        if row.status.Pending? {
          rows := rows[id := row.(status := Cancelled, resolution := "task_terminal", closing := TaskOver)];
        }
        DecrementPending(task);
        return TaskFinished;
      }
      if !row.status.Pending? {
        return AlreadyDecided;
      }
      if (action.ApproveOnce? || action.ApproveSession?) && !writable {
        return ReadOnly;
      }
      if id !in ok {
        NoteRow(id, task);
        return SendFailed;
      }
      var released := Record(id, action, ok, watch);
      return Outcome.Resolved(released);
    }
  }
}
