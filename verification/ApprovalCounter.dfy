/** The per-task counter of pending approvals, against the rows it is meant to count. */
module ApprovalCounter {
  import opened Options
  import opened Approvals

  ghost function Weight(r: Row, task: nat): nat { if r.task == task && r.status.Pending? then 1 else 0 }

  /** The number of pending rows of a task. */
  ghost function PendingIn(rows: seq<Row>, task: nat): nat {
    if rows == [] then 0 else PendingIn(rows[..|rows| - 1], task) + Weight(rows[|rows| - 1], task)
  }

  ghost function ClickWeight(c: Click, task: nat): nat { if c.Interrupting? && c.task == task then 1 else 0 }

  /** The number of clicks that have recorded a decision but are still interrupting the turn. */
  ghost function InterruptingIn(clicks: seq<Click>, task: nat): nat {
    if clicks == [] then 0 else InterruptingIn(clicks[..|clicks| - 1], task) + ClickWeight(clicks[|clicks| - 1], task)
  }

  /** A row the counter still stands for: it is pending, or another row's answer was projected onto it. */
  predicate Owes(r: Row) { r.status.Pending? || Strayed(r) }

  ghost function OwedWeight(r: Row, task: nat): nat { if r.task == task && Owes(r) then 1 else 0 }

  ghost function OwedIn(rows: seq<Row>, task: nat): nat {
    if rows == [] then 0 else OwedIn(rows[..|rows| - 1], task) + OwedWeight(rows[|rows| - 1], task)
  }

  ghost function Load(w: World, task: nat): nat { OwedIn(w.rows, task) + InterruptingIn(w.clicks, task) }

  ghost function Count(w: World, task: nat): nat { if task < |w.tasks| then w.tasks[task].pending else 0 }

  function Less(n: nat): nat { if n > 0 then n - 1 else 0 }

  lemma {:induction false} PendingUpdate(rows: seq<Row>, i: nat, r: Row, task: nat)
    requires i < |rows|
    ensures PendingIn(rows[i := r], task) == PendingIn(rows, task) - Weight(rows[i], task) + Weight(r, task)
    ensures PendingIn(rows, task) >= Weight(rows[i], task)
  {
    var n := |rows| - 1;
    if i < n {
      PendingUpdate(rows[..n], i, r, task);
      assert rows[i := r][..n] == rows[..n][i := r];
    } else {
      assert rows[i := r][..n] == rows[..n];
    }
  }

  lemma {:induction false} OwedUpdate(rows: seq<Row>, i: nat, r: Row, task: nat)
    requires i < |rows|
    ensures OwedIn(rows[i := r], task) == OwedIn(rows, task) - OwedWeight(rows[i], task) + OwedWeight(r, task)
    ensures OwedIn(rows, task) >= OwedWeight(rows[i], task)
  {
    var n := |rows| - 1;
    if i < n {
      OwedUpdate(rows[..n], i, r, task);
      assert rows[i := r][..n] == rows[..n][i := r];
    } else {
      assert rows[i := r][..n] == rows[..n];
    }
  }

  /** The owed rows are the pending ones and those another row's answer was projected onto. */
  lemma {:induction false} OwedIsPending(rows: seq<Row>, task: nat)
    ensures PendingIn(rows, task) <= OwedIn(rows, task)
    ensures (forall i: nat :: i < |rows| ==> !Strayed(rows[i])) ==> PendingIn(rows, task) == OwedIn(rows, task)
  {
    if rows != [] { OwedIsPending(rows[..|rows| - 1], task); }
  }

  /** A projection closes for the counter only the row whose own answer it is. */
  lemma {:induction false} ProjectCounts(rows: seq<Row>, watch: set<nat>, request: string, status: Status, own: nat, answer: Option<nat>, t: nat)
    requires !status.Pending?
    ensures OwedIn(ProjectRows(rows, watch, request, status, own, answer), t) ==
            OwedIn(rows, t) - if own < |rows| && Hits(rows[own], watch, request) then Weight(rows[own], t) else 0
  {
    if rows != [] {
      var n := |rows| - 1;
      ProjectCounts(rows[..n], watch, request, status, own, answer, t);
      var next := ProjectRows(rows, watch, request, status, own, answer);
      assert next[..n] == ProjectRows(rows[..n], watch, request, status, own, answer);
      assert next[n] == Hit(rows[n], n, watch, request, status, own, answer);
    }
  }

  predicate Hits(r: Row, watch: set<nat>, request: string) { r.status.Pending? && r.request == request && r.task in watch }

  lemma {:induction false} ClickUpdate(clicks: seq<Click>, k: nat, c: Click, task: nat)
    requires k < |clicks|
    ensures InterruptingIn(clicks[k := c], task)
         == InterruptingIn(clicks, task) - ClickWeight(clicks[k], task) + ClickWeight(c, task)
    ensures InterruptingIn(clicks, task) >= ClickWeight(clicks[k], task)
  {
    var n := |clicks| - 1;
    if k < n {
      ClickUpdate(clicks[..n], k, c, task);
      assert clicks[k := c][..n] == clicks[..n][k := c];
    } else {
      assert clicks[k := c][..n] == clicks[..n];
    }
  }

  lemma NewClick(clicks: seq<Click>, c: Click, task: nat)
    ensures InterruptingIn(clicks + [c], task) == InterruptingIn(clicks, task) + ClickWeight(c, task)
  {
    assert (clicks + [c])[..|clicks|] == clicks;
  }

  lemma DecrementCounts(w: World, task: nat, t: nat)
    ensures Load(Decrement(w, task), t) == Load(w, t)
    ensures Count(Decrement(w, task), t) == if t == task then Less(Count(w, t)) else Count(w, t)
  {
  }

  lemma ResolveCounts(w: World, id: nat, status: Status, resolution: string, closing: Closing, t: nat)
    requires id < |w.rows| && !status.Pending? && !closing.Projected?
    ensures Load(ResolveRow(w, id, status, resolution, closing), t) == Load(w, t) - Weight(w.rows[id], t)
    ensures Count(ResolveRow(w, id, status, resolution, closing), t) == Count(w, t)
    ensures Load(w, t) >= Weight(w.rows[id], t)
  {
    OwedUpdate(w.rows, id, w.rows[id].(status := status, resolution := resolution, closing := closing), t);
  }

  lemma SendCounts(w: World, id: nat, action: Action, watch: set<nat>, t: nat)
    requires id < |w.rows|
    ensures var s := Send(w, id, action, watch);
            && Load(s, t) + Weight(w.rows[id], t) == Load(w, t) + Weight(s.rows[id], t) && Count(s, t) == Count(w, t)
            && s.clicks == w.clicks && s.tasks == w.tasks && |s.rows| == |w.rows|
  {
    hide OwedIn, ProjectRows;
    var r := w.rows[id];
    var answer := if r.request in w.held then Some(|w.answers|) else None;
    ProjectCounts(w.rows, watch, r.request, ProjectedStatus(r.kind, r.shape, action), id, answer, t);
  }

  lemma DecideCounts(w: World, id: nat, action: Action, watch: set<nat>, t: nat)
    requires id < |w.rows|
    ensures Load(Decide(w, id, action, watch), t) == Load(w, t) - Weight(w.rows[id], t)
    ensures Count(Decide(w, id, action, watch), t) == Count(w, t)
    ensures Decide(w, id, action, watch).clicks == w.clicks && |Decide(w, id, action, watch).tasks| == |w.tasks|
    ensures Load(w, t) >= Weight(w.rows[id], t)
  {
    hide OwedIn, Send, ResolveRow, Load;
    SendCounts(w, id, action, watch, t);
    var answer := if w.rows[id].request in w.held then Some(|w.answers|) else None;
    ResolveCounts(Send(w, id, action, watch), id, StatusOf(action), NameOf(action), ByClick(answer), t);
    ResolveCounts(w, id, Cancelled, "", TaskOver, t);
    DecideMoves(w, id, action, watch);
  }

  lemma NoteCounts(w: World, id: nat, t: nat)
    ensures Load(NoteError(w, id), t) == Load(w, t) && Count(NoteError(w, id), t) == Count(w, t)
  {
    if id < |w.rows| { OwedUpdate(w.rows, id, w.rows[id].(resolution := "error"), t); }
  }

  lemma SetClickCounts(w: World, k: nat, c: Click, t: nat)
    requires k < |w.clicks|
    ensures Load(SetClick(w, k, c), t) == Load(w, t) - ClickWeight(w.clicks[k], t) + ClickWeight(c, t)
    ensures Count(SetClick(w, k, c), t) == Count(w, t)
  {
    ClickUpdate(w.clicks, k, c, t);
  }

  lemma FinishCounts(w: World, k: nat, task: nat, t: nat)
    requires k < |w.clicks|
    ensures Load(Finish(w, k, task), t) == Load(w, t) - ClickWeight(w.clicks[k], t)
    ensures Count(Finish(w, k, task), t) == Count(w, t)
  {
    SetClickCounts(w, k, Ended, t);
  }

  lemma AfterRecordCounts(w: World, k: nat, row: nat, task: nat, batch: bool, t: nat)
    requires k < |w.clicks|
    ensures Load(AfterRecord(w, k, row, task, batch), t) == Load(w, t) - ClickWeight(w.clicks[k], t)
    ensures Count(AfterRecord(w, k, row, task, batch), t) == if t == task then Less(Count(w, t)) else Count(w, t)
  {
    hide PendingIn, InterruptingIn, Load, Count, BatchIds, PendingIds;
    var w' := Decrement(w, task);
    var todo := if batch then BatchIds(w.rows, task, row) else [];
    DecrementCounts(w, task, t);
    FinishCounts(w', k, task, t);
    SetClickCounts(w', k, Batching(row, task, todo), t);
  }

  /** Whether a click on this row still has to interrupt the turn before it can count the decision. */
  ghost predicate Interrupts(w: World, id: nat, action: Action)
    requires id < |w.rows| && w.rows[id].task < |w.tasks|
  {
    action.Cancel? && w.rows[id].kind.Permissions? && w.tasks[w.rows[id].task].turnActive
  }

  lemma DeliverCounts(w: World, k: nat, id: nat, action: Action, ok: bool, watch: set<nat>, t: nat)
    requires k < |w.clicks| && w.clicks[k] == Sending(id, action)
    requires id < |w.rows| && w.rows[id].task < |w.tasks|
    ensures var w' := DeliverClick(w, k, id, action, ok, watch);
            if !ok then Load(w', t) == Load(w, t) && Count(w', t) == Count(w, t)
            else if Interrupts(w, id, action) then
              Load(w', t) == Load(w, t) - Weight(w.rows[id], t) + (if t == w.rows[id].task then 1 else 0)
              && Count(w', t) == Count(w, t)
            else
              Load(w', t) == Load(w, t) - Weight(w.rows[id], t)
              && Count(w', t) == if t == w.rows[id].task then Less(Count(w, t)) else Count(w, t)
  {
    hide OwedIn, InterruptingIn, Load, Count, Weight, AfterRecord, Decide, NoteError, SetClick;
    var task := w.rows[id].task;
    NoteCounts(w, id, t);
    DecideCounts(w, id, action, watch, t);
    var d := Decide(w, id, action, watch);
    NoteKeepsClicks(w, id);
    SetClickCounts(NoteError(w, id), k, Ended, t);
    SetClickCounts(d, k, Interrupting(id, task), t);
    AfterRecordCounts(d, k, id, task, action.ApproveSession? && w.rows[id].kind.Command?, t);
  }

  lemma NoteKeepsClicks(w: World, id: nat)
    ensures NoteError(w, id).clicks == w.clicks
  {
  }

  lemma BatchCounts(w: World, k: nat, id: nat, task: nat, todo: seq<nat>, ok: bool, watch: set<nat>, t: nat)
    requires k < |w.clicks| && w.clicks[k].Batching? && todo != [] && todo[0] < |w.rows|
    ensures var w' := DeliverBatch(w, k, id, task, todo, ok, watch);
            if !ok then Load(w', t) == Load(w, t) && Count(w', t) == Count(w, t)
            else
              Load(w', t) == Load(w, t) - Weight(w.rows[todo[0]], t)
              && Count(w', t) == if t == task then Less(Count(w, t)) else Count(w, t)
  {
    hide OwedIn, InterruptingIn, Load, Count, Weight, Decide, NoteError, SetClick, Finish;
    var p := todo[0];
    NoteCounts(w, p, t);
    NoteKeepsClicks(w, p);
    DecideCounts(w, p, ApproveSession, watch, t);
    var d := Decide(w, p, ApproveSession, watch);
    DecrementCounts(d, task, t);
    var w1 := if ok then Decrement(d, task) else NoteError(w, p);
    FinishCounts(w1, k, task, t);
    SetClickCounts(w1, k, Batching(id, task, todo[1..]), t);
  }

  // ---- Bound in every interleaving ----

  ghost predicate ClickOk(rows: seq<Row>, tasks: seq<Task>, c: Click) {
    match c
    case Sending(row, _) => row < |rows| && rows[row].task < |tasks|
    case Interrupting(row, task) => row < |rows| && rows[row].task == task && task < |tasks|
    case Batching(_, task, todo) =>
      todo != [] && task < |tasks| && forall i :: 0 <= i < |todo| ==> todo[i] < |rows| && rows[todo[i]].task == task
    case Ended => true
  }

  ghost predicate ClicksOk(w: World) {
    forall k :: 0 <= k < |w.clicks| ==> ClickOk(w.rows, w.tasks, w.clicks[k])
  }

  lemma {:induction false} BatchIdsAreRows(rows: seq<Row>, task: nat, clicked: nat)
    ensures forall i :: 0 <= i < |BatchIds(rows, task, clicked)| ==>
              var p := BatchIds(rows, task, clicked)[i];
              p < |rows| && rows[p].task == task && rows[p].status.Pending? && rows[p].kind.Command? && p != clicked
    ensures forall i, j :: 0 <= i < j < |BatchIds(rows, task, clicked)| ==>
              BatchIds(rows, task, clicked)[i] < BatchIds(rows, task, clicked)[j]
    ensures forall p :: 0 <= p < |rows| && rows[p].task == task && rows[p].status.Pending? && rows[p].kind.Command? && p != clicked
              ==> p in BatchIds(rows, task, clicked)
  {
    if rows != [] {
      BatchIdsAreRows(rows[..|rows| - 1], task, clicked);
    }
  }

  /** What a step does to the clicks: nothing, one more click, or a new phase for one click. */
  ghost predicate ClickMoves(w: World, step: Step, w': World) {
    && |w'.tasks| == |w.tasks|
    && match step
       case Begin(id, action, _) =>
         exists c :: w'.clicks == w.clicks + [c] && (c.Ended? || (c == Sending(id, action) && id < |w.rows|
                       && w.rows[id].task < |w.tasks| && w.rows[id].status.Pending? && w'.rows == w.rows))
       case Deliver(k, _, _) => MovesOne(w, k, w')
       case InterruptDone(k) => MovesOne(w, k, w')
       case BatchDeliver(k, _, _) => MovesOne(w, k, w')
       case _ => w'.clicks == w.clicks
  }

  ghost predicate MovesOne(w: World, k: nat, w': World) {
    || w' == w
    || (k < |w.clicks| && !w.clicks[k].Ended? && exists c :: w'.clicks == w.clicks[k := c] && PhaseAfter(w, w.clicks[k], w', c))
  }

  /** The phase that may follow `c`. */
  ghost predicate PhaseAfter(w: World, c: Click, w': World, c': Click) {
    || c'.Ended?
    || (c.Sending? && c.row < |w.rows| && c'.Interrupting? && c' == Interrupting(c.row, w.rows[c.row].task))
    || (c.Sending? && c.row < |w.rows| && c'.Batching? && c'.todo != [] && c'.row == c.row && c'.task == w.rows[c.row].task
        && c'.todo == BatchIds(w'.rows, c'.task, c.row))
    || (c.Batching? && |c.todo| > 1 && c' == Batching(c.row, c.task, c.todo[1..]))
  }

  lemma AfterRecordMoves(w: World, k: nat, row: nat, task: nat, batch: bool)
    requires k < |w.clicks|
    ensures var w' := AfterRecord(w, k, row, task, batch);
            && |w'.tasks| == |w.tasks| && w'.rows == w.rows
            && (w'.clicks == w.clicks[k := Ended]
                || (batch && BatchIds(w.rows, task, row) != []
                    && w'.clicks == w.clicks[k := Batching(row, task, BatchIds(w.rows, task, row))]))
  {
    hide BatchIds, PendingIds;
  }

  lemma DecideMoves(w: World, id: nat, action: Action, watch: set<nat>)
    requires id < |w.rows|
    ensures Decide(w, id, action, watch).clicks == w.clicks && |Decide(w, id, action, watch).tasks| == |w.tasks|
  {
  }

  lemma DeliverMoves(w: World, k: nat, id: nat, action: Action, ok: bool, watch: set<nat>)
    requires k < |w.clicks| && w.clicks[k] == Sending(id, action)
    ensures |DeliverClick(w, k, id, action, ok, watch).tasks| == |w.tasks|
    ensures MovesOne(w, k, DeliverClick(w, k, id, action, ok, watch))
  {
    hide BatchIds, PendingIds, Decide, AfterRecord;
    var w' := DeliverClick(w, k, id, action, ok, watch);
    if id < |w.rows| && w.rows[id].task < |w.tasks| {
      var task := w.rows[id].task;
      var d := Decide(w, id, action, watch);
      DecideMoves(w, id, action, watch);
      AfterRecordMoves(d, k, id, task, action.ApproveSession? && w.rows[id].kind.Command?);
      if ok && !Interrupts(w, id, action) {
        var c := w'.clicks[k];
        assert w'.clicks == w.clicks[k := c] && PhaseAfter(w, w.clicks[k], w', c);
      } else if ok {
        assert PhaseAfter(w, w.clicks[k], w', Interrupting(id, task));
      } else {
        assert PhaseAfter(w, w.clicks[k], w', Ended);
      }
    }
  }

  /**
   What a delivery leads to: the turn is interrupted exactly for a cancelled permission request whose turn is active, a
   batch follows exactly a session approval of a command while another command of the task is pending, and otherwise the
   click is over.  The counter goes down at once unless the turn is to be interrupted first.
   */
  lemma DeliveryLeadsTo(w: World, k: nat, id: nat, action: Action, ok: bool, watch: set<nat>)
    requires k < |w.clicks| && w.clicks[k] == Sending(id, action) && id < |w.rows| && w.rows[id].task < |w.tasks|
    ensures var w' := Next(w, Deliver(k, ok, watch));
            var row, task := w.rows[id], w.rows[id].task;
            && |w'.clicks| == |w.clicks| && |w'.rows| == |w.rows| && |w'.tasks| == |w.tasks|
            && (w'.clicks[k].Interrupting? <==> ok && action.Cancel? && row.kind.Permissions? && w.tasks[task].turnActive)
            && (w'.clicks[k].Batching? <==>
                  && ok && action.ApproveSession? && row.kind.Command?
                  && exists p: nat :: p < |w'.rows| && p != id && w'.rows[p].task == task && w'.rows[p].status.Pending? && w'.rows[p].kind.Command?)
            && (w'.clicks[k].Ended? || w'.clicks[k].Interrupting? || w'.clicks[k].Batching?)
            && w'.tasks[task].pending == if ok && !w'.clicks[k].Interrupting? then Less(w.tasks[task].pending) else w.tasks[task].pending
  {
    hide BatchIds, PendingIds, Decide;
    var row, task := w.rows[id], w.rows[id].task;
    var d := Decide(w, id, action, watch);
    DecideShape(w, id, action, watch);
    BatchIdsAreRows(d.rows, task, id);
    AfterRecordPhase(d, k, id, task, action.ApproveSession? && row.kind.Command?);
    if BatchIds(d.rows, task, id) != [] {
      var p := BatchIds(d.rows, task, id)[0];
      assert p < |d.rows| && p != id && d.rows[p].task == task && d.rows[p].status.Pending? && d.rows[p].kind.Command?;
    }
  }

  lemma DecideShape(w: World, id: nat, action: Action, watch: set<nat>)
    requires id < |w.rows|
    ensures var d := Decide(w, id, action, watch); |d.rows| == |w.rows| && d.tasks == w.tasks && d.clicks == w.clicks
  {
    hide ProjectRows, ReadsApproved;
  }

  lemma AfterRecordPhase(w: World, k: nat, row: nat, task: nat, batch: bool)
    requires k < |w.clicks| && task < |w.tasks|
    ensures var w' := AfterRecord(w, k, row, task, batch);
            && w'.rows == w.rows && |w'.clicks| == |w.clicks| && |w'.tasks| == |w.tasks|
            && (w'.clicks[k].Batching? <==> batch && BatchIds(w.rows, task, row) != [])
            && (w'.clicks[k].Batching? || w'.clicks[k].Ended?) && w'.tasks[task].pending == Less(w.tasks[task].pending)
  {
    hide BatchIds, PendingIds;
  }

  lemma BatchMoves(w: World, k: nat, ok: bool, watch: set<nat>)
    requires k < |w.clicks| && w.clicks[k].Batching? && w.clicks[k].todo != []
    ensures var c := w.clicks[k]; |DeliverBatch(w, k, c.row, c.task, c.todo, ok, watch).tasks| == |w.tasks|
    ensures var c := w.clicks[k]; MovesOne(w, k, DeliverBatch(w, k, c.row, c.task, c.todo, ok, watch))
  {
    hide PendingIds, Decide;
    var c := w.clicks[k];
    var w' := DeliverBatch(w, k, c.row, c.task, c.todo, ok, watch);
    if c.todo[0] < |w.rows| { DecideMoves(w, c.todo[0], ApproveSession, watch); }
    var c' := if |c.todo| == 1 then Ended else Batching(c.row, c.task, c.todo[1..]);
    assert w'.clicks == w.clicks[k := c'] && PhaseAfter(w, c, w', c');
  }

  lemma BeginMoves(w: World, id: nat, action: Action, writable: bool)
    ensures ClickMoves(w, Begin(id, action, writable), BeginClick(w, id, action, writable))
  {
    var w' := BeginClick(w, id, action, writable);
    var c := w'.clicks[|w.clicks|];
    assert w'.clicks == w.clicks + [c];
  }

  lemma NextMoves(w: World, step: Step)
    ensures ClickMoves(w, step, Next(w, step))
  {
    hide DeliverClick, DeliverBatch, AfterRecord, BeginClick, MovesOne;
    match step
    case Begin(id, action, writable) => BeginMoves(w, id, action, writable);
    case Deliver(k, ok, watch) =>
      StandStill(w, k);
      if k < |w.clicks| && w.clicks[k].Sending? { DeliverMoves(w, k, w.clicks[k].row, w.clicks[k].action, ok, watch); }
    case InterruptDone(k) =>
      StandStill(w, k);
      if k < |w.clicks| && w.clicks[k].Interrupting? {
        AfterRecordMoves(w, k, w.clicks[k].row, w.clicks[k].task, false);
        Ends(w, k, AfterRecord(w, k, w.clicks[k].row, w.clicks[k].task, false));
      }
    case BatchDeliver(k, ok, watch) =>
      StandStill(w, k);
      if k < |w.clicks| && w.clicks[k].Batching? && w.clicks[k].todo != [] { BatchMoves(w, k, ok, watch); }
    case _ =>
  }

  lemma StandStill(w: World, k: nat)
    ensures MovesOne(w, k, w)
  {
  }

  lemma Ends(w: World, k: nat, w': World)
    requires k < |w.clicks| && !w.clicks[k].Ended? && w'.clicks == w.clicks[k := Ended]
    ensures MovesOne(w, k, w')
  {
    assert PhaseAfter(w, w.clicks[k], w', Ended);
  }

  lemma PhaseKeepsOk(w: World, c: Click, w': World, c': Click)
    requires ClickOk(w.rows, w.tasks, c) && RowsKept(w.rows, w'.rows) && |w'.tasks| == |w.tasks|
    requires c' == c || PhaseAfter(w, c, w', c')
    ensures ClickOk(w'.rows, w'.tasks, c')
  {
    hide BatchIds;
    if c'.Batching? { BatchIdsAreRows(w'.rows, c'.task, c'.row); }
  }

  lemma NextKeepsClicks(w: World, step: Step)
    requires ClicksOk(w)
    ensures ClicksOk(Next(w, step))
  {
    hide Next, Booked, BatchIds, ClickOk, PhaseAfter, RowsKept;
    var w' := Next(w, step);
    NextMoves(w, step);
    NextBooks(w, step);
    BookedKeepsRows(w, step);
    forall k | 0 <= k < |w'.clicks| ensures ClickOk(w'.rows, w'.tasks, w'.clicks[k]) {
      if k < |w.clicks| {
        assert ClickOk(w.rows, w.tasks, w.clicks[k]);
        PhaseKeepsOk(w, w.clicks[k], w', w'.clicks[k]);
      } else {
        NewClickOk(w', w'.clicks[k]);
      }
    }
  }

  lemma NewClickOk(w: World, c: Click)
    requires c.Ended? || (c.Sending? && c.row < |w.rows| && w.rows[c.row].task < |w.tasks|)
    ensures ClickOk(w.rows, w.tasks, c)
  {
  }

  /** One step never lets a counter overtake the rows and interrupts it stands for. */
  lemma NextKeepsBound(w: World, step: Step, t: nat)
    requires ClicksOk(w) && Count(w, t) <= Load(w, t)
    ensures Count(Next(w, step), t) <= Load(Next(w, step), t)
  {
    hide PendingIn, InterruptingIn, AfterRecord, DeliverClick, DeliverBatch, ResolveRow, Decrement;
    match step
    case Begin(id, action, writable) => BeginKeepsBound(w, id, action, writable, t);
    case Deliver(k, ok, watch) =>
      if k < |w.clicks| && w.clicks[k].Sending? {
        assert ClickOk(w.rows, w.tasks, w.clicks[k]);
        DeliverCounts(w, k, w.clicks[k].row, w.clicks[k].action, ok, watch, t);
      }
    case InterruptDone(k) =>
      if k < |w.clicks| && w.clicks[k].Interrupting? {
        AfterRecordCounts(w, k, w.clicks[k].row, w.clicks[k].task, false, t);
      }
    case BatchDeliver(k, ok, watch) =>
      if k < |w.clicks| && w.clicks[k].Batching? {
        assert ClickOk(w.rows, w.tasks, w.clicks[k]);
        BatchCounts(w, k, w.clicks[k].row, w.clicks[k].task, w.clicks[k].todo, ok, watch, t);
      }
    case Consume(counted, managed) => NoticeCounts(w, counted, managed, t);
    case _ =>
  }

  /** A new row owes as much as it counts, unless it was not counted; a projected answer leaves what is owed. */
  lemma NoticeCounts(w: World, counted: bool, managed: bool, t: nat)
    ensures var w' := TakeNotice(w, counted, managed);
            && Load(w', t) == Load(w, t) + (if NewRowOf(w, t) then 1 else 0)
            && Count(w', t) == Count(w, t) + if NewRowOf(w, t) && counted then 1 else 0
  {
    hide Known, OwedIn, InterruptingIn, InsertRow, ProjectLatest;
    if w.queue != [] {
      var n, rest := w.queue[0], w.(queue := w.queue[1..]);
      match n
      case Requested(_, _, _, _, _) => if n.task < |w.tasks| { InsertCounts(rest, n, counted, t); }
      case Resolved(request, approved) => LatestCounts(rest, request, approved, t);
    }
  }

  lemma InsertCounts(w: World, n: Notice, counted: bool, t: nat)
    requires n.Requested? && n.task < |w.tasks|
    ensures var w' := InsertRow(w, n, counted);
            && Load(w', t) == Load(w, t) + (if n.task == t then 1 else 0)
            && Count(w', t) == Count(w, t) + if n.task == t && counted then 1 else 0
  {
    assert InsertRow(w, n, counted).rows[..|w.rows|] == w.rows;
  }

  /** The bridge's next event makes a row of task `t`. */
  predicate NewRowOf(w: World, t: nat) {
    w.queue != [] && w.queue[0].Requested? && w.queue[0].task == t < |w.tasks| && !Known(w.rows, t, w.queue[0].request)
  }

  lemma LatestCounts(w: World, request: string, approved: bool, t: nat)
    ensures Load(ProjectLatest(w, request, approved), t) == Load(w, t)
    ensures Count(ProjectLatest(w, request, approved), t) == Count(w, t)
  {
    hide OwedIn, ProjectRows;
    var r := LatestRow(w.rows, request);
    if r.Some? { ProjectCounts(w.rows, {w.rows[r.value].task}, request, Verdict(approved), |w.rows|, None, t); }
  }

  lemma BeginCounts(w: World, id: nat, action: Action, writable: bool, t: nat)
    ensures var w' := BeginClick(w, id, action, writable);
            if id < |w.rows| && w.rows[id].task < |w.tasks| && Terminal(w.tasks[w.rows[id].task].status) then
              && Load(w', t) == Load(w, t) - Weight(w.rows[id], t)
              && Count(w', t) == if t == w.rows[id].task then Less(Count(w, t)) else Count(w, t)
            else Load(w', t) == Load(w, t) && Count(w', t) == Count(w, t)
  {
    hide PendingIn, InterruptingIn, ResolveRow, Decrement;
    NewClick(w.clicks, Ended, t);
    NewClick(w.clicks, Sending(id, action), t);
    if id < |w.rows| {
      var r := ResolveRow(w, id, Cancelled, "task_terminal", TaskOver);
      ResolveCounts(w, id, Cancelled, "task_terminal", TaskOver, t);
      DecrementCounts(r, w.rows[id].task, t);
      ResolveKeepsClicks(w, id);
    }
  }

  lemma ResolveKeepsClicks(w: World, id: nat)
    requires id < |w.rows|
    ensures Decrement(ResolveRow(w, id, Cancelled, "task_terminal", TaskOver), w.rows[id].task).clicks == w.clicks
  {
  }

  lemma BeginKeepsBound(w: World, id: nat, action: Action, writable: bool, t: nat)
    requires Count(w, t) <= Load(w, t)
    ensures Count(BeginClick(w, id, action, writable), t) <= Load(BeginClick(w, id, action, writable), t)
  {
    hide PendingIn, InterruptingIn, BeginClick;
    BeginCounts(w, id, action, writable, t);
  }

  ghost predicate Zeroed(tasks: seq<Task>) {
    forall t :: 0 <= t < |tasks| ==> tasks[t].pending == 0
  }

  /**
   In every interleaving the counter of a task is at most its owed rows plus the clicks that have recorded a decision and
   are still interrupting the turn; so once no click is interrupting and no answer was projected onto another row it is at
   most the pending rows.
   */
  lemma {:induction false} CounterBounded(tasks: seq<Task>, steps: seq<Step>, t: nat)
    requires Zeroed(tasks)
    ensures var w := Run(Initial(tasks), steps);
            ClicksOk(w) && Count(w, t) <= OwedIn(w.rows, t) + InterruptingIn(w.clicks, t)
  {
    hide Next, OwedIn, InterruptingIn, ClicksOk;
    if steps == [] {
      NoClicks(tasks);
    } else {
      var before := Run(Initial(tasks), steps[..|steps| - 1]);
      CounterBounded(tasks, steps[..|steps| - 1], t);
      NextKeepsClicks(before, steps[|steps| - 1]);
      NextKeepsBound(before, steps[|steps| - 1], t);
    }
  }

  lemma NoClicks(tasks: seq<Task>)
    ensures ClicksOk(Initial(tasks))
  {
  }

  // ---- When the counter is accurate ----

  /** The step decides a row that is decided already, or makes a row without counting it. */
  ghost predicate Slips(w: World, step: Step, t: nat) {
    match step
    case Consume(counted, _) => NewRowOf(w, t) && !counted
    case Begin(id, _, _) =>
      id < |w.rows| && w.rows[id].task == t < |w.tasks| && Terminal(w.tasks[t].status) && !w.rows[id].status.Pending? && Count(w, t) > 0
    case Deliver(k, ok, _) =>
      && ok && k < |w.clicks| && w.clicks[k].Sending? && w.clicks[k].row < |w.rows|
      && w.rows[w.clicks[k].row].task == t < |w.tasks| && !w.rows[w.clicks[k].row].status.Pending?
      && (Interrupts(w, w.clicks[k].row, w.clicks[k].action) || Count(w, t) > 0)
    case BatchDeliver(k, ok, _) =>
      && ok && k < |w.clicks| && w.clicks[k].Batching? && w.clicks[k].task == t
      && w.clicks[k].todo != [] && w.clicks[k].todo[0] < |w.rows| && !w.rows[w.clicks[k].todo[0]].status.Pending?
      && Count(w, t) > 0
    case _ => false
  }

  /** An accurate counter stays accurate exactly if the step does not slip. */
  lemma StaysAccurateExactly(w: World, step: Step, t: nat)
    requires ClicksOk(w) && Count(w, t) == Load(w, t)
    ensures Count(Next(w, step), t) == Load(Next(w, step), t) <==> !Slips(w, step, t)
  {
    hide OwedIn, InterruptingIn, AfterRecord, DeliverClick, DeliverBatch, BeginClick, TakeNotice;
    match step
    case Begin(id, action, writable) =>
      BeginCounts(w, id, action, writable, t);
      if id < |w.rows| { ResolveCounts(w, id, Cancelled, "", TaskOver, t); }
    case Deliver(k, ok, watch) =>
      if k < |w.clicks| && w.clicks[k].Sending? {
        var c := w.clicks[k];
        assert ClickOk(w.rows, w.tasks, c);
        DeliverCounts(w, k, c.row, c.action, ok, watch, t);
        ResolveCounts(w, c.row, Cancelled, "", TaskOver, t);
      }
    case InterruptDone(k) =>
      if k < |w.clicks| && w.clicks[k].Interrupting? {
        AfterRecordCounts(w, k, w.clicks[k].row, w.clicks[k].task, false, t);
        ClickUpdate(w.clicks, k, Ended, t);
      }
    case BatchDeliver(k, ok, watch) =>
      if k < |w.clicks| && w.clicks[k].Batching? {
        var c := w.clicks[k];
        assert ClickOk(w.rows, w.tasks, c);
        BatchCounts(w, k, c.row, c.task, c.todo, ok, watch, t);
        ResolveCounts(w, c.todo[0], Cancelled, "", TaskOver, t);
      }
    case Consume(counted, managed) => NoticeCounts(w, counted, managed, t);
    case _ =>
  }

  ghost predicate AllAccurate(w: World, steps: seq<Step>, t: nat) {
    Count(Run(w, steps), t) == Load(Run(w, steps), t) && (steps != [] ==> AllAccurate(w, steps[..|steps| - 1], t))
  }

  ghost predicate NoneSlips(w: World, steps: seq<Step>, t: nat) {
    steps == [] || (NoneSlips(w, steps[..|steps| - 1], t) && !Slips(Run(w, steps[..|steps| - 1]), steps[|steps| - 1], t))
  }

  /** Over any run from an empty ledger, the counter is accurate throughout exactly if no step slips. */
  lemma {:induction false} AccurateExactly(tasks: seq<Task>, steps: seq<Step>, t: nat)
    requires Zeroed(tasks)
    ensures ClicksOk(Run(Initial(tasks), steps))
    ensures AllAccurate(Initial(tasks), steps, t) <==> NoneSlips(Initial(tasks), steps, t)
  {
    hide Next, ClicksOk, Slips, Load, Count;
    if steps == [] {
      NoClicks(tasks);
      NothingOwed(tasks, t);
    } else {
      var shorter := steps[..|steps| - 1];
      AccurateExactly(tasks, shorter, t);
      NextKeepsClicks(Run(Initial(tasks), shorter), steps[|steps| - 1]);
      if AllAccurate(Initial(tasks), shorter, t) {
        StaysAccurateExactly(Run(Initial(tasks), shorter), steps[|steps| - 1], t);
      }
    }
  }

  lemma NothingOwed(tasks: seq<Task>, t: nat)
    requires Zeroed(tasks)
    ensures Count(Initial(tasks), t) == Load(Initial(tasks), t) == 0
  {
  }

  // ---- Runs that show what can go wrong ----

  ghost const ONE_ASKED: World := World(
    [Row(0, "q", 0, Permissions, PLAIN, Pending, "", Open)], [Task(Running, 1, true)], map["q" := 0], 1, [], [], [])

  ghost const ASK_PERMISSION: seq<Step> := [Arrive(0, "q", Permissions, PLAIN), Consume(true, false)]

  ghost const CANCEL_WAITING: seq<Step> := [TaskMoves(0, WaitingApproval), Begin(0, Cancel, true), Deliver(0, true, {})]

  /** A run reaches a cancelled permission request whose turn is being interrupted, one decision ahead of its counter. */
  lemma InterruptWindow()
    ensures var w := Run(Initial([Task(Running, 0, true)]), ASK_PERMISSION + CANCEL_WAITING);
            Count(w, 0) == 1 && OwedIn(w.rows, 0) == 0 && InterruptingIn(w.clicks, 0) == 1
  {
    hide Run, Next;
    var w0 := Initial([Task(Running, 0, true)]);
    RunSplit(w0, ASK_PERMISSION, CANCEL_WAITING);
    TwoSteps(w0, ASK_PERMISSION[0], ASK_PERMISSION[1]);
    PermissionAsked();
    ThreeSteps(ONE_ASKED, CANCEL_WAITING[0], CANCEL_WAITING[1], CANCEL_WAITING[2]);
    WaitingClicked();
    CancelRecorded();
  }

  lemma PermissionAsked()
    ensures Next(Next(Initial([Task(Running, 0, true)]), ASK_PERMISSION[0]), ASK_PERMISSION[1]) == ONE_ASKED
  {
    assert Next(Initial([Task(Running, 0, true)]), ASK_PERMISSION[0]).queue == [Requested(0, 0, "q", Permissions, PLAIN)];
  }

  ghost const WAITING: World := ONE_ASKED.(tasks := [Task(WaitingApproval, 1, true)], clicks := [Sending(0, Cancel)])

  lemma WaitingClicked()
    ensures Next(Next(ONE_ASKED, TaskMoves(0, WaitingApproval)), Begin(0, Cancel, true)) == WAITING
  {
    assert Next(ONE_ASKED, TaskMoves(0, WaitingApproval)) == ONE_ASKED.(tasks := [Task(WaitingApproval, 1, true)]);
  }

  lemma CancelRecorded()
    ensures var w := Next(WAITING, Deliver(0, true, {}));
            Count(w, 0) == 1 && OwedIn(w.rows, 0) == 0 && InterruptingIn(w.clicks, 0) == 1
  {
    hide PendingIds, BatchIds, OwedIn, InterruptingIn;
    var w := Next(WAITING, Deliver(0, true, {}));
    assert w.clicks == [Interrupting(0, 0)] && |w.rows| == 1 && !Owes(w.rows[0]);
    OneRow(w.rows);
    OneClick(w.clicks);
  }

  lemma OneRow(rows: seq<Row>)
    requires |rows| == 1
    ensures forall t :: OwedIn(rows, t) == OwedWeight(rows[0], t) && PendingIn(rows, t) == Weight(rows[0], t)
  {
    assert rows[..0] == [];
  }

  lemma OneClick(clicks: seq<Click>)
    requires |clicks| == 1
    ensures forall t :: InterruptingIn(clicks, t) == ClickWeight(clicks[0], t)
  {
    assert clicks[..0] == [];
  }

  ghost const TWO_ASKED: World := World(
    [Row(0, "a", 0, Command, PLAIN, Pending, "", Open), Row(0, "b", 1, Command, PLAIN, Pending, "", Open)],
    [Task(Running, 2, false)], map["a" := 0, "b" := 1], 2, [], [], [Sending(0, Deny), Sending(0, Deny)])

  /** Two clicks under way on one row slip: with another row pending, the second delivery is counted too. */
  lemma OverlapSlips()
    ensures ClicksOk(TWO_ASKED) && Count(TWO_ASKED, 0) == Load(TWO_ASKED, 0) == 2
    ensures var w := Next(TWO_ASKED, Deliver(0, true, {}));
            Slips(w, Deliver(1, true, {}), 0) && Count(w, 0) == Load(w, 0)
            && Count(Next(w, Deliver(1, true, {})), 0) < Load(Next(w, Deliver(1, true, {})), 0)
  {
    hide PendingIds, BatchIds, OwedIn, InterruptingIn, Next;
    TwoOwed();
    var w := Next(TWO_ASKED, Deliver(0, true, {}));
    FirstDenied();
    StaysAccurateExactly(TWO_ASKED, Deliver(0, true, {}), 0);
    NextKeepsClicks(TWO_ASKED, Deliver(0, true, {}));
    StaysAccurateExactly(w, Deliver(1, true, {}), 0);
    NextKeepsBound(w, Deliver(1, true, {}), 0);
  }

  lemma TwoOwed()
    ensures Count(TWO_ASKED, 0) == Load(TWO_ASKED, 0) == 2
  {
    assert TWO_ASKED.rows[..1][..0] == [] && TWO_ASKED.clicks[..1][..0] == [];
    assert OwedIn(TWO_ASKED.rows[..1], 0) == 1;
    assert InterruptingIn(TWO_ASKED.clicks[..1], 0) == 0;
  }

  lemma FirstDenied()
    ensures var w := Next(TWO_ASKED, Deliver(0, true, {}));
            && |w.rows| == 2 && w.rows[0].status.Denied? && w.tasks == [Task(Running, 1, false)] && |w.clicks| == 2
            && w.rows[0].task == 0 && w.clicks[1] == Sending(0, Deny)
  {
    hide PendingIds, BatchIds;
  }

  ghost const ASK_TWO: seq<Step> :=
    [Arrive(0, "a", Command, PLAIN), Consume(true, false)] + [Arrive(0, "b", Command, PLAIN), Consume(true, false)]

  ghost const CLICK_TWICE: seq<Step> := [Begin(0, Deny, true), Begin(0, Deny, true)]

  /** That state is reached from an empty ledger by two requests and two clicks on the first. */
  lemma OverlapReached()
    ensures Run(Initial([Task(Running, 0, false)]), ASK_TWO + CLICK_TWICE) == TWO_ASKED
  {
    hide Run, Next;
    var w0 := Initial([Task(Running, 0, false)]);
    RunSplit(w0, ASK_TWO, CLICK_TWICE);
    RunSplit(w0, ASK_TWO[..2], ASK_TWO[2..]);
    assert ASK_TWO[..2] == [ASK_TWO[0], ASK_TWO[1]] && ASK_TWO[2..] == [ASK_TWO[2], ASK_TWO[3]] && ASK_TWO[..2] + ASK_TWO[2..] == ASK_TWO;
    TwoSteps(w0, ASK_TWO[0], ASK_TWO[1]);
    AskedFirst();
    TwoSteps(ASKED_ONCE, ASK_TWO[2], ASK_TWO[3]);
    AskedSecond();
    TwoSteps(TWO_ASKED.(clicks := []), CLICK_TWICE[0], CLICK_TWICE[1]);
    ClickedTwice();
  }

  ghost const ASKED_ONCE: World := World(
    [Row(0, "a", 0, Command, PLAIN, Pending, "", Open)], [Task(Running, 1, false)], map["a" := 0], 1, [], [], [])

  lemma AskedFirst()
    ensures Next(Next(Initial([Task(Running, 0, false)]), ASK_TWO[0]), ASK_TWO[1]) == ASKED_ONCE
  {
    assert Next(Initial([Task(Running, 0, false)]), ASK_TWO[0]).queue == [Requested(0, 0, "a", Command, PLAIN)];
  }

  lemma AskedSecond()
    ensures Next(Next(ASKED_ONCE, ASK_TWO[2]), ASK_TWO[3]) == TWO_ASKED.(clicks := [])
  {
    assert Next(ASKED_ONCE, ASK_TWO[2]).queue == [Requested(1, 0, "b", Command, PLAIN)];
  }

  lemma ClickedTwice()
    ensures Next(Next(TWO_ASKED.(clicks := []), CLICK_TWICE[0]), CLICK_TWICE[1]) == TWO_ASKED
  {
    assert Next(TWO_ASKED.(clicks := []), CLICK_TWICE[0]) == TWO_ASKED.(clicks := [Sending(0, Deny)]);
  }

  // ---- Callbacks one at a time ----

  /** No projection of the step reaches a row other than the one it decides. */
  ghost predicate Strayless(w: World, step: Step) {
    forall i: nat :: i < |Booked(w, step).rows| && Strayed(Booked(w, step).rows[i]) ==> i < |w.rows| && Strayed(w.rows[i])
  }

  predicate Strayed(r: Row) { r.closing.Projected? && !r.closing.own }

  /** A callback starts only when no other is under way and not on a task that is over, and rows are counted and not strayed onto. */
  ghost predicate Alone(w: World, step: Step) {
    && (step.Begin? ==>
          && (forall k :: 0 <= k < |w.clicks| ==> w.clicks[k].Ended?)
          && !(step.id < |w.rows| && w.rows[step.id].task < |w.tasks| && Terminal(w.tasks[w.rows[step.id].task].status)))
    && (step.Consume? ==> step.counted)
    && Strayless(w, step)
  }

  ghost predicate AllAlone(w: World, steps: seq<Step>) {
    steps == [] ||
    (AllAlone(w, steps[..|steps| - 1]) && Alone(Run(w, steps[..|steps| - 1]), steps[|steps| - 1]))
  }

  /** Every row the click has still to decide is pending, and is decided once. */
  ghost predicate Undecided(rows: seq<Row>, c: Click) {
    && (c.Sending? && c.row < |rows| ==> rows[c.row].status.Pending?)
    && (c.Batching? ==> (forall i :: 0 <= i < |c.todo| && c.todo[i] < |rows| ==> rows[c.todo[i]].status.Pending?)
                        && forall i, j :: 0 <= i < j < |c.todo| ==> c.todo[i] != c.todo[j])
  }

  ghost predicate SoloOk(w: World) {
    && (forall j, k :: 0 <= j < k < |w.clicks| ==> w.clicks[j].Ended? || w.clicks[k].Ended?)
    && (forall k :: 0 <= k < |w.clicks| ==> Undecided(w.rows, w.clicks[k]))
    && (forall i: nat :: i < |w.rows| ==> !Strayed(w.rows[i]))
  }

  /** Rows other than `except` stay pending, or are strayed onto. */
  ghost predicate PendingKept(rows: seq<Row>, rows': seq<Row>, except: int) {
    |rows| <= |rows'| &&
    forall i: nat :: i < |rows| && i != except && rows[i].status.Pending? ==> rows'[i].status.Pending? || Strayed(rows'[i])
  }

  /** The row that a step decides, or -1. */
  ghost function Decided(w: World, step: Step): int {
    match step
    case Begin(id, _, _) =>
      if id < |w.rows| && w.rows[id].task < |w.tasks| && Terminal(w.tasks[w.rows[id].task].status) then id else -1
    case Deliver(k, true, _) => if k < |w.clicks| && w.clicks[k].Sending? then w.clicks[k].row else -1
    case BatchDeliver(k, true, _) =>
      if k < |w.clicks| && w.clicks[k].Batching? && w.clicks[k].todo != [] then w.clicks[k].todo[0] else -1
    case _ => -1
  }

  lemma BookedKeepsPending(w: World, step: Step)
    ensures PendingKept(w.rows, Booked(w, step).rows, Decided(w, step))
  {
    hide Known, Decide, PendingKept, TakeNotice, NoteError, ResolveRow;
    PendingSelf(w, Decided(w, step));
    match step
    case Consume(counted, managed) => NoticeKeepsPending(w, counted, managed);
    case Begin(id, _, _) => if id < |w.rows| { WriteKeepsPending(w, id); }
    case Deliver(k, ok, watch) =>
      if k < |w.clicks| && w.clicks[k].Sending? && w.clicks[k].row < |w.rows| {
        WriteKeepsPending(w, w.clicks[k].row);
        DecideKeepsPending(w, w.clicks[k].row, w.clicks[k].action, watch);
      }
    case BatchDeliver(k, ok, watch) =>
      if k < |w.clicks| && w.clicks[k].Batching? && w.clicks[k].todo != [] && w.clicks[k].todo[0] < |w.rows| {
        WriteKeepsPending(w, w.clicks[k].todo[0]);
        DecideKeepsPending(w, w.clicks[k].todo[0], ApproveSession, watch);
      }
    case _ =>
  }

  lemma PendingSelf(w: World, except: int)
    ensures PendingKept(w.rows, w.rows, except)
  {
  }

  lemma NoticeKeepsPending(w: World, counted: bool, managed: bool)
    ensures PendingKept(w.rows, TakeNotice(w, counted, managed).rows, -1)
  {
    hide Known, ProjectRows;
  }

  lemma WriteKeepsPending(w: World, id: nat)
    requires id < |w.rows|
    ensures PendingKept(w.rows, NoteError(w, id).rows, -1)
    ensures PendingKept(w.rows, ResolveRow(w, id, Cancelled, "task_terminal", TaskOver).rows, id)
  {
  }

  lemma DecideKeepsPending(w: World, id: nat, action: Action, watch: set<nat>)
    requires id < |w.rows|
    ensures PendingKept(w.rows, Decide(w, id, action, watch).rows, id)
  {
    hide ProjectRows, ReadsApproved;
    var d := Decide(w, id, action, watch);
    forall i: nat | i < |w.rows| && i != id && w.rows[i].status.Pending? ensures d.rows[i].status.Pending? || Strayed(d.rows[i]) {
      assert d.rows[i] == Send(w, id, action, watch).rows[i];
    }
  }

  lemma NextKeepsSolo(w: World, step: Step)
    requires ClicksOk(w) && SoloOk(w) && Alone(w, step)
    ensures SoloOk(Next(w, step))
  {
    hide Next, Booked, BatchIds, Strayless;
    var w' := Next(w, step);
    NextMoves(w, step);
    NextBooks(w, step);
    BookedKeepsPending(w, step);
    StaysStrayless(w, step);
    forall k | 0 <= k < |w'.clicks| ensures Undecided(w'.rows, w'.clicks[k]) {
      if k < |w.clicks| { assert Undecided(w.rows, w.clicks[k]) && ClickOk(w.rows, w.tasks, w.clicks[k]); }
      var c := w'.clicks[k];
      if c.Batching? { BatchIdsAreRows(w'.rows, c.task, c.row); }
    }
  }

  lemma StaysStrayless(w: World, step: Step)
    requires SoloOk(w) && Alone(w, step)
    ensures forall i: nat :: i < |Booked(w, step).rows| ==> !Strayed(Booked(w, step).rows[i])
  {
    hide Booked;
  }

  lemma {:induction false} CounterExact(tasks: seq<Task>, steps: seq<Step>, t: nat)
    requires Zeroed(tasks) && AllAlone(Initial(tasks), steps)
    ensures var w := Run(Initial(tasks), steps);
            ClicksOk(w) && SoloOk(w) && Count(w, t) == Load(w, t)
  {
    hide Next, OwedIn, InterruptingIn, ClicksOk, SoloOk, Alone, Slips;
    if steps == [] {
      NoClicks(tasks);
      NothingOwed(tasks, t);
      NoSolo(tasks);
    } else {
      var before := Run(Initial(tasks), steps[..|steps| - 1]);
      CounterExact(tasks, steps[..|steps| - 1], t);
      NextKeepsClicks(before, steps[|steps| - 1]);
      NextKeepsSolo(before, steps[|steps| - 1]);
      AloneNeverSlips(before, steps[|steps| - 1], t);
      StaysAccurateExactly(before, steps[|steps| - 1], t);
    }
  }

  lemma AloneNeverSlips(w: World, step: Step, t: nat)
    requires ClicksOk(w) && SoloOk(w) && Alone(w, step)
    ensures !Slips(w, step, t)
  {
    hide Strayless, Booked;
    match step
    case Deliver(k, _, _) =>
      if k < |w.clicks| { assert Undecided(w.rows, w.clicks[k]); }
    case BatchDeliver(k, _, _) =>
      if k < |w.clicks| { assert Undecided(w.rows, w.clicks[k]); }
    case _ =>
  }

  lemma NoSolo(tasks: seq<Task>)
    ensures SoloOk(Initial(tasks))
  {
  }

  /** With callbacks that do not overlap, between callbacks the counter is exactly the number of pending rows. */
  lemma CounterExactBetweenCallbacks(tasks: seq<Task>, steps: seq<Step>, t: nat)
    requires Zeroed(tasks) && AllAlone(Initial(tasks), steps)
    requires forall k :: 0 <= k < |Run(Initial(tasks), steps).clicks| ==> Run(Initial(tasks), steps).clicks[k].Ended?
    ensures Count(Run(Initial(tasks), steps), t) == PendingIn(Run(Initial(tasks), steps).rows, t)
  {
    hide Run, PendingIn, OwedIn, InterruptingIn;
    CounterExact(tasks, steps, t);
    var w := Run(Initial(tasks), steps);
    AllEnded(w.clicks, t);
    OwedIsPending(w.rows, t);
    assert forall i: nat :: i < |w.rows| ==> !Strayed(w.rows[i]);
  }

  lemma {:induction false} AllEnded(clicks: seq<Click>, t: nat)
    requires forall k :: 0 <= k < |clicks| ==> clicks[k].Ended?
    ensures InterruptingIn(clicks, t) == 0
  {
    if clicks != [] { AllEnded(clicks[..|clicks| - 1], t); }
  }

  // ---- Task status ----

  lemma {:induction false} NonePending(rows: seq<Row>, task: nat)
    ensures PendingIds(rows, task) == [] <==> PendingIn(rows, task) == 0
  {
    if rows != [] { NonePending(rows[..|rows| - 1], task); }
  }

  /** The callback service moves a task only from waiting to running, and only when none of its rows is pending. */
  ghost predicate ServiceMoves(w: World, w': World) {
    forall t :: 0 <= t < |w.tasks| && t < |w'.tasks| && w'.tasks[t].status != w.tasks[t].status ==>
      w.tasks[t].status.WaitingApproval? && w'.tasks[t].status.Running? && PendingIn(w'.rows, t) == 0
  }

  lemma FinishMoves(w: World, k: nat, task: nat)
    ensures ServiceMoves(w, Finish(w, k, task))
    ensures task < |w.tasks| && Finish(w, k, task).tasks[task].status.WaitingApproval? ==> PendingIn(w.rows, task) > 0
  {
    NonePending(w.rows, task);
  }

  /** A click on task `task` that ends well leaves it waiting only if something is still pending. */
  lemma CallbackMovesTask(w: World, k: nat, step: Step, task: nat)
    requires ClicksOk(w) && k < |w.clicks| && !w.clicks[k].Ended? && task < |w.tasks|
    requires (step.Deliver? && step.click == k && step.ok) || step == InterruptDone(k) || (step.BatchDeliver? && step.click == k)
    requires match w.clicks[k]
             case Sending(row, _) => row < |w.rows| && w.rows[row].task == task
             case Interrupting(_, t) => t == task
             case Batching(_, t, _) => t == task
             case Ended => true
    ensures var w' := Next(w, step);
            && ServiceMoves(w, w')
            && (k < |w'.clicks| && w'.clicks[k].Ended? && task < |w'.tasks| && w'.tasks[task].status.WaitingApproval? ==>
                  PendingIn(w'.rows, task) > 0)
  {
    hide PendingIn, PendingIds, BatchIds, Decide, Finish, NoteError;
    var c := w.clicks[k];
    assert ClickOk(w.rows, w.tasks, c);
    match c
    case Sending(row, action) =>
      if step.Deliver? {
        DecideMoves(w, row, action, step.watch);
        SameTasks(w, row, action, step.watch);
        RecordMoves(Decide(w, row, action, step.watch), k, row, task, action.ApproveSession? && w.rows[row].kind.Command?);
      }
    case Interrupting(row, t) => RecordMoves(w, k, row, t, false);
    case Batching(row, t, todo) =>
      if step.BatchDeliver? {
        DecideMoves(w, todo[0], ApproveSession, step.watch);
        SameTasks(w, todo[0], ApproveSession, step.watch);
        NoteKeepsClicks(w, todo[0]);
        BatchRecordMoves(w, k, step.ok, step.watch);
      }
  }

  lemma SameTasks(w: World, id: nat, action: Action, watch: set<nat>)
    requires id < |w.rows|
    ensures Decide(w, id, action, watch).tasks == w.tasks && NoteError(w, id).tasks == w.tasks
  {
  }

  lemma RecordMoves(w: World, k: nat, row: nat, task: nat, batch: bool)
    requires k < |w.clicks|
    ensures var w' := AfterRecord(w, k, row, task, batch);
            && |w'.tasks| == |w.tasks| && w'.clicks != []
            && ServiceMoves(w, w')
            && (w'.clicks[k].Ended? && task < |w'.tasks| && w'.tasks[task].status.WaitingApproval? ==> PendingIn(w'.rows, task) > 0)
  {
    hide PendingIn, PendingIds, BatchIds;
    FinishMoves(Decrement(w, task), k, task);
  }

  lemma BatchRecordMoves(w: World, k: nat, ok: bool, watch: set<nat>)
    requires k < |w.clicks| && w.clicks[k].Batching? && w.clicks[k].todo != [] && w.clicks[k].todo[0] < |w.rows|
    ensures var c := w.clicks[k];
            var w' := DeliverBatch(w, k, c.row, c.task, c.todo, ok, watch);
            && ServiceMoves(w, w')
            && (k < |w'.clicks| && w'.clicks[k].Ended? && c.task < |w'.tasks| && w'.tasks[c.task].status.WaitingApproval? ==>
                  PendingIn(w'.rows, c.task) > 0)
  {
    hide PendingIn, PendingIds, Decide, NoteError, Finish;
    var c := w.clicks[k];
    var p := c.todo[0];
    SameTasks(w, p, ApproveSession, watch);
    DecideMoves(w, p, ApproveSession, watch);
    NoteKeepsClicks(w, p);
    var w1 := if ok then Decrement(Decide(w, p, ApproveSession, watch), c.task) else NoteError(w, p);
    FinishMoves(w1, k, c.task);
    FinishKeepsRows(w1, k, c.task);
  }

  lemma FinishKeepsRows(w: World, k: nat, task: nat)
    ensures Finish(w, k, task).rows == w.rows && |Finish(w, k, task).tasks| == |w.tasks|
  {
  }

  /** The send of `k`, the clicked row's or the next of its batch, fails. */
  predicate SendFails(w: World, k: nat, step: Step) {
    && k < |w.clicks|
    && ((w.clicks[k].Sending? && step.Deliver? && step.click == k && !step.ok)
        || (w.clicks[k].Batching? && step.BatchDeliver? && step.click == k && !step.ok))
  }

  /**
   A send that fails, of the clicked row or inside the batch, leaves every status, every counter and the client as they
   were; the clicked row's leaves the tasks too, and the last of a batch may only resume a task with nothing pending.
   */
  lemma FailedSendChangesNothing(w: World, k: nat, step: Step)
    requires ClicksOk(w) && SendFails(w, k, step)
    ensures var w' := Next(w, step);
            && w'.held == w.held && w'.answers == w.answers && |w'.rows| == |w.rows| && |w'.tasks| == |w.tasks|
            && (forall i :: 0 <= i < |w.rows| ==>
                  w'.rows[i].status == w.rows[i].status && w'.rows[i].closing == w.rows[i].closing)
            && (forall t :: 0 <= t < |w.tasks| ==> w'.tasks[t].pending == w.tasks[t].pending)
            && (step.Deliver? ==> w'.tasks == w.tasks)
            && ServiceMoves(w, w')
  {
    hide PendingIds, BatchIds, PendingIn, Finish;
    assert ClickOk(w.rows, w.tasks, w.clicks[k]);
    if step.BatchDeliver? {
      var c := w.clicks[k];
      var w1 := NoteError(w, c.todo[0]);
      FinishMoves(w1, k, c.task);
      FinishKeepsRows(w1, k, c.task);
      FinishKeepsCounts(w1, k, c.task);
    }
  }

  lemma FinishKeepsCounts(w: World, k: nat, task: nat)
    ensures var w' := Finish(w, k, task);
            && w'.held == w.held && w'.answers == w.answers
            && forall t :: 0 <= t < |w.tasks| && t < |w'.tasks| ==> w'.tasks[t].pending == w.tasks[t].pending
  {
    hide PendingIds;
  }
}
