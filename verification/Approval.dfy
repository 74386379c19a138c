/**
 Resolving approvals: a click answers the held request first and records the decision afterwards.

 A callback is split where it awaits: before the answer is delivered, before the turn of a cancelled
 permission request is interrupted, and before each further answer of a batch.  Any number of clicks may
 be under way at once, on the same approval too.  Rows, tasks and clicks are named by their index.

 Two other writers touch the rows.  While a chief-engineer prompt is open for a task, sending an answer projects its
 decision onto that task's pending row before the click records its own; and the bridge, which consumes the backend's
 events in order, both creates the rows of requests that arrived and projects answers that were given.
 */
module Approvals {
  import opened Options

  datatype Kind = Command | FileChange | Permissions

  datatype Status = Pending | Approved | Denied | Cancelled

  datatype Action = ApproveOnce | ApproveSession | Deny | Cancel

  /**
   How a row was closed: by a click; because its task was over; or by a projection, of an answer given through the row
   itself (`own`) or through another row with its id.  `answer` numbers the answer, if the request was still held.
   */
  datatype Closing = Open | ByClick(answer: Option<nat>) | TaskOver | Projected(own: bool, answer: Option<nat>)

  /**
   What decides the response for a row: whether the request speaks the older review protocol, proposes a policy
   amendment or asks for any permission at all, and whether the service allows approvals for a session.
   */
  datatype Shape = Shape(legacy: bool, amendment: bool, asks: bool, sessions: bool)

  const PLAIN: Shape := Shape(false, false, true, true)

  /** `serial` numbers the server request the row was created for; it is not in the ledger. */
  datatype Row = Row(
    task: nat, request: string, serial: nat, kind: Kind, shape: Shape, status: Status, resolution: string, closing: Closing)

  /** A backend event on its way to the bridge. */
  datatype Notice =
    | Requested(serial: nat, task: nat, request: string, kind: Kind, shape: Shape)
    | Resolved(request: string, approved: bool)

  datatype TaskStatus = Queued | Running | WaitingApproval | Paused | WaitingSlot | Done | Failed | Aborted | Archived

  datatype Task = Task(status: TaskStatus, pending: nat, turnActive: bool)

  /** A decision handed to the client: the row that was clicked, and the server request it went to. */
  datatype Answer = Answer(row: nat, serial: nat, action: Action)

  datatype Click =
    | Sending(row: nat, action: Action)
    | Interrupting(row: nat, task: nat)
    | Batching(row: nat, task: nat, todo: seq<nat>)
    | Ended

  /**
   `held` leads from an id to the server request the JSON-RPC client holds under it, `arrivals` counts the requests that
   ever came in, and `answers` are the decisions the client was given for requests it held.
   */
  datatype World = World(
    rows: seq<Row>,
    tasks: seq<Task>,
    held: map<string, nat>,
    arrivals: nat,
    answers: seq<Answer>,
    queue: seq<Notice>,
    clicks: seq<Click>)

  datatype Step =
    | Arrive(task: nat, request: string, kind: Kind, shape: Shape)
    | Consume(counted: bool, managed: bool)   // the bridge takes its next event
    | TaskMoves(task: nat, status: TaskStatus)
    | Forget(request: string)   // the client lets go of one request by itself
    | Disconnect                // the client is replaced by one that holds nothing
    | Begin(id: nat, action: Action, writable: bool)
    | Deliver(click: nat, ok: bool, watch: set<nat>)   // `watch`: the tasks with a projecting prompt
    | InterruptDone(click: nat)
    | BatchDeliver(click: nat, ok: bool, watch: set<nat>)

  function StatusOf(a: Action): Status {
    match a
    case ApproveOnce => Approved
    case ApproveSession => Approved
    case Deny => Denied
    case Cancel => Cancelled
  }

  function NameOf(a: Action): string {
    match a
    case ApproveOnce => "approve_once"
    case ApproveSession => "approve_session"
    case Deny => "deny"
    case Cancel => "cancel"
  }

  /** Whether a projection takes the response to an action for an approval. */
  predicate ReadsApproved(kind: Kind, shape: Shape, action: Action) {
    if shape.legacy then action.ApproveOnce? || (action.ApproveSession? && !shape.sessions)
    else if action.ApproveSession? && shape.sessions && kind.Command? && shape.amendment then true
    else if kind.Permissions? then (action.ApproveOnce? || action.ApproveSession?) && shape.asks
    else action.ApproveOnce? || action.ApproveSession?
  }

  function Verdict(approved: bool): Status { if approved then Approved else Denied }

  /** The status a projection gives a row for the response to an action. */
  function ProjectedStatus(kind: Kind, shape: Shape, action: Action): Status { Verdict(ReadsApproved(kind, shape, action)) }

  predicate Terminal(s: TaskStatus) { s.Done? || s.Failed? || s.Aborted? }

  // ---- Guarded ledger updates ----

  /** `UPDATE ... WHERE id = ? AND status = 'pending'`. */
  function ResolveRow(w: World, id: nat, status: Status, resolution: string, closing: Closing): World {
    if id < |w.rows| && w.rows[id].status.Pending? then
      w.(rows := w.rows[id := w.rows[id].(status := status, resolution := resolution, closing := closing)])
    else w
  }

  /** `set_approval_error`: the text is replaced whatever the status is. */
  function NoteError(w: World, id: nat): World {
    if id < |w.rows| then w.(rows := w.rows[id := w.rows[id].(resolution := "error")]) else w
  }

  function Decrement(w: World, task: nat): World {
    if task < |w.tasks| && w.tasks[task].pending > 0 then
      w.(tasks := w.tasks[task := w.tasks[task].(pending := w.tasks[task].pending - 1)])
    else w
  }

  /** `resolve_server_request`: an unknown id is ignored. */
  function AnswerRequest(w: World, id: nat, action: Action): World
    requires id < |w.rows|
  {
    var request := w.rows[id].request;
    if request in w.held then
      w.(held := w.held - {request}, answers := w.answers + [Answer(id, w.held[request], action)])
    else w
  }

  /** The guarded update of a projection, for the pending row of `request` in a task of `watch`. */
  function Hit(r: Row, i: nat, watch: set<nat>, request: string, status: Status, own: nat, answer: Option<nat>): Row {
    if r.status.Pending? && r.request == request && r.task in watch
    then r.(status := status, resolution := "", closing := Projected(i == own, answer)) else r
  }

  function ProjectRows(rows: seq<Row>, watch: set<nat>, request: string, status: Status, own: nat, answer: Option<nat>): (r: seq<Row>)
    ensures |r| == |rows| && forall i: nat :: i < |rows| ==> r[i] == Hit(rows[i], i, watch, request, status, own, answer)
  {
    if rows == [] then []
    else
      var n := |rows| - 1;
      ProjectRows(rows[..n], watch, request, status, own, answer) + [Hit(rows[n], n, watch, request, status, own, answer)]
  }

  /**
   `resolve_approval` of the backend: the client is given the answer, and the event of it goes to the bridge and to the
   projections of open prompts.
   */
  function Send(w: World, id: nat, action: Action, watch: set<nat>): World
    requires id < |w.rows|
  {
    var r := w.rows[id];
    var approved := ReadsApproved(r.kind, r.shape, action);
    var answer := if r.request in w.held then Some(|w.answers|) else None;
    AnswerRequest(w, id, action).(
      rows := ProjectRows(w.rows, watch, r.request, Verdict(approved), id, answer),
      queue := w.queue + [Resolved(r.request, approved)])
  }

  /** Send first, then record: the guarded update is made last. */
  function Decide(w: World, id: nat, action: Action, watch: set<nat>): World
    requires id < |w.rows|
  {
    var answer := if w.rows[id].request in w.held then Some(|w.answers|) else None;
    ResolveRow(Send(w, id, action, watch), id, StatusOf(action), NameOf(action), ByClick(answer))
  }

  /** `pending_approvals(task)`, oldest first. */
  function PendingIds(rows: seq<Row>, task: nat): seq<nat> {
    if rows == [] then []
    else
      var n := |rows| - 1;
      PendingIds(rows[..n], task) + if rows[n].task == task && rows[n].status.Pending? then [n] else []
  }

  /** The further approvals a session approval releases. */
  function BatchIds(rows: seq<Row>, task: nat, clicked: nat): seq<nat> {
    if rows == [] then []
    else
      var n := |rows| - 1;
      BatchIds(rows[..n], task, clicked)
      + if rows[n].task == task && rows[n].status.Pending? && n != clicked && rows[n].kind.Command? then [n] else []
  }

  predicate Known(rows: seq<Row>, task: nat, request: string) {
    exists i :: 0 <= i < |rows| && rows[i].task == task && rows[i].request == request
  }

  /** A request arrives: the client holds it under its id, in place of any earlier one, and the bridge is told. */
  function Hold(w: World, task: nat, request: string, kind: Kind, shape: Shape): World {
    w.(held := w.held[request := w.arrivals],
       arrivals := w.arrivals + 1,
       queue := w.queue + [Requested(w.arrivals, task, request, kind, shape)])
  }

  /** A request becomes a row; the task's counter goes up by one, unless a projection had inserted the row before. */
  function InsertRow(w: World, n: Notice, counted: bool): World
    requires n.Requested? && n.task < |w.tasks|
  {
    w.(rows := w.rows + [Row(n.task, n.request, n.serial, n.kind, n.shape, Pending, "", Open)],
       tasks := w.tasks[n.task := w.tasks[n.task].(pending := w.tasks[n.task].pending + if counted then 1 else 0)])
  }

  /** `get_approval_by_codex_id` without a task: the newest row of an id. */
  function LatestRow(rows: seq<Row>, request: string): (r: Option<nat>)
    ensures r.Some? ==> r.value < |rows| && rows[r.value].request == request
  {
    if rows == [] then None
    else if rows[|rows| - 1].request == request then Some(|rows| - 1)
    else LatestRow(rows[..|rows| - 1], request)
  }

  /** The bridge projects an answer onto the task of the newest row of its id, unless another service manages the task. */
  function ProjectLatest(w: World, request: string, approved: bool): World {
    var r := LatestRow(w.rows, request);
    if r.None? then w
    else w.(rows := ProjectRows(w.rows, {w.rows[r.value].task}, request, Verdict(approved), |w.rows|, None))
  }

  /** The bridge's next event: a request becomes a row unless its task is unknown or already has that id. */
  function TakeNotice(w: World, counted: bool, managed: bool): World {
    if w.queue == [] then w
    else
      var n, t := w.queue[0], w.(queue := w.queue[1..]);
      match n
      case Requested(_, task, request, _, _) =>
        if task >= |w.tasks| || Known(w.rows, task, request) then t else InsertRow(t, n, counted)
      case Resolved(request, approved) => if managed then t else ProjectLatest(t, request, approved)
  }

  // ---- The callback, segment by segment ----

  function SetClick(w: World, k: nat, c: Click): World {
    if k < |w.clicks| then w.(clicks := w.clicks[k := c]) else w
  }

  /** Step 9 of the callback: back to running if nothing is pending any more. */
  function Finish(w: World, k: nat, task: nat): World {
    var w' := SetClick(w, k, Ended);
    if task < |w.tasks| && w.tasks[task].status.WaitingApproval? && PendingIds(w.rows, task) == [] then
      w'.(tasks := w.tasks[task := w.tasks[task].(status := Running)])
    else w'
  }

  /** Steps 8 and 9: decrement, then the batch if there is one. */
  function AfterRecord(w: World, k: nat, row: nat, task: nat, batch: bool): World {
    var w' := Decrement(w, task);
    var todo := if batch then BatchIds(w.rows, task, row) else [];
    if todo == [] then Finish(w', k, task) else SetClick(w', k, Batching(row, task, todo))
  }

  function BeginClick(w: World, id: nat, action: Action, writable: bool): World {
    var k := |w.clicks|;
    if id >= |w.rows| || w.rows[id].task >= |w.tasks| then w.(clicks := w.clicks + [Ended])
    else if Terminal(w.tasks[w.rows[id].task].status) then
      Decrement(ResolveRow(w, id, Cancelled, "task_terminal", TaskOver), w.rows[id].task).(clicks := w.clicks + [Ended])
    else if !w.rows[id].status.Pending? then w.(clicks := w.clicks + [Ended])
    else if (action.ApproveOnce? || action.ApproveSession?) && !writable then w.(clicks := w.clicks + [Ended])
    else w.(clicks := w.clicks + [Sending(id, action)])
  }

  function DeliverClick(w: World, k: nat, id: nat, action: Action, ok: bool, watch: set<nat>): World {
    if id >= |w.rows| || w.rows[id].task >= |w.tasks| then w
    else if !ok then SetClick(NoteError(w, id), k, Ended)
    else
      var row := w.rows[id];
      var w' := Decide(w, id, action, watch);
      if action.Cancel? && row.kind.Permissions? && w.tasks[row.task].turnActive then
        SetClick(w', k, Interrupting(id, row.task))
      else
        AfterRecord(w', k, id, row.task, action.ApproveSession? && row.kind.Command?)
  }

  function DeliverBatch(w: World, k: nat, id: nat, task: nat, todo: seq<nat>, ok: bool, watch: set<nat>): World
    requires todo != []
  {
    var p := todo[0];
    var w' :=
      if p >= |w.rows| then w
      else if ok then Decrement(Decide(w, p, ApproveSession, watch), task)
      else NoteError(w, p);
    if todo[1..] == [] then Finish(w', k, task) else SetClick(w', k, Batching(id, task, todo[1..]))
  }

  function Next(w: World, step: Step): World {
    match step
    case Arrive(task, request, kind, shape) => Hold(w, task, request, kind, shape)
    case Consume(counted, managed) => TakeNotice(w, counted, managed)
    case TaskMoves(task, status) =>
      if task < |w.tasks| then w.(tasks := w.tasks[task := w.tasks[task].(status := status)]) else w
    case Forget(request) => w.(held := w.held - {request})
    case Disconnect => w.(held := map[])
    case Begin(id, action, writable) => BeginClick(w, id, action, writable)
    case Deliver(k, ok, watch) =>
      if k < |w.clicks| && w.clicks[k].Sending? then DeliverClick(w, k, w.clicks[k].row, w.clicks[k].action, ok, watch) else w
    case InterruptDone(k) =>
      if k < |w.clicks| && w.clicks[k].Interrupting? then
        AfterRecord(w, k, w.clicks[k].row, w.clicks[k].task, false)
      else w
    case BatchDeliver(k, ok, watch) =>
      if k < |w.clicks| && w.clicks[k].Batching? && w.clicks[k].todo != [] then
        DeliverBatch(w, k, w.clicks[k].row, w.clicks[k].task, w.clicks[k].todo, ok, watch)
      else w
  }

  function Run(w: World, steps: seq<Step>): World {
    if steps == [] then w else Next(Run(w, steps[..|steps| - 1]), steps[|steps| - 1])
  }

  function Initial(tasks: seq<Task>): World { World([], tasks, map[], 0, [], [], []) }

  // ---- What each step does to rows, held requests, answers and the bridge's queue ----

  ghost predicate SameBook(w: World, w': World) {
    w.rows == w'.rows && w.held == w'.held && w.arrivals == w'.arrivals && w.answers == w'.answers && w.queue == w'.queue
  }

  /** The one update of these that a step makes. */
  ghost function Booked(w: World, step: Step): World {
    match step
    case Arrive(task, request, kind, shape) => Hold(w, task, request, kind, shape)
    case Consume(counted, managed) => TakeNotice(w, counted, managed)
    case Forget(request) => w.(held := w.held - {request})
    case Disconnect => w.(held := map[])
    case Begin(id, _, _) =>
      if id < |w.rows| && w.rows[id].task < |w.tasks| && Terminal(w.tasks[w.rows[id].task].status) then
        ResolveRow(w, id, Cancelled, "task_terminal", TaskOver)
      else w
    case Deliver(k, ok, watch) =>
      if k < |w.clicks| && w.clicks[k].Sending? && w.clicks[k].row < |w.rows| && w.rows[w.clicks[k].row].task < |w.tasks| then
        if ok then Decide(w, w.clicks[k].row, w.clicks[k].action, watch) else NoteError(w, w.clicks[k].row)
      else w
    case BatchDeliver(k, ok, watch) =>
      if k < |w.clicks| && w.clicks[k].Batching? && w.clicks[k].todo != [] && w.clicks[k].todo[0] < |w.rows| then
        if ok then Decide(w, w.clicks[k].todo[0], ApproveSession, watch) else NoteError(w, w.clicks[k].todo[0])
      else w
    case _ => w
  }

  lemma BookkeepingOnly(w: World, k: nat, row: nat, task: nat, batch: bool)
    ensures SameBook(w, Decrement(w, task))
    ensures SameBook(w, Finish(w, k, task))
    ensures SameBook(w, AfterRecord(w, k, row, task, batch))
  {
  }

  lemma DeliverBooks(w: World, k: nat, id: nat, action: Action, ok: bool, watch: set<nat>)
    requires id < |w.rows| && w.rows[id].task < |w.tasks|
    ensures SameBook(DeliverClick(w, k, id, action, ok, watch), if ok then Decide(w, id, action, watch) else NoteError(w, id))
  {
    hide AfterRecord, Decide, NoteError;
    BookkeepingOnly(Decide(w, id, action, watch), k, id, w.rows[id].task, action.ApproveSession? && w.rows[id].kind.Command?);
  }

  lemma BatchBooks(w: World, k: nat, id: nat, task: nat, todo: seq<nat>, ok: bool, watch: set<nat>)
    requires todo != [] && todo[0] < |w.rows|
    ensures SameBook(DeliverBatch(w, k, id, task, todo, ok, watch),
                     if ok then Decide(w, todo[0], ApproveSession, watch) else NoteError(w, todo[0]))
  {
    hide Decrement, Finish, Decide, NoteError;
    var w1 := if ok then Decrement(Decide(w, todo[0], ApproveSession, watch), task) else NoteError(w, todo[0]);
    BookkeepingOnly(Decide(w, todo[0], ApproveSession, watch), k, id, task, false);
    BookkeepingOnly(w1, k, id, task, false);
  }

  lemma NextBooks(w: World, step: Step)
    ensures SameBook(Next(w, step), Booked(w, step))
  {
    hide AfterRecord, DeliverClick, DeliverBatch, Decide, NoteError, ResolveRow, InsertRow, Decrement, TakeNotice;
    match step
    case Begin(id, _, _) =>
      if id < |w.rows| {
        BookkeepingOnly(ResolveRow(w, id, Cancelled, "task_terminal", TaskOver), 0, 0, w.rows[id].task, false);
      }
    case Deliver(k, ok, watch) =>
      if k < |w.clicks| && w.clicks[k].Sending? {
        var c := w.clicks[k];
        if c.row < |w.rows| && w.rows[c.row].task < |w.tasks| {
          DeliverBooks(w, k, c.row, c.action, ok, watch);
        } else {
          StaleDeliver(w, k, c.row, c.action, ok, watch);
        }
      }
    case InterruptDone(k) =>
      if k < |w.clicks| && w.clicks[k].Interrupting? {
        BookkeepingOnly(w, k, w.clicks[k].row, w.clicks[k].task, false);
      }
    case BatchDeliver(k, ok, watch) =>
      if k < |w.clicks| && w.clicks[k].Batching? && w.clicks[k].todo != [] {
        var c := w.clicks[k];
        if c.todo[0] < |w.rows| { BatchBooks(w, k, c.row, c.task, c.todo, ok, watch); }
        else { StaleBatch(w, k, c.row, c.task, c.todo, ok, watch); }
      }
    case _ =>
  }

  lemma StaleDeliver(w: World, k: nat, id: nat, action: Action, ok: bool, watch: set<nat>)
    requires id >= |w.rows| || w.rows[id].task >= |w.tasks|
    ensures DeliverClick(w, k, id, action, ok, watch) == w
  {
  }

  lemma StaleBatch(w: World, k: nat, id: nat, task: nat, todo: seq<nat>, ok: bool, watch: set<nat>)
    requires todo != [] && todo[0] >= |w.rows|
    ensures SameBook(DeliverBatch(w, k, id, task, todo, ok, watch), w)
  {
  }

  /**
   When a click goes out: exactly on a pending row of a task in one of six statuses, for an action the workspace allows.
   On a task that is done, failed or aborted the row is closed as cancelled and the counter lowered, and nothing is sent;
   any other click changes nothing.
   */
  lemma BeginOpensExactly(w: World, id: nat, action: Action, writable: bool)
    ensures var w' := Next(w, Begin(id, action, writable));
            var known := id < |w.rows| && w.rows[id].task < |w.tasks|;
            && |w'.clicks| == |w.clicks| + 1 && w'.clicks[..|w.clicks|] == w.clicks
            && (w'.clicks[|w.clicks|] == Sending(id, action) <==>
                  && known && w.rows[id].status.Pending? && (writable || action.Deny? || action.Cancel?)
                  && var status := w.tasks[w.rows[id].task].status;
                     (status.Queued? || status.Running? || status.WaitingApproval? || status.Paused? || status.WaitingSlot? || status.Archived?))
            && (w'.clicks[|w.clicks|] == Sending(id, action) || w'.clicks[|w.clicks|] == Ended)
            && SameBook(w', w.(rows := w'.rows))
            && if known && (var status := w.tasks[w.rows[id].task].status; status.Done? || status.Failed? || status.Aborted?) then
                 var task, row := w.rows[id].task, w.rows[id];
                 && w'.rows == w.rows[id := if row.status.Pending?
                                            then row.(status := Cancelled, resolution := "task_terminal", closing := TaskOver) else row]
                 && |w'.tasks| == |w.tasks| && (forall t :: 0 <= t < |w.tasks| && t != task ==> w'.tasks[t] == w.tasks[t])
                 && w'.tasks[task] == w.tasks[task].(pending := if w.tasks[task].pending > 0 then w.tasks[task].pending - 1 else 0)
               else w'.rows == w.rows && w'.tasks == w.tasks
  {
  }

  // ---- A row leaves pending at most once ----

  ghost predicate RowsKept(rows: seq<Row>, rows': seq<Row>) {
    && |rows| <= |rows'|
    && forall i :: 0 <= i < |rows| ==>
         && rows'[i].task == rows[i].task && rows'[i].request == rows[i].request && rows'[i].serial == rows[i].serial
         && rows'[i].kind == rows[i].kind && rows'[i].shape == rows[i].shape
         && (!rows[i].status.Pending? ==> rows'[i].status == rows[i].status && rows'[i].closing == rows[i].closing)
  }

  lemma BookedKeepsRows(w: World, step: Step)
    ensures RowsKept(w.rows, Booked(w, step).rows)
  {
    hide RowsKept, Decide, NoteError, ResolveRow, TakeNotice;
    RowsSelf(w.rows);
    match step
    case Consume(counted, managed) => NoticeKeepsRows(w, counted, managed);
    case Begin(id, _, _) => if id < |w.rows| { WriteKeepsRows(w, id); }
    case Deliver(k, _, watch) =>
      if k < |w.clicks| && w.clicks[k].Sending? && w.clicks[k].row < |w.rows| {
        WriteKeepsRows(w, w.clicks[k].row);
        DecideKeepsRows(w, w.clicks[k].row, w.clicks[k].action, watch);
      }
    case BatchDeliver(k, _, watch) =>
      if k < |w.clicks| && w.clicks[k].Batching? && w.clicks[k].todo != [] && w.clicks[k].todo[0] < |w.rows| {
        WriteKeepsRows(w, w.clicks[k].todo[0]);
        DecideKeepsRows(w, w.clicks[k].todo[0], ApproveSession, watch);
      }
    case _ =>
  }

  lemma RowsSelf(rows: seq<Row>)
    ensures RowsKept(rows, rows)
  {
  }

  lemma RowsTrans(a: seq<Row>, b: seq<Row>, c: seq<Row>)
    requires RowsKept(a, b) && RowsKept(b, c)
    ensures RowsKept(a, c)
  {
  }

  lemma NoticeKeepsRows(w: World, counted: bool, managed: bool)
    ensures RowsKept(w.rows, TakeNotice(w, counted, managed).rows)
  {
    hide Known, ProjectRows;
  }

  lemma WriteKeepsRows(w: World, id: nat)
    requires id < |w.rows|
    ensures RowsKept(w.rows, NoteError(w, id).rows)
    ensures RowsKept(w.rows, ResolveRow(w, id, Cancelled, "task_terminal", TaskOver).rows)
  {
  }

  lemma ProjectKeepsRows(rows: seq<Row>, watch: set<nat>, request: string, status: Status, own: nat, answer: Option<nat>)
    ensures RowsKept(rows, ProjectRows(rows, watch, request, status, own, answer))
  {
    hide ProjectRows;
  }

  lemma CloseKeepsRows(w: World, id: nat, status: Status, resolution: string, closing: Closing)
    ensures RowsKept(w.rows, ResolveRow(w, id, status, resolution, closing).rows)
  {
  }

  lemma DecideKeepsRows(w: World, id: nat, action: Action, watch: set<nat>)
    requires id < |w.rows|
    ensures RowsKept(w.rows, Decide(w, id, action, watch).rows)
  {
    hide RowsKept, ResolveRow, ProjectRows, ReadsApproved;
    var r := w.rows[id];
    var answer := if r.request in w.held then Some(|w.answers|) else None;
    ProjectKeepsRows(w.rows, watch, r.request, ProjectedStatus(r.kind, r.shape, action), id, answer);
    CloseKeepsRows(Send(w, id, action, watch), id, StatusOf(action), NameOf(action), ByClick(answer));
    RowsTrans(w.rows, Send(w, id, action, watch).rows, Decide(w, id, action, watch).rows);
  }

  /** Over any run, a row that has left pending keeps its status for ever. */
  lemma {:induction false} DecidedOnce(w: World, steps: seq<Step>)
    ensures RowsKept(w.rows, Run(w, steps).rows)
  {
    hide Next;
    if steps != [] {
      var before := Run(w, steps[..|steps| - 1]);
      DecidedOnce(w, steps[..|steps| - 1]);
      NextBooks(before, steps[|steps| - 1]);
      BookedKeepsRows(before, steps[|steps| - 1]);
    }
  }

  // ---- Runs taken apart ----

  lemma Snoc(w: World, steps: seq<Step>, step: Step)
    ensures Run(w, steps + [step]) == Next(Run(w, steps), step)
  {
    assert (steps + [step])[..|steps|] == steps;
  }

  lemma OneStep(w: World, step: Step)
    ensures Run(w, [step]) == Next(w, step)
  {
    Snoc(w, [], step);
    assert [] + [step] == [step];
  }

  lemma TwoSteps(w: World, first: Step, second: Step)
    ensures Run(w, [first, second]) == Next(Next(w, first), second)
  {
    Snoc(w, [first], second);
    OneStep(w, first);
    assert [first] + [second] == [first, second];
  }

  lemma ThreeSteps(w: World, first: Step, second: Step, third: Step)
    ensures Run(w, [first, second, third]) == Next(Next(Next(w, first), second), third)
  {
    Snoc(w, [first, second], third);
    TwoSteps(w, first, second);
    assert [first, second] + [third] == [first, second, third];
  }

  lemma {:induction false} Cons(w: World, step: Step, rest: seq<Step>)
    ensures Run(w, [step] + rest) == Run(Next(w, step), rest)
  {
    hide Next;
    if rest == [] {
      assert [step] + rest == [step];
      OneStep(w, step);
    } else {
      assert ([step] + rest)[..|rest|] == [step] + rest[..|rest| - 1];
      Cons(w, step, rest[..|rest| - 1]);
    }
  }

  lemma {:induction false} RunSplit(w: World, first: seq<Step>, second: seq<Step>)
    ensures Run(w, first + second) == Run(Run(w, first), second)
  {
    hide Next;
    if second == [] {
      assert first + second == first;
    } else {
      assert (first + second)[..|first + second| - 1] == first + second[..|second| - 1];
      RunSplit(w, first, second[..|second| - 1]);
    }
  }
}
