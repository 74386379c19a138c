/**
 The server-request half of the JSON-RPC client.

 A request from the app-server is held open until somebody answers it.  Each request owns a
 future; the handler runs first, then a background sender waits for the future and writes the
 reply.  Execution may switch tasks only where the code awaits, so one `Step` is the code
 between two awaits.
 */
module ServerRequests {
  import opened Options
  import Decimal

  datatype RawId = IntId(n: int) | StrId(s: string) | NullId

  /** `str(raw_id)`: the key under which a request is held. */
  function Key(id: RawId): string {
    match id
    case IntId(n) => Decimal.Render(n)
    case StrId(s) => s
    case NullId => "None"
  }

  datatype Reply = Result(body: string) | Error(code: int, message: string)

  const HANDLER_ERROR := Error(-32000, "Approval handler error")
  const METHOD_NOT_FOUND := -32601

  /** `stamp` is the raw id attached by resolve or reject; a failing handler attaches none. */
  datatype Future = Waiting | Settled(reply: Reply, stamp: Option<RawId>) | Cancelled

  datatype Phase =
    | InHandler                   // the receive loop awaits the handler
    | Awaiting                    // the sender task awaits the future
    | Sending                     // the reply is written, the sender awaits the transport
    | Finished(delivered: bool)   // the sender has run its cleanup

  datatype Request = Request(id: RawId, future: Future, phase: Phase)

  /** A reply carries the serial number of the request it answers, which is not on the wire. */
  datatype Message = Answer(serial: nat, id: RawId, reply: Reply) | NotFound(id: RawId, reply: Reply)

  datatype State = State(
    handlers: set<string>,
    requests: seq<Request>,
    held: map<string, nat>,
    rawIds: map<string, RawId>,
    wire: seq<Message>)

  datatype Step =
    | Receive(id: RawId, name: string)
    | HandlerDone(k: nat, raised: bool)
    | Resolve(key: string, body: string)
    | Reject(key: string, code: int, message: string)
    | SenderRuns(k: nat, written: bool)
    | SenderEnds(k: nat)
    | Close

  function Initial(handlers: set<string>): State {
    State(handlers, [], map[], map[], [])
  }

  function SettleWith(r: Request, reply: Reply, stamp: Option<RawId>): Request {
    if r.future.Waiting? then r.(future := Settled(reply, stamp)) else r
  }

  function CancelIf(r: Request, cancel: bool): Request {
    if cancel && r.future.Waiting? then r.(future := Cancelled) else r
  }

  function Release(s: State, key: string): State {
    s.(held := s.held - {key}, rawIds := s.rawIds - {key})
  }

  /** Both `resolve_server_request` and `reject_server_request`. */
  function SettleHeld(s: State, key: string, reply: Reply): State {
    var stamp := if key in s.rawIds then s.rawIds[key] else StrId(key);
    if key in s.held && s.held[key] < |s.requests| then
      var k := s.held[key];
      Release(s, key).(requests := s.requests[k := SettleWith(s.requests[k], reply, Some(stamp))])
    else
      Release(s, key)
  }

  function ReplyId(r: Request): RawId
    requires r.future.Settled?
  {
    if r.future.stamp.Some? then r.future.stamp.value else StrId(Key(r.id))
  }

  /** The sender's `finally` block. */
  function Finish(s: State, k: nat, delivered: bool): State
    requires k < |s.requests|
  {
    var r := s.requests[k];
    Release(s, Key(r.id)).(requests := s.requests[k := r.(phase := Finished(delivered))])
  }

  function Next(s: State, step: Step): State {
    match step
    case Receive(id, name) =>
      if name !in s.handlers then
        s.(wire := s.wire + [NotFound(id, Error(METHOD_NOT_FOUND, "Method not found: " + name))])
      else
        s.(requests := s.requests + [Request(id, Waiting, InHandler)],
           held := s.held[Key(id) := |s.requests|],
           rawIds := s.rawIds[Key(id) := id])
    case HandlerDone(k, raised) =>
      if k < |s.requests| && s.requests[k].phase.InHandler? then
        var r := s.requests[k];
        var r' := if raised then SettleWith(r, HANDLER_ERROR, None) else r;
        s.(requests := s.requests[k := r'.(phase := Awaiting)])
      else s
    case Resolve(key, body) => SettleHeld(s, key, Result(body))
    case Reject(key, code, message) => SettleHeld(s, key, Error(code, message))
    case SenderRuns(k, written) =>
      if k < |s.requests| && s.requests[k].phase.Awaiting? && !s.requests[k].future.Waiting? then
        var r := s.requests[k];
        if r.future.Settled? && written then
          s.(requests := s.requests[k := r.(phase := Sending)],
             wire := s.wire + [Answer(k, ReplyId(r), r.future.reply)])
        else Finish(s, k, false)
      else s
    case SenderEnds(k) =>
      if k < |s.requests| && s.requests[k].phase.Sending? then Finish(s, k, true) else s
    case Close =>
      var cancelled := seq(|s.requests|, i requires 0 <= i < |s.requests| =>
        CancelIf(s.requests[i], i in s.held.Values));
      State({}, cancelled, map[], map[], s.wire)
  }

  function Run(s: State, steps: seq<Step>): State
    decreases |steps|
  {
    if steps == [] then s else Run(Next(s, steps[0]), steps[1..])
  }

  /** No request whose sender is still to clean up is held under the key of `id`. */
  ghost predicate Fresh(s: State, id: RawId) {
    forall k :: 0 <= k < |s.requests| && !s.requests[k].phase.Finished? ==> Key(s.requests[k].id) != Key(id)
  }

  ghost predicate Admissible(s: State, step: Step) {
    step.Receive? && step.name in s.handlers ==> Fresh(s, step.id)
  }

  ghost predicate AllAdmissible(s: State, steps: seq<Step>)
    decreases |steps|
  {
    steps == [] || (Admissible(s, steps[0]) && AllAdmissible(Next(s, steps[0]), steps[1..]))
  }

  /** Request `k` can be settled by its key: both maps lead to it. */
  ghost predicate Reachable(s: State, k: nat)
    requires k < |s.requests|
  {
    var key := Key(s.requests[k].id);
    key in s.held && s.held[key] == k && key in s.rawIds && s.rawIds[key] == s.requests[k].id
  }

  /** Some request waits for an answer that no click can give any more. */
  ghost predicate Stranded(s: State) {
    exists k :: 0 <= k < |s.requests| && s.requests[k].future.Waiting? && !Reachable(s, k)
  }

  function AnswersTo(wire: seq<Message>, k: nat): nat {
    if wire == [] then 0
    else
      var m := wire[|wire| - 1];
      AnswersTo(wire[..|wire| - 1], k) + if m.Answer? && m.serial == k then 1 else 0
  }

  ghost predicate RequestOk(s: State, k: nat)
    requires k < |s.requests|
  {
    var r := s.requests[k];
    && (r.future.Waiting? ==> (r.phase.InHandler? || r.phase.Awaiting?) && Reachable(s, k))
    && (r.phase.Sending? ==> r.future.Settled?)
    && (r.future.Settled? ==>
          if r.future.stamp.None? then r.future.reply == HANDLER_ERROR else r.future.stamp.value == r.id)
    && (r.phase == Finished(true) ==> r.future.Settled?)
    && AnswersTo(s.wire, k) == (if r.phase.Sending? || r.phase == Finished(true) then 1 else 0)
  }

  ghost predicate MapsOk(s: State) {
    && s.held.Keys == s.rawIds.Keys
    && (forall key :: key in s.held ==>
          s.held[key] < |s.requests| && !s.requests[s.held[key]].phase.Finished?
          && Key(s.requests[s.held[key]].id) == key && s.rawIds[key] == s.requests[s.held[key]].id
          && !s.requests[s.held[key]].future.Cancelled?)
  }

  ghost predicate KeysUnique(s: State) {
    forall j, k :: 0 <= j < k < |s.requests|
      && !s.requests[j].phase.Finished? && !s.requests[k].phase.Finished?
      ==> Key(s.requests[j].id) != Key(s.requests[k].id)
  }

  ghost predicate WireOk(s: State) {
    forall i :: 0 <= i < |s.wire| && s.wire[i].Answer? ==>
      var m := s.wire[i];
      m.serial < |s.requests| && s.requests[m.serial].future.Settled?
      && m.reply == s.requests[m.serial].future.reply && m.id == ReplyId(s.requests[m.serial])
  }

  ghost predicate Inv(s: State) {
    MapsOk(s) && KeysUnique(s) && WireOk(s) && forall k :: 0 <= k < |s.requests| ==> RequestOk(s, k)
  }

  lemma {:induction false} NoAnswerYet(wire: seq<Message>, k: nat)
    requires forall i :: 0 <= i < |wire| && wire[i].Answer? ==> wire[i].serial < k
    ensures AnswersTo(wire, k) == 0
  {
    if wire != [] {
      NoAnswerYet(wire[..|wire| - 1], k);
    }
  }

  lemma AnswersAppend(wire: seq<Message>, m: Message, k: nat)
    ensures AnswersTo(wire + [m], k) == AnswersTo(wire, k) + if m.Answer? && m.serial == k then 1 else 0
  {
    assert (wire + [m])[..|wire|] == wire;
  }

  lemma ReceiveKeepsInv(s: State, id: RawId, name: string)
    requires Inv(s) && Admissible(s, Receive(id, name))
    ensures Inv(Next(s, Receive(id, name)))
  {
    var s' := Next(s, Receive(id, name));
    if name !in s.handlers {
      forall k | 0 <= k < |s'.requests| ensures RequestOk(s', k) {
        assert RequestOk(s, k);
        AnswersAppend(s.wire, s'.wire[|s.wire|], k);
      }
    } else {
      NoAnswerYet(s.wire, |s.requests|);
      forall k | 0 <= k < |s'.requests| ensures RequestOk(s', k) {
        if k < |s.requests| { assert RequestOk(s, k); }
      }
    }
  }

  lemma SettleKeepsRequest(s: State, key: string, reply: Reply, k: nat)
    requires Inv(s) && key in s.held && k < |s.requests|
    ensures |SettleHeld(s, key, reply).requests| == |s.requests|
    ensures RequestOk(SettleHeld(s, key, reply), k)
  {
    assert RequestOk(s, k) && RequestOk(s, s.held[key]);
    assert k != s.held[key] && !s.requests[k].phase.Finished? ==> Key(s.requests[k].id) != key;
  }

  lemma SettleKeepsInv(s: State, key: string, reply: Reply)
    requires Inv(s)
    ensures Inv(SettleHeld(s, key, reply))
  {
    var s' := SettleHeld(s, key, reply);
    if key !in s.held {
      assert s'.held == s.held && s'.rawIds == s.rawIds;
    } else {
      forall k | 0 <= k < |s'.requests| ensures RequestOk(s', k) {
        SettleKeepsRequest(s, key, reply, k);
      }
    }
  }

  lemma HandlerKeepsInv(s: State, k: nat, raised: bool)
    requires Inv(s)
    ensures Inv(Next(s, HandlerDone(k, raised)))
  {
    var s' := Next(s, HandlerDone(k, raised));
    forall j | 0 <= j < |s'.requests| ensures RequestOk(s', j) {
      assert RequestOk(s, j);
    }
  }

  lemma FinishKeepsInv(s: State, k: nat)
    requires Inv(s) && k < |s.requests| && !s.requests[k].phase.Finished? && !s.requests[k].future.Waiting?
    ensures Inv(Finish(s, k, s.requests[k].phase.Sending?))
  {
    var s' := Finish(s, k, s.requests[k].phase.Sending?);
    forall j | 0 <= j < |s'.requests| ensures RequestOk(s', j) {
      assert RequestOk(s, j);
    }
  }

  lemma SendKeepsInv(s: State, k: nat)
    requires Inv(s) && k < |s.requests| && s.requests[k].phase.Awaiting? && s.requests[k].future.Settled?
    ensures Inv(Next(s, SenderRuns(k, true)))
  {
    var s' := Next(s, SenderRuns(k, true));
    forall j | 0 <= j < |s'.requests| ensures RequestOk(s', j) {
      assert RequestOk(s, j);
      AnswersAppend(s.wire, s'.wire[|s.wire|], j);
    }
  }

  lemma SenderKeepsInv(s: State, k: nat, written: bool)
    requires Inv(s)
    ensures Inv(Next(s, SenderRuns(k, written)))
    ensures Inv(Next(s, SenderEnds(k)))
  {
    if k < |s.requests| && !s.requests[k].phase.Finished? && !s.requests[k].future.Waiting? {
      FinishKeepsInv(s, k);
      if s.requests[k].phase.Awaiting? && s.requests[k].future.Settled? {
        SendKeepsInv(s, k);
      }
    }
    if k < |s.requests| && s.requests[k].phase.Sending? {
      assert RequestOk(s, k);
    }
  }

  lemma CloseKeepsInv(s: State)
    requires Inv(s)
    ensures Inv(Next(s, Close))
    ensures forall k :: 0 <= k < |s.requests| ==> !Next(s, Close).requests[k].future.Waiting?
  {
    var s' := Next(s, Close);
    forall k | 0 <= k < |s'.requests| ensures RequestOk(s', k) && !s'.requests[k].future.Waiting? {
      assert RequestOk(s, k);
      if s.requests[k].future.Waiting? {
        assert s.held[Key(s.requests[k].id)] in s.held.Values;
      }
    }
  }

  lemma NextKeepsInv(s: State, step: Step)
    requires Inv(s) && Admissible(s, step)
    ensures Inv(Next(s, step))
  {
    match step
    case Receive(id, name) => ReceiveKeepsInv(s, id, name);
    case HandlerDone(k, raised) => HandlerKeepsInv(s, k, raised);
    case Resolve(key, body) => SettleKeepsInv(s, key, Result(body));
    case Reject(key, code, message) => SettleKeepsInv(s, key, Error(code, message));
    case SenderRuns(k, written) => SenderKeepsInv(s, k, written);
    case SenderEnds(k) => SenderKeepsInv(s, k, true);
    case Close => CloseKeepsInv(s);
  }

  lemma {:induction false} RunKeepsInv(s: State, steps: seq<Step>)
    requires Inv(s) && AllAdmissible(s, steps)
    ensures Inv(Run(s, steps))
    decreases |steps|
  {
    if steps != [] {
      NextKeepsInv(s, steps[0]);
      RunKeepsInv(Next(s, steps[0]), steps[1..]);
    }
  }

  // ---- What the protocol promises ----

  /** The five situations a handled request can be in, each read off the maps, the future and the wire. */
  datatype Situation = Held | SettledUnsent | Answered | Dropped | Aborted

  ghost predicate IsIn(s: State, k: nat, c: Situation)
    requires k < |s.requests|
  {
    var r := s.requests[k];
    match c
    case Held => r.future.Waiting? && Reachable(s, k) && AnswersTo(s.wire, k) == 0
    case SettledUnsent => r.future.Settled? && !r.phase.Finished? && AnswersTo(s.wire, k) == 0
    case Answered => AnswersTo(s.wire, k) == 1
    case Dropped => r.future.Settled? && r.phase.Finished? && AnswersTo(s.wire, k) == 0
    case Aborted => r.future.Cancelled? && AnswersTo(s.wire, k) == 0
  }

  /**
   In every interleaving with keys distinct while outstanding, each handled request is in exactly one
   situation, is answered at most once, nobody is stranded, and the two maps have the same keys.
   */
  lemma Lifecycle(handlers: set<string>, steps: seq<Step>, k: nat)
    requires AllAdmissible(Initial(handlers), steps)
    requires k < |Run(Initial(handlers), steps).requests|
    ensures var s := Run(Initial(handlers), steps);
            && (exists c :: IsIn(s, k, c) && forall d :: IsIn(s, k, d) ==> d == c)
            && AnswersTo(s.wire, k) <= 1
            && !Stranded(s)
            && s.held.Keys == s.rawIds.Keys
  {
    var s := Run(Initial(handlers), steps);
    RunKeepsInv(Initial(handlers), steps);
    assert RequestOk(s, k);
    var r := s.requests[k];
    var c := if r.future.Waiting? then Held
             else if r.future.Cancelled? then Aborted
             else if AnswersTo(s.wire, k) == 1 then Answered
             else if r.phase.Finished? then Dropped else SettledUnsent;
    assert IsIn(s, k, c);
    forall j | 0 <= j < |s.requests| && s.requests[j].future.Waiting? ensures Reachable(s, j) {
      assert RequestOk(s, j);
    }
  }

  // ---- What goes out against what came in ----

  /** The ids of the requests that found a handler, as they came in. */
  function Accepted(handlers: set<string>, steps: seq<Step>): seq<RawId> {
    if steps == [] then []
    else if steps[0].Close? then Accepted({}, steps[1..])
    else if steps[0].Receive? && steps[0].name in handlers then [steps[0].id] + Accepted(handlers, steps[1..])
    else Accepted(handlers, steps[1..])
  }

  /** The reply due to each request that found none. */
  function Refused(handlers: set<string>, steps: seq<Step>): seq<Message> {
    if steps == [] then []
    else if steps[0].Close? then Refused({}, steps[1..])
    else if steps[0].Receive? && steps[0].name !in handlers then
      [NotFound(steps[0].id, Error(-32601, "Method not found: " + steps[0].name))] + Refused(handlers, steps[1..])
    else Refused(handlers, steps[1..])
  }

  function Refusals(wire: seq<Message>): seq<Message> {
    if wire == [] then []
    else Refusals(wire[..|wire| - 1]) + if wire[|wire| - 1].NotFound? then [wire[|wire| - 1]] else []
  }

  lemma RefusalsAppend(wire: seq<Message>, m: Message)
    ensures Refusals(wire + [m]) == Refusals(wire) + if m.NotFound? then [m] else []
  {
    assert (wire + [m])[..|wire|] == wire;
  }

  /** What one step does to the ids on record, to the refusals on the wire and to the handlers. */
  lemma StepArrives(s: State, step: Step)
    ensures var t := Next(s, step);
            && (forall k :: 0 <= k < |s.requests| && k < |t.requests| ==> t.requests[k].id == s.requests[k].id)
            && (if step.Receive? && step.name in s.handlers
                then |t.requests| == |s.requests| + 1 && t.requests[|s.requests|].id == step.id else |t.requests| == |s.requests|)
            && Refusals(t.wire) == Refusals(s.wire) + (if step.Receive? && step.name !in s.handlers
                                                       then [NotFound(step.id, Error(-32601, "Method not found: " + step.name))] else [])
            && t.handlers == if step.Close? then {} else s.handlers
  {
    hide Key, Refusals;
    var t := Next(s, step);
    if t.wire != s.wire { RefusalsAppend(s.wire, t.wire[|s.wire|]); }
    assert Refusals(s.wire) + [] == Refusals(s.wire);
  }

  lemma {:induction false} Arrivals(s: State, steps: seq<Step>)
    ensures var t := Run(s, steps);
            && |t.requests| == |s.requests| + |Accepted(s.handlers, steps)|
            && (forall k :: 0 <= k < |s.requests| ==> t.requests[k].id == s.requests[k].id)
            && (forall k :: 0 <= k < |Accepted(s.handlers, steps)| ==> t.requests[|s.requests| + k].id == Accepted(s.handlers, steps)[k])
            && Refusals(t.wire) == Refusals(s.wire) + Refused(s.handlers, steps)
    decreases |steps|
  {
    hide Next, Refusals;
    if steps == [] {
      assert Refusals(s.wire) + [] == Refusals(s.wire);
    } else {
      var n := Next(s, steps[0]);
      StepArrives(s, steps[0]);
      Arrivals(n, steps[1..]);
      forall k | 0 <= k < |Accepted(s.handlers, steps)|
        ensures Run(s, steps).requests[|s.requests| + k].id == Accepted(s.handlers, steps)[k] {
        if |n.requests| > |s.requests| && k > 0 { assert |s.requests| + k == |n.requests| + (k - 1); }
      }
    }
  }

  /**
   Over every run, without any condition: the requests on record are those that found a handler, under their own ids and
   in order; and the refusals on the wire are, in order, one for each request that found none, with its own id as it
   came in and the code the specification reserves for an unknown method.
   */
  lemma RefusedInOrder(handlers: set<string>, steps: seq<Step>)
    ensures var s := Run(Initial(handlers), steps);
            && Refusals(s.wire) == Refused(handlers, steps)
            && |s.requests| == |Accepted(handlers, steps)|
            && forall k :: 0 <= k < |s.requests| ==> s.requests[k].id == Accepted(handlers, steps)[k]
  {
    hide Run;
    Arrivals(Initial(handlers), steps);
    assert [] + Refused(handlers, steps) == Refused(handlers, steps);
  }

  lemma {:induction false} RefusedCameIn(handlers: set<string>, steps: seq<Step>, m: Message)
    requires m in Refused(handlers, steps)
    ensures exists j :: 0 <= j < |steps| && steps[j].Receive?
              && m == NotFound(steps[j].id, Error(-32601, "Method not found: " + steps[j].name))
  {
    var h := if steps[0].Close? then {} else handlers;
    if m in Refused(h, steps[1..]) {
      RefusedCameIn(h, steps[1..], m);
      var j :| 0 <= j < |steps[1..]| && steps[1..][j].Receive?
               && m == NotFound(steps[1..][j].id, Error(-32601, "Method not found: " + steps[1..][j].name));
      assert steps[j + 1] == steps[1..][j];
    } else {
      assert m == NotFound(steps[0].id, Error(-32601, "Method not found: " + steps[0].name));
    }
  }

  lemma {:induction false} OnTheWire(wire: seq<Message>, i: nat)
    requires i < |wire| && wire[i].NotFound?
    ensures wire[i] in Refusals(wire)
  {
    if i < |wire| - 1 {
      OnTheWire(wire[..|wire| - 1], i);
    }
  }

  /**
   Section 5 of the JSON-RPC 2.0 Specification: a response carries the id of its request.  A refusal always does.  An
   answer does exactly when the reply was settled by resolve or reject, or when the id is a string to begin with.
   */
  lemma ReplyEchoesId(handlers: set<string>, steps: seq<Step>, i: nat)
    requires AllAdmissible(Initial(handlers), steps)
    requires i < |Run(Initial(handlers), steps).wire|
    ensures var s := Run(Initial(handlers), steps);
            var m := s.wire[i];
            m.Answer? ==>
              && m.serial < |s.requests| && m.serial < |Accepted(handlers, steps)|
              && s.requests[m.serial].future.Settled? && m.reply == s.requests[m.serial].future.reply
              && var came := Accepted(handlers, steps)[m.serial];
                 && (m.id == came <==> s.requests[m.serial].future.stamp.Some? || came.StrId?)
                 && (s.requests[m.serial].future.stamp.None? ==> m.reply == Error(-32000, "Approval handler error"))
    ensures var m := Run(Initial(handlers), steps).wire[i];
            m.NotFound? ==>
              exists j :: 0 <= j < |steps| && steps[j].Receive?
                && m == NotFound(steps[j].id, Error(-32601, "Method not found: " + steps[j].name))
  {
    hide Run, AllAdmissible, AnswersTo, Reachable;
    var s := Run(Initial(handlers), steps);
    RefusedInOrder(handlers, steps);
    if s.wire[i].NotFound? {
      OnTheWire(s.wire, i);
      RefusedCameIn(handlers, steps, s.wire[i]);
    } else {
      RunKeepsInv(Initial(handlers), steps);
      InitialInv(handlers);
      assert RequestOk(s, s.wire[i].serial);
    }
  }

  lemma InitialInv(handlers: set<string>)
    ensures Inv(Initial(handlers))
  {}

  /** The click that gave a request its reply. */
  ghost predicate ClickedBy(step: Step, id: RawId, reply: Reply) {
    || (step.Resolve? && step.key == Key(id) && reply == Result(step.body))
    || (step.Reject? && step.key == Key(id) && reply == Error(step.code, step.message))
  }

  /** A future that a step settles with a raw id was settled by a click on its own key, or was settled before. */
  lemma StepClicks(s: State, step: Step, k: nat)
    requires Inv(s) && Admissible(s, step) && k < |Next(s, step).requests|
    requires Next(s, step).requests[k].future.Settled? && Next(s, step).requests[k].future.stamp.Some?
    ensures var r := Next(s, step).requests[k];
            ClickedBy(step, r.id, r.future.reply) || (k < |s.requests| && s.requests[k].future == r.future && s.requests[k].id == r.id)
  {
    hide AnswersTo, Reachable, RequestOk, WireOk, KeysUnique, Key;
  }

  /** Every reply of a click is the body, or the code and message, of a resolve or reject of the request's own key in the run. */
  lemma {:induction false} RepliedByOwnClick(s: State, steps: seq<Step>, k: nat)
    requires Inv(s) && AllAdmissible(s, steps) && k < |Run(s, steps).requests|
    requires forall j :: 0 <= j < |s.requests| ==> s.requests[j].future.Waiting?
    requires Run(s, steps).requests[k].future.Settled? && Run(s, steps).requests[k].future.stamp.Some?
    ensures var r := Run(s, steps).requests[k];
            exists j :: 0 <= j < |steps| && ClickedBy(steps[j], r.id, r.future.reply)
    decreases |steps|
  {
    hide Next, Inv, Admissible, ClickedBy;
    SettledOnTheWay(s, steps, k);
  }

  lemma {:induction false} SettledOnTheWay(s: State, steps: seq<Step>, k: nat)
    requires Inv(s) && AllAdmissible(s, steps) && k < |Run(s, steps).requests|
    requires Run(s, steps).requests[k].future.Settled? && Run(s, steps).requests[k].future.stamp.Some?
    ensures var r := Run(s, steps).requests[k];
            || (k < |s.requests| && s.requests[k].future == r.future && s.requests[k].id == r.id)
            || exists j :: 0 <= j < |steps| && ClickedBy(steps[j], r.id, r.future.reply)
    decreases |steps|
  {
    hide Next, Inv, Admissible, ClickedBy;
    if steps != [] {
      var n := Next(s, steps[0]);
      NextKeepsInv(s, steps[0]);
      SettledOnTheWay(n, steps[1..], k);
      var r := Run(n, steps[1..]).requests[k];
      if j :| 0 <= j < |steps[1..]| && ClickedBy(steps[1..][j], r.id, r.future.reply) {
        assert steps[j + 1] == steps[1..][j];
      } else {
        StepClicks(s, steps[0], k);
      }
    }
  }

  lemma RunUnfolds(s: State, a: Step, b: Step, c: Step)
    ensures Run(s, [a]) == Next(s, a)
    ensures Run(s, [a, b]) == Next(Next(s, a), b)
    ensures Run(s, [a, b, c]) == Next(Next(Next(s, a), b), c)
  {
    assert [a, b][1..] == [b] && [a, b, c][1..] == [b, c] && [b, c][1..] == [c];
    var s1 := Next(s, a);
    assert Run(s1, [b]) == Next(s1, b);
    assert Run(s1, [b, c]) == Run(Next(s1, b), [c]) == Next(Next(s1, b), c);
  }

  /** The sender part of the life of request `k` once its future is settled. */
  function Deliver(s: State, k: nat): seq<Step> {
    if k < |s.requests| && s.requests[k].phase.InHandler? then [HandlerDone(k, false), SenderRuns(k, true), SenderEnds(k)]
    else if k < |s.requests| && s.requests[k].phase.Awaiting? then [SenderRuns(k, true), SenderEnds(k)]
    else [SenderEnds(k)]
  }

  /** A held request can always be answered: one resolve by key, then its own sender, puts the reply on the wire. */
  lemma HeldCanBeAnswered(s: State, k: nat, body: string)
    requires Inv(s) && k < |s.requests| && s.requests[k].future.Waiting?
    ensures var key := Key(s.requests[k].id);
            var s' := Next(s, Resolve(key, body));
            Run(s', Deliver(s', k)).wire == s.wire + [Answer(k, s.requests[k].id, Result(body))]
  {
    assert RequestOk(s, k);
    var s1 := Next(s, Resolve(Key(s.requests[k].id), body));
    if s1.requests[k].phase.InHandler? {
      RunUnfolds(s1, HandlerDone(k, false), SenderRuns(k, true), SenderEnds(k));
    } else {
      RunUnfolds(s1, SenderRuns(k, true), SenderEnds(k), SenderEnds(k));
    }
  }

  /** The cleanup of the sender of `k` drops whatever is held under its key, and touches no other request. */
  lemma SenderFreesKey(s: State, k: nat)
    requires k < |s.requests| && !s.requests[k].phase.Finished? && !s.requests[k].future.Waiting?
    ensures var s' := Run(s, Deliver(s, k));
            && Key(s.requests[k].id) !in s'.held
            && |s'.requests| == |s.requests|
            && forall n :: 0 <= n < |s.requests| && n != k ==> s'.requests[n] == s.requests[n]
    decreases s.requests[k].phase.InHandler?
  {
    if s.requests[k].phase.InHandler? {
      var s1 := Next(s, HandlerDone(k, false));
      SenderFreesKey(s1, k);
      RunUnfolds(s, HandlerDone(k, false), SenderRuns(k, true), SenderEnds(k));
      RunUnfolds(s1, SenderRuns(k, true), SenderEnds(k), SenderEnds(k));
    } else if s.requests[k].phase.Awaiting? {
      RunUnfolds(s, SenderRuns(k, true), SenderEnds(k), SenderEnds(k));
    } else {
      RunUnfolds(s, SenderEnds(k), SenderEnds(k), SenderEnds(k));
    }
  }

  /**
   Distinct keys are necessary, not only sufficient: accepting a request whose key is still in use lets
   senders that are already under way strand a request.
   */
  lemma ReusedKeyStrands(s: State, id: RawId, name: string) returns (steps: seq<Step>)
    requires Inv(s) && name in s.handlers && !Fresh(s, id)
    ensures forall i :: 0 <= i < |steps| ==> steps[i].HandlerDone? || steps[i].SenderRuns? || steps[i].SenderEnds?
    ensures Stranded(Run(Next(s, Receive(id, name)), steps))
  {
    var j :| 0 <= j < |s.requests| && !s.requests[j].phase.Finished? && Key(s.requests[j].id) == Key(id);
    var s1 := Next(s, Receive(id, name));
    var n := |s.requests|;
    assert RequestOk(s, j);
    if s.requests[j].future.Waiting? {
      steps := [];
      assert !Reachable(s1, j);
    } else {
      steps := Deliver(s1, j);
      var s2 := Run(s1, steps);
      SenderFreesKey(s1, j);
      assert s2.requests[n].future.Waiting? && !Reachable(s2, n);
    }
  }

  /** Two ids share a key exactly when they are the same, or one is the string that Python prints for the other. */
  lemma KeysCollideExactly(a: RawId, b: RawId)
    ensures Key(a) == Key(b) <==>
              || a == b
              || (a.IntId? && b.StrId? && b.s == Decimal.Render(a.n)) || (b.IntId? && a.StrId? && a.s == Decimal.Render(b.n))
              || (a.NullId? && b.StrId? && b.s == "None") || (b.NullId? && a.StrId? && a.s == "None")
  {
    hide Decimal.Render, Decimal.ParseInt;
    if a.IntId? { Decimal.RenderRoundTrip(a.n); }
    if b.IntId? { Decimal.RenderRoundTrip(b.n); }
    assert "None"[0] == 'N' && 'N' in "None";
  }

  /** Ids that JSON keeps apart can share a key: 1 and "1". */
  lemma NumberAndStringCollide()
    ensures IntId(1) != StrId("1") && Key(IntId(1)) == Key(StrId("1"))
    ensures Stranded(Run(Initial({"m"}), [Receive(IntId(1), "m"), Receive(StrId("1"), "m")]))
  {
    var s1 := Next(Initial({"m"}), Receive(IntId(1), "m"));
    var s2 := Next(s1, Receive(StrId("1"), "m"));
    RunUnfolds(Initial({"m"}), Receive(IntId(1), "m"), Receive(StrId("1"), "m"), Close);
    assert Key(IntId(1)) == "1";
    assert s2.requests[0].future.Waiting? && !Reachable(s2, 0);
  }
}
