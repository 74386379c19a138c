/**
 The client-request half of the JSON-RPC client: numbered calls whose futures are completed by
 responses, timeouts or close.

 A timeout is two steps, as in the event loop: the timer cancels the future, and only later does the
 waiting coroutine wake up and remove its entry.  A call whose transport write failed is one whose
 timer never fires.
 */
module ClientCalls {
  import opened Options
  import opened ServerRequests

  datatype Call = InFlight | Replied(reply: Reply) | GivenUp

  /** The call numbered `rid` owns `calls[rid - 1]`. */
  datatype Calls = Calls(nextId: nat, pending: map<int, nat>, calls: seq<Call>)

  datatype CallStep =
    | Issue
    | Respond(id: RawId, reply: Reply)
    | TimerFires(rid: nat)
    | WaiterWakes(rid: nat)
    | CloseCalls

  const NO_CALLS := Calls(0, map[], [])

  function GiveUpIf(c: Call, give: bool): Call {
    if give && c.InFlight? then GivenUp else c
  }

  /** The message handler raises: it completes a future that is already done. */
  predicate RespondRaises(s: Calls, id: RawId) {
    id.IntId? && id.n in s.pending && s.pending[id.n] < |s.calls| && !s.calls[s.pending[id.n]].InFlight?
  }

  function NextCall(s: Calls, step: CallStep): Calls {
    match step
    case Issue => Calls(s.nextId + 1, s.pending[s.nextId + 1 := |s.calls|], s.calls + [InFlight])
    case Respond(id, reply) =>
      if id.IntId? && id.n in s.pending && s.pending[id.n] < |s.calls| then
        var k := s.pending[id.n];
        s.(pending := s.pending - {id.n},
           calls := if s.calls[k].InFlight? then s.calls[k := Replied(reply)] else s.calls)
      else s
    case TimerFires(rid) =>
      if rid in s.pending && s.pending[rid] < |s.calls| then
        s.(calls := s.calls[s.pending[rid] := GiveUpIf(s.calls[s.pending[rid]], true)])
      else s
    case WaiterWakes(rid) =>
      if 0 < rid <= |s.calls| && s.calls[rid - 1].GivenUp? then s.(pending := s.pending - {rid}) else s
    case CloseCalls =>
      Calls(s.nextId, map[],
            seq(|s.calls|, i requires 0 <= i < |s.calls| => GiveUpIf(s.calls[i], i in s.pending.Values)))
  }

  function RunCalls(s: Calls, steps: seq<CallStep>): Calls {
    if steps == [] then s else NextCall(RunCalls(s, steps[..|steps| - 1]), steps[|steps| - 1])
  }

  ghost predicate CallsInv(s: Calls) {
    && |s.calls| == s.nextId
    && (forall r :: r in s.pending ==> 1 <= r <= s.nextId && s.pending[r] == r - 1 && !s.calls[r - 1].Replied?)
    && (forall k :: 0 <= k < |s.calls| && s.calls[k].InFlight? ==> k + 1 in s.pending)
  }

  lemma NextCallKeepsInv(s: Calls, step: CallStep)
    requires CallsInv(s)
    ensures CallsInv(NextCall(s, step))
    ensures s.nextId <= NextCall(s, step).nextId
    ensures forall k :: 0 <= k < s.nextId && !s.calls[k].InFlight? ==> NextCall(s, step).calls[k] == s.calls[k]
    ensures forall k :: 0 <= k < s.nextId && NextCall(s, step).calls[k].Replied? && s.calls[k].InFlight? ==>
                          step == Respond(IntId(k + 1), NextCall(s, step).calls[k].reply)
  {
    if step.CloseCalls? {
      forall k | 0 <= k < |s.calls| && s.calls[k].InFlight? ensures k in s.pending.Values {
        assert s.pending[k + 1] == k;
      }
    }
  }

  lemma {:induction false} RunCallsKeepsInv(steps: seq<CallStep>)
    ensures CallsInv(RunCalls(NO_CALLS, steps))
  {
    if steps != [] {
      RunCallsKeepsInv(steps[..|steps| - 1]);
      NextCallKeepsInv(RunCalls(NO_CALLS, steps[..|steps| - 1]), steps[|steps| - 1]);
    }
  }

  /** Step `i` of the run is the one that completed call number `k + 1` with a response. */
  ghost predicate CompletedAt(steps: seq<CallStep>, i: nat, k: nat)
    requires i < |steps|
  {
    var before := RunCalls(NO_CALLS, steps[..i]);
    var after := RunCalls(NO_CALLS, steps[..i + 1]);
    && k < |before.calls| && before.calls[k].InFlight?
    && k < |after.calls| && after.calls[k].Replied?
    && steps[i] == Respond(IntId(k + 1), after.calls[k].reply)
  }

  /** What the last step of a run does to the calls. */
  lemma LastStep(steps: seq<CallStep>)
    requires steps != []
    ensures var s, t := RunCalls(NO_CALLS, steps[..|steps| - 1]), RunCalls(NO_CALLS, steps);
            && |s.calls| <= |t.calls|
            && (forall k :: 0 <= k < |s.calls| && !s.calls[k].InFlight? ==> t.calls[k] == s.calls[k])
            && (forall k :: 0 <= k < |s.calls| && s.calls[k].InFlight? && t.calls[k].Replied? ==>
                  steps[|steps| - 1] == Respond(IntId(k + 1), t.calls[k].reply))
            && (forall k :: |s.calls| <= k < |t.calls| ==> t.calls[k].InFlight?)
  {
    hide NextCall;
    var s := RunCalls(NO_CALLS, steps[..|steps| - 1]);
    RunCallsKeepsInv(steps[..|steps| - 1]);
    NextCallKeepsInv(s, steps[|steps| - 1]);
    NewCallsInFlight(s, steps[|steps| - 1]);
  }

  lemma NewCallsInFlight(s: Calls, step: CallStep)
    requires CallsInv(s)
    ensures var t := NextCall(s, step); |s.calls| <= |t.calls| && forall k :: |s.calls| <= k < |t.calls| ==> t.calls[k].InFlight?
  {}

  /** A completed future never changes, over any continuation of a run. */
  lemma {:induction false} DoneStaysDone(steps: seq<CallStep>, i: nat, k: nat)
    requires i <= |steps|
    requires k < |RunCalls(NO_CALLS, steps[..i]).calls| && !RunCalls(NO_CALLS, steps[..i]).calls[k].InFlight?
    ensures k < |RunCalls(NO_CALLS, steps).calls|
    ensures RunCalls(NO_CALLS, steps).calls[k] == RunCalls(NO_CALLS, steps[..i]).calls[k]
  {
    hide RunCalls;
    if i == |steps| {
      assert steps[..i] == steps;
    } else {
      var shorter := steps[..|steps| - 1];
      assert shorter[..i] == steps[..i];
      DoneStaysDone(shorter, i, k);
      LastStep(steps);
    }
  }

  lemma OneCompletion(steps: seq<CallStep>, i: nat, j: nat, k: nat)
    requires i < |steps| && j < |steps| && CompletedAt(steps, i, k) && CompletedAt(steps, j, k)
    ensures i >= j
  {
    hide RunCalls;
    if i < j {
      assert steps[..j][..i + 1] == steps[..i + 1];
      DoneStaysDone(steps[..j], i + 1, k);
    }
  }

  lemma {:induction false} RepliedSomewhere(steps: seq<CallStep>, k: nat) returns (i: nat)
    requires k < |RunCalls(NO_CALLS, steps).calls| && RunCalls(NO_CALLS, steps).calls[k].Replied?
    ensures i < |steps| && CompletedAt(steps, i, k)
  {
    hide RunCalls;
    if steps == [] {
      NoCallsYet();
    }
    var n := |steps| - 1;
    var shorter := steps[..n];
    var s := RunCalls(NO_CALLS, shorter);
    LastStep(steps);
    assert steps[..n + 1] == steps;
    if s.calls[k].InFlight? {
      i := n;
    } else {
      i := RepliedSomewhere(shorter, k);
      assert shorter[..i] == steps[..i] && shorter[..i + 1] == steps[..i + 1];
    }
  }

  lemma NoCallsYet()
    ensures RunCalls(NO_CALLS, []) == NO_CALLS
  {}

  /** Every reply a caller receives comes from exactly one response, and that response bears the caller's id. */
  lemma RepliedByOwnResponse(steps: seq<CallStep>, k: nat)
    requires k < |RunCalls(NO_CALLS, steps).calls| && RunCalls(NO_CALLS, steps).calls[k].Replied?
    ensures exists i :: 0 <= i < |steps| && CompletedAt(steps, i, k)
              && forall j :: 0 <= j < |steps| && CompletedAt(steps, j, k) ==> j == i
  {
    var i := RepliedSomewhere(steps, k);
    forall j | 0 <= j < |steps| && CompletedAt(steps, j, k) ensures j == i {
      OneCompletion(steps, i, j, k);
      OneCompletion(steps, j, i, k);
    }
  }

  /**
   What one call or message does in a reachable state: new ids are larger than every id used so far, a response
   that nobody waits for changes nothing, and a response raises exactly in the window between the timer and
   the waiter's cleanup.
   */
  lemma CallDiscipline(steps: seq<CallStep>, id: RawId, reply: Reply)
    ensures var s := RunCalls(NO_CALLS, steps);
            && s.nextId + 1 !in s.pending
            && (forall r :: r in s.pending ==> r < NextCall(s, Issue).nextId)
            && (!(id.IntId? && id.n in s.pending) ==> NextCall(s, Respond(id, reply)) == s)
            && (RespondRaises(s, id) <==> id.IntId? && 1 <= id.n <= |s.calls|
                                          && id.n in s.pending && s.calls[id.n - 1].GivenUp?)
  {
    RunCallsKeepsInv(steps);
  }

  /** Close leaves nothing pending and nobody waiting. */
  lemma CloseLeavesNobody(steps: seq<CallStep>)
    ensures var s := NextCall(RunCalls(NO_CALLS, steps), CloseCalls);
            s.pending == map[] && forall k :: 0 <= k < |s.calls| ==> !s.calls[k].InFlight?
  {
    RunCallsKeepsInv(steps);
    NextCallKeepsInv(RunCalls(NO_CALLS, steps), CloseCalls);
  }

  // ---- One call on its own ----

  /**
   The life of one call, told without the other calls: not issued yet, waiting for its response, cancelled by its timer
   with its caller still to wake up, and then answered or given up for good.
   */
  datatype Life = Unborn(before: nat) | Flying | Expired | Answered(reply: Reply) | Over

  function Lives(life: Life, rid: nat, step: CallStep): Life {
    match life
    case Unborn(before) => if !step.Issue? then life else if before + 1 == rid then Flying else Unborn(before + 1)
    case Flying =>
      if step.Respond? && step.id == IntId(rid) then Life.Answered(step.reply)
      else if step == TimerFires(rid) then Expired
      else if step.CloseCalls? then Over
      else Flying
    case Expired =>
      if (step.Respond? && step.id == IntId(rid)) || step == WaiterWakes(rid) || step.CloseCalls? then Over else Expired
    case Answered(_) => life
    case Over => life
  }

  function LifeOf(rid: nat, steps: seq<CallStep>): Life {
    if steps == [] then Unborn(0) else Lives(LifeOf(rid, steps[..|steps| - 1]), rid, steps[|steps| - 1])
  }

  /** The client's tables say of call `rid` what its life says. */
  ghost predicate Tells(s: Calls, rid: nat, life: Life) {
    && (rid in s.pending <==> life.Flying? || life.Expired?)
    && (life.Unborn? <==> !(1 <= rid <= |s.calls|))
    && (life.Unborn? ==> life.before == |s.calls|)
    && (1 <= rid <= |s.calls| ==>
          && (s.calls[rid - 1].InFlight? <==> life.Flying?)
          && (s.calls[rid - 1].GivenUp? <==> life.Expired? || life.Over?)
          && (forall reply :: s.calls[rid - 1] == Replied(reply) <==> life == Life.Answered(reply)))
  }

  lemma LivesAlone(s: Calls, rid: nat, life: Life, step: CallStep)
    requires CallsInv(s) && Tells(s, rid, life)
    ensures Tells(NextCall(s, step), rid, Lives(life, rid, step))
  {
    if step.CloseCalls? && rid in s.pending { assert s.pending[rid] in s.pending.Values; }
  }

  /**
   Calls do not disturb each other: over any run, whatever happens to the others, the table of pending ids and the
   outcome of every call are what that call's own life says; in particular a pending entry goes exactly with the
   response, with the caller's wake-up after its timer, or with the close.
   */
  lemma {:induction false} CallsAreIndependent(steps: seq<CallStep>, rid: nat)
    ensures Tells(RunCalls(NO_CALLS, steps), rid, LifeOf(rid, steps))
    ensures RespondRaises(RunCalls(NO_CALLS, steps), IntId(rid)) <==> LifeOf(rid, steps).Expired?
  {
    hide NextCall, Lives;
    if steps != [] {
      var shorter := steps[..|steps| - 1];
      CallsAreIndependent(shorter, rid);
      RunCallsKeepsInv(shorter);
      LivesAlone(RunCalls(NO_CALLS, shorter), rid, LifeOf(rid, shorter), steps[|steps| - 1]);
    }
    RunCallsKeepsInv(steps);
  }

  /** The window in which a late response makes the receive loop raise really exists. */
  lemma TimeoutWindowRaises()
    ensures RespondRaises(RunCalls(NO_CALLS, [Issue, TimerFires(1)]), IntId(1))
  {
    assert [Issue, TimerFires(1)][..1] == [Issue] && [Issue][..0] == [];
    assert RunCalls(NO_CALLS, [Issue]) == NextCall(NO_CALLS, Issue);
  }
}

/** The client object: the methods below are the code between two awaits, on the object's own fields. */
module JsonRpcClientObject {
  import opened Options
  import opened ServerRequests
  import opened ClientCalls

  class JsonRpcClient {
    var nextId: nat
    var pending: map<int, nat>
    var calls: seq<Call>
    var handlers: set<string>
    var requests: seq<Request>
    var held: map<string, nat>
    var rawIds: map<string, RawId>
    var wire: seq<Message>

    ghost function CallsView(): Calls
      reads this
    {
      Calls(nextId, pending, calls)
    }

    ghost function ServerView(): State
      reads this
    {
      State(handlers, requests, held, rawIds, wire)
    }

    ghost predicate Valid()
      reads this
    {
      && CallsInv(CallsView())
      && forall key :: key in held ==> held[key] < |requests|
    }

    constructor (names: set<string>)
      ensures Valid() && CallsView() == NO_CALLS && ServerView() == Initial(names)
    {
      nextId, pending, calls := 0, map[], [];
      handlers, requests, held, rawIds, wire := names, [], map[], map[], [];
    }

    /** The synchronous part of `request`. */
    method IssueRequest() returns (rid: nat)
      requires Valid()
      modifies this
      ensures Valid() && ServerView() == old(ServerView())
      ensures CallsView() == NextCall(old(CallsView()), Issue)
      ensures rid == nextId && rid !in old(pending) && rid in pending
    {
      nextId := nextId + 1;
      rid := nextId;
      pending := pending[rid := |calls|];
      calls := calls + [InFlight];
    }

    /** The response branch of `receive_message`; `raised` says that completing the future raised. */
    method ReceiveResponse(id: RawId, reply: Reply) returns (raised: bool)
      requires Valid()
      modifies this
      ensures Valid() && ServerView() == old(ServerView())
      ensures CallsView() == NextCall(old(CallsView()), Respond(id, reply))
      ensures raised == RespondRaises(old(CallsView()), id)
    {
      ghost var s := CallsView();
      NextCallKeepsInv(s, Respond(id, reply));
      raised := false;
      if id.IntId? && id.n in pending {
        var k := pending[id.n];
        pending := pending - {id.n};
        if calls[k].InFlight? {
          calls := calls[k := Replied(reply)];
        } else {
          raised := true;
        }
      }
    }

    /** The server-request branch of `receive_message`, up to the call of the handler. */
    method ReceiveServerRequest(id: RawId, name: string)
      requires Valid()
      modifies this
      ensures Valid() && CallsView() == old(CallsView())
      ensures ServerView() == Next(old(ServerView()), Receive(id, name))
    {
      var rid := Key(id);
      if name !in handlers {
        wire := wire + [NotFound(id, Error(METHOD_NOT_FOUND, "Method not found: " + name))];
        return;
      }
      held := held[rid := |requests|];
      rawIds := rawIds[rid := id];
      requests := requests + [Request(id, Waiting, InHandler)];
    }

    /** The rest of the server-request branch, once the handler has returned or raised. */
    method FinishHandler(k: nat, raised: bool)
      requires Valid() && k < |requests| && requests[k].phase.InHandler?
      modifies this
      ensures Valid() && CallsView() == old(CallsView())
      ensures ServerView() == Next(old(ServerView()), HandlerDone(k, raised))
    {
      if raised && requests[k].future.Waiting? {
        requests := requests[k := requests[k].(future := Settled(HANDLER_ERROR, None))];
      }
      requests := requests[k := requests[k].(phase := Awaiting)];
    }

    method ResolveServerRequest(key: string, body: string)
      requires Valid()
      modifies this
      ensures Valid() && CallsView() == old(CallsView())
      ensures ServerView() == Next(old(ServerView()), Resolve(key, body))
    {
      SettleServerRequest(key, Result(body));
    }

    method RejectServerRequest(key: string, code: int, message: string)
      requires Valid()
      modifies this
      ensures Valid() && CallsView() == old(CallsView())
      ensures ServerView() == Next(old(ServerView()), Reject(key, code, message))
    {
      SettleServerRequest(key, Error(code, message));
    }

    /** The common text of resolve and reject. */
    method SettleServerRequest(key: string, reply: Reply)
      requires Valid()
      modifies this
      ensures Valid() && CallsView() == old(CallsView())
      ensures ServerView() == SettleHeld(old(ServerView()), key, reply)
    {
      var rawId := if key in rawIds then rawIds[key] else StrId(key);
      rawIds := rawIds - {key};
      if key in held {
        var k := held[key];
        held := held - {key};
        if requests[k].future.Waiting? {
          requests := requests[k := requests[k].(future := Settled(reply, Some(rawId)))];
        }
      } else {
        assert held - {key} == held;
      }
    }

    /** `_send_held_response` from the completed future up to the await of the transport: the reply is handed over. */
    method WriteHeldResponse(k: nat, written: bool)
      requires Valid() && k < |requests| && requests[k].phase.Awaiting? && !requests[k].future.Waiting?
      modifies this
      ensures Valid() && CallsView() == old(CallsView())
      ensures ServerView() == Next(old(ServerView()), SenderRuns(k, written))
    {
      var r := requests[k];
      if r.future.Settled? && written {
        var rawId := if r.future.stamp.Some? then r.future.stamp.value else StrId(Key(r.id));
        wire := wire + [Answer(k, rawId, r.future.reply)];
        requests := requests[k := r.(phase := Sending)];
      } else {
        FreeKey(k, false);
      }
    }

    /** The `finally` block, once the transport has taken the reply. */
    method FinishHeldResponse(k: nat)
      requires Valid() && k < |requests| && requests[k].phase.Sending?
      modifies this
      ensures Valid() && CallsView() == old(CallsView())
      ensures ServerView() == Next(old(ServerView()), SenderEnds(k))
    {
      FreeKey(k, true);
    }

    method FreeKey(k: nat, delivered: bool)
      requires Valid() && k < |requests|
      modifies this
      ensures Valid() && CallsView() == old(CallsView())
      ensures ServerView() == Finish(old(ServerView()), k, delivered)
    {
      var key := Key(requests[k].id);
      held := held - {key};
      rawIds := rawIds - {key};
      requests := requests[k := requests[k].(phase := Finished(delivered))];
    }

    /** The whole sender when nothing comes between its two halves. */
    method RunSender(k: nat, written: bool)
      requires Valid() && k < |requests| && requests[k].phase.Awaiting? && !requests[k].future.Waiting?
      modifies this
      ensures Valid() && CallsView() == old(CallsView())
      ensures ServerView() == Next(Next(old(ServerView()), SenderRuns(k, written)), SenderEnds(k))
    {
      WriteHeldResponse(k, written);
      if requests[k].phase.Sending? {
        FinishHeldResponse(k);
      }
    }

    /** `close`: cancel every unfinished future reachable from the two tables, then clear them. */
    method CloseClient()
      requires Valid()
      modifies this
      ensures Valid()
      ensures CallsView() == NextCall(old(CallsView()), CloseCalls)
      ensures ServerView() == Next(old(ServerView()), Close)
    {
      NextCallKeepsInv(CallsView(), CloseCalls);
      CancelCalls();
      pending := map[];
      CancelHeld();
      held := map[];
      rawIds := map[];
      handlers := {};
    }

    method CancelCalls()
      requires Valid()
      modifies this`calls
      ensures |calls| == |old(calls)|
      ensures forall k :: 0 <= k < |calls| ==> calls[k] == GiveUpIf(old(calls)[k], k in pending.Values)
    {
      var todo := pending.Keys;
      while todo != {}
        invariant todo <= pending.Keys && |calls| == |old(calls)|
        invariant forall r :: r in pending ==> 1 <= r <= |calls| && pending[r] == r - 1
        invariant forall k :: 0 <= k < |calls| ==>
                                calls[k] == GiveUpIf(old(calls)[k], k + 1 in pending && k + 1 !in todo)
        decreases todo
      {
        var rid: int :| rid in todo;
        if calls[pending[rid]].InFlight? {
          calls := calls[pending[rid] := GivenUp];
        }
        todo := todo - {rid};
      }
      forall k | 0 <= k < |calls| ensures (k + 1 in pending) == (k in pending.Values) {
        if k + 1 in pending { assert pending[k + 1] == k; }
      }
    }

    method CancelHeld()
      requires forall key :: key in held ==> held[key] < |requests|
      modifies this`requests
      ensures |requests| == |old(requests)|
      ensures forall k :: 0 <= k < |requests| ==> requests[k] == CancelIf(old(requests)[k], k in held.Values)
    {
      var todo := held.Keys;
      while todo != {}
        invariant todo <= held.Keys && |requests| == |old(requests)|
        invariant forall k :: 0 <= k < |requests| ==>
                                requests[k] == CancelIf(old(requests)[k], exists key :: key in held && key !in todo && held[key] == k)
        decreases todo
      {
        var key :| key in todo;
        var k := held[key];
        if requests[k].future.Waiting? {
          requests := requests[k := requests[k].(future := Cancelled)];
        }
        todo := todo - {key};
      }
    }
  }
}
