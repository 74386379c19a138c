/**
 The approval service on top of the JSON-RPC client, over whole runs: what is recorded for an approval against what goes
 over the wire.  Connections follow one another; `base` is the number of requests that came in before the current one.
 */
module ApprovalDelivery {
  import opened Options
  import A = Approvals
  import C = ApprovalCounter
  import B = ApprovalSent
  import S = ServerRequests

  // ---- One answer ----

  /** The service's view of the held requests is the client's table. */
  ghost predicate SameHeld(w: A.World, s: S.State) { w.held.Keys == s.held.Keys }

  /** The request under `key` can still be decided: it is held and nothing has settled it. */
  predicate Open(s: S.State, key: string) {
    key in s.held && s.held[key] < |s.requests| && s.requests[s.held[key]].future.Waiting?
  }

  /**
   Answering keeps the two views together, and the decision reaches the wire, under the request's own raw id, exactly
   when the request is still open; otherwise no request and no message changes, although the service sees no error.
   */
  lemma AnswerReachesWire(w: A.World, s: S.State, id: nat, action: A.Action, body: string)
    requires S.Inv(s) && SameHeld(w, s) && id < |w.rows|
    ensures var key := w.rows[id].request;
            var t := S.Next(s, S.Resolve(key, body));
            && SameHeld(A.AnswerRequest(w, id, action), t)
            && (Open(s, key) ==>
                  var k := s.held[key];
                  S.Key(s.requests[k].id) == key
                  && S.Run(t, S.Deliver(t, k)).wire == s.wire + [S.Answer(k, s.requests[k].id, S.Result(body))])
            && (!Open(s, key) <==> t.requests == s.requests && t.wire == s.wire)
  {
    hide S.Run, S.Deliver;
    var key := w.rows[id].request;
    if Open(s, key) {
      S.HeldCanBeAnswered(s, s.held[key], body);
    }
  }

  /** With two clicks on one request, the second changes nothing at the client. */
  lemma SecondAnswerIgnored(s: S.State, key: string, first: string, second: string)
    requires S.Inv(s)
    ensures var t := S.Next(s, S.Resolve(key, first)); S.Next(t, S.Resolve(key, second)) == t
  {
    S.SettleKeepsInv(s, key, S.Result(first));
    var t := S.Next(s, S.Resolve(key, first));
    assert key !in t.held && key !in t.rawIds;
    assert t.held - {key} == t.held && t.rawIds - {key} == t.rawIds;
  }

  // ---- Both sides over whole runs ----

  datatype Joint = Joint(w: A.World, s: S.State, base: nat)

  datatype Step =
    | Request(task: nat, id: S.RawId, name: string, kind: A.Kind, shape: A.Shape)
    | Service(move: A.Step)
    | Client(act: S.Step)
    | Reconnect(handlers: set<string>)

  /** The row and action a step of the service sends, if it sends. */
  function Sends(w: A.World, step: A.Step): Option<(nat, A.Action)> {
    match step
    case Deliver(k, true, _) =>
      if k < |w.clicks| && w.clicks[k].Sending? && w.clicks[k].row < |w.rows| && w.rows[w.clicks[k].row].task < |w.tasks|
      then Some((w.clicks[k].row, w.clicks[k].action)) else None
    case BatchDeliver(k, true, _) =>
      if k < |w.clicks| && w.clicks[k].Batching? && w.clicks[k].todo != [] && w.clicks[k].todo[0] < |w.rows|
      then Some((w.clicks[k].todo[0], A.ApproveSession)) else None
    case _ => None
  }

  /** The request whose sender a client step runs. */
  function SenderOf(step: S.Step): Option<nat> {
    if step.SenderRuns? || step.SenderEnds? then Some(step.k) else None
  }

  /** `body` is the response built for a row and an action. */
  function Next(j: Joint, step: Step, body: (nat, A.Action) -> string): Joint {
    match step
    case Request(task, id, name, kind, shape) =>
      j.(s := S.Next(j.s, S.Receive(id, name)),
         w := if name in j.s.handlers then A.Next(j.w, A.Arrive(task, S.Key(id), kind, shape)) else j.w)
    case Service(move) =>
      var sent := Sends(j.w, move);
      j.(w := A.Next(j.w, move),
         s := if sent.None? then j.s else S.Next(j.s, S.Resolve(j.w.rows[sent.value.0].request, body(sent.value.0, sent.value.1))))
    case Client(move) =>
      var t := S.Next(j.s, move);
      var k := SenderOf(move);
      var freed := k.Some? && k.value < |j.s.requests| && S.Key(j.s.requests[k.value].id) !in t.held;
      j.(s := t, w := if freed then A.Next(j.w, A.Forget(S.Key(j.s.requests[k.value].id))) else j.w)
    case Reconnect(handlers) => Joint(A.Next(j.w, A.Disconnect), S.Initial(handlers), j.w.arrivals)
  }

  function Run(j: Joint, steps: seq<Step>, body: (nat, A.Action) -> string): Joint
    decreases |steps|
  {
    if steps == [] then j else Run(Next(j, steps[0], body), steps[1..], body)
  }

  function Initial(tasks: seq<A.Task>, handlers: set<string>): Joint { Joint(A.Initial(tasks), S.Initial(handlers), 0) }

  /** The two conditions on ids, the service's and the client's; service and client steps come only in their own form. */
  ghost predicate Admissible(j: Joint, step: Step) {
    match step
    case Request(_, id, name, _, _) => name in j.s.handlers ==> B.Idle(j.w, S.Key(id)) && S.Fresh(j.s, id)
    case Service(move) => !move.Arrive? && !move.Forget? && !move.Disconnect?
    case Client(move) => move.HandlerDone? || move.SenderRuns? || move.SenderEnds?
    case Reconnect(_) => true
  }

  ghost predicate AllAdmissible(j: Joint, steps: seq<Step>, body: (nat, A.Action) -> string)
    decreases |steps|
  {
    steps == [] || (Admissible(j, steps[0]) && AllAdmissible(Next(j, steps[0], body), steps[1..], body))
  }

  // ---- The link ----

  ghost predicate HeldLinked(j: Joint) {
    && j.w.arrivals == j.base + |j.s.requests|
    && j.w.held.Keys == j.s.held.Keys
    && (forall q :: q in j.s.held ==> j.w.held[q] == j.base + j.s.held[q])
    && (forall q :: q in j.s.held && j.s.held[q] < |j.s.requests| && j.s.requests[j.s.held[q]].future.Settled? ==>
          j.s.requests[j.s.held[q]].future.stamp.None?)
  }

  /** The future of an answered request is settled, by that answer unless its handler had failed before. */
  ghost predicate AnswerLinked(j: Joint, a: nat, body: (nat, A.Action) -> string)
    requires a < |j.w.answers|
  {
    var ans := j.w.answers[a];
    j.base <= ans.serial ==>
      && ans.serial - j.base < |j.s.requests|
      && var f := j.s.requests[ans.serial - j.base].future;
         f.Settled? && (f.stamp.Some? ==> f.reply == S.Result(body(ans.row, ans.action)))
  }

  ghost predicate Answered(j: Joint, k: nat) { exists a: nat :: a < |j.w.answers| && j.w.answers[a].serial == j.base + k }

  ghost predicate Linked(j: Joint, body: (nat, A.Action) -> string) {
    && HeldLinked(j)
    && (forall a: nat :: a < |j.w.answers| ==> AnswerLinked(j, a, body))
    && (forall k: nat :: k < |j.s.requests| && j.s.requests[k].future.Settled? && j.s.requests[k].future.stamp.Some? ==> Answered(j, k))
  }

  ghost predicate Inv(j: Joint, body: (nat, A.Action) -> string) {
    B.BookInv(j.w) && B.AimInv(j.w) && C.ClicksOk(j.w) && S.Inv(j.s) && Linked(j, body)
  }

  // ---- What the steps of either side change that the other can see ----

  /** What a service step that sends nothing leaves alone. */
  lemma QuietService(w: A.World, step: A.Step)
    requires Sends(w, step).None? && !step.Arrive? && !step.Forget? && !step.Disconnect?
    ensures var w' := A.Next(w, step); w'.held == w.held && w'.arrivals == w.arrivals && w'.answers == w.answers
  {
    hide A.Next, A.Known, A.Terminal, A.ProjectRows, A.LatestRow;
    A.NextBooks(w, step);
  }

  /** The tasks with an open prompt as a step sends. */
  function Watched(step: A.Step): set<nat> { if step.Deliver? || step.BatchDeliver? then step.watch else {} }

  lemma SendingService(w: A.World, step: A.Step, id: nat, action: A.Action)
    requires Sends(w, step) == Some((id, action))
    ensures var w' := A.Next(w, step); id < |w.rows| && A.SameBook(w', A.Decide(w, id, action, Watched(step)))
  {
    hide A.Next, A.Known, A.Terminal, A.Decide, A.SameBook;
    A.NextBooks(w, step);
  }

  lemma ResolveEffect(s: S.State, key: string, text: string)
    requires S.Inv(s)
    ensures var t := S.Next(s, S.Resolve(key, text));
            && S.Inv(t) && |t.requests| == |s.requests| && t.held == s.held - {key} && t.wire == s.wire && t.handlers == s.handlers
            && (forall k: nat :: k < |s.requests| ==>
                  t.requests[k].id == s.requests[k].id &&
                  t.requests[k].future ==
                    if key in s.held && k == s.held[key] && s.requests[k].future.Waiting?
                    then S.Settled(S.Result(text), Some(s.requests[k].id)) else s.requests[k].future)
  {
    S.SettleKeepsInv(s, key, S.Result(text));
    assert key !in s.held ==> s.held - {key} == s.held;
  }

  lemma ClientEffect(s: S.State, step: S.Step)
    requires S.Inv(s) && (step.HandlerDone? || step.SenderRuns? || step.SenderEnds?)
    ensures var t := S.Next(s, step);
            && S.Inv(t) && |t.requests| == |s.requests| && t.handlers == s.handlers
            && (t.held == s.held ||
                (SenderOf(step).Some? && SenderOf(step).value < |s.requests|
                 && t.held == s.held - {S.Key(s.requests[SenderOf(step).value].id)}))
            && (forall k: nat :: k < |s.requests| ==>
                  t.requests[k].future == s.requests[k].future
                  || (s.requests[k].future.Waiting? && t.requests[k].future == S.Settled(S.HANDLER_ERROR, None)))
  {
    hide S.Inv, S.Next, S.Finish;
    S.NextKeepsInv(s, step);
    match step
    case HandlerDone(k, raised) => HandlerEffect(s, k, raised);
    case SenderRuns(k, written) => SenderEffect(s, step);
    case SenderEnds(k) => SenderEffect(s, step);
  }

  lemma HandlerEffect(s: S.State, k: nat, raised: bool)
    ensures var t := S.Next(s, S.HandlerDone(k, raised));
            && |t.requests| == |s.requests| && t.handlers == s.handlers && t.held == s.held
            && (forall i: nat :: i < |s.requests| ==>
                  t.requests[i].future == s.requests[i].future
                  || (s.requests[i].future.Waiting? && t.requests[i].future == S.Settled(S.HANDLER_ERROR, None)))
  {
  }

  lemma SenderEffect(s: S.State, step: S.Step)
    requires step.SenderRuns? || step.SenderEnds?
    ensures var t := S.Next(s, step);
            && |t.requests| == |s.requests| && t.handlers == s.handlers
            && (t.held == s.held || (step.k < |s.requests| && t.held == s.held - {S.Key(s.requests[step.k].id)}))
            && (forall i: nat :: i < |s.requests| ==> t.requests[i].future == s.requests[i].future)
  {
    hide S.Key;
  }

  // ---- Every step keeps the link ----

  /** Steps that leave the table of requests held, the arrivals and the answers alone on both sides. */
  lemma FuturesMove(j: Joint, n: Joint, body: (nat, A.Action) -> string)
    requires Linked(j, body) && n.base == j.base && n.w.arrivals == j.w.arrivals && n.w.answers == j.w.answers
    requires n.w.held.Keys == n.s.held.Keys && n.s.held.Keys <= j.s.held.Keys && |n.s.requests| == |j.s.requests|
    requires forall q :: q in n.s.held ==> n.s.held[q] == j.s.held[q] && n.w.held[q] == j.w.held[q]
    requires forall k: nat :: k < |j.s.requests| ==>
               n.s.requests[k].future == j.s.requests[k].future
               || (j.s.requests[k].future.Waiting? && n.s.requests[k].future == S.Settled(S.HANDLER_ERROR, None))
    ensures Linked(n, body)
  {
    forall a: nat | a < |n.w.answers| ensures AnswerLinked(n, a, body) { assert AnswerLinked(j, a, body); }
    forall k: nat | k < |n.s.requests| && n.s.requests[k].future.Settled? && n.s.requests[k].future.stamp.Some? ensures Answered(n, k) {
      assert Answered(j, k);
      var a: nat :| a < |j.w.answers| && j.w.answers[a].serial == j.base + k;
      assert n.w.answers[a].serial == n.base + k;
    }
  }

  /** A decision on a row whose id is held settles the request under it, or finds it settled by a failed handler. */
  lemma DecisionLinks(j: Joint, n: Joint, id: nat, action: A.Action, watch: set<nat>, body: (nat, A.Action) -> string)
    requires Linked(j, body) && S.Inv(j.s) && id < |j.w.rows| && j.w.rows[id].request in j.w.held
    requires n.base == j.base && A.SameBook(n.w, A.Decide(j.w, id, action, watch))
    requires n.s == S.Next(j.s, S.Resolve(j.w.rows[id].request, body(id, action)))
    ensures Linked(n, body)
  {
    hide S.Next, S.Inv, A.Decide;
    var request := j.w.rows[id].request;
    ResolveEffect(j.s, request, body(id, action));
    HeldKnown(j.s, request);
    HeldDistinct(j.s, request);
    DecideEffect(j.w, id, action, watch);
    SettledLinks(j, n, request, id, action, body);
  }

  lemma DecideEffect(w: A.World, id: nat, action: A.Action, watch: set<nat>)
    requires id < |w.rows| && w.rows[id].request in w.held
    ensures var w' := A.Decide(w, id, action, watch);
            && w'.held == w.held - {w.rows[id].request} && w'.arrivals == w.arrivals
            && w'.answers == w.answers + [A.Answer(id, w.held[w.rows[id].request], action)]
  {
  }

  lemma SettledLinks(j: Joint, n: Joint, q: string, id: nat, action: A.Action, body: (nat, A.Action) -> string)
    requires Linked(j, body) && q in j.s.held && j.s.held[q] < |j.s.requests| && !j.s.requests[j.s.held[q]].future.Cancelled?
    requires forall p :: p in j.s.held && p != q ==> j.s.held[p] != j.s.held[q]
    requires n.base == j.base && n.w.arrivals == j.w.arrivals && n.w.held == j.w.held - {q} && n.s.held == j.s.held - {q}
    requires n.w.answers == j.w.answers + [A.Answer(id, j.w.held[q], action)]
    requires |n.s.requests| == |j.s.requests|
    requires forall k: nat :: k < |j.s.requests| ==>
               n.s.requests[k].future ==
                 if k == j.s.held[q] && j.s.requests[k].future.Waiting?
                 then S.Settled(S.Result(body(id, action)), Some(j.s.requests[k].id)) else j.s.requests[k].future
    ensures Linked(n, body)
  {
    var k, m := j.s.held[q], |j.w.answers|;
    assert j.w.held[q] == j.base + k;
    forall a: nat | a < |n.w.answers| ensures AnswerLinked(n, a, body) {
      if a < m { assert AnswerLinked(j, a, body) && n.w.answers[a] == j.w.answers[a]; }
    }
    forall i: nat | i < |n.s.requests| && n.s.requests[i].future.Settled? && n.s.requests[i].future.stamp.Some? ensures Answered(n, i) {
      if i == k {
        assert n.w.answers[m].serial == n.base + k;
      } else {
        assert Answered(j, i);
        var a: nat :| a < |j.w.answers| && j.w.answers[a].serial == j.base + i;
        assert n.w.answers[a].serial == n.base + i;
      }
    }
  }

  lemma HeldKnown(s: S.State, q: string)
    requires S.Inv(s) && q in s.held
    ensures s.held[q] < |s.requests| && !s.requests[s.held[q]].future.Cancelled?
  {
  }

  lemma HeldDistinct(s: S.State, q: string)
    requires S.Inv(s) && q in s.held
    ensures forall p :: p in s.held && p != q ==> s.held[p] != s.held[q]
  {
  }

  /** A decision on a row whose id is not held changes nothing on either side of the link. */
  lemma LostDecisionLinks(j: Joint, n: Joint, id: nat, action: A.Action, watch: set<nat>, text: string, body: (nat, A.Action) -> string)
    requires Linked(j, body) && S.Inv(j.s) && id < |j.w.rows| && j.w.rows[id].request !in j.w.held
    requires n.base == j.base && A.SameBook(n.w, A.Decide(j.w, id, action, watch))
    requires n.s == S.Next(j.s, S.Resolve(j.w.rows[id].request, text))
    ensures Linked(n, body)
  {
    hide S.Next, S.Inv, Linked;
    ResolveEffect(j.s, j.w.rows[id].request, text);
    assert j.w.held.Keys == j.s.held.Keys by { LinkedHeld(j, body); }
    assert n.s.held == j.s.held;
    FuturesMove(j, n, body);
  }

  lemma LinkedHeld(j: Joint, body: (nat, A.Action) -> string)
    requires Linked(j, body)
    ensures HeldLinked(j)
  {
  }

  lemma ServiceKeeps(j: Joint, move: A.Step, body: (nat, A.Action) -> string)
    requires Inv(j, body) && Admissible(j, Service(move))
    ensures Inv(Next(j, Service(move), body), body)
  {
    hide A.Next, S.Next, S.Inv, B.BookInv, B.AimInv, C.ClicksOk, Linked, Sends, A.Decide;
    var n := Next(j, Service(move), body);
    B.NextKeepsBook(j.w, move);
    B.NextKeepsAim(j.w, move);
    C.NextKeepsClicks(j.w, move);
    var sent := Sends(j.w, move);
    if sent.None? {
      QuietService(j.w, move);
      LinkedHeld(j, body);
      FuturesMove(j, n, body);
    } else {
      var (id, action) := sent.value;
      SendingService(j.w, move, id, action);
      ResolveEffect(j.s, j.w.rows[id].request, body(id, action));
      if j.w.rows[id].request in j.w.held {
        DecisionLinks(j, n, id, action, Watched(move), body);
      } else {
        LostDecisionLinks(j, n, id, action, Watched(move), body(id, action), body);
      }
    }
  }

  lemma ClientKeeps(j: Joint, act: S.Step, body: (nat, A.Action) -> string)
    requires Inv(j, body) && Admissible(j, Client(act))
    ensures Inv(Next(j, Client(act), body), body)
  {
    hide A.Next, S.Next, S.Inv, B.BookInv, B.AimInv, C.ClicksOk, Linked;
    var n := Next(j, Client(act), body);
    ClientEffect(j.s, act);
    LinkedHeld(j, body);
    var k := SenderOf(act);
    if k.Some? && k.value < |j.s.requests| && S.Key(j.s.requests[k.value].id) !in n.s.held {
      var key := S.Key(j.s.requests[k.value].id);
      assert n.s.held == j.s.held - {key};
      B.NextKeepsBook(j.w, A.Forget(key));
      B.NextKeepsAim(j.w, A.Forget(key));
      C.NextKeepsClicks(j.w, A.Forget(key));
      Forgets(j.w, key);
    } else {
      assert n.w == j.w && n.s.held == j.s.held;
    }
    FuturesMove(j, n, body);
  }

  lemma Forgets(w: A.World, key: string)
    ensures var w' := A.Next(w, A.Forget(key));
            w'.held == w.held - {key} && w'.arrivals == w.arrivals && w'.answers == w.answers
  {
  }

  lemma RequestKeeps(j: Joint, task: nat, id: S.RawId, name: string, kind: A.Kind, shape: A.Shape, body: (nat, A.Action) -> string)
    requires Inv(j, body) && Admissible(j, Request(task, id, name, kind, shape))
    ensures Inv(Next(j, Request(task, id, name, kind, shape), body), body)
  {
    hide A.Next, S.Inv, B.BookInv, B.AimInv, C.ClicksOk, Linked, S.Fresh, B.Idle;
    var n := Next(j, Request(task, id, name, kind, shape), body);
    S.NextKeepsInv(j.s, S.Receive(id, name));
    LinkedHeld(j, body);
    if name in j.s.handlers {
      var arrive := A.Arrive(task, S.Key(id), kind, shape);
      B.NextKeepsBook(j.w, arrive);
      B.NextKeepsAim(j.w, arrive);
      C.NextKeepsClicks(j.w, arrive);
      Arrives(j.w, task, S.Key(id), kind, shape);
      NewRequestLinks(j, n, S.Key(id), id, body);
    } else {
      FuturesMove(j, n, body);
    }
  }

  lemma Arrives(w: A.World, task: nat, key: string, kind: A.Kind, shape: A.Shape)
    ensures var w' := A.Next(w, A.Arrive(task, key, kind, shape));
            w'.held == w.held[key := w.arrivals] && w'.arrivals == w.arrivals + 1 && w'.answers == w.answers
  {
  }

  lemma NewRequestLinks(j: Joint, n: Joint, key: string, id: S.RawId, body: (nat, A.Action) -> string)
    requires Linked(j, body) && n.base == j.base && S.Inv(j.s)
    requires n.w.held == j.w.held[key := j.w.arrivals] && n.w.arrivals == j.w.arrivals + 1 && n.w.answers == j.w.answers
    requires n.s.requests == j.s.requests + [S.Request(id, S.Waiting, S.InHandler)] && n.s.held == j.s.held[key := |j.s.requests|]
    ensures Linked(n, body)
  {
    hide S.Inv;
    assert forall q :: q in j.s.held ==> j.s.held[q] < |j.s.requests| by {
      forall q | q in j.s.held ensures j.s.held[q] < |j.s.requests| { HeldKnown(j.s, q); }
    }
    forall a: nat | a < |n.w.answers| ensures AnswerLinked(n, a, body) { assert AnswerLinked(j, a, body); }
    forall k: nat | k < |n.s.requests| && n.s.requests[k].future.Settled? && n.s.requests[k].future.stamp.Some? ensures Answered(n, k) {
      assert Answered(j, k);
      var a: nat :| a < |j.w.answers| && j.w.answers[a].serial == j.base + k;
      assert n.w.answers[a].serial == n.base + k;
    }
  }

  lemma ReconnectKeeps(j: Joint, handlers: set<string>, body: (nat, A.Action) -> string)
    requires Inv(j, body)
    ensures Inv(Next(j, Reconnect(handlers), body), body)
  {
    hide B.BookInv, B.AimInv, C.ClicksOk;
    B.NextKeepsBook(j.w, A.Disconnect);
    B.NextKeepsAim(j.w, A.Disconnect);
    C.NextKeepsClicks(j.w, A.Disconnect);
    var n := Next(j, Reconnect(handlers), body);
    forall a: nat | a < |n.w.answers| ensures AnswerLinked(n, a, body) { OldAnswer(j.w, a); }
  }

  lemma OldAnswer(w: A.World, a: nat)
    requires B.BookInv(w) && a < |w.answers|
    ensures w.answers[a].serial < w.arrivals
  {
    assert B.AnswerOk(w, a);
  }

  lemma NextKeeps(j: Joint, step: Step, body: (nat, A.Action) -> string)
    requires Inv(j, body) && Admissible(j, step)
    ensures Inv(Next(j, step, body), body)
  {
    hide Inv, Next, Admissible;
    match step
    case Request(task, id, name, kind, shape) => RequestKeeps(j, task, id, name, kind, shape, body);
    case Service(move) => ServiceKeeps(j, move, body);
    case Client(act) => ClientKeeps(j, act, body);
    case Reconnect(handlers) => ReconnectKeeps(j, handlers, body);
  }

  lemma InitialInv(tasks: seq<A.Task>, handlers: set<string>, body: (nat, A.Action) -> string)
    ensures Inv(Initial(tasks, handlers), body)
  {
    B.NothingYet(tasks);
  }

  lemma {:induction false} RunKeeps(j: Joint, steps: seq<Step>, body: (nat, A.Action) -> string)
    requires Inv(j, body) && AllAdmissible(j, steps, body)
    ensures Inv(Run(j, steps, body), body)
    decreases |steps|
  {
    hide Inv, Next, Admissible;
    if steps != [] {
      NextKeeps(j, steps[0], body);
      RunKeeps(Next(j, steps[0], body), steps[1..], body);
    }
  }

  // ---- Recorded means delivered ----

  /**
   Over every run of service and client together: a row that a click, or the projection of its answer, closed while its
   request was held on the current connection has settled that request.  Unless the request's handler had failed, the
   reply is the response of the action the row's status records, whatever is on the wire for the request is exactly that
   reply under the request's own raw id, and once the sender has delivered there is exactly one.
   */
  lemma RecordedMeansDelivered(tasks: seq<A.Task>, handlers: set<string>, steps: seq<Step>, body: (nat, A.Action) -> string, i: nat)
    requires AllAdmissible(Initial(tasks, handlers), steps, body)
    requires i < |Run(Initial(tasks, handlers), steps, body).w.rows|
    requires var j := Run(Initial(tasks, handlers), steps, body);
             B.Sent(j.w.rows[i].closing) && j.w.rows[i].closing.answer.Some? && j.base <= j.w.rows[i].serial
    ensures var j := Run(Initial(tasks, handlers), steps, body);
            var r := j.w.rows[i];
            var k := r.serial - j.base;
            && r.closing.answer.value < |j.w.answers| && k < |j.s.requests| && j.s.requests[k].future.Settled?
            && var action := j.w.answers[r.closing.answer.value].action;
               var request := j.s.requests[k];
               && r.status == B.Recorded(r, action)
               && (request.future.stamp.Some? ==>
                     && request.future.reply == S.Result(body(i, action))
                     && (forall m: nat :: m < |j.s.wire| && j.s.wire[m].Answer? && j.s.wire[m].serial == k ==>
                           j.s.wire[m] == S.Answer(k, request.id, S.Result(body(i, action)))))
               && S.AnswersTo(j.s.wire, k) <= 1
               && (request.phase == S.Finished(true) ==> S.AnswersTo(j.s.wire, k) == 1)
  {
    hide Run, AllAdmissible, Inv, Linked;
    InitialInv(tasks, handlers, body);
    RunKeeps(Initial(tasks, handlers), steps, body);
    var j := Run(Initial(tasks, handlers), steps, body);
    Unpack(j, body);
    RowSettles(j, i, body);
    RequestTells(j.s, j.w.rows[i].serial - j.base);
  }

  lemma Unpack(j: Joint, body: (nat, A.Action) -> string)
    requires Inv(j, body)
    ensures B.BookInv(j.w) && S.Inv(j.s) && Linked(j, body)
  {
  }

  lemma RowSettles(j: Joint, i: nat, body: (nat, A.Action) -> string)
    requires B.BookInv(j.w) && Linked(j, body) && i < |j.w.rows|
    requires B.Sent(j.w.rows[i].closing) && j.w.rows[i].closing.answer.Some? && j.base <= j.w.rows[i].serial
    ensures var r := j.w.rows[i];
            var k := r.serial - j.base;
            && r.closing.answer.value < |j.w.answers| && k < |j.s.requests| && j.s.requests[k].future.Settled?
            && var action := j.w.answers[r.closing.answer.value].action;
               && r.status == B.Recorded(r, action)
               && (j.s.requests[k].future.stamp.Some? ==> j.s.requests[k].future.reply == S.Result(body(i, action)))
  {
    assert B.RowOk(j.w, i);
    assert AnswerLinked(j, j.w.rows[i].closing.answer.value, body);
  }

  lemma RequestTells(s: S.State, k: nat)
    requires S.Inv(s) && k < |s.requests| && s.requests[k].future.Settled?
    ensures S.AnswersTo(s.wire, k) <= 1 && (s.requests[k].phase == S.Finished(true) ==> S.AnswersTo(s.wire, k) == 1)
    ensures s.requests[k].future.stamp.Some? ==>
              forall m: nat :: m < |s.wire| && s.wire[m].Answer? && s.wire[m].serial == k ==>
                s.wire[m] == S.Answer(k, s.requests[k].id, s.requests[k].future.reply)
  {
    assert S.RequestOk(s, k);
  }

  /**
   The other way round: what the client settles by a click on the current connection was recorded as an answer, so an
   approval never reaches the wire without being in the books.
   */
  lemma DeliveredIsAnswered(tasks: seq<A.Task>, handlers: set<string>, steps: seq<Step>, body: (nat, A.Action) -> string, k: nat)
    requires AllAdmissible(Initial(tasks, handlers), steps, body)
    requires k < |Run(Initial(tasks, handlers), steps, body).s.requests|
    requires var f := Run(Initial(tasks, handlers), steps, body).s.requests[k].future; f.Settled? && f.stamp.Some?
    ensures var j := Run(Initial(tasks, handlers), steps, body);
            exists a: nat :: a < |j.w.answers| && j.w.answers[a].serial == j.base + k
              && j.s.requests[k].future.reply == S.Result(body(j.w.answers[a].row, j.w.answers[a].action))
  {
    hide Run, AllAdmissible, Inv;
    InitialInv(tasks, handlers, body);
    RunKeeps(Initial(tasks, handlers), steps, body);
    var j := Run(Initial(tasks, handlers), steps, body);
    Unpack(j, body);
    assert Answered(j, k);
    var a: nat :| a < |j.w.answers| && j.w.answers[a].serial == j.base + k;
    assert AnswerLinked(j, a, body);
  }
}
