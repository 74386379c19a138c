/**
 Waiting for one Codex turn on a stream of backend events shared with every other turn.

 Time is a real number.  An `Arrival` enters the prompt's queue at `at`; after reacting to it the loop
 takes `lag` to come back to its head.  The clock is read once per reaction.  A timer armed for a
 deadline fires `late` after it; a negative `late` is a timer that fires early, which the event loop
 permits within its clock resolution.
 */
module PromptTurn {
  import opened Options
  import opened Text

  datatype ErrorField = NoError | ErrorObject(message: string, info: string, rendered: string) | ErrorText(text: string)

  datatype TurnField = NoTurn | TurnObject(id: string, status: string, error: ErrorField)

  datatype Kind = BackendError | ApprovalRequested | MessageDelta | TurnCompleted | TurnFailed | OtherKind

  /** A backend event: its type, and the payload fields the loop looks at.  `delta` is None when it is not text. */
  datatype Event = Event(
    kind: Kind,
    turn: TurnField,
    turnId: string,
    threadId: string,
    status: string,
    error: ErrorField,
    message: string,
    delta: Option<string>)

  datatype Arrival = Arrival(at: real, lag: real, event: Event)

  datatype Config = Config(turnId: string, threadId: string, hard: real, idle: Option<real>, late: real)

  datatype Reason = Hard | Idle | Request

  datatype Outcome = Text(text: string) | TurnError(message: string) | Timeout(reason: Reason) | Blocked

  /** `at` is the clock when the loop ended, `seen` the number of events it took from the queue. */
  datatype Verdict = Verdict(outcome: Outcome, at: real, seen: nat)

  datatype Loop = Loop(
    hardDeadline: real,
    idleDeadline: Option<real>,
    pausedSince: Option<real>,
    deltas: seq<string>)

  datatype Reaction = Continue(loop: Loop) | End(outcome: Outcome)

  const NO_RESPONSE := "(no Codex response)"
  const DISCONNECTED := "Codex backend transport disconnected"
  const FAILED_STATUSES := {"failed", "interrupted", "cancelled", "canceled"}

  function Join(parts: seq<string>): string {
    if parts == [] then "" else Join(parts[..|parts| - 1]) + parts[|parts| - 1]
  }

  function EventTurnId(e: Event): string {
    if e.turn.TurnObject? && e.turn.id != "" then e.turn.id else e.turnId
  }

  function EventStatus(e: Event): string {
    if e.turn.TurnObject? && e.turn.status != "" then e.turn.status else e.status
  }

  function EventError(e: Event): string {
    var error := if e.turn.TurnObject? && !e.turn.error.NoError? then e.turn.error else e.error;
    match error
    case ErrorObject(message, info, rendered) =>
      if message != "" then message else if info != "" then info else rendered
    case ErrorText(text) => if text != "" then text else "unknown error"
    case NoError => "unknown error"
  }

  predicate Matches(cfg: Config, e: Event) {
    if EventTurnId(e) != "" then EventTurnId(e) == cfg.turnId else e.threadId == cfg.threadId
  }

  function Start(cfg: Config, start: real): Loop {
    Loop(start + cfg.hard, if cfg.idle.Some? then Some(start + cfg.idle.value) else None, None, [])
  }

  function Refreshed(cfg: Config, t: real, otherwise: Option<real>): Option<real> {
    if cfg.idle.Some? then Some(t + cfg.idle.value) else otherwise
  }

  function Paused(l: Loop, t: real): Loop {
    l.(pausedSince := if l.pausedSince.None? then Some(t) else l.pausedSince, idleDeadline := None)
  }

  /** Clock bookkeeping for a matching event that is not an approval request. */
  function Resumed(cfg: Config, l: Loop, t: real): Loop {
    if l.pausedSince.Some? then
      l.(hardDeadline := l.hardDeadline + (t - l.pausedSince.value),
         pausedSince := None,
         idleDeadline := Refreshed(cfg, t, l.idleDeadline))
    else
      l.(idleDeadline := Refreshed(cfg, t, l.idleDeadline))
  }

  function React(cfg: Config, l: Loop, t: real, e: Event): Reaction {
    if e.kind.BackendError? then End(TurnError(if e.message != "" then e.message else DISCONNECTED))
    else if !Matches(cfg, e) then
      Continue(if e.kind.ApprovalRequested? && e.threadId == cfg.threadId then Paused(l, t) else l)
    else if e.kind.ApprovalRequested? then Continue(Paused(l, t))
    else
      var l' := Resumed(cfg, l, t);
      match e.kind
      case MessageDelta => Continue(if e.delta.Some? then l'.(deltas := l'.deltas + [e.delta.value]) else l')
      case TurnCompleted =>
        if EventStatus(e) in FAILED_STATUSES then End(TurnError(EventError(e)))
        else End(Text(if l'.deltas == [] then NO_RESPONSE else Join(l'.deltas)))
      case TurnFailed => End(TurnError(EventError(e)))
      case _ => Continue(l')
  }

  function Deadline(l: Loop): real {
    if l.idleDeadline.Some? && l.idleDeadline.value < l.hardDeadline then l.idleDeadline.value else l.hardDeadline
  }

  function TimeoutReason(l: Loop, now: real): Reason {
    if now >= l.hardDeadline then Hard
    else if l.idleDeadline.Some? && now >= l.idleDeadline.value then Idle
    else Request
  }

  /** The verdict at a loop head whose next event arrives at `next`, or None when that event is taken. */
  function AtHead(cfg: Config, l: Loop, now: real, next: Option<real>): Option<Verdict> {
    if l.pausedSince.Some? then
      if next.None? then Some(Verdict(Blocked, now, 0)) else None
    else if now >= l.hardDeadline then Some(Verdict(Timeout(Hard), now, 0))
    else if now >= Deadline(l) then Some(Verdict(Timeout(Idle), now, 0))
    else if next.None? || Max(now, next.value) >= Deadline(l) then
      var fired := Deadline(l) + cfg.late;
      Some(Verdict(Timeout(TimeoutReason(l, fired)), fired, 0))
    else None
  }

  /**
   When the loop takes the next event: always while an approval is open, and otherwise exactly if it is in the queue before
   the hard deadline and before the idle deadline, if there is one, and neither has passed.
   */
  lemma TakesExactly(cfg: Config, l: Loop, now: real, next: Option<real>)
    ensures AtHead(cfg, l, now, next).None? <==>
              next.Some? && (l.pausedSince.None? ==>
                && now < l.hardDeadline && next.value < l.hardDeadline
                && (l.idleDeadline.Some? ==> now < l.idleDeadline.value && next.value < l.idleDeadline.value))
    ensures AtHead(cfg, l, now, next).Some? ==>
              (AtHead(cfg, l, now, next).value.outcome.Blocked? <==> l.pausedSince.Some?)
              && (l.pausedSince.None? ==> AtHead(cfg, l, now, next).value.outcome.Timeout?)
  {}

  function NextArrival(arrivals: seq<Arrival>): Option<real> {
    if arrivals == [] then None else Some(arrivals[0].at)
  }

  /** The loop from one of its heads, at clock `now`, with `arrivals` still to come. */
  function Await(cfg: Config, l: Loop, now: real, arrivals: seq<Arrival>): Verdict
    decreases |arrivals|
  {
    match AtHead(cfg, l, now, NextArrival(arrivals))
    case Some(v) => v
    case None =>
      var t := Max(now, arrivals[0].at);
      match React(cfg, l, t, arrivals[0].event)
      case End(outcome) => Verdict(outcome, t, 1)
      case Continue(l') =>
        var v := Await(cfg, l', t + arrivals[0].lag, arrivals[1..]);
        v.(seen := v.seen + 1)
  }

  /** The part of the loop body that follows the queue read. */
  method HandleEvent(cfg: Config, l: Loop, now: real, e: Event) returns (r: Reaction)
    ensures r == React(cfg, l, now, e)
  {
    var hardDeadline, idleDeadline, pausedSince, deltas := l.hardDeadline, l.idleDeadline, l.pausedSince, l.deltas;
    if e.kind.BackendError? {
      return End(TurnError(if e.message != "" then e.message else DISCONNECTED));
    }
    if !Matches(cfg, e) {
      if e.kind.ApprovalRequested? && e.threadId == cfg.threadId {
        if pausedSince.None? { pausedSince := Some(now); }
        idleDeadline := None;
      }
      return Continue(Loop(hardDeadline, idleDeadline, pausedSince, deltas));
    }
    if !e.kind.ApprovalRequested? {
      if pausedSince.Some? {
        hardDeadline := hardDeadline + (now - pausedSince.value);
        pausedSince := None;
        if cfg.idle.Some? { idleDeadline := Some(now + cfg.idle.value); }
      } else if cfg.idle.Some? {
        idleDeadline := Some(now + cfg.idle.value);
      }
    } else if cfg.idle.Some? {
      idleDeadline := Some(now + cfg.idle.value);
    }
    if e.kind.MessageDelta? {
      if e.delta.Some? { deltas := deltas + [e.delta.value]; }
    } else if e.kind.ApprovalRequested? {
      if pausedSince.None? { pausedSince := Some(now); }
      idleDeadline := None;
    } else if e.kind.TurnCompleted? {
      if EventStatus(e) in FAILED_STATUSES {
        return End(TurnError(EventError(e)));
      }
      return End(Text(if deltas == [] then NO_RESPONSE else Join(deltas)));
    } else if e.kind.TurnFailed? {
      return End(TurnError(EventError(e)));
    }
    return Continue(Loop(hardDeadline, idleDeadline, pausedSince, deltas));
  }

  /** The waiting loop of `send_codex_prompt`. */
  method AwaitTurn(cfg: Config, start: real, arrivals: seq<Arrival>) returns (v: Verdict)
    ensures v == Await(cfg, Start(cfg, start), start, arrivals)
  {
    var l := Start(cfg, start);
    var now, i := start, 0;
    while true
      invariant 0 <= i <= |arrivals|
      invariant var rest := Await(cfg, l, now, arrivals[i..]);
                Await(cfg, Start(cfg, start), start, arrivals) == rest.(seen := i + rest.seen)
      decreases |arrivals| - i
    {
      var waiting := l.pausedSince.Some?;
      if !waiting && now >= l.hardDeadline {
        return Verdict(Timeout(Hard), now, i);
      }
      var nextDeadline := l.hardDeadline;
      if !waiting {
        if l.idleDeadline.Some? && l.idleDeadline.value < nextDeadline {
          nextDeadline := l.idleDeadline.value;
        }
        if nextDeadline - now <= 0.0 {
          return Verdict(Timeout(if l.idleDeadline.Some? && nextDeadline == l.idleDeadline.value then Idle else Hard), now, i);
        }
      }
      if waiting && i == |arrivals| {
        return Verdict(Blocked, now, i);
      }
      if i == |arrivals| || (!waiting && Max(now, arrivals[i].at) >= nextDeadline) {
        now := nextDeadline + cfg.late;
        return Verdict(Timeout(TimeoutReason(l, now)), now, i);
      }
      now := Max(now, arrivals[i].at);
      assert arrivals[i..][1..] == arrivals[i + 1..];
      var reaction := HandleEvent(cfg, l, now, arrivals[i].event);
      match reaction {
        case End(outcome) => return Verdict(outcome, now, i + 1);
        case Continue(l') => l := l';
      }
      now := now + arrivals[i].lag;
      i := i + 1;
    }
  }

  // ---- Whose events are acted on, by the fields of their payload ----

  /** The turn object names this turn; or it names none and the payload does; or neither names any, on this thread. */
  predicate OfTurn(cfg: Config, e: Event) {
    if e.turn.TurnObject? && e.turn.id != "" then e.turn.id == cfg.turnId
    else if e.turnId != "" then e.turnId == cfg.turnId
    else e.threadId == cfg.threadId
  }

  /** The event names turn `id`: in its turn object, or in its payload when it has no turn object that names one. */
  predicate Names(e: Event, id: string) {
    id != "" && ((e.turn.TurnObject? && e.turn.id == id) || ((e.turn.NoTurn? || e.turn.id == "") && e.turnId == id))
  }

  predicate NamesNone(e: Event) { (e.turn.NoTurn? || e.turn.id == "") && e.turnId == "" }

  /** The message of an error, wherever the event carries it: the turn object's first, then the payload's. */
  predicate Explains(e: Event, m: string) {
    var none := e.turn.NoTurn? || e.turn.error.NoError?;
    && (!none && e.turn.error.ErrorObject? && e.turn.error.message != "" ==> m == e.turn.error.message)
    && (!none && e.turn.error.ErrorObject? && e.turn.error.message == "" && e.turn.error.info != "" ==> m == e.turn.error.info)
    && (!none && e.turn.error.ErrorText? && e.turn.error.text != "" ==> m == e.turn.error.text)
    && (none && e.error.ErrorObject? && e.error.message != "" ==> m == e.error.message)
    && (none && e.error.ErrorObject? && e.error.message == "" && e.error.info != "" ==> m == e.error.info)
    && (none && e.error.ErrorText? && e.error.text != "" ==> m == e.error.text)
    && ((none && e.error.NoError?) || (!none && e.turn.error == ErrorText("")) || (none && e.error == ErrorText("")) ==> m == "unknown error")
  }

  /** The turn ended badly, says the turn object's status, or the payload's when the turn object has none. */
  predicate EndedBadly(e: Event) {
    var status := if e.turn.TurnObject? && e.turn.status != "" then e.turn.status else e.status;
    status == "failed" || status == "interrupted" || status == "cancelled" || status == "canceled"
  }

  /** The clock runs again from `t` on, and the wait that was open counts for nothing. */
  predicate RunsOn(cfg: Config, l: Loop, t: real, next: Loop) {
    && next.pausedSince.None?
    && next.hardDeadline == l.hardDeadline + (if l.pausedSince.Some? then t - l.pausedSince.value else 0.0)
    && (cfg.idle.Some? ==> next.idleDeadline == Some(t + cfg.idle.value))
    && (cfg.idle.None? ==> next.idleDeadline == l.idleDeadline)
  }

  /** The loop acted on the event at `t`. */
  predicate ActedOn(cfg: Config, l: Loop, t: real, e: Event, r: Reaction) {
    match e.kind
    case ApprovalRequested =>
      r == Continue(Loop(l.hardDeadline, None, if l.pausedSince.Some? then l.pausedSince else Some(t), l.deltas))
    case MessageDelta =>
      r.Continue? && RunsOn(cfg, l, t, r.loop) && r.loop.deltas == l.deltas + if e.delta.Some? then [e.delta.value] else []
    case TurnCompleted =>
      r.End? && if EndedBadly(e) then r.outcome.TurnError? && Explains(e, r.outcome.message)
                else r.outcome == Text(if l.deltas == [] then "(no Codex response)" else Join(l.deltas))
    case TurnFailed => r.End? && r.outcome.TurnError? && Explains(e, r.outcome.message)
    case BackendError =>
      r == End(TurnError(if e.message != "" then e.message else "Codex backend transport disconnected"))
    case OtherKind => r.Continue? && RunsOn(cfg, l, t, r.loop) && r.loop.deltas == l.deltas
  }

  /**
   A backend error ends every prompt.  Of the other events, one that names the prompt's turn is acted on whatever its
   thread; one that names another turn is not, whatever its thread, save that an approval request on the prompt's thread
   pauses the clock; and one that names no turn is acted on exactly if it is on the prompt's thread.
   */
  lemma EventsActedOn(cfg: Config, l: Loop, t: real, e: Event)
    ensures var r := React(cfg, l, t, e);
            && (e.kind.BackendError? || Names(e, cfg.turnId) ==> ActedOn(cfg, l, t, e, r))
            && (forall other: string :: Names(e, other) && other != cfg.turnId && !e.kind.BackendError? ==>
                  if e.kind.ApprovalRequested? && e.threadId == cfg.threadId then ActedOn(cfg, l, t, e, r) else r == Continue(l))
            && (NamesNone(e) && !e.kind.BackendError? ==>
                  if e.threadId == cfg.threadId then ActedOn(cfg, l, t, e, r) else r == Continue(l))
    ensures NamesNone(e) || exists id: string :: Names(e, id)
  {
    if !NamesNone(e) {
      assert Names(e, if e.turn.TurnObject? && e.turn.id != "" then e.turn.id else e.turnId);
    }
  }

  // ---- Non-interference of concurrent turns ----

  predicate Relevant(cfg: Config, e: Event) {
    e.kind.BackendError? || OfTurn(cfg, e) || (e.kind.ApprovalRequested? && e.threadId == cfg.threadId)
  }

  function Erase(cfg: Config, arrivals: seq<Arrival>): seq<Arrival> {
    if arrivals == [] then []
    else (if Relevant(cfg, arrivals[0].event) then [arrivals[0]] else []) + Erase(cfg, arrivals[1..])
  }

  ghost predicate InOrder(arrivals: seq<Arrival>) {
    forall i, j :: 0 <= i < j < |arrivals| ==> arrivals[i].at <= arrivals[j].at
  }

  /** At clock `now`, and at `was` before it, the loop is equally far from timing out. */
  predicate SameHead(l: Loop, was: real, now: real) {
    was == now || (was < now && (l.pausedSince.Some? || now < Deadline(l)))
  }

  /**
   Along the loop, which is at its head at `now` and would be there at `was` without the events of other turns: handling
   such an event ends before the deadline in force, if the clock is running, and a relevant event that it keeps waiting
   leaves the loop with the deadlines it would have had.
   */
  ghost predicate IgnoresInTime(cfg: Config, l: Loop, was: real, now: real, arrivals: seq<Arrival>)
    decreases |arrivals|
  {
    arrivals == [] || AtHead(cfg, l, now, NextArrival(arrivals)).Some? ||
    var a, rest := arrivals[0], arrivals[1..];
    var t := Max(now, a.at);
    if Relevant(cfg, a.event) then
      var r, r' := React(cfg, l, Max(was, a.at), a.event), React(cfg, l, t, a.event);
      r == r' && (r.Continue? ==>
        && SameHead(r.loop, Max(was, a.at) + a.lag, t + a.lag)
        && IgnoresInTime(cfg, r.loop, Max(was, a.at) + a.lag, t + a.lag, rest))
    else
      a.lag >= 0.0 && SameHead(l, was, t + a.lag) && IgnoresInTime(cfg, l, was, t + a.lag, rest)
  }

  lemma {:induction false} EraseKeepsOrder(cfg: Config, arrivals: seq<Arrival>, bound: real)
    requires forall i :: 0 <= i < |arrivals| ==> bound <= arrivals[i].at
    ensures forall i :: 0 <= i < |Erase(cfg, arrivals)| ==> bound <= Erase(cfg, arrivals)[i].at
  {
    if arrivals != [] {
      EraseKeepsOrder(cfg, arrivals[1..], bound);
    }
  }

  /** One turn of the loop, as equations. */
  lemma AwaitUnfolds(cfg: Config, l: Loop, now: real, arrivals: seq<Arrival>)
    ensures var h := AtHead(cfg, l, now, NextArrival(arrivals));
            && (h.Some? ==> Await(cfg, l, now, arrivals) == h.value)
            && (h.None? ==>
                  && arrivals != []
                  && var t := Max(now, arrivals[0].at);
                     var r := React(cfg, l, t, arrivals[0].event);
                     && (r.End? ==> Await(cfg, l, now, arrivals) == Verdict(r.outcome, t, 1))
                     && (r.Continue? ==>
                           var v := Await(cfg, r.loop, t + arrivals[0].lag, arrivals[1..]);
                           Await(cfg, l, now, arrivals) == v.(seen := v.seen + 1)))
  {
  }

  lemma ForeignContinues(cfg: Config, l: Loop, t: real, e: Event)
    requires !Relevant(cfg, e)
    ensures React(cfg, l, t, e) == Continue(l)
  {
  }

  /** A loop that times out or blocks at `now`, with arrivals to come or not, does so at `was` without them. */
  lemma StopsAlike(cfg: Config, l: Loop, was: real, now: real, next: Option<real>, kept: seq<Arrival>)
    requires SameHead(l, was, now) && AtHead(cfg, l, now, next).Some?
    requires if next.None? then kept == [] else forall i :: 0 <= i < |kept| ==> next.value <= kept[i].at
    ensures Await(cfg, l, was, kept).outcome == AtHead(cfg, l, now, next).value.outcome
  {
    hide React;
  }

  /** A loop that takes an event at `now` takes it at `was`. */
  lemma TakesAlike(cfg: Config, l: Loop, was: real, now: real, at: real)
    requires SameHead(l, was, now) && AtHead(cfg, l, now, Some(at)).None?
    ensures AtHead(cfg, l, was, Some(at)).None?
  {
  }

  lemma {:induction false} Erases(cfg: Config, l: Loop, was: real, now: real, arrivals: seq<Arrival>)
    requires InOrder(arrivals) && SameHead(l, was, now) && IgnoresInTime(cfg, l, was, now, arrivals)
    ensures Await(cfg, l, was, Erase(cfg, arrivals)).outcome == Await(cfg, l, now, arrivals).outcome
    decreases |arrivals|
  {
    hide Await, React, AtHead, SameHead, Relevant, Max;
    AwaitUnfolds(cfg, l, now, arrivals);
    if AtHead(cfg, l, now, NextArrival(arrivals)).Some? {
      if arrivals != [] { EraseKeepsOrder(cfg, arrivals, arrivals[0].at); }
      StopsAlike(cfg, l, was, now, NextArrival(arrivals), Erase(cfg, arrivals));
    } else {
      var a, rest, kept := arrivals[0], arrivals[1..], Erase(cfg, arrivals[1..]);
      var t := Max(now, a.at);
      if Relevant(cfg, a.event) {
        assert Erase(cfg, arrivals)[0] == a && Erase(cfg, arrivals)[1..] == kept;
        TakesAlike(cfg, l, was, now, a.at);
        AwaitUnfolds(cfg, l, was, Erase(cfg, arrivals));
        var r := React(cfg, l, t, a.event);
        if r.Continue? {
          Erases(cfg, r.loop, Max(was, a.at) + a.lag, t + a.lag, rest);
        }
      } else {
        assert Erase(cfg, arrivals) == kept;
        ForeignContinues(cfg, l, t, a.event);
        Erases(cfg, l, was, t + a.lag, rest);
      }
    }
  }

  /**
   Deleting every event that is not a backend error, does not match the turn and is not an approval request on the
   turn's thread leaves the prompt's outcome unchanged, as long as such events are handled in time.
   */
  lemma NonInterference(cfg: Config, l: Loop, now: real, arrivals: seq<Arrival>)
    requires InOrder(arrivals) && IgnoresInTime(cfg, l, now, now, arrivals)
    ensures Await(cfg, l, now, Erase(cfg, arrivals)).outcome == Await(cfg, l, now, arrivals).outcome
  {
    hide Await, Erase, IgnoresInTime;
    Erases(cfg, l, now, now, arrivals);
  }

  /** The arrivals that name turn `id`. */
  function Naming(arrivals: seq<Arrival>, id: string): seq<Arrival> {
    if arrivals == [] then []
    else (if Names(arrivals[0].event, id) then [arrivals[0]] else []) + Naming(arrivals[1..], id)
  }

  /** Every arrival names the prompt's turn or turn `other`, and those of `other` are neither errors nor approval requests. */
  ghost predicate TwoTurns(cfg: Config, other: string, arrivals: seq<Arrival>) {
    && other != cfg.turnId
    && forall i :: 0 <= i < |arrivals| ==>
         var e := arrivals[i].event;
         Names(e, cfg.turnId) || (Names(e, other) && !e.kind.BackendError? && !e.kind.ApprovalRequested?)
  }

  lemma {:induction false} ErasedIsNaming(cfg: Config, other: string, arrivals: seq<Arrival>)
    requires TwoTurns(cfg, other, arrivals)
    ensures Erase(cfg, arrivals) == Naming(arrivals, cfg.turnId)
  {
    if arrivals != [] {
      ErasedIsNaming(cfg, other, arrivals[1..]);
      assert Names(arrivals[0].event, cfg.turnId) || Names(arrivals[0].event, other);
    }
  }

  /**
   A turn on the same thread does not interfere: when a stream holds the events of two turns, in any mixture and on any
   threads, the prompt comes out as if only the events that name its own turn had been sent.
   */
  lemma SameThreadNonInterference(cfg: Config, other: string, l: Loop, now: real, arrivals: seq<Arrival>)
    requires TwoTurns(cfg, other, arrivals)
    requires InOrder(arrivals) && IgnoresInTime(cfg, l, now, now, arrivals)
    ensures Await(cfg, l, now, Naming(arrivals, cfg.turnId)).outcome == Await(cfg, l, now, arrivals).outcome
  {
    hide Await, Erase, IgnoresInTime;
    ErasedIsNaming(cfg, other, arrivals);
    NonInterference(cfg, l, now, arrivals);
  }

  /** Handling that takes no time is always in time. */
  lemma {:induction false} AtOnceIsInTime(cfg: Config, l: Loop, was: real, now: real, arrivals: seq<Arrival>)
    requires InOrder(arrivals) && SameHead(l, was, now)
    requires forall i :: 0 <= i < |arrivals| ==> Max(was, arrivals[i].at) == Max(now, arrivals[i].at)
    requires forall i :: 0 <= i < |arrivals| && !Relevant(cfg, arrivals[i].event) ==> arrivals[i].lag == 0.0
    ensures IgnoresInTime(cfg, l, was, now, arrivals)
    decreases |arrivals|
  {
    hide React, Relevant;
    if arrivals != [] && AtHead(cfg, l, now, NextArrival(arrivals)).None? {
      var a, rest := arrivals[0], arrivals[1..];
      var t := Max(now, a.at);
      if Relevant(cfg, a.event) {
        var r := React(cfg, l, t, a.event);
        if r.Continue? { AtOnceIsInTime(cfg, r.loop, t + a.lag, t + a.lag, rest); }
      } else {
        AtOnceIsInTime(cfg, l, was, t, rest);
      }
    }
  }

  /** The completion of the prompt's own turn, arriving at `at`. */
  function Done(cfg: Config, at: real): Arrival {
    Arrival(at, 0.0, Event(TurnCompleted, NoTurn, cfg.turnId, cfg.threadId, "completed", NoError, "", None))
  }

  lemma DoneEnds(cfg: Config, l: Loop, t: real, at: real)
    ensures Relevant(cfg, Done(cfg, at).event)
    ensures React(cfg, l, t, Done(cfg, at).event).End? && React(cfg, l, t, Done(cfg, at).event).outcome.Text?
  {
  }

  /**
   The bound on the deadline is necessary in every state whose clock is running: if handling a foreign event reaches
   past the deadline, the completion of the turn right behind it is lost to a timeout, which without it is an answer.
   */
  lemma LateForeignInterferes(cfg: Config, l: Loop, now: real, a: Arrival)
    requires !Relevant(cfg, a.event) && l.pausedSince.None?
    requires Max(now, a.at) < Deadline(l) <= Max(now, a.at) + a.lag
    ensures var arrivals := [a, Done(cfg, Max(now, a.at))];
            && InOrder(arrivals)
            && Await(cfg, l, now, arrivals).outcome.Timeout?
            && Await(cfg, l, now, Erase(cfg, arrivals)).outcome.Text?
  {
    hide Await, React;
    var t := Max(now, a.at);
    var done := Done(cfg, t);
    var arrivals := [a, done];
    assert arrivals[1..] == [done] && [done][1..] == [];
    DoneEnds(cfg, l, t, t);
    assert Erase(cfg, []) == [];
    assert Erase(cfg, [done]) == [done] && Erase(cfg, arrivals) == [done];
    ForeignContinues(cfg, l, t, a.event);
    AwaitUnfolds(cfg, l, now, arrivals);
    AwaitUnfolds(cfg, l, t + a.lag, [done]);
    AwaitUnfolds(cfg, l, now, [done]);
  }

  /** So for every positive handling time there is a stream that one foreign event turns from an answer into a timeout. */
  lemma LagInterferes(cfg: Config, foreign: Event, d: real)
    requires !Relevant(cfg, foreign) && d > 0.0 && Deadline(Start(cfg, 0.0)) > 0.0
    ensures var l := Start(cfg, 0.0);
            exists arrivals: seq<Arrival> :: |arrivals| == 2 && InOrder(arrivals) && arrivals[0].lag == d && arrivals[0].event == foreign
              && Await(cfg, l, 0.0, arrivals).outcome.Timeout? && Await(cfg, l, 0.0, Erase(cfg, arrivals)).outcome.Text?
  {
    hide Await, Erase, InOrder;
    var l := Start(cfg, 0.0);
    var a := Arrival(Deadline(l) - d, d, foreign);
    LateForeignInterferes(cfg, l, 0.0, a);
    assert [a, Done(cfg, Max(0.0, a.at))][0] == a;
  }

  /** An event of the turn that ends an approval wait and nothing else. */
  function Resume(cfg: Config, at: real): Arrival {
    Arrival(at, 0.0, Event(OtherKind, NoTurn, cfg.turnId, cfg.threadId, "", NoError, "", None))
  }

  lemma ResumeContinues(cfg: Config, l: Loop, t: real, at: real)
    ensures Relevant(cfg, Resume(cfg, at).event)
    ensures React(cfg, l, t, Resume(cfg, at).event) == Continue(Resumed(cfg, l, t))
  {
  }

  /**
   Not keeping the next relevant event waiting is necessary wherever waiting moves the deadline, as it does whenever an
   approval is open: handling that holds up the event that resumes the turn turns a timeout into an answer.
   */
  lemma DelayInterferes(cfg: Config, l: Loop, now: real, a: Arrival, at: real)
    requires !Relevant(cfg, a.event) && a.at <= at
    requires l.pausedSince.Some? || Max(now, a.at) + a.lag < Deadline(l)
    requires var r, h := Max(now, at), Max(now, a.at) + a.lag;
             r < h && r < Deadline(Resumed(cfg, l, r)) < Deadline(Resumed(cfg, l, h)) && h < Deadline(Resumed(cfg, l, h))
    ensures var due := Deadline(Resumed(cfg, l, Max(now, at)));
            var arrivals := [a, Resume(cfg, at), Done(cfg, due)];
            && InOrder(arrivals)
            && Await(cfg, l, now, arrivals).outcome.Text?
            && Await(cfg, l, now, Erase(cfg, arrivals)).outcome.Timeout?
  {
    hide Await, React, Resumed, Erase, Resume, Done;
    var r, h := Max(now, at), Max(now, a.at) + a.lag;
    var due := Deadline(Resumed(cfg, l, r));
    var tail := [Resume(cfg, at), Done(cfg, due)];
    var arrivals := [a] + tail;
    assert arrivals == [a, Resume(cfg, at), Done(cfg, due)] && arrivals[1..] == tail;
    TailErases(cfg, a, at, due);
    ForeignContinues(cfg, l, Max(now, a.at), a.event);
    AwaitUnfolds(cfg, l, now, arrivals);
    ResumeThenDone(cfg, l, h, at, due);
    ResumeThenDone(cfg, l, now, at, due);
  }

  lemma TailErases(cfg: Config, a: Arrival, at: real, due: real)
    requires !Relevant(cfg, a.event)
    ensures var tail := [Resume(cfg, at), Done(cfg, due)];
            Erase(cfg, [a, Resume(cfg, at), Done(cfg, due)]) == tail && tail[0].at == at && tail[1].at == due
  {
    hide React, Relevant;
    var tail := [Resume(cfg, at), Done(cfg, due)];
    ResumeContinues(cfg, Start(cfg, 0.0), 0.0, at);
    DoneEnds(cfg, Start(cfg, 0.0), 0.0, due);
    assert [a, Resume(cfg, at), Done(cfg, due)][1..] == tail && tail[1..] == [Done(cfg, due)] && [Done(cfg, due)][1..] == [];
    assert Erase(cfg, []) == [];
    assert Erase(cfg, tail[1..]) == tail[1..];
    assert Erase(cfg, tail) == tail;
  }

  /** A turn that is resumed and then completed, from a head that takes the first of the two events. */
  lemma ResumeThenDone(cfg: Config, l: Loop, now: real, at: real, due: real)
    requires l.pausedSince.Some? || Max(now, at) < Deadline(l)
    ensures var t := Max(now, at);
            var limit := Deadline(Resumed(cfg, l, t));
            var outcome := Await(cfg, l, now, [Resume(cfg, at), Done(cfg, due)]).outcome;
            && (Max(t, due) < limit ==> outcome.Text?)
            && (t < limit <= due ==> outcome.Timeout?)
  {
    hide Await, React;
    var t := Max(now, at);
    var tail := [Resume(cfg, at), Done(cfg, due)];
    assert tail[1..] == [Done(cfg, due)];
    ResumeContinues(cfg, l, t, at);
    AwaitUnfolds(cfg, l, now, tail);
    AwaitUnfolds(cfg, Resumed(cfg, l, t), t, [Done(cfg, due)]);
    DoneEnds(cfg, Resumed(cfg, l, t), Max(t, due), due);
  }

  /** While an approval is open every delay of the event that ends it moves the deadline. */
  lemma ApprovalDelayMoves(cfg: Config, l: Loop, r: real, h: real)
    requires l.pausedSince.Some? && r < h && r < Deadline(Resumed(cfg, l, r)) && (l.idleDeadline.None? || cfg.idle.Some?)
    ensures Deadline(Resumed(cfg, l, h)) == Deadline(Resumed(cfg, l, r)) + (h - r)
  {
  }

  // ---- Clock accounting, read off the events alone ----

  /** The clock when the loop is at its head before event `i`. */
  ghost function HeadTime(start: real, arrivals: seq<Arrival>, i: nat): real
    requires i <= |arrivals|
    decreases i, 0
  {
    if i == 0 then start else TakenAt(start, arrivals, i - 1) + arrivals[i - 1].lag
  }

  /** The clock when event `i` is taken from the queue. */
  ghost function TakenAt(start: real, arrivals: seq<Arrival>, i: nat): real
    requires i < |arrivals|
    decreases i, 1
  {
    Max(HeadTime(start, arrivals, i), arrivals[i].at)
  }

  ghost predicate Opens(cfg: Config, e: Event) {
    e.kind.ApprovalRequested? && (OfTurn(cfg, e) || e.threadId == cfg.threadId)
  }

  ghost predicate Closes(cfg: Config, e: Event) {
    OfTurn(cfg, e) && !e.kind.ApprovalRequested?
  }

  /** When the approval wait that is open after `i` events began. */
  ghost function OpenSince(cfg: Config, start: real, arrivals: seq<Arrival>, i: nat): Option<real>
    requires i <= |arrivals|
  {
    if i == 0 then None
    else
      var before := OpenSince(cfg, start, arrivals, i - 1);
      var e := arrivals[i - 1].event;
      if Opens(cfg, e) && before.None? then Some(TakenAt(start, arrivals, i - 1))
      else if Closes(cfg, e) then None
      else before
  }

  /** The total length of the approval waits that ended within the first `i` events. */
  ghost function FinishedWaits(cfg: Config, start: real, arrivals: seq<Arrival>, i: nat): real
    requires i <= |arrivals|
  {
    if i == 0 then 0.0
    else
      var open := OpenSince(cfg, start, arrivals, i - 1);
      FinishedWaits(cfg, start, arrivals, i - 1)
      + if open.Some? && Closes(cfg, arrivals[i - 1].event) then TakenAt(start, arrivals, i - 1) - open.value else 0.0
  }

  /** When an event of this turn was last seen. */
  ghost function LastMatch(cfg: Config, start: real, arrivals: seq<Arrival>, i: nat): real
    requires i <= |arrivals|
  {
    if i == 0 then start
    else if OfTurn(cfg, arrivals[i - 1].event) then TakenAt(start, arrivals, i - 1)
    else LastMatch(cfg, start, arrivals, i - 1)
  }

  /** The text of this turn among the first `i` events. */
  ghost function TurnText(cfg: Config, arrivals: seq<Arrival>, i: nat): seq<string>
    requires i <= |arrivals|
  {
    if i == 0 then []
    else
      var e := arrivals[i - 1].event;
      TurnText(cfg, arrivals, i - 1)
      + if OfTurn(cfg, e) && e.kind.MessageDelta? && e.delta.Some? then [e.delta.value] else []
  }

  /** What the loop's variables hold at the head before event `i`. */
  ghost function AccountAt(cfg: Config, start: real, arrivals: seq<Arrival>, i: nat): Loop
    requires i <= |arrivals|
  {
    var open := OpenSince(cfg, start, arrivals, i);
    Loop(
      start + cfg.hard + FinishedWaits(cfg, start, arrivals, i),
      if open.None? && cfg.idle.Some? then Some(LastMatch(cfg, start, arrivals, i) + cfg.idle.value) else None,
      open,
      TurnText(cfg, arrivals, i))
  }

  lemma AccountStep(cfg: Config, start: real, arrivals: seq<Arrival>, i: nat)
    requires i < |arrivals|
    ensures var r := React(cfg, AccountAt(cfg, start, arrivals, i), TakenAt(start, arrivals, i), arrivals[i].event);
            r.Continue? ==> r.loop == AccountAt(cfg, start, arrivals, i + 1)
  {
  }

  lemma EndsAreAnswers(cfg: Config, l: Loop, t: real, e: Event)
    ensures React(cfg, l, t, e).End? ==> React(cfg, l, t, e).outcome.Text? || React(cfg, l, t, e).outcome.TurnError?
  {
  }

  /** The loop's variables at the head before event `i`, by letting it react to the events one by one. */
  ghost function LoopAt(cfg: Config, start: real, arrivals: seq<Arrival>, i: nat): Loop
    requires i <= |arrivals|
  {
    if i == 0 then Start(cfg, start)
    else
      var before := LoopAt(cfg, start, arrivals, i - 1);
      match React(cfg, before, TakenAt(start, arrivals, i - 1), arrivals[i - 1].event)
      case Continue(l) => l
      case End(_) => before
  }

  /** The loop is at its head before event `i` of the run. */
  ghost predicate Reaches(cfg: Config, start: real, arrivals: seq<Arrival>, i: nat) {
    var v := Await(cfg, Start(cfg, start), start, arrivals);
    i < v.seen || (i == v.seen && (v.outcome.Timeout? || v.outcome.Blocked?))
  }

  /**
   At every head the loop reaches, its variables are what the accounting says: the hard deadline is start plus limit plus
   the finished approval waits, and so on; and the verdict is decided from there.
   */
  lemma {:induction false} LoopHeadAccount(cfg: Config, start: real, arrivals: seq<Arrival>, i: nat)
    requires Reaches(cfg, start, arrivals, i)
    ensures i <= |arrivals|
    ensures LoopAt(cfg, start, arrivals, i) == AccountAt(cfg, start, arrivals, i)
    ensures var rest := Await(cfg, LoopAt(cfg, start, arrivals, i), HeadTime(start, arrivals, i), arrivals[i..]);
            Await(cfg, Start(cfg, start), start, arrivals) == rest.(seen := i + rest.seen)
  {
    hide Await, AtHead, React;
    if i == 0 {
      assert arrivals[0..] == arrivals;
    } else {
      LoopHeadAccount(cfg, start, arrivals, i - 1);
      var l, now, rest := AccountAt(cfg, start, arrivals, i - 1), HeadTime(start, arrivals, i - 1), arrivals[i - 1..];
      AwaitUnfolds(cfg, l, now, rest);
      HeadSeesNothing(cfg, l, now, NextArrival(rest));
      assert rest[0] == arrivals[i - 1] && rest[1..] == arrivals[i..];
      AccountStep(cfg, start, arrivals, i - 1);
      EndsAreAnswers(cfg, l, TakenAt(start, arrivals, i - 1), arrivals[i - 1].event);
    }
  }

  lemma HeadSeesNothing(cfg: Config, l: Loop, now: real, next: Option<real>)
    ensures AtHead(cfg, l, now, next).Some? ==> AtHead(cfg, l, now, next).value.seen == 0
  {
  }

  /** What an outcome reached at clock `at` after `n` events may claim. */
  ghost predicate Justified(cfg: Config, start: real, arrivals: seq<Arrival>, outcome: Outcome, at: real, n: nat)
    requires n <= |arrivals|
  {
    var open := OpenSince(cfg, start, arrivals, n);
    match outcome
    case Timeout(reason) =>
      && open.None?
      && (reason.Hard? ==> at - start - FinishedWaits(cfg, start, arrivals, n) >= cfg.hard)
      && (reason.Idle? ==> cfg.idle.Some? && at - LastMatch(cfg, start, arrivals, n) >= cfg.idle.value
                           && at - start - FinishedWaits(cfg, start, arrivals, n) < cfg.hard)
      && (reason.Request? ==> cfg.late < 0.0)
    case Blocked => open.Some? && n == |arrivals|
    case Text(text) =>
      && n > 0
      && arrivals[n - 1].event.kind.TurnCompleted? && OfTurn(cfg, arrivals[n - 1].event) && !EndedBadly(arrivals[n - 1].event)
      && text == (if TurnText(cfg, arrivals, n) == [] then NO_RESPONSE else Join(TurnText(cfg, arrivals, n)))
    case TurnError(message) =>
      n > 0
      && var e := arrivals[n - 1].event;
         if e.kind.BackendError? then message == (if e.message != "" then e.message else "Codex backend transport disconnected")
         else OfTurn(cfg, e) && (e.kind.TurnFailed? || (e.kind.TurnCompleted? && EndedBadly(e))) && Explains(e, message)
  }

  lemma StopIsJustified(cfg: Config, start: real, arrivals: seq<Arrival>, i: nat)
    requires i <= |arrivals|
    ensures var v := AtHead(cfg, AccountAt(cfg, start, arrivals, i), HeadTime(start, arrivals, i), NextArrival(arrivals[i..]));
            v.Some? ==> v.value.seen == 0 && Justified(cfg, start, arrivals, v.value.outcome, v.value.at, i)
  {
  }

  lemma EndIsJustified(cfg: Config, start: real, arrivals: seq<Arrival>, i: nat)
    requires i < |arrivals|
    ensures var t := TakenAt(start, arrivals, i);
            var r := React(cfg, AccountAt(cfg, start, arrivals, i), t, arrivals[i].event);
            r.End? ==> Justified(cfg, start, arrivals, r.outcome, t, i + 1)
  {
    if OfTurn(cfg, arrivals[i].event) && arrivals[i].event.kind.TurnCompleted? {
      assert TurnText(cfg, arrivals, i + 1) == TurnText(cfg, arrivals, i);
    }
  }

  lemma {:induction false} JustifiedFrom(cfg: Config, start: real, arrivals: seq<Arrival>, i: nat)
    requires i <= |arrivals|
    ensures var v := Await(cfg, AccountAt(cfg, start, arrivals, i), HeadTime(start, arrivals, i), arrivals[i..]);
            i + v.seen <= |arrivals| && Justified(cfg, start, arrivals, v.outcome, v.at, i + v.seen)
    decreases |arrivals| - i
  {
    hide Await, AtHead, React, Justified, AccountAt;
    var l, now, rest := AccountAt(cfg, start, arrivals, i), HeadTime(start, arrivals, i), arrivals[i..];
    AwaitUnfolds(cfg, l, now, rest);
    StopIsJustified(cfg, start, arrivals, i);
    if i < |arrivals| && AtHead(cfg, l, now, NextArrival(rest)).None? {
      AccountStep(cfg, start, arrivals, i);
      EndIsJustified(cfg, start, arrivals, i);
      assert rest[1..] == arrivals[i + 1..];
      if React(cfg, l, TakenAt(start, arrivals, i), arrivals[i].event).Continue? {
        JustifiedFrom(cfg, start, arrivals, i + 1);
      }
    }
  }

  /**
   The hard deadline is extended by exactly the finished approval waits; a hard timeout means at least the hard
   limit of active time, an idle timeout a full idle period since the last event of this turn, no timeout
   happens while an approval is open, and an answer is exactly the text of this turn up to its completion.
   */
  lemma VerdictIsJustified(cfg: Config, start: real, arrivals: seq<Arrival>)
    ensures var v := Await(cfg, Start(cfg, start), start, arrivals);
            v.seen <= |arrivals| && Justified(cfg, start, arrivals, v.outcome, v.at, v.seen)
  {
    hide Await, Justified;
    JustifiedFrom(cfg, start, arrivals, 0);
    assert arrivals[0..] == arrivals;
  }
}
