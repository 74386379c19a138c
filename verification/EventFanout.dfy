/**
 Event fan-out in the Codex backend: one bridge consumer that sleeps on a wakeup flag, and one private
 inbox per waiting prompt.

 Beside the inbox, a `Member` records what its owner has taken and the stretch of the log it was present
 for; `log` and `consumed` record what was emitted and what the bridge consumer was given.
 */
module EventFanout {
  import opened Options

  datatype Consumer = Awake | Asleep

  datatype Member<E> = Member(inbox: seq<E>, received: seq<E>, joined: nat, left: Option<nat>)

  datatype Bus<E> = Bus(
    queue: seq<E>,
    wakeup: Option<bool>,
    consumer: Consumer,
    members: seq<Member<E>>,
    log: seq<E>,
    consumed: seq<E>)

  datatype Op<E> =
    | Emit(event: E)
    | Subscribe
    | Unsubscribe(id: nat)
    | Take(id: nat)   // a subscriber's `get` completes
    | Poll            // the bridge consumer asks for its next event
    | Wake            // the sleeping consumer is resumed

  function Empty<E>(): Bus<E> { Bus([], None, Awake, [], [], []) }

  function Posted<E>(m: Member<E>, event: E): Member<E> {
    if m.left.None? then m.(inbox := m.inbox + [event]) else m
  }

  function PostAll<E>(members: seq<Member<E>>, event: E): seq<Member<E>> {
    seq(|members|, i requires 0 <= i < |members| => Posted(members[i], event))
  }

  function Popped<E>(b: Bus<E>): Bus<E>
    requires b.queue != []
  {
    b.(queue := b.queue[1..], consumed := b.consumed + [b.queue[0]], consumer := Awake)
  }

  function Next<E>(b: Bus<E>, op: Op<E>): Bus<E> {
    match op
    case Emit(event) =>
      b.(queue := b.queue + [event],
         wakeup := if b.wakeup.Some? then Some(true) else None,
         members := PostAll(b.members, event),
         log := b.log + [event])
    case Subscribe => b.(members := b.members + [Member([], [], |b.log|, None)])
    case Unsubscribe(id) =>
      if id < |b.members| && b.members[id].left.None? then
        b.(members := b.members[id := b.members[id].(left := Some(|b.log|))])
      else b
    case Take(id) =>
      if id < |b.members| && b.members[id].inbox != [] then
        var m := b.members[id];
        b.(members := b.members[id := m.(inbox := m.inbox[1..], received := m.received + [m.inbox[0]])])
      else b
    case Poll =>
      if b.consumer.Asleep? then b
      else if b.queue != [] then Popped(b)
      else b.(wakeup := Some(false), consumer := Asleep)
    case Wake =>
      if b.consumer.Asleep? && b.wakeup == Some(true) then
        var cleared := b.(wakeup := Some(false));
        if b.queue != [] then Popped(cleared) else cleared
      else b
  }

  function Run<E>(ops: seq<Op<E>>): Bus<E> {
    if ops == [] then Empty() else Next(Run(ops[..|ops| - 1]), ops[|ops| - 1])
  }

  /** What a member took, followed by what waits in its inbox, is the log from when it joined to when it left. */
  ghost predicate MemberOk<E>(m: Member<E>, log: seq<E>) {
    var to := if m.left.Some? then m.left.value else |log|;
    m.joined <= to <= |log| && m.received + m.inbox == log[m.joined..to]
  }

  ghost predicate MembersOk<E>(b: Bus<E>) {
    forall i :: 0 <= i < |b.members| ==> MemberOk(b.members[i], b.log)
  }

  /** No lost wakeup: a sleeping consumer with work in its queue has its flag set. */
  ghost predicate WakeupOk<E>(b: Bus<E>) {
    b.consumer.Asleep? ==> b.wakeup.Some? && (b.queue != [] ==> b.wakeup == Some(true))
  }

  ghost predicate Inv<E>(b: Bus<E>) {
    b.consumed + b.queue == b.log && MembersOk(b) && WakeupOk(b)
  }

  lemma MemberHearsEvent<E>(m: Member<E>, log: seq<E>, event: E)
    requires MemberOk(m, log)
    ensures MemberOk(Posted(m, event), log + [event])
  {
    if m.left.None? {
      assert m.received + (m.inbox + [event]) == (m.received + m.inbox) + [event];
      assert (log + [event])[m.joined..] == log[m.joined..] + [event];
    } else {
      assert (log + [event])[m.joined..m.left.value] == log[m.joined..m.left.value];
    }
  }

  lemma NextKeepsInv<E>(b: Bus<E>, op: Op<E>)
    requires Inv(b)
    ensures Inv(Next(b, op))
  {
    var b' := Next(b, op);
    match op
    case Emit(event) =>
      forall i | 0 <= i < |b'.members| ensures MemberOk(b'.members[i], b'.log) {
        MemberHearsEvent(b.members[i], b.log, event);
      }
      assert b'.consumed + b'.queue == (b.consumed + b.queue) + [event];
    case Take(id) =>
      if b' != b {
        var m := b.members[id];
        assert (m.received + [m.inbox[0]]) + m.inbox[1..] == m.received + m.inbox;
      }
    case Subscribe =>
    case Unsubscribe(id) =>
    case _ =>
      if b.queue != [] { assert (b.consumed + [b.queue[0]]) + b.queue[1..] == b.consumed + b.queue; }
  }

  /**
   Fan-out refines one log, over every interleaving: consumed events followed by the bridge queue are the whole
   log; what a subscriber received followed by its inbox is the log since it subscribed (up to where it left);
   and a sleeping consumer with events to take always has its wakeup set.
   */
  lemma {:induction false} FanoutRefinesLog<E>(ops: seq<Op<E>>)
    ensures Inv(Run(ops))
  {
    if ops != [] {
      FanoutRefinesLog(ops[..|ops| - 1]);
      NextKeepsInv(Run(ops[..|ops| - 1]), ops[|ops| - 1]);
    }
  }

  // ---- The same, told by the operations alone ----

  /** The events emitted, in order. */
  function Emitted<E>(ops: seq<Op<E>>): seq<E> {
    if ops == [] then [] else Emitted(ops[..|ops| - 1]) + if ops[|ops| - 1].Emit? then [ops[|ops| - 1].event] else []
  }

  /** For each subscription, how many events had been emitted before it. */
  function Joined<E>(ops: seq<Op<E>>): seq<nat> {
    if ops == [] then []
    else Joined(ops[..|ops| - 1]) + if ops[|ops| - 1].Subscribe? then [|Emitted(ops[..|ops| - 1])|] else []
  }

  /** How many events had been emitted when subscriber `id` left. */
  function Left<E>(ops: seq<Op<E>>, id: nat): Option<nat> {
    if ops == [] then None
    else
      var init, last := ops[..|ops| - 1], ops[|ops| - 1];
      if Left(init, id).None? && last.Unsubscribe? && last.id == id && id < |Joined(init)| then Some(|Emitted(init)|) else Left(init, id)
  }

  lemma {:induction false} OpsTell<E>(ops: seq<Op<E>>)
    ensures var b := Run(ops);
            && b.log == Emitted(ops) && |b.members| == |Joined(ops)|
            && forall id: nat :: id < |b.members| ==> b.members[id].joined == Joined(ops)[id] && b.members[id].left == Left(ops, id)
    ensures forall id: nat :: id >= |Joined(ops)| ==> Left(ops, id).None?
  {
    if ops != [] {
      OpsTell(ops[..|ops| - 1]);
    }
  }

  /**
   Over every interleaving, told by the operations alone: what the bridge consumed, followed by its queue, is every event
   emitted; and what a subscriber received, followed by its inbox, is every event emitted between its subscription and its
   leaving, or so far.
   */
  lemma EveryoneHears<E>(ops: seq<Op<E>>, id: nat)
    ensures Run(ops).consumed + Run(ops).queue == Emitted(ops)
    ensures id < |Joined(ops)| ==>
              && id < |Run(ops).members|
              && var from, to := Joined(ops)[id], if Left(ops, id).Some? then Left(ops, id).value else |Emitted(ops)|;
                 from <= to <= |Emitted(ops)| && Run(ops).members[id].received + Run(ops).members[id].inbox == Emitted(ops)[from..to]
  {
    hide Run;
    FanoutRefinesLog(ops);
    OpsTell(ops);
    if id < |Joined(ops)| { assert MemberOk(Run(ops).members[id], Run(ops).log); }
  }

  /** Taking from an inbox that holds something hands over its oldest event, and to nobody else. */
  lemma SubscriberProgress<E>(ops: seq<Op<E>>, id: nat)
    requires id < |Run(ops).members| && Run(ops).members[id].inbox != []
    ensures var b, t := Run(ops), Next(Run(ops), Take(id));
            && |t.members| == |b.members| && t.queue == b.queue && t.consumed == b.consumed
            && t.members[id].received == b.members[id].received + [b.members[id].inbox[0]]
            && t.members[id].inbox == b.members[id].inbox[1..]
            && forall k :: 0 <= k < |b.members| && k != id ==> t.members[k] == b.members[k]
  {
    hide Run;
  }

  /** Progress: whenever the queue is not empty, polling or waking hands over its oldest event. */
  lemma ConsumerProgress<E>(ops: seq<Op<E>>)
    requires Run(ops).queue != []
    ensures var b := Run(ops);
            var op := if b.consumer.Asleep? then Wake else Poll;
            Next(b, op).consumed == b.consumed + [b.queue[0]] && Next(b, op).queue == b.queue[1..]
  {
    FanoutRefinesLog(ops);
  }

  /** `list.remove`: drop the first occurrence, if any. */
  function Without(ids: seq<nat>, id: nat): seq<nat> {
    if ids == [] then []
    else if ids[0] == id then ids[1..]
    else [ids[0]] + Without(ids[1..], id)
  }

  ghost predicate Distinct(ids: seq<nat>) {
    forall i, j :: 0 <= i < j < |ids| ==> ids[i] != ids[j]
  }

  lemma {:induction false} WithoutRemoves(ids: seq<nat>, id: nat)
    requires Distinct(ids)
    ensures Distinct(Without(ids, id))
    ensures forall x :: x in Without(ids, id) <==> x in ids && x != id
  {
    if ids != [] {
      var rest := ids[1..];
      assert ids == [ids[0]] + rest;
      if ids[0] == id {
        assert id !in rest;
      } else {
        WithoutRemoves(rest, id);
        assert ids[0] !in rest;
        var kept := Without(rest, id);
        forall i, j | 0 <= i < j < 1 + |kept| ensures ([ids[0]] + kept)[i] != ([ids[0]] + kept)[j] {
          if i == 0 { assert kept[j - 1] in rest; }
        }
      }
    }
  }

  class EventBus<E> {
    var queue: seq<E>
    var wakeup: Option<bool>
    var consumer: Consumer
    var subscribers: seq<nat>        // the ids of the inboxes on the list
    var members: seq<Member<E>>
    var log: seq<E>                  // history only
    var consumed: seq<E>             // history only

    ghost function View(): Bus<E>
      reads this
    {
      Bus(queue, wakeup, consumer, members, log, consumed)
    }

    ghost predicate Valid()
      reads this
    {
      && Distinct(subscribers)
      && forall id: nat :: id in subscribers <==> id < |members| && members[id].left.None?
    }

    constructor ()
      ensures Valid() && View() == Empty<E>()
    {
      queue, wakeup, consumer, subscribers, members := [], None, Awake, [], [];
      log, consumed := [], [];
    }

    /** `_emit`: the bridge queue first, then the wakeup, then every subscriber on the list. */
    method Publish(event: E)
      requires Valid()
      modifies this
      ensures Valid() && View() == Next(old(View()), Emit(event))
    {
      queue := queue + [event];
      if wakeup.Some? {
        wakeup := Some(true);
      }
      log := log + [event];
      var i := 0;
      while i < |subscribers|
        invariant 0 <= i <= |subscribers| && |members| == |old(members)|
        invariant subscribers == old(subscribers) && queue == old(queue) + [event] && consumer == old(consumer)
        invariant wakeup == (if old(wakeup).Some? then Some(true) else None)
        invariant log == old(log) + [event] && consumed == old(consumed)
        invariant forall k :: 0 <= k < |members| ==>
                                members[k] == if k in subscribers[..i] then Posted(old(members)[k], event) else old(members)[k]
      {
        var id := subscribers[i];
        assert id in subscribers && id !in subscribers[..i];
        members := members[id := members[id].(inbox := members[id].inbox + [event])];
        assert subscribers[..i + 1] == subscribers[..i] + [id];
        i := i + 1;
      }
      assert subscribers[..|subscribers|] == subscribers;
      assert members == PostAll(old(members), event);
    }

    method Join() returns (id: nat)
      requires Valid()
      modifies this
      ensures Valid() && View() == Next(old(View()), Subscribe)
      ensures id in subscribers && id == |old(members)|
    {
      id := |members|;
      assert id !in subscribers;
      members := members + [Member([], [], |log|, None)];
      subscribers := subscribers + [id];
    }

    method Leave(id: nat)
      requires Valid()
      modifies this
      ensures Valid() && View() == Next(old(View()), Unsubscribe(id))
    {
      if id in subscribers {
        WithoutRemoves(subscribers, id);
        subscribers := Without(subscribers, id);
        members := members[id := members[id].(left := Some(|log|))];
      }
    }

    /** One resumption of the `events` generator; `event` is what it yields, if anything. */
    method Advance() returns (event: Option<E>)
      requires Valid()
      modifies this
      ensures Valid()
      ensures View() == Next(old(View()), if old(consumer).Asleep? then Wake else Poll)
      ensures event.Some? ==> old(queue) != [] && event.value == old(queue)[0] && consumed == old(consumed) + [event.value]
      ensures event.None? ==> consumed == old(consumed)
    {
      event := None;
      if consumer.Asleep? {
        if wakeup != Some(true) {
          return;
        }
        wakeup := Some(false);
      }
      if queue != [] {
        event := Some(queue[0]);
        consumed := consumed + [queue[0]];
        queue := queue[1..];
        consumer := Awake;
      } else {
        wakeup := Some(false);
        consumer := Asleep;
      }
    }
  }
}
