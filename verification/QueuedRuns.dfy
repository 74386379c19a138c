/**
 The hand-off of queued runs: an append-only event store in which claims, releases, consumptions and start markers
 are companion events of a `run.queued` event, and workers (one per call of `process_queued_runs`, possibly in
 different processes) whose every call may fail, may write and then raise, or may be the last before a crash.
 */
module QueuedRuns {
  import opened Options

  const LEASE_SECONDS: nat := 300

  /** Companion events name the queue event by its position in the log, and the worker that wrote them. */
  datatype Mark =
    | Queued(workspace: string)
    | Claimed(q: nat, owner: nat, expires: nat)
    | Released(q: nat, owner: nat)
    | Consumed(q: nat, owner: nat)
    | Started(q: nat, owner: nat)
    | Recovery(q: nat)

  predicate LeaseMark(m: Mark, q: nat) { (m.Claimed? || m.Released? || m.Consumed?) && m.q == q }

  predicate HandOffMark(m: Mark, q: nat) { (m.Consumed? || m.Started? || m.Recovery?) && m.q == q }

  /** The latest lease event of a queue event. */
  function Latest(log: seq<Mark>, q: nat): Option<Mark> {
    if log == [] then None
    else if LeaseMark(log[|log| - 1], q) then Some(log[|log| - 1])
    else Latest(log[..|log| - 1], q)
  }

  /** Whether the store regards the queue event as handed off for good. */
  predicate Handed(log: seq<Mark>, q: nat) {
    log != [] && (HandOffMark(log[|log| - 1], q) || Handed(log[..|log| - 1], q))
  }

  /** Whether the queue event has been consumed. */
  predicate Spent(log: seq<Mark>, q: nat) {
    log != [] && ((log[|log| - 1].Consumed? && log[|log| - 1].q == q) || Spent(log[..|log| - 1], q))
  }

  function Starts(log: seq<Mark>, q: nat): nat {
    if log == [] then 0
    else Starts(log[..|log| - 1], q) + if log[|log| - 1].Started? && log[|log| - 1].q == q then 1 else 0
  }

  predicate Runnable(log: seq<Mark>, q: nat, workspace: string, now: nat) {
    && q < |log| && log[q] == Queued(workspace) && !Handed(log, q)
    && (Latest(log, q).Some? && Latest(log, q).value.Claimed? ==> Latest(log, q).value.expires <= now)
  }

  /** The oldest runnable queue event of a workspace at or after `from`. */
  function NextRunnable(log: seq<Mark>, workspace: string, now: nat, from: nat): (r: Option<nat>)
    ensures r.Some? ==> from <= r.value && Runnable(log, r.value, workspace, now)
    ensures forall i :: from <= i < (if r.Some? then r.value else |log|) ==> !Runnable(log, i, workspace, now)
    decreases |log| - from
  {
    if from >= |log| then None
    else if Runnable(log, from, workspace, now) then Some(from)
    else NextRunnable(log, workspace, now, from + 1)
  }

  /** A row the launch creates: not there, written by a call that then raised, live, or marked failed. */
  datatype Row = Absent | Orphan | Live | Failed

  datatype Pc =
    | AtReserve | AtCreateRun | AtCreateAgent | AtMarkRunning | AtEmitRequested | AtStart | AtConsume
    | AtFailAgent | AtFailRun | AtFailTask | AtEmitFailed | AtRelease | Ended

  /** `live`: `start_chief_engineer` returned, so provider work is running. */
  datatype Worker = Worker(q: nat, expires: nat, pc: Pc, task: Row, run: Row, agent: Row, live: bool)

  datatype State = State(log: seq<Mark>, now: nat, workers: seq<Worker>)

  /** How a call ends: it works, it raises having written nothing, or it writes and then raises. */
  datatype Outcome = Good | Bad | Torn

  datatype Step =
    | Enqueue(workspace: string)
    | Recover(q: nat)
    | Tick(seconds: nat)
    | Open(workspace: string)
    | Advance(w: nat, outcome: Outcome)
    | Crash(w: nat)

  function Created(o: Outcome): Row { if o.Good? then Live else if o.Torn? then Orphan else Absent }

  function Compensated(row: Row, o: Outcome): Row { if row.Live? && !o.Bad? then Failed else row }

  /** What the call at `w.pc` does to the worker. */
  function Moved(w: Worker, o: Outcome): Worker {
    match w.pc
    case AtReserve => w.(task := Created(o), pc := if o.Good? then AtCreateRun else AtRelease)
    case AtCreateRun => w.(run := Created(o), pc := if o.Good? then AtCreateAgent else AtFailAgent)
    case AtCreateAgent => w.(agent := Created(o), pc := if o.Good? then AtMarkRunning else AtFailAgent)
    case AtMarkRunning => w.(pc := if o.Good? then AtEmitRequested else AtFailAgent)
    case AtEmitRequested => w.(pc := if o.Good? then AtStart else AtFailAgent)
    case AtStart => w.(live := o.Good?, pc := if o.Good? then AtConsume else AtFailAgent)
    case AtConsume => w.(pc := Ended)
    case AtFailAgent => w.(agent := Compensated(w.agent, o), pc := AtFailRun)
    case AtFailRun => w.(run := Compensated(w.run, o), pc := AtFailTask)
    case AtFailTask => w.(task := Compensated(w.task, o), pc := AtEmitFailed)
    case AtEmitFailed => w.(pc := if o.Good? then AtRelease else Ended)
    case AtRelease => w.(pc := Ended)
    case Ended => w
  }

  predicate Owns(log: seq<Mark>, q: nat, w: nat) {
    Latest(log, q).Some? && Latest(log, q).value.Claimed? && Latest(log, q).value.owner == w
  }

  /** The marks the call at `pc` writes. */
  function Written(log: seq<Mark>, pc: Pc, q: nat, w: nat, o: Outcome): seq<Mark> {
    if o.Bad? then []
    else match pc
      case AtStart => [Started(q, w)]
      case AtConsume => if !Spent(log, q) && Owns(log, q, w) then [Consumed(q, w)] else []
      case AtRelease => if Owns(log, q, w) then [Released(q, w)] else []
      case _ => []
  }

  function Claim(s: State, q: nat): State {
    State(s.log + [Claimed(q, |s.workers|, s.now + LEASE_SECONDS)], s.now,
          s.workers + [Worker(q, s.now + LEASE_SECONDS, AtReserve, Absent, Absent, Absent, false)])
  }

  function Opened(s: State, workspace: string): State {
    var q := NextRunnable(s.log, workspace, s.now, 0);
    if q.None? then s else Claim(s, q.value)
  }

  function Advanced(s: State, w: nat, o: Outcome): State
    requires w < |s.workers|
  {
    var k := s.workers[w];
    State(s.log + Written(s.log, k.pc, k.q, w, o), s.now, s.workers[w := Moved(k, o)])
  }

  function Next(s: State, step: Step): State {
    match step
    case Enqueue(workspace) => s.(log := s.log + [Queued(workspace)])
    case Recover(q) => if q < |s.log| && s.log[q].Queued? && !Handed(s.log, q) then s.(log := s.log + [Recovery(q)]) else s
    case Tick(seconds) => s.(now := s.now + seconds)
    case Open(workspace) => Opened(s, workspace)
    case Advance(w, o) => if w < |s.workers| then Advanced(s, w, o) else s
    case Crash(w) => if w < |s.workers| then s.(workers := s.workers[w := s.workers[w].(pc := Ended)]) else s
  }

  function Run(s: State, steps: seq<Step>): State
    decreases |steps|
  {
    if steps == [] then s else Run(Next(s, steps[0]), steps[1..])
  }

  function Empty(now: nat): State { State([], now, []) }

  predicate PreStart(pc: Pc) {
    pc.AtReserve? || pc.AtCreateRun? || pc.AtCreateAgent? || pc.AtMarkRunning? || pc.AtEmitRequested? || pc.AtStart?
  }

  /** The step does not start a launch whose lease has run out. */
  predicate Timely(s: State, step: Step) {
    step.Advance? && step.w < |s.workers| && s.workers[step.w].pc.AtStart? && !step.outcome.Bad? ==>
      s.now < s.workers[step.w].expires
  }

  predicate AllTimely(s: State, steps: seq<Step>)
    decreases |steps|
  {
    steps == [] || (Timely(s, steps[0]) && AllTimely(Next(s, steps[0]), steps[1..]))
  }

  // ---- What one appended mark does to the log's summaries ----

  lemma Append(log: seq<Mark>, m: Mark, q: nat)
    ensures Latest(log + [m], q) == if LeaseMark(m, q) then Some(m) else Latest(log, q)
    ensures Handed(log + [m], q) == (HandOffMark(m, q) || Handed(log, q))
    ensures Spent(log + [m], q) == ((m.Consumed? && m.q == q) || Spent(log, q))
    ensures Starts(log + [m], q) == Starts(log, q) + if m.Started? && m.q == q then 1 else 0
  {
    assert (log + [m])[..|log|] == log;
  }

  lemma {:induction false} StartedIsHanded(log: seq<Mark>, q: nat)
    requires Starts(log, q) > 0
    ensures Handed(log, q)
  {
    if !(log[|log| - 1].Started? && log[|log| - 1].q == q) {
      StartedIsHanded(log[..|log| - 1], q);
    }
  }

  lemma {:induction false} SpentIsHanded(log: seq<Mark>, q: nat)
    requires Spent(log, q)
    ensures Handed(log, q)
  {
    if !(log[|log| - 1].Consumed? && log[|log| - 1].q == q) {
      SpentIsHanded(log[..|log| - 1], q);
    }
  }

  // ---- Claims, read off the log's entries ----

  /** Some entry hands `q` off: a consumption, a start, or a mark that it needs recovery. */
  ghost predicate HandedAt(log: seq<Mark>, q: nat) {
    exists i: nat :: i < |log| && (log[i].Consumed? || log[i].Started? || log[i].Recovery?) && log[i].q == q
  }

  /** Entry `i` is a claim on `q`, and no claim, release or consumption of `q` comes after it. */
  ghost predicate ClaimedLast(log: seq<Mark>, q: nat, i: nat) {
    && i < |log| && log[i].Claimed? && log[i].q == q
    && forall j: nat :: i < j < |log| ==> !((log[j].Claimed? || log[j].Released? || log[j].Consumed?) && log[j].q == q)
  }

  /** Event `q` is queued for the workspace, not handed off, and under no lease that still runs. */
  ghost predicate Free(log: seq<Mark>, q: nat, workspace: string, now: nat) {
    && q < |log| && log[q].Queued? && log[q].workspace == workspace
    && !HandedAt(log, q)
    && forall i: nat :: ClaimedLast(log, q, i) ==> log[i].expires <= now
  }

  lemma {:induction false} HandedExactly(log: seq<Mark>, q: nat)
    ensures Handed(log, q) <==> HandedAt(log, q)
  {
    if log != [] {
      var n := |log| - 1;
      HandedExactly(log[..n], q);
      if HandedAt(log[..n], q) {
        var i: nat :| i < n && (log[i].Consumed? || log[i].Started? || log[i].Recovery?) && log[i].q == q;
        assert HandedAt(log, q);
      }
    }
  }

  lemma {:induction false} LatestExactly(log: seq<Mark>, q: nat)
    ensures forall i: nat :: ClaimedLast(log, q, i) ==> i < |log| && log[i].Claimed? && Latest(log, q) == Some(log[i])
    ensures Latest(log, q).Some? && Latest(log, q).value.Claimed? ==> exists i: nat :: ClaimedLast(log, q, i)
  {
    if log != [] {
      var n := |log| - 1;
      LatestExactly(log[..n], q);
      if LeaseMark(log[n], q) {
        assert log[n].Claimed? ==> ClaimedLast(log, q, n);
      } else {
        forall i: nat ensures ClaimedLast(log, q, i) <==> ClaimedLast(log[..n], q, i) {}
      }
    }
  }

  lemma RunnableExactly(log: seq<Mark>, q: nat, workspace: string, now: nat)
    ensures Runnable(log, q, workspace, now) <==> Free(log, q, workspace, now)
  {
    hide Handed, Latest, HandedAt, ClaimedLast;
    HandedExactly(log, q);
    LatestExactly(log, q);
  }

  /** The claim a new worker writes, and the worker. */
  ghost predicate ClaimsFor(s: State, t: State, q: nat) {
    && t.log == s.log + [Claimed(q, |s.workers|, s.now + 300)] && t.now == s.now
    && t.workers == s.workers + [Worker(q, s.now + 300, AtReserve, Absent, Absent, Absent, false)]
  }

  /**
   A worker opened for a workspace claims for 300 seconds the oldest event queued for that workspace that no entry of the
   log hands off and no running lease covers, and changes nothing exactly if there is none.
   */
  lemma ClaimsOldestFree(s: State, workspace: string)
    ensures var t := Next(s, Open(workspace));
            && (t == s <==> forall q: nat :: !Free(s.log, q, workspace, s.now))
            && (forall q: nat :: ClaimsFor(s, t, q) <==>
                  Free(s.log, q, workspace, s.now) && forall p: nat :: p < q ==> !Free(s.log, p, workspace, s.now))
  {
    hide Free, Runnable;
    forall q: nat ensures Runnable(s.log, q, workspace, s.now) <==> Free(s.log, q, workspace, s.now) {
      RunnableExactly(s.log, q, workspace, s.now);
    }
    RunnableIsInLog(s.log, workspace, s.now);
    var r := NextRunnable(s.log, workspace, s.now, 0);
    if r.Some? {
      var t := Next(s, Open(workspace));
      forall q: nat | ClaimsFor(s, t, q) ensures q == r.value {
        assert t.log[|s.log|].q == q;
      }
    }
  }

  lemma RunnableIsInLog(log: seq<Mark>, workspace: string, now: nat)
    ensures forall q: nat :: Runnable(log, q, workspace, now) ==> q < |log|
  {}

  /** The log, the workers and the events they claimed only grow. */
  ghost predicate Grows(s: State, t: State) {
    && s.log <= t.log && |s.workers| <= |t.workers|
    && forall w: nat :: w < |s.workers| ==> t.workers[w].q == s.workers[w].q
  }

  /** Every claim is its worker's claim on its worker's event, which stands earlier in the log. */
  ghost predicate ClaimsFit(s: State) {
    && (forall w: nat :: w < |s.workers| ==> s.workers[w].q < |s.log| && s.log[s.workers[w].q].Queued?)
    && (forall i: nat :: i < |s.log| && s.log[i].Claimed? ==>
          s.log[i].owner < |s.workers| && s.log[i].q == s.workers[s.log[i].owner].q && s.log[i].q < i)
  }

  lemma NextGrows(s: State, step: Step)
    ensures Grows(s, Next(s, step))
    ensures ClaimsFit(s) ==> ClaimsFit(Next(s, step))
    ensures Next(s, step) == s || |Next(s, step).workers| == |s.workers| || step.Open?
  {
    hide Latest, Handed, Spent, Owns;
    match step
    case Advance(w, o) => if w < |s.workers| { MovedKeepsEvent(s.workers[w], o); }
    case _ =>
  }

  lemma MovedKeepsEvent(w: Worker, o: Outcome)
    ensures Moved(w, o).q == w.q
  {}

  lemma {:induction false} RunGrows(s: State, steps: seq<Step>)
    requires ClaimsFit(s)
    ensures Grows(s, Run(s, steps)) && ClaimsFit(Run(s, steps))
    decreases |steps|
  {
    hide Next, ClaimsFit;
    if steps != [] {
      NextGrows(s, steps[0]);
      RunGrows(Next(s, steps[0]), steps[1..]);
    }
  }

  /**
   Over every run: every claim by a worker that was opened for a workspace names an earlier event that was queued for
   that very workspace.
   */
  lemma ClaimsKeepTheirWorkspace(now: nat, steps: seq<Step>, k: nat, i: nat)
    requires k < |steps| && steps[k].Open?
    requires |Run(Empty(now), steps[..k + 1]).workers| > |Run(Empty(now), steps[..k]).workers|
    requires i < |Run(Empty(now), steps).log| && Run(Empty(now), steps).log[i].Claimed?
    requires Run(Empty(now), steps).log[i].owner == |Run(Empty(now), steps[..k]).workers|
    ensures var log := Run(Empty(now), steps).log;
            log[i].q < i && log[log[i].q] == Queued(steps[k].workspace)
  {
    hide Run, Next, Free, Runnable, ClaimsFit;
    var w := |Run(Empty(now), steps[..k]).workers|;
    assert ClaimsFit(Empty(now)) by { NothingClaimed(now); }
    RunGrows(Empty(now), steps[..k]);
    RunGrows(Empty(now), steps);
    var before, after := Run(Empty(now), steps[..k]), Run(Empty(now), steps[..k + 1]);
    assert steps[..k + 1] == steps[..k] + [steps[k]] && steps == steps[..k + 1] + steps[k + 1..];
    RunSplit(Empty(now), steps[..k], [steps[k]]);
    OneStep(before, steps[k]);
    RunSplit(Empty(now), steps[..k + 1], steps[k + 1..]);
    NextGrows(before, steps[k]);
    RunGrows(after, steps[k + 1..]);
    OpensOn(before, steps[k].workspace);
    ClaimIsOwn(Run(Empty(now), steps), i);
  }

  lemma NothingClaimed(now: nat)
    ensures ClaimsFit(Empty(now))
  {}

  lemma OpensOn(s: State, workspace: string)
    requires |Next(s, Open(workspace)).workers| > |s.workers|
    ensures var t := Next(s, Open(workspace));
            var q := t.workers[|s.workers|].q; q < |t.log| && t.log[q] == Queued(workspace)
  {
    hide Handed, Latest;
  }

  lemma ClaimIsOwn(s: State, i: nat)
    requires ClaimsFit(s) && i < |s.log| && s.log[i].Claimed?
    ensures s.log[i].owner < |s.workers| && s.log[i].q == s.workers[s.log[i].owner].q && s.log[i].q < i
  {}

  /**
   What a worker's call adds to the log: its start, whoever holds the lease; its release exactly if the last lease entry
   is a claim of its own; its consumption exactly if, besides, no entry consumes the event.
   */
  lemma MarksWritten(s: State, w: nat, o: Outcome)
    requires w < |s.workers|
    ensures var k := s.workers[w];
            var t := Next(s, Advance(w, o));
            var own := exists i: nat :: ClaimedLast(s.log, k.q, i) && s.log[i].owner == w;
            var consumed := exists i: nat :: i < |s.log| && s.log[i].Consumed? && s.log[i].q == k.q;
            && (t.log == s.log + [Started(k.q, w)] <==> k.pc.AtStart? && !o.Bad?)
            && (t.log == s.log + [Released(k.q, w)] <==> k.pc.AtRelease? && !o.Bad? && own)
            && (t.log == s.log + [Consumed(k.q, w)] <==> k.pc.AtConsume? && !o.Bad? && own && !consumed)
            && (t.log == s.log || |t.log| == |s.log| + 1)
  {
    hide Latest, Handed, Spent, ClaimedLast;
    var k := s.workers[w];
    LatestExactly(s.log, k.q);
    SpentExactly(s.log, k.q);
    var t := Next(s, Advance(w, o));
    if t.log != s.log {
      assert t.log[|s.log|] == Written(s.log, k.pc, k.q, w, o)[0];
    }
  }

  lemma {:induction false} SpentExactly(log: seq<Mark>, q: nat)
    ensures Spent(log, q) <==> exists i: nat :: i < |log| && log[i].Consumed? && log[i].q == q
  {
    if log != [] {
      var n := |log| - 1;
      SpentExactly(log[..n], q);
      if i: nat :| i < |log[..n]| && log[..n][i].Consumed? && log[..n][i].q == q { assert log[i].Consumed?; }
    }
  }

  // ---- Every run, without hypotheses: what a worker's rows and claim may be ----

  /** The rows of a launch tell how far it got, and a live launch is never compensated. */
  predicate RowsFit(w: Worker) {
    && (w.live ==> w.task.Live? && w.run.Live? && w.agent.Live? && (w.pc.AtConsume? || w.pc.Ended?))
    && (w.pc.AtReserve? ==> w.task.Absent?)
    && (PreStart(w.pc) && !w.pc.AtReserve? ==> w.task.Live?)
    && (w.pc.AtCreateRun? || w.pc.AtReserve? ==> w.run.Absent? && w.agent.Absent?)
    && (w.pc.AtCreateAgent? ==> w.run.Live? && w.agent.Absent?)
    && (w.pc.AtMarkRunning? || w.pc.AtEmitRequested? || w.pc.AtStart? ==> w.run.Live? && w.agent.Live?)
    && (w.pc.AtConsume? ==> w.live)
  }

  predicate WorkerInv(s: State, w: nat)
    requires w < |s.workers|
  {
    && RowsFit(s.workers[w])
    && (Released(s.workers[w].q, w) in s.log ==> s.workers[w].pc.Ended? && !s.workers[w].live)
    && (s.workers[w].live ==> Started(s.workers[w].q, w) in s.log)
  }

  ghost predicate Kept(s: State) {
    && (forall w: nat :: w < |s.workers| ==> WorkerInv(s, w))
    && (forall i :: 0 <= i < |s.log| && s.log[i].Released? ==> s.log[i].owner < |s.workers|)
  }

  lemma NextKeeps(s: State, step: Step)
    requires Kept(s)
    ensures Kept(Next(s, step))
  {
    hide Latest, Handed, Spent, NextRunnable, RowsFit;
    var t := Next(s, step);
    forall w: nat | w < |t.workers| ensures WorkerInv(t, w) {
      if w < |s.workers| {
        assert WorkerInv(s, w);
        if step.Advance? && step.w == w { AdvanceFits(s.workers[w], step.outcome); }
        if step.Crash? && step.w == w { CrashFits(s.workers[w]); }
      } else {
        NewFits(s, t, w);
      }
    }
  }

  lemma NewFits(s: State, t: State, w: nat)
    requires Kept(s) && w == |s.workers| && exists q: nat :: t == Claim(s, q)
    ensures WorkerInv(t, w)
  {
    assert forall q: nat :: Released(q, w) !in s.log;
  }

  lemma AdvanceFits(w: Worker, o: Outcome)
    requires RowsFit(w)
    ensures RowsFit(Moved(w, o))
    ensures w.pc.AtRelease? ==> !w.live && Moved(w, o).pc.Ended? && !Moved(w, o).live
    ensures w.pc.Ended? ==> Moved(w, o) == w
    ensures Moved(w, o).live == (w.live || (w.pc.AtStart? && o.Good?))
    ensures Moved(w, o).q == w.q
  {}

  lemma CrashFits(w: Worker)
    requires RowsFit(w)
    ensures RowsFit(w.(pc := Ended))
  {}

  lemma {:induction false} RunKeeps(s: State, steps: seq<Step>)
    requires Kept(s)
    ensures Kept(Run(s, steps))
    decreases |steps|
  {
    if steps != [] {
      NextKeeps(s, steps[0]);
      RunKeeps(Next(s, steps[0]), steps[1..]);
    }
  }

  /**
   In every interleaving, with any failures and crashes and any lease expiries: a worker that released its claim never
   got a launch going, and a worker whose launch is going has written the start marker and has failed none of its rows.
   */
  lemma ReleaseMeansNotStarted(now: nat, steps: seq<Step>, w: nat)
    requires w < |Run(Empty(now), steps).workers|
    ensures var s := Run(Empty(now), steps);
            var k := s.workers[w];
            && (Released(k.q, w) in s.log ==> !k.live && k.pc.Ended?)
            && (k.live ==> Started(k.q, w) in s.log && k.task.Live? && k.run.Live? && k.agent.Live?)
  {
    RunKeeps(Empty(now), steps);
    assert WorkerInv(Run(Empty(now), steps), w);
  }

  // ---- Runs whose launches start within their lease ----

  predicate LeaseFits(s: State, w: nat)
    requires w < |s.workers|
  {
    var k := s.workers[w];
    && (PreStart(k.pc) && s.now < k.expires ==>
          Latest(s.log, k.q) == Some(Claimed(k.q, w, k.expires)) && Starts(s.log, k.q) == 0)
    && (k.live ==> Handed(s.log, k.q) && HeldBy(s.log, k.q, w))
  }

  /** The latest lease event of `q` is `w`'s claim, or `w`'s consumption. */
  predicate HeldBy(log: seq<Mark>, q: nat, w: nat) {
    Latest(log, q).Some? && !Latest(log, q).value.Released? && LeaseMark(Latest(log, q).value, q) && Latest(log, q).value.owner == w
  }

  ghost predicate LeaseInv(s: State) {
    && (forall w: nat :: w < |s.workers| ==> RowsFit(s.workers[w]) && LeaseFits(s, w))
    && (forall q: nat :: Starts(s.log, q) <= 1)
  }

  /** Appending a mark that is no start keeps the start counts. */
  lemma NoNewStart(s: State, m: Mark)
    requires LeaseInv(s) && !m.Started?
    ensures forall q: nat :: Starts(s.log + [m], q) <= 1
  {
    forall q: nat ensures Starts(s.log + [m], q) <= 1 { Append(s.log, m, q); }
  }

  lemma ClaimKeepsLease(s: State, q: nat, workspace: string)
    requires LeaseInv(s) && Runnable(s.log, q, workspace, s.now)
    ensures LeaseInv(Claim(s, q))
  {
    hide Latest, Handed, Spent, Starts, RowsFit;
    var t := Claim(s, q);
    var m := Claimed(q, |s.workers|, s.now + LEASE_SECONDS);
    NoNewStart(s, m);
    forall w: nat | w < |t.workers| ensures RowsFit(t.workers[w]) && LeaseFits(t, w) {
      Append(s.log, m, t.workers[w].q);
      if w < |s.workers| {
        assert RowsFit(s.workers[w]) && LeaseFits(s, w);
      } else {
        if Starts(s.log, q) > 0 { StartedIsHanded(s.log, q); }
        FreshFits(t.workers[w]);
      }
    }
  }

  lemma FreshFits(w: Worker)
    requires w == Worker(w.q, w.expires, AtReserve, Absent, Absent, Absent, false)
    ensures RowsFit(w)
  {}

  /** A call that writes no mark. */
  lemma QuietKeepsLease(s: State, w: nat, o: Outcome)
    requires LeaseInv(s) && w < |s.workers|
    requires o.Bad? || !(s.workers[w].pc.AtStart? || s.workers[w].pc.AtConsume? || s.workers[w].pc.AtRelease?)
    ensures LeaseInv(Advanced(s, w, o))
  {
    hide Latest, Handed, Spent, Starts, RowsFit, HeldBy;
    var t := Advanced(s, w, o);
    assert t.log == s.log;
    forall v: nat | v < |t.workers| ensures RowsFit(t.workers[v]) && LeaseFits(t, v) {
      assert RowsFit(s.workers[v]) && LeaseFits(s, v);
      if v == w {
        AdvanceFits(s.workers[v], o);
        QuietMoves(s.workers[v], o);
      }
    }
  }

  lemma QuietMoves(w: Worker, o: Outcome)
    requires RowsFit(w) && (o.Bad? || !w.pc.AtStart?)
    ensures Moved(w, o).live == w.live && Moved(w, o).q == w.q && Moved(w, o).expires == w.expires
    ensures PreStart(Moved(w, o).pc) ==> PreStart(w.pc)
  {}

  lemma StartKeepsLease(s: State, w: nat, o: Outcome)
    requires LeaseInv(s) && w < |s.workers| && s.workers[w].pc.AtStart? && !o.Bad?
    requires s.now < s.workers[w].expires
    ensures LeaseInv(Advanced(s, w, o))
  {
    hide Latest, Handed, Spent, Starts, RowsFit;
    var t := Advanced(s, w, o);
    var q := s.workers[w].q;
    assert LeaseFits(s, w);
    forall p: nat ensures Starts(t.log, p) <= 1 { Append(s.log, Started(q, w), p); }
    forall v: nat | v < |t.workers| ensures RowsFit(t.workers[v]) && LeaseFits(t, v) {
      assert RowsFit(s.workers[v]) && LeaseFits(s, v);
      AdvanceFits(s.workers[v], o);
      Append(s.log, Started(q, w), s.workers[v].q);
    }
  }

  lemma SettleKeepsLease(s: State, w: nat, o: Outcome)
    requires LeaseInv(s) && w < |s.workers| && !o.Bad?
    requires s.workers[w].pc.AtConsume? || s.workers[w].pc.AtRelease?
    ensures LeaseInv(Advanced(s, w, o))
  {
    hide Latest, Handed, Spent, Starts, RowsFit;
    var t := Advanced(s, w, o);
    var k := s.workers[w];
    if Written(s.log, k.pc, k.q, w, o) == [] {
      assert t.log == s.log;
    } else {
      NoNewStart(s, if k.pc.AtConsume? then Consumed(k.q, w) else Released(k.q, w));
    }
    forall v: nat | v < |t.workers| ensures RowsFit(t.workers[v]) && LeaseFits(t, v) {
      assert RowsFit(s.workers[v]) && LeaseFits(s, v);
      AdvanceFits(s.workers[v], o);
      if Written(s.log, k.pc, k.q, w, o) != [] {
        Append(s.log, if k.pc.AtConsume? then Consumed(k.q, w) else Released(k.q, w), s.workers[v].q);
      }
    }
  }

  lemma OutsideKeepsLease(s: State, step: Step)
    requires LeaseInv(s) && (step.Enqueue? || step.Recover? || step.Tick? || step.Crash?)
    ensures LeaseInv(Next(s, step))
  {
    hide Latest, Handed, Spent, Starts, RowsFit, HeldBy;
    var t := Next(s, step);
    if t.log != s.log {
      NoNewStart(s, t.log[|s.log|]);
      assert t.log == s.log + [t.log[|s.log|]];
    }
    forall w: nat | w < |t.workers| ensures RowsFit(t.workers[w]) && LeaseFits(t, w) {
      assert RowsFit(s.workers[w]) && LeaseFits(s, w);
      CrashFits(s.workers[w]);
      if t.log != s.log {
        Append(s.log, t.log[|s.log|], s.workers[w].q);
        HeldIsLatest(s.log, t.log, s.workers[w].q, w);
      }
    }
  }

  lemma HeldIsLatest(log: seq<Mark>, next: seq<Mark>, q: nat, w: nat)
    ensures Latest(log, q) == Latest(next, q) ==> HeldBy(log, q, w) == HeldBy(next, q, w)
  {}

  lemma NextKeepsLease(s: State, step: Step)
    requires LeaseInv(s) && Timely(s, step)
    ensures LeaseInv(Next(s, step))
  {
    hide LeaseInv, Advanced, Claim, Runnable;
    match step
    case Open(workspace) =>
      var q := NextRunnable(s.log, workspace, s.now, 0);
      if q.Some? { ClaimKeepsLease(s, q.value, workspace); }
    case Advance(w, o) =>
      if w < |s.workers| {
        var pc := s.workers[w].pc;
        if o.Bad? || !(pc.AtStart? || pc.AtConsume? || pc.AtRelease?) { QuietKeepsLease(s, w, o); }
        else if pc.AtStart? { StartKeepsLease(s, w, o); }
        else { SettleKeepsLease(s, w, o); }
      }
    case _ => OutsideKeepsLease(s, step);
  }

  lemma {:induction false} RunKeepsLease(s: State, steps: seq<Step>)
    requires LeaseInv(s) && AllTimely(s, steps)
    ensures LeaseInv(Run(s, steps))
    decreases |steps|
  {
    hide LeaseInv, Next, Timely;
    if steps != [] {
      NextKeepsLease(s, steps[0]);
      RunKeepsLease(Next(s, steps[0]), steps[1..]);
    }
  }

  predicate BothLive(v: Worker, w: Worker) { v.live && w.live && v.q == w.q }

  /**
   Whatever fails or crashes, when launches start within their lease a queued run is started at most once, and once
   one is live its latest lease event stays the starter's own claim or consumption: nobody releases it, and nobody can
   claim it, at any later time and for any workspace.
   */
  lemma StartedOnce(now: nat, steps: seq<Step>, q: nat)
    requires AllTimely(Empty(now), steps)
    ensures var s := Run(Empty(now), steps);
            && Starts(s.log, q) <= 1
            && (forall w: nat :: w < |s.workers| && s.workers[w].live && s.workers[w].q == q ==>
                  && HeldBy(s.log, q, w)
                  && (forall later: nat, workspace: string :: !Runnable(s.log, q, workspace, later)))
            && (forall v: nat, w: nat ::
                  v < |s.workers| && w < |s.workers| && BothLive(s.workers[v], s.workers[w]) ==> v == w)
  {
    hide Run, AllTimely;
    RunKeepsLease(Empty(now), steps);
    var s := Run(Empty(now), steps);
    forall v: nat, w: nat | v < |s.workers| && w < |s.workers| && BothLive(s.workers[v], s.workers[w]) ensures v == w {
      assert LeaseFits(s, v) && LeaseFits(s, w);
    }
    forall w: nat | w < |s.workers| && s.workers[w].live && s.workers[w].q == q
      ensures HeldBy(s.log, q, w) && Handed(s.log, q) {
      assert LeaseFits(s, w);
    }
  }

  // ---- Why the lease matters ----

  /** Any two workers that stand before the start of the same queue event, however they got there, start it twice. */
  lemma TwoAtStart(s: State, v: nat, w: nat)
    requires v < |s.workers| && w < |s.workers| && v != w && s.workers[v].q == s.workers[w].q
    requires s.workers[v].pc.AtStart? && s.workers[w].pc.AtStart?
    ensures var t := Run(s, [Advance(v, Good), Advance(w, Good)]);
            && |t.workers| == |s.workers| && t.workers[v].live && t.workers[w].live
            && Starts(t.log, s.workers[v].q) == Starts(s.log, s.workers[v].q) + 2
  {
    hide Latest, Handed, Spent;
    var q := s.workers[v].q;
    var mid := Next(s, Advance(v, Good));
    assert Run(s, [Advance(v, Good), Advance(w, Good)]) == Next(mid, Advance(w, Good)) by {
      assert [Advance(v, Good), Advance(w, Good)][1..] == [Advance(w, Good)];
      assert Run(mid, [Advance(w, Good)]) == Run(Next(mid, Advance(w, Good)), []);
    }
    Append(s.log, Started(q, v), q);
    Append(mid.log, Started(q, w), q);
  }

  function Launching(w: nat): seq<Step> {
    [Advance(w, Good), Advance(w, Good), Advance(w, Good), Advance(w, Good), Advance(w, Good)]
  }

  lemma LaunchingReachesStart(s: State, w: nat)
    requires w < |s.workers| && s.workers[w].pc.AtReserve?
    ensures var t := Run(s, Launching(w));
            && t.log == s.log && t.now == s.now && |t.workers| == |s.workers|
            && t.workers[w].pc.AtStart? && t.workers[w].q == s.workers[w].q
            && forall v :: 0 <= v < |s.workers| && v != w ==> t.workers[v] == s.workers[v]
  {
    hide Latest, Handed, Spent, Starts;
    var a := Next(s, Advance(w, Good));
    var b := Next(a, Advance(w, Good));
    var c := Next(b, Advance(w, Good));
    var d := Next(c, Advance(w, Good));
    var e := Next(d, Advance(w, Good));
    UnfoldFive(s, w, a, b, c, d, e);
  }

  lemma UnfoldFive(s: State, w: nat, a: State, b: State, c: State, d: State, e: State)
    requires var g := Advance(w, Good); a == Next(s, g) && b == Next(a, g) && c == Next(b, g) && d == Next(c, g) && e == Next(d, g)
    ensures Run(s, Launching(w)) == e
  {
    hide Next;
    var g := Advance(w, Good);
    assert Run(d, [g]) == e by { assert Run(e, []) == e; }
    assert Run(c, [g, g]) == e by { assert [g, g][1..] == [g]; }
    assert Run(b, [g, g, g]) == e by { assert [g, g, g][1..] == [g, g]; }
    assert Run(a, [g, g, g, g]) == e by { assert [g, g, g, g][1..] == [g, g, g]; }
    assert Launching(w)[0] == g && Launching(w)[1..] == [g, g, g, g];
  }

  lemma {:induction false} RunSplit(s: State, first: seq<Step>, second: seq<Step>)
    ensures Run(s, first + second) == Run(Run(s, first), second)
    decreases |first|
  {
    hide Next;
    if first == [] {
      assert first + second == second;
    } else {
      assert (first + second)[0] == first[0] && (first + second)[1..] == first[1..] + second;
      RunSplit(Next(s, first[0]), first[1..], second);
    }
  }

  /** A worker that outlives its lease: another claims the same event, and both start it. */
  function LateRun(workspace: string): seq<Step> {
    [Enqueue(workspace), Open(workspace)] + Launching(0) + [Tick(LEASE_SECONDS), Open(workspace)] + Launching(1)
    + [Advance(0, Good), Advance(1, Good)]
  }

  lemma ClaimAfterQueue(workspace: string) returns (s: State)
    ensures s == Run(Empty(0), [Enqueue(workspace), Open(workspace)])
    ensures s.log == [Queued(workspace), Claimed(0, 0, LEASE_SECONDS)] && s.now == 0
    ensures s.workers == [Worker(0, LEASE_SECONDS, AtReserve, Absent, Absent, Absent, false)]
  {
    hide Run;
    var a := Next(Empty(0), Enqueue(workspace));
    s := Next(a, Open(workspace));
    assert a.log == [Queued(workspace)];
    assert Runnable(a.log, 0, workspace, 0) by { Append([], Queued(workspace), 0); assert [] + [Queued(workspace)] == a.log; }
    TwoSteps(Empty(0), Enqueue(workspace), Open(workspace));
  }

  lemma TwoSteps(s: State, first: Step, second: Step)
    ensures Run(s, [first, second]) == Next(Next(s, first), second)
  {
    hide Next;
    assert [first, second][1..] == [second];
    assert Run(Next(s, first), [second]) == Run(Next(Next(s, first), second), []);
  }

  lemma ReclaimAfterExpiry(workspace: string, s: State) returns (t: State)
    requires s.log == [Queued(workspace), Claimed(0, 0, LEASE_SECONDS)] && s.now == 0 && |s.workers| == 1
    ensures t == Run(s, [Tick(LEASE_SECONDS), Open(workspace)])
    ensures t.log == s.log + [Claimed(0, 1, 2 * LEASE_SECONDS)] && t.now == LEASE_SECONDS
    ensures t.workers == s.workers + [Worker(0, 2 * LEASE_SECONDS, AtReserve, Absent, Absent, Absent, false)]
  {
    hide Run;
    var a := Next(s, Tick(LEASE_SECONDS));
    t := Next(a, Open(workspace));
    assert Runnable(a.log, 0, workspace, LEASE_SECONDS) by {
      Append([], Queued(workspace), 0);
      assert [] + [Queued(workspace)] == [Queued(workspace)];
      Append([Queued(workspace)], Claimed(0, 0, LEASE_SECONDS), 0);
      assert [Queued(workspace)] + [Claimed(0, 0, LEASE_SECONDS)] == a.log;
    }
    TwoSteps(s, Tick(LEASE_SECONDS), Open(workspace));
  }

  lemma StitchLateRun(workspace: string, s1: State, s2: State, s3: State, s4: State)
    requires s1 == Run(Empty(0), [Enqueue(workspace), Open(workspace)]) && s2 == Run(s1, Launching(0))
    requires s3 == Run(s2, [Tick(LEASE_SECONDS), Open(workspace)]) && s4 == Run(s3, Launching(1))
    ensures Run(Empty(0), LateRun(workspace)) == Run(s4, [Advance(0, Good), Advance(1, Good)])
  {
    hide Run;
    var a := [Enqueue(workspace), Open(workspace)];
    var b := [Tick(LEASE_SECONDS), Open(workspace)];
    RunSplit(Empty(0), a, Launching(0));
    RunSplit(Empty(0), a + Launching(0), b);
    RunSplit(Empty(0), a + Launching(0) + b, Launching(1));
    RunSplit(Empty(0), a + Launching(0) + b + Launching(1), [Advance(0, Good), Advance(1, Good)]);
  }

  lemma {:induction false} NoStartMarks(log: seq<Mark>, q: nat)
    requires forall m :: m in log ==> !m.Started?
    ensures Starts(log, q) == 0
  {
    if log != [] {
      NoStartMarks(log[..|log| - 1], q);
    }
  }

  lemma LateStartDoubles(workspace: string)
    ensures Starts(Run(Empty(0), LateRun(workspace)).log, 0) == 2
    ensures !AllTimely(Empty(0), LateRun(workspace))
  {
    hide Run, AllTimely, Next, Starts;
    var s1 := ClaimAfterQueue(workspace);
    LaunchingReachesStart(s1, 0);
    var s2 := Run(s1, Launching(0));
    var s3 := ReclaimAfterExpiry(workspace, s2);
    LaunchingReachesStart(s3, 1);
    var s4 := Run(s3, Launching(1));
    NoStartMarks(s4.log, 0);
    TwoAtStart(s4, 0, 1);
    StitchLateRun(workspace, s1, s2, s3, s4);
    if AllTimely(Empty(0), LateRun(workspace)) {
      StartedOnce(0, LateRun(workspace), 0);
    }
  }

  /**
   The lease is exactly what keeps a second start away.  After any timely run, while a worker stands before the start
   within its lease its event cannot be claimed again; and in any state at all where a worker stands before the start
   of an event that is next in line, opening another worker lets both start it.
   */
  lemma LeaseDecides(now: nat, steps: seq<Step>, w: nat, workspace: string)
    requires AllTimely(Empty(now), steps)
    requires w < |Run(Empty(now), steps).workers| && PreStart(Run(Empty(now), steps).workers[w].pc)
    ensures var s := Run(Empty(now), steps);
            s.now < s.workers[w].expires ==> NextRunnable(s.log, workspace, s.now, 0) != Some(s.workers[w].q)
  {
    hide Run, AllTimely, Latest, Handed, Spent;
    RunKeepsLease(Empty(now), steps);
    assert LeaseFits(Run(Empty(now), steps), w);
  }

  function SecondWorker(s: State, w: nat, workspace: string): seq<Step> {
    [Open(workspace)] + Launching(|s.workers|) + [Advance(w, Good), Advance(|s.workers|, Good)]
  }

  lemma ClaimableAtStartDoubles(s: State, w: nat, workspace: string)
    requires w < |s.workers| && s.workers[w].pc.AtStart?
    requires NextRunnable(s.log, workspace, s.now, 0) == Some(s.workers[w].q)
    ensures Starts(Run(s, SecondWorker(s, w, workspace)).log, s.workers[w].q) == Starts(s.log, s.workers[w].q) + 2
  {
    hide Run, Latest, Handed, Starts, Runnable, NextRunnable;
    var v := |s.workers|;
    var a := Next(s, Open(workspace));
    Append(s.log, a.log[|s.log|], s.workers[w].q);
    LaunchingReachesStart(a, v);
    var b := Run(a, Launching(v));
    TwoAtStart(b, w, v);
    RunSplit(s, [Open(workspace)], Launching(v));
    RunSplit(s, [Open(workspace)] + Launching(v), [Advance(w, Good), Advance(v, Good)]);
    OneStep(s, Open(workspace));
  }

  lemma OneStep(s: State, step: Step)
    ensures Run(s, [step]) == Next(s, step)
  {
    assert Run(Next(s, step), []) == Next(s, step);
  }

  // ---- Consumed once ----

  function Consumptions(log: seq<Mark>, q: nat): nat {
    if log == [] then 0
    else Consumptions(log[..|log| - 1], q) + if log[|log| - 1].Consumed? && log[|log| - 1].q == q then 1 else 0
  }

  ghost predicate CountedOnce(log: seq<Mark>) {
    forall q: nat :: Consumptions(log, q) == if Spent(log, q) then 1 else 0
  }

  lemma AppendCounted(log: seq<Mark>, m: Mark)
    requires CountedOnce(log) && (m.Consumed? ==> !Spent(log, m.q))
    ensures CountedOnce(log + [m])
  {
    hide Latest, Handed, Starts, Spent, Consumptions;
    forall q: nat ensures Consumptions(log + [m], q) == if Spent(log + [m], q) then 1 else 0 {
      Append(log, m, q);
      AppendConsumption(log, m, q);
    }
  }

  lemma AppendConsumption(log: seq<Mark>, m: Mark, q: nat)
    ensures Consumptions(log + [m], q) == Consumptions(log, q) + if m.Consumed? && m.q == q then 1 else 0
  {
    assert (log + [m])[..|log|] == log;
  }

  lemma {:induction false} RunCounted(s: State, steps: seq<Step>)
    requires CountedOnce(s.log)
    ensures CountedOnce(Run(s, steps).log)
    decreases |steps|
  {
    hide Latest, Handed, Starts, Spent, Moved, NextRunnable, CountedOnce;
    if steps != [] {
      var t := Next(s, steps[0]);
      assert t.log == s.log || t.log == s.log + [t.log[|s.log|]];
      if t.log != s.log { AppendCounted(s.log, t.log[|s.log|]); }
      RunCounted(t, steps[1..]);
    }
  }

  /** Over every run, with no hypothesis at all, a queue event is consumed at most once. */
  lemma ConsumedOnce(now: nat, steps: seq<Step>, q: nat)
    ensures Consumptions(Run(Empty(now), steps).log, q) <= 1
  {
    hide Run;
    RunCounted(Empty(now), steps);
  }

  // ---- Exactly when a start is the last ----

  /** `q` is handed off and nobody stands before its start. */
  ghost predicate Closed(s: State, q: nat) {
    Handed(s.log, q) && forall v: nat :: v < |s.workers| && s.workers[v].q == q ==> !PreStart(s.workers[v].pc)
  }

  lemma AdvanceStaysClosed(s: State, q: nat, w: nat, o: Outcome)
    requires Closed(s, q) && w < |s.workers|
    ensures Closed(Advanced(s, w, o), q) && Starts(Advanced(s, w, o).log, q) == Starts(s.log, q)
  {
    hide Latest, Handed, Spent, Starts, Owns;
    var t := Advanced(s, w, o);
    var k := s.workers[w];
    if t.log != s.log {
      Append(s.log, t.log[|s.log|], q);
      assert t.log == s.log + [t.log[|s.log|]];
    }
    forall v: nat | v < |t.workers| && t.workers[v].q == q ensures !PreStart(t.workers[v].pc) {
      if v == w { NeverBack(k, o); }
    }
  }

  lemma NeverBack(w: Worker, o: Outcome)
    ensures PreStart(Moved(w, o).pc) ==> PreStart(w.pc)
    ensures Moved(w, o).q == w.q
  {}

  lemma StaysClosed(s: State, q: nat, step: Step)
    requires Closed(s, q)
    ensures Closed(Next(s, step), q) && Starts(Next(s, step).log, q) == Starts(s.log, q)
  {
    hide Latest, Handed, Spent, Starts, Advanced, NextRunnable;
    match step
    case Advance(w, o) => if w < |s.workers| { AdvanceStaysClosed(s, q, w, o); }
    case Enqueue(workspace) => Append(s.log, Queued(workspace), q);
    case Recover(r) => Append(s.log, Recovery(r), q);
    case Open(workspace) =>
      var n := NextRunnable(s.log, workspace, s.now, 0);
      if n.Some? { Append(s.log, Claimed(n.value, |s.workers|, s.now + LEASE_SECONDS), q); }
    case _ =>
  }

  lemma {:induction false} RunStaysClosed(s: State, q: nat, steps: seq<Step>)
    requires Closed(s, q)
    ensures Starts(Run(s, steps).log, q) == Starts(s.log, q)
    decreases |steps|
  {
    hide Next, Closed;
    if steps != [] {
      StaysClosed(s, q, steps[0]);
      RunStaysClosed(Next(s, steps[0]), q, steps[1..]);
    }
  }

  /** A worker before the start gets there by working calls alone. */
  lemma {:induction false} GetsToStart(s: State, v: nat) returns (steps: seq<Step>)
    requires v < |s.workers| && PreStart(s.workers[v].pc)
    ensures Starts(Run(s, steps).log, s.workers[v].q) == Starts(s.log, s.workers[v].q) + 1
    decreases Rank(s.workers[v].pc)
  {
    hide Run, Latest, Handed, Spent, Starts;
    var t := Next(s, Advance(v, Good));
    MovedRank(s.workers[v], Good);
    if s.workers[v].pc.AtStart? {
      steps := [Advance(v, Good)];
      OneStep(s, Advance(v, Good));
      Append(s.log, Started(s.workers[v].q, v), s.workers[v].q);
    } else {
      assert t.log == s.log;
      var rest := GetsToStart(t, v);
      steps := [Advance(v, Good)] + rest;
      RunSplit(s, [Advance(v, Good)], rest);
      OneStep(s, Advance(v, Good));
    }
  }

  /**
   In any state: once a worker starts its event, no continuation whatsoever starts it again if and only if no other
   worker stands before the start of that event.
   */
  lemma LastStartExactly(s: State, w: nat)
    requires w < |s.workers| && s.workers[w].pc.AtStart?
    ensures var q := s.workers[w].q;
            var t := Next(s, Advance(w, Good));
            (forall steps: seq<Step> :: Starts(Run(t, steps).log, q) == Starts(s.log, q) + 1)
            <==> (forall v: nat :: v < |s.workers| && v != w && s.workers[v].q == q ==> !PreStart(s.workers[v].pc))
  {
    hide Run, Latest, Spent, Starts;
    var q := s.workers[w].q;
    var t := Next(s, Advance(w, Good));
    Append(s.log, Started(q, w), q);
    assert t.log == s.log + [Started(q, w)];
    if v: nat :| v < |s.workers| && v != w && s.workers[v].q == q && PreStart(s.workers[v].pc) {
      var steps := GetsToStart(t, v);
      assert Starts(Run(t, steps).log, q) == Starts(s.log, q) + 2;
    } else {
      forall steps: seq<Step> ensures Starts(Run(t, steps).log, q) == Starts(s.log, q) + 1 {
        RunStaysClosed(t, q, steps);
      }
    }
  }

  // ---- One call of `process_queued_runs` on its own ----

  function Rank(pc: Pc): nat {
    match pc
    case AtReserve => 12 case AtCreateRun => 11 case AtCreateAgent => 10 case AtMarkRunning => 9
    case AtEmitRequested => 8 case AtStart => 7 case AtConsume => 1 case AtFailAgent => 6 case AtFailRun => 5
    case AtFailTask => 4 case AtEmitFailed => 3 case AtRelease => 1 case Ended => 0
  }

  lemma MovedRank(w: Worker, o: Outcome)
    requires !w.pc.Ended?
    ensures Rank(Moved(w, o).pc) < Rank(w.pc)
  {}

  /** The worker carried to its end, `fate` telling how each call it makes turns out. */
  function Drive(s: State, w: nat, fate: Pc -> Outcome): State
    requires w < |s.workers|
    decreases Rank(s.workers[w].pc)
  {
    if s.workers[w].pc.Ended? then s
    else
      MovedRank(s.workers[w], fate(s.workers[w].pc));
      Drive(Advanced(s, w, fate(s.workers[w].pc)), w, fate)
  }

  function DriveSteps(s: State, w: nat, fate: Pc -> Outcome): seq<Step>
    requires w < |s.workers|
    decreases Rank(s.workers[w].pc)
  {
    if s.workers[w].pc.Ended? then []
    else
      MovedRank(s.workers[w], fate(s.workers[w].pc));
      [Advance(w, fate(s.workers[w].pc))] + DriveSteps(Advanced(s, w, fate(s.workers[w].pc)), w, fate)
  }

  /** An uninterrupted call is one of the runs of the interleaved machine. */
  lemma {:induction false} DriveIsRun(s: State, w: nat, fate: Pc -> Outcome)
    requires w < |s.workers|
    ensures Run(s, DriveSteps(s, w, fate)) == Drive(s, w, fate)
    decreases Rank(s.workers[w].pc)
  {
    hide Moved, Written, Rank;
    if !s.workers[w].pc.Ended? {
      var o := fate(s.workers[w].pc);
      MovedRank(s.workers[w], o);
      var t := Advanced(s, w, o);
      DriveIsRun(t, w, fate);
      assert DriveSteps(s, w, fate)[1..] == DriveSteps(t, w, fate);
      assert Next(s, Advance(w, o)) == t;
    }
  }

  /** The release a failed launch gets to, if its failure report does not raise. */
  function Freed(log: seq<Mark>, q: nat, w: nat, fate: Pc -> Outcome): seq<Mark> {
    if fate(AtEmitFailed).Good? then Written(log, AtRelease, q, w, fate(AtRelease)) else []
  }

  /** The outcome of a call whose launch did not come about. */
  predicate GaveUp(before: State, after: State, w: nat, fate: Pc -> Outcome)
    requires w < |before.workers|
  {
    var b := before.workers[w];
    && |after.workers| == |before.workers| && after.now == before.now
    && after.workers[w] == b.(pc := Ended, agent := Compensated(b.agent, fate(AtFailAgent)),
                              run := Compensated(b.run, fate(AtFailRun)), task := Compensated(b.task, fate(AtFailTask)))
    && after.log == before.log + Freed(before.log, b.q, w, fate)
    && forall v :: 0 <= v < |before.workers| && v != w ==> after.workers[v] == before.workers[v]
  }

  lemma DriveStep(s: State, w: nat, fate: Pc -> Outcome)
    requires w < |s.workers| && !s.workers[w].pc.Ended?
    ensures Drive(s, w, fate) == Drive(Advanced(s, w, fate(s.workers[w].pc)), w, fate)
  {
    MovedRank(s.workers[w], fate(s.workers[w].pc));
  }

  lemma DriveGivesUp(s: State, w: nat, fate: Pc -> Outcome)
    requires w < |s.workers| && s.workers[w].pc.AtFailAgent?
    ensures GaveUp(s, Drive(s, w, fate), w, fate)
  {
    hide Drive, Latest, Owns;
    DriveStep(s, w, fate);
    var a := Advanced(s, w, fate(AtFailAgent));
    DriveStep(a, w, fate);
    var b := Advanced(a, w, fate(AtFailRun));
    DriveStep(b, w, fate);
    var c := Advanced(b, w, fate(AtFailTask));
    DriveStep(c, w, fate);
    var d := Advanced(c, w, fate(AtEmitFailed));
    assert d.log == s.log;
    if d.workers[w].pc.AtRelease? {
      DriveStep(d, w, fate);
      DriveEnds(Advanced(d, w, fate(AtRelease)), w, fate);
    } else {
      DriveEnds(d, w, fate);
    }
  }

  lemma DriveEnds(s: State, w: nat, fate: Pc -> Outcome)
    requires w < |s.workers| && s.workers[w].pc.Ended?
    ensures Drive(s, w, fate) == s
  {}

  /** The first `n` calls of a launch work. */
  predicate Clear(fate: Pc -> Outcome, n: nat) {
    && (n > 0 ==> fate(AtReserve).Good?) && (n > 1 ==> fate(AtCreateRun).Good?) && (n > 2 ==> fate(AtCreateAgent).Good?)
    && (n > 3 ==> fate(AtMarkRunning).Good?) && (n > 4 ==> fate(AtEmitRequested).Good?) && (n > 5 ==> fate(AtStart).Good?)
  }

  /** The row is in the ledger and not marked failed. */
  predicate LeftBehind(row: Row) { row.Live? || row.Orphan? }

  /**
   What one call leaves behind.  The launch is live exactly when its six calls work; a live launch keeps its rows and
   its claim, and is consumed unless that call fails.  A launch that does not come about leaves a row behind unfailed
   exactly if the call that creates it wrote and then raised, so that nobody knows of it, or the call that should fail
   it fails; its claim is released unless the failure report or the release raises.
   */
  predicate Settled(log: seq<Mark>, q: nat, w: nat, fate: Pc -> Outcome, t: State)
    requires w < |t.workers|
  {
    var k := t.workers[w];
    && k.pc.Ended? && k.live == Clear(fate, 6)
    && (k.live ==>
          && k.task.Live? && k.run.Live? && k.agent.Live?
          && t.log == log + [Started(q, w)] + (if fate(AtConsume).Bad? then [] else [Consumed(q, w)]))
    && (!k.live ==>
          && (LeftBehind(k.task) <==> fate(AtReserve).Torn? || (Clear(fate, 1) && fate(AtFailTask).Bad?))
          && (LeftBehind(k.run) <==> Clear(fate, 1) && (fate(AtCreateRun).Torn? || (Clear(fate, 2) && fate(AtFailRun).Bad?)))
          && (LeftBehind(k.agent) <==> Clear(fate, 2) && (fate(AtCreateAgent).Torn? || (Clear(fate, 3) && fate(AtFailAgent).Bad?)))
          && (k.task.Failed? <==> Clear(fate, 1) && !fate(AtFailTask).Bad?)
          && (k.run.Failed? <==> Clear(fate, 2) && !fate(AtFailRun).Bad?)
          && (k.agent.Failed? <==> Clear(fate, 3) && !fate(AtFailAgent).Bad?)
          && t.log == log + (if Clear(fate, 5) && fate(AtStart).Torn? then [Started(q, w)] else [])
                          + (if !fate(AtRelease).Bad? && (Clear(fate, 1) ==> fate(AtEmitFailed).Good?) then [Released(q, w)] else []))
  }

  predicate Fresh(s: State, w: nat, pc: Pc)
    requires w < |s.workers|
  {
    && s.workers[w].pc == pc && PreStart(pc) && !s.workers[w].live
    && RowsFit(s.workers[w]) && Owns(s.log, s.workers[w].q, w) && !Spent(s.log, s.workers[w].q)
  }

  /** From `AtFailAgent` on, given how far the launch had got. */
  lemma SettleAfterFailure(s: State, w: nat, fate: Pc -> Outcome, log: seq<Mark>, n: nat)
    requires w < |s.workers| && s.workers[w].pc.AtFailAgent? && !s.workers[w].live
    requires 1 <= n <= 5 && Clear(fate, n) && !Clear(fate, n + 1)
    requires var k := s.workers[w];
             && k.task.Live?
             && k.run == (if n > 1 then Live else Created(fate(AtCreateRun)))
             && k.agent == (if n > 2 then Live else if n == 2 then Created(fate(AtCreateAgent)) else Absent)
    requires s.log == log + if n == 5 && fate(AtStart).Torn? then [Started(s.workers[w].q, w)] else []
    requires Owns(log, s.workers[w].q, w)
    ensures |Drive(s, w, fate).workers| == |s.workers| && Settled(log, s.workers[w].q, w, fate, Drive(s, w, fate))
  {
    hide Drive, Latest, Handed, Spent, Clear, Starts;
    DriveGivesUp(s, w, fate);
    var q := s.workers[w].q;
    Append(log, Started(q, w), q);
    ClearUpTo(fate, n);
    ClearMeans(fate);
    assert log + [] == log;
    assert Owns(s.log, q, w);
    assert n == 5 && fate(AtStart).Torn? ==> Clear(fate, 5);
  }

  lemma ClearMeans(fate: Pc -> Outcome)
    ensures Clear(fate, 1) <==> fate(AtReserve).Good?
    ensures Clear(fate, 2) <==> Clear(fate, 1) && fate(AtCreateRun).Good?
    ensures Clear(fate, 3) <==> Clear(fate, 2) && fate(AtCreateAgent).Good?
  {}

  lemma ClearUpTo(fate: Pc -> Outcome, n: nat)
    requires n <= 5 && Clear(fate, n) && !Clear(fate, n + 1)
    ensures forall m: nat :: Clear(fate, m) <==> m <= n
  {}

  lemma SettleFromStart(s: State, w: nat, fate: Pc -> Outcome)
    requires w < |s.workers| && Fresh(s, w, AtStart) && Clear(fate, 5)
    ensures |Drive(s, w, fate).workers| == |s.workers| && Settled(s.log, s.workers[w].q, w, fate, Drive(s, w, fate))
  {
    hide Drive, Latest, Handed, Spent, Starts, Settled;
    DriveStep(s, w, fate);
    if fate(AtStart).Good? {
      SettleLive(s, w, fate);
    } else {
      SettleAfterFailure(Advanced(s, w, fate(AtStart)), w, fate, s.log, 5);
    }
  }

  lemma SettleLive(s: State, w: nat, fate: Pc -> Outcome)
    requires w < |s.workers| && Fresh(s, w, AtStart) && Clear(fate, 6)
    ensures |Drive(s, w, fate).workers| == |s.workers| && Settled(s.log, s.workers[w].q, w, fate, Drive(s, w, fate))
  {
    hide Drive, Latest, Handed, Spent, Starts;
    DriveStep(s, w, fate);
    var a := Advanced(s, w, fate(AtStart));
    Append(s.log, Started(s.workers[w].q, w), s.workers[w].q);
    DriveStep(a, w, fate);
    DriveEnds(Advanced(a, w, fate(AtConsume)), w, fate);
  }

  /** One call of the launch before the start. */
  lemma LaunchStep(s: State, w: nat, fate: Pc -> Outcome, pc: Pc, next: Pc, n: nat) returns (a: State)
    requires w < |s.workers| && Fresh(s, w, pc) && Clear(fate, n)
    requires (pc, next, n) in {(AtCreateRun, AtCreateAgent, 1), (AtCreateAgent, AtMarkRunning, 2),
                               (AtMarkRunning, AtEmitRequested, 3), (AtEmitRequested, AtStart, 4)}
    ensures |a.workers| == |s.workers| && a.log == s.log && a.workers[w].q == s.workers[w].q
    ensures Drive(s, w, fate) == Drive(a, w, fate)
    ensures Clear(fate, n + 1) ==> Fresh(a, w, next)
    ensures !Clear(fate, n + 1) ==> |Drive(s, w, fate).workers| == |s.workers| && Settled(s.log, s.workers[w].q, w, fate, Drive(s, w, fate))
  {
    hide Drive, Latest, Handed, Spent, Settled;
    DriveStep(s, w, fate);
    a := Advanced(s, w, fate(pc));
    assert s.log + [] == s.log;
    AdvanceFits(s.workers[w], fate(pc));
    if !Clear(fate, n + 1) {
      SettleAfterFailure(a, w, fate, s.log, n);
    }
  }

  lemma CallOutcome(s: State, w: nat, fate: Pc -> Outcome)
    requires w < |s.workers| && Fresh(s, w, AtReserve)
    ensures |Drive(s, w, fate).workers| == |s.workers| && Settled(s.log, s.workers[w].q, w, fate, Drive(s, w, fate))
  {
    hide Drive, Latest, Handed, Spent, Settled, Clear, Fresh, Advanced;
    var a := ReserveStep(s, w, fate);
    if !Clear(fate, 1) { return; }
    var b := LaunchStep(a, w, fate, AtCreateRun, AtCreateAgent, 1);
    if !Clear(fate, 2) { return; }
    var c := LaunchStep(b, w, fate, AtCreateAgent, AtMarkRunning, 2);
    if !Clear(fate, 3) { return; }
    var d := LaunchStep(c, w, fate, AtMarkRunning, AtEmitRequested, 3);
    if !Clear(fate, 4) { return; }
    var e := LaunchStep(d, w, fate, AtEmitRequested, AtStart, 4);
    if Clear(fate, 5) { SettleFromStart(e, w, fate); }
  }

  lemma ReserveStep(s: State, w: nat, fate: Pc -> Outcome) returns (a: State)
    requires w < |s.workers| && Fresh(s, w, AtReserve)
    ensures |a.workers| == |s.workers| && a.log == s.log && a.workers[w].q == s.workers[w].q
    ensures Drive(s, w, fate) == Drive(a, w, fate)
    ensures Clear(fate, 1) ==> Fresh(a, w, AtCreateRun)
    ensures !Clear(fate, 1) ==> |Drive(s, w, fate).workers| == |s.workers| && Settled(s.log, s.workers[w].q, w, fate, Drive(s, w, fate))
  {
    hide Drive, Latest, Handed, Spent;
    DriveStep(s, w, fate);
    a := Advanced(s, w, fate(AtReserve));
    AdvanceFits(s.workers[w], fate(AtReserve));
    assert a.log == s.log;
    if !Clear(fate, 1) {
      DriveStep(a, w, fate);
      DriveEnds(Advanced(a, w, fate(AtRelease)), w, fate);
    }
  }

  // ---- A consumption is final ----

  ghost predicate ConsumedLast(log: seq<Mark>) {
    forall i :: 0 <= i < |log| && log[i].Consumed? ==> Latest(log, log[i].q).Some? && Latest(log, log[i].q).value.Consumed?
  }

  lemma {:induction false} ConsumedIsHanded(log: seq<Mark>, i: nat)
    requires i < |log| && log[i].Consumed?
    ensures Handed(log, log[i].q)
  {
    if i < |log| - 1 {
      ConsumedIsHanded(log[..|log| - 1], i);
    }
  }

  lemma AppendKeepsConsumed(log: seq<Mark>, m: Mark)
    requires ConsumedLast(log)
    requires m.Claimed? ==> !Handed(log, m.q)
    requires m.Released? ==> Latest(log, m.q).Some? && Latest(log, m.q).value.Claimed?
    ensures ConsumedLast(log + [m])
  {
    hide Latest, Handed, Spent, Starts;
    forall i | 0 <= i < |log + [m]| && (log + [m])[i].Consumed?
      ensures var l := Latest(log + [m], (log + [m])[i].q); l.Some? && l.value.Consumed? {
      Append(log, m, (log + [m])[i].q);
      if i < |log| { ConsumedIsHanded(log, i); }
    }
  }

  lemma {:induction false} RunKeepsConsumed(s: State, steps: seq<Step>)
    requires ConsumedLast(s.log)
    ensures ConsumedLast(Run(s, steps).log)
    decreases |steps|
  {
    hide Latest, Handed, Spent, Starts, Moved, NextRunnable, ConsumedLast;
    if steps != [] {
      var t := Next(s, steps[0]);
      assert t.log == s.log || t.log == s.log + [t.log[|s.log|]];
      if t.log != s.log { AppendKeepsConsumed(s.log, t.log[|s.log|]); }
      RunKeepsConsumed(t, steps[1..]);
    }
  }

  /** A worker that still holds its claim finds no consumption, so consuming writes exactly one such mark per event. */
  lemma HolderFindsNoConsumption(now: nat, steps: seq<Step>, q: nat, w: nat)
    requires Owns(Run(Empty(now), steps).log, q, w)
    ensures forall m :: m in Run(Empty(now), steps).log && m.Consumed? ==> m.q != q
  {
    RunKeepsConsumed(Empty(now), steps);
  }
}

/** The queue consumer as an object: the event store's claim, release and consume, and one whole call. */
module QueueConsumerObject {
  import opened Options
  import opened QueuedRuns

  class QueueConsumer {
    var log: seq<Mark>
    var now: nat
    var workers: seq<Worker>

    ghost function View(): State
      reads this
    {
      State(log, now, workers)
    }

    constructor (now: nat)
      ensures View() == Empty(now)
    {
      log, this.now, workers := [], now, [];
    }

    /** `_latest_queued_run_lease_event_locked`. */
    method LatestLease(q: nat) returns (r: Option<Mark>)
      ensures r == Latest(log, q)
    {
      hide Handed, Starts;
      var n := |log|;
      assert log[..n] == log;
      while n > 0
        invariant n <= |log| && Latest(log[..n], q) == Latest(log, q)
      {
        assert log[..n][..n - 1] == log[..n - 1];
        if LeaseMark(log[n - 1], q) {
          return Some(log[n - 1]);
        }
        n := n - 1;
      }
      return None;
    }

    /** `_queued_run_is_consumed_locked`. */
    method IsHandedOff(q: nat) returns (r: bool)
      ensures r == Handed(log, q)
    {
      var n := |log|;
      assert log[..n] == log;
      while n > 0
        invariant n <= |log| && Handed(log[..n], q) == Handed(log, q)
      {
        assert log[..n][..n - 1] == log[..n - 1];
        if HandOffMark(log[n - 1], q) {
          return true;
        }
        n := n - 1;
      }
      return false;
    }

    /** The check for an earlier consumption in `consume_queued_run_claim`. */
    method IsSpent(q: nat) returns (r: bool)
      ensures r == Spent(log, q)
    {
      var n := |log|;
      assert log[..n] == log;
      while n > 0
        invariant n <= |log| && Spent(log[..n], q) == Spent(log, q)
      {
        assert log[..n][..n - 1] == log[..n - 1];
        if log[n - 1].Consumed? && log[n - 1].q == q {
          return true;
        }
        n := n - 1;
      }
      return false;
    }

    /** `claim_next_queued_run_for_workspace`: the oldest runnable event, if any, is claimed by a new worker. */
    method ClaimNext(workspace: string) returns (w: Option<nat>)
      modifies this`log, this`workers
      ensures View() == Opened(old(View()), workspace)
      ensures w.None? <==> forall q: nat :: !Free(old(log), q, workspace, now)
      ensures w.None? ==> View() == old(View())
      ensures w.Some? ==>
                && w.value == |old(workers)| && w.value < |workers| && Fresh(View(), w.value, AtReserve)
                && var q := workers[w.value].q;
                   && Free(old(log), q, workspace, now) && (forall p: nat :: p < q ==> !Free(old(log), p, workspace, now))
                   && log == old(log) + [Claimed(q, w.value, now + 300)]
    {
      hide Latest, Handed, Spent, Starts, Free, Runnable, NextRunnable, RowsFit;
      ghost var before := View();
      ClaimsOldestFree(before, workspace);
      forall q: nat ensures Runnable(log, q, workspace, now) <==> Free(log, q, workspace, now) {
        RunnableExactly(log, q, workspace, now);
      }
      var i := 0;
      while i < |log|
        invariant i <= |log| && unchanged(this)
        invariant NextRunnable(log, workspace, now, 0) == NextRunnable(log, workspace, now, i)
        invariant forall q: nat :: q < i ==> !Runnable(log, q, workspace, now)
      {
        NextFrom(log, workspace, now, i);
        var handed := IsHandedOff(i);
        if log[i] == Queued(workspace) && !handed {
          var latest := LatestLease(i);
          if !(latest.Some? && latest.value.Claimed? && latest.value.expires > now) {
            w := Some(|workers|);
            var claim := Claimed(i, |workers|, now + LEASE_SECONDS);
            assert Free(log, i, workspace, now);
            FreshClaim(before, i);
            log, workers := log + [claim], workers + [Worker(i, now + LEASE_SECONDS, AtReserve, Absent, Absent, Absent, false)];
            return;
          }
        }
        i := i + 1;
      }
      assert NextRunnable(log, workspace, now, |log|) == None by { ScanEnds(log, workspace, now); }
      return None;
    }

    lemma ScanEnds(log: seq<Mark>, workspace: string, now: nat)
      ensures NextRunnable(log, workspace, now, |log|) == None
    {}

    /** One turn of the scan. */
    lemma NextFrom(log: seq<Mark>, workspace: string, now: nat, i: nat)
      requires i < |log|
      ensures Runnable(log, i, workspace, now) <==>
                log[i] == Queued(workspace) && !Handed(log, i)
                && !(Latest(log, i).Some? && Latest(log, i).value.Claimed? && Latest(log, i).value.expires > now)
      ensures NextRunnable(log, workspace, now, i) ==
                if Runnable(log, i, workspace, now) then Some(i) else NextRunnable(log, workspace, now, i + 1)
    {
      hide Handed, Latest;
    }

    lemma FreshClaim(s: State, q: nat)
      requires !Handed(s.log, q)
      ensures Fresh(Claim(s, q), |s.workers|, AtReserve)
    {
      hide Latest, Handed, Spent;
      if Spent(s.log, q) { SpentIsHanded(s.log, q); }
      Append(s.log, Claimed(q, |s.workers|, s.now + LEASE_SECONDS), q);
      FreshFits(Claim(s, q).workers[|s.workers|]);
    }

    /** One ledger, event or launch call of worker `w`; `ok` tells whether it returned. */
    method Call(w: nat, outcome: Outcome) returns (ok: bool)
      requires w < |workers|
      modifies this`log, this`workers
      ensures View() == Advanced(old(View()), w, outcome)
      ensures ok == outcome.Good?
    {
      ok := outcome.Good?;
      var k := workers[w];
      if !outcome.Bad? {
        if k.pc.AtStart? {
          log := log + [Started(k.q, w)];
        } else if k.pc.AtConsume? || k.pc.AtRelease? {
          var spent := IsSpent(k.q);
          var latest := LatestLease(k.q);
          if !(k.pc.AtConsume? && spent) && latest.Some? && latest.value.Claimed? && latest.value.owner == w {
            log := log + [if k.pc.AtConsume? then Consumed(k.q, w) else Released(k.q, w)];
          }
        }
      }
      workers := workers[w := Moved(k, outcome)];
    }

    /** The guarded part: everything up to the start of the chief engineer.  `started` is the source's flag. */
    method Launch(w: nat, fate: Pc -> Outcome) returns (started: bool)
      requires w < |workers| && workers[w].pc.AtCreateRun?
      modifies this`log, this`workers
      ensures |workers| == |old(workers)| && Drive(View(), w, fate) == Drive(old(View()), w, fate)
      ensures workers[w].pc == if started then AtConsume else AtFailAgent
    {
      hide Drive, Latest, Written;
      DriveStep(View(), w, fate);
      started := Call(w, fate(AtCreateRun));
      if !started { return; }
      DriveStep(View(), w, fate);
      started := Call(w, fate(AtCreateAgent));
      if !started { return; }
      DriveStep(View(), w, fate);
      started := Call(w, fate(AtMarkRunning));
      if !started { return; }
      DriveStep(View(), w, fate);
      started := Call(w, fate(AtEmitRequested));
      if !started { return; }
      DriveStep(View(), w, fate);
      started := Call(w, fate(AtStart));
    }

    /** The exception handler of a launch that never started. */
    method Compensate(w: nat, fate: Pc -> Outcome) returns (reported: bool)
      requires w < |workers| && workers[w].pc.AtFailAgent?
      modifies this`log, this`workers
      ensures |workers| == |old(workers)| && Drive(View(), w, fate) == Drive(old(View()), w, fate)
      ensures workers[w].pc == if reported then AtRelease else Ended
    {
      hide Drive, Latest, Written;
      DriveStep(View(), w, fate);
      var swallowed := Call(w, fate(AtFailAgent));
      DriveStep(View(), w, fate);
      swallowed := Call(w, fate(AtFailRun));
      DriveStep(View(), w, fate);
      swallowed := Call(w, fate(AtFailTask));
      DriveStep(View(), w, fate);
      reported := Call(w, fate(AtEmitFailed));
    }

    /** `process_queued_runs`, with maintenance and the workspace blocker as inputs. */
    method ProcessQueuedRuns(workspace: string, frozen: bool, blocked: bool, fate: Pc -> Outcome) returns (w: Option<nat>)
      modifies this`log, this`workers
      ensures w.None? <==> frozen || blocked || forall q: nat :: !Free(old(log), q, workspace, now)
      ensures w.None? ==> View() == old(View())
      ensures w.Some? ==>
                var claimed := Opened(old(View()), workspace);
                && w.value == |old(workers)| && w.value < |claimed.workers| && |workers| == |claimed.workers|
                && View() == Drive(claimed, w.value, fate)
                && Settled(claimed.log, claimed.workers[w.value].q, w.value, fate, View())
    {
      hide Drive, Latest, Handed, Spent, Written, NextRunnable, Settled, Runnable, Free;
      if frozen || blocked {
        return None;
      }
      w := ClaimNext(workspace);
      if w.None? {
        return;
      }
      ghost var claimed := View();
      CallOutcome(claimed, w.value, fate);
      DriveStep(View(), w.value, fate);
      var reserved := Call(w.value, fate(AtReserve));
      var release := !reserved;
      if reserved {
        var started := Launch(w.value, fate);
        if started {
          DriveStep(View(), w.value, fate);
          var consumed := Call(w.value, fate(AtConsume));
        } else {
          release := Compensate(w.value, fate);
        }
      }
      if release {
        DriveStep(View(), w.value, fate);
        var released := Call(w.value, fate(AtRelease));
      }
      DriveEnds(View(), w.value, fate);
    }
  }
}
