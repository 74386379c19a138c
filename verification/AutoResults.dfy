/** What the staged auto workflow guarantees over whole runs: bounded automatic repair, and how a finished run can change. */
module AutoResults {
  import opened Options
  import opened Decimal
  import opened AutoTeam
  import opened AutoWorkflow

  /** A handler touches only the run it is for, and never counts a repair. */
  ghost predicate Framed(s: State, t: State, r: nat) {
    && r < |s.runs| && |t.runs| == |s.runs| && |s.agents| <= |t.agents|
    && (forall i: nat :: i < |s.runs| && i != r ==> t.runs[i] == s.runs[i])
    && t.runs[r].begun == s.runs[r].begun
  }

  lemma DevelopFrame(s: State, r: nat, run: Run, codex: bool, lease: bool, packet: bool)
    requires r < |s.runs| && run.begun == s.runs[r].begun
    ensures Framed(s, Develop(s, r, run, codex, lease, packet), r)
    ensures |Develop(s, r, run, codex, lease, packet).agents| == |s.agents| + if lease then 1 else 0
  {}

  lemma SendToFrame(cfg: Config, s: State, r: nat, codex: bool, lease: bool, packet: bool)
    requires r < |s.runs|
    ensures Framed(s, SendToOn(cfg, s, r, codex, lease, packet), r)
  {
    hide Develop, CheckPlan;
    var run := s.runs[r];
    DevelopFrame(s, r, run, codex, lease, packet);
    if run.team.Some? && CheckPlan(cfg.v, run.team.value).Some? {
      DevelopFrame(s, r, run.(team := CheckPlan(cfg.v, run.team.value)), codex, lease, packet);
    }
  }

  lemma RouteDirectFrame(cfg: Config, s: State, r: nat, codex: bool, lease: bool, packet: bool)
    requires r < |s.runs|
    ensures Framed(s, RouteDirectOn(cfg, s, r, codex, lease, packet), r)
  {
    hide SendToOn;
    var drafted := s.runs[r].(status := NeedsUser, stage := DraftReady, planned := s.runs[r].goal);
    SendToFrame(cfg, Put(s, r, drafted), r, codex, lease, packet);
  }

  lemma BeginAuditFrame(s: State, r: nat, run: Run, lease: bool, packet: bool)
    requires r < |s.runs| && run.begun == s.runs[r].begun
    ensures Framed(s, BeginAudit(s, r, run, lease, packet), r)
  {}

  lemma VerifyFrame(cfg: Config, s: State, r: nat, lease: bool, packet: bool)
    requires r < |s.runs|
    ensures Framed(s, VerifyOn(cfg, s, r, lease, packet), r)
  {
    hide BeginAudit, CheckBuild, CheckTests;
    var run := s.runs[r];
    BeginAuditFrame(s, r, run, lease, packet);
    if run.team.Some? && CheckBuild(cfg.v, run.team.value).Some? {
      var tested := CheckTests(cfg.v, CheckBuild(cfg.v, run.team.value).value);
      BeginAuditFrame(s, r, run.(team := tested), lease, packet);
    }
  }

  lemma RowFrame(cfg: Config, run: Run, role: AgentRole, agent: nat, claude: Option<nat>, done: bool, text: string, test: string)
    ensures CodexRow(cfg, run, role, agent, done, text, test).begun == run.begun
    ensures ClaudeDoneRow(cfg, run, claude, text, test).begun == run.begun
  {
    hide Build, Audit, RecordPlan, Testers, FailRunning;
  }

  lemma OnActiveFrame(cfg: Config, s: State, r: nat, step: Step)
    requires r < |s.runs|
    ensures Framed(s, OnActive(cfg, s, r, step), r)
  {
    hide RouteDirectOn, SendToOn, VerifyOn, Develop, CodexRow, ClaudeDoneRow, NewTeam;
    match step
    case RouteDirect(codex, lease, packet) => RouteDirectFrame(cfg, s, r, codex, lease, packet);
    case SendTo(codex, lease, packet) => SendToFrame(cfg, s, r, codex, lease, packet);
    case Verify(lease, packet) => VerifyFrame(cfg, s, r, lease, packet);
    case SendRepair(lease, packet) => DevelopFrame(s, r, s.runs[r], false, lease, packet);
    case ClaudeCompletes(done, text, test) => RowFrame(cfg, s.runs[r], Analysis, 0, s.activeClaude, done, text, test);
    case CodexCompletes(done, text, test) =>
      if s.activeTask.Some? && s.activeTask.value < |s.agents| {
        RowFrame(cfg, s.runs[r], s.agents[s.activeTask.value].role, s.activeTask.value, None, done, text, test);
      }
    case _ =>
  }

  // ---- Automatic repairs ----

  /** The repairs scheduled by run `origin` that start over a whole run: steps without a click that begin an agent run. */
  function UnclickedStarts(cfg: Config, s: State, steps: seq<Step>, origin: nat): nat
    decreases |steps|
  {
    if steps == [] then 0
    else
      var t := Next(cfg, s, steps[0]);
      UnclickedStarts(cfg, t, steps[1..], origin)
      + if steps[0].InternalRepair? && steps[0].origin == origin && |t.agents| > |s.agents| then 1 else 0
  }

  function Begun(s: State, i: nat): nat { if i < |s.runs| then s.runs[i].begun else 0 }

  lemma InternalCounts(cfg: Config, s: State, step: Step, i: nat)
    requires step.InternalRepair?
    ensures var t := Next(cfg, s, step);
            Begun(t, i) == Begun(s, i) + if step.origin == i && |t.agents| > |s.agents| then 1 else 0
  {
    hide LatestActive, Develop;
    var r := LatestActive(s.runs);
    if step.origin < |s.runs| && s.runs[step.origin].pending > 0 && r.Some? {
      var begins := RepairOpen(cfg, s.runs[r.value]) && step.lease;
      var t := Put(s, step.origin, TakeRepair(s.runs[step.origin], begins));
      DevelopFrame(t, r.value, t.runs[r.value], false, step.lease, step.packet);
    }
  }

  lemma StepCounts(cfg: Config, s: State, step: Step, i: nat)
    ensures var t := Next(cfg, s, step);
            Begun(t, i) == Begun(s, i) + if step.InternalRepair? && step.origin == i && |t.agents| > |s.agents| then 1 else 0
  {
    hide OnActive, LatestActive, InternalRepairOn;
    if step.InternalRepair? {
      InternalCounts(cfg, s, step, i);
    } else if LatestActive(s.runs).Some? {
      OnActiveFrame(cfg, s, LatestActive(s.runs).value, step);
    }
  }

  lemma {:induction false} StartsAreCounted(cfg: Config, s: State, steps: seq<Step>, origin: nat)
    ensures Begun(RunAll(cfg, s, steps), origin) == Begun(s, origin) + UnclickedStarts(cfg, s, steps, origin)
    decreases |steps|
  {
    hide Next;
    if steps != [] {
      StepCounts(cfg, s, steps[0], origin);
      StartsAreCounted(cfg, Next(cfg, s, steps[0]), steps[1..], origin);
    }
  }

  /** Over any run whatsoever, the test failures of one team start at most two repairs that nobody clicked for. */
  lemma RepairLoopBounded(cfg: Config, steps: seq<Step>, origin: nat)
    ensures UnclickedStarts(cfg, Initial(), steps, origin) <= MAX_INTERNAL_TEST_ATTEMPTS - 1
  {
    hide RunAll, Next;
    StartsAreCounted(cfg, Initial(), steps, origin);
    InitialInv(cfg);
    RunAllKeeps(cfg, Initial(), steps);
    if origin < |RunAll(cfg, Initial(), steps).runs| {
      RowInv(cfg, RunAll(cfg, Initial(), steps), origin);
    }
  }

  // ---- Who starts a developer ----

  predicate WritesCode(role: AgentRole) { role.Implementation? || role.Takeover? }

  /** The clicks that ask for a developer. */
  predicate AsksForDeveloper(step: Step) { step.RouteDirect? || step.SendTo? || step.SendRepair? || step.TakeOver? }

  function Developers(agents: seq<Agent>): nat {
    if agents == [] then 0 else Developers(agents[..|agents| - 1]) + if WritesCode(agents[|agents| - 1].role) then 1 else 0
  }

  function DeveloperClicks(steps: seq<Step>): nat {
    if steps == [] then 0 else DeveloperClicks(steps[1..]) + if AsksForDeveloper(steps[0]) then 1 else 0
  }

  /** At most one agent run is added, and a developer only if allowed. */
  predicate Hires(agents: seq<Agent>, next: seq<Agent>, allowed: bool) {
    next == agents || (|next| == |agents| + 1 && agents <= next && (WritesCode(next[|agents|].role) ==> allowed))
  }

  lemma HiresCounts(agents: seq<Agent>, next: seq<Agent>, allowed: bool)
    requires Hires(agents, next, allowed)
    ensures Developers(next) <= Developers(agents) + if allowed && |next| > |agents| then 1 else 0
  {
    if next != agents {
      assert next[..|agents|] == agents;
    }
  }

  lemma DevelopHires(s: State, r: nat, run: Run, codex: bool, lease: bool, packet: bool)
    requires r < |s.runs|
    ensures Hires(s.agents, Develop(s, r, run, codex, lease, packet).agents, true)
  {}

  lemma SendToHires(cfg: Config, s: State, r: nat, codex: bool, lease: bool, packet: bool)
    requires r < |s.runs|
    ensures Hires(s.agents, SendToOn(cfg, s, r, codex, lease, packet).agents, true)
  {
    hide Develop, CheckPlan;
    var run := s.runs[r];
    DevelopHires(s, r, run, codex, lease, packet);
    if run.team.Some? {
      DevelopHires(s, r, run.(team := CheckPlan(cfg.v, run.team.value)), codex, lease, packet);
    }
  }

  lemma AuditHires(s: State, r: nat, run: Run, lease: bool, packet: bool)
    requires r < |s.runs|
    ensures Hires(s.agents, BeginAudit(s, r, run, lease, packet).agents, false)
  {}

  lemma VerifyHires(cfg: Config, s: State, r: nat, lease: bool, packet: bool)
    requires r < |s.runs|
    ensures Hires(s.agents, VerifyOn(cfg, s, r, lease, packet).agents, false)
  {
    hide BeginAudit, CheckBuild, CheckTests;
    var run := s.runs[r];
    AuditHires(s, r, run, lease, packet);
    if run.team.Some? && CheckBuild(cfg.v, run.team.value).Some? {
      AuditHires(s, r, run.(team := CheckTests(cfg.v, CheckBuild(cfg.v, run.team.value).value)), lease, packet);
    }
  }

  lemma OnActiveHires(cfg: Config, s: State, r: nat, step: Step)
    requires r < |s.runs|
    ensures Hires(s.agents, OnActive(cfg, s, r, step).agents, AsksForDeveloper(step))
  {
    hide SendToOn, VerifyOn, Develop, CodexRow, ClaudeDoneRow, NewTeam, Wrecked;
    match step
    case RouteDirect(codex, lease, packet) =>
      var drafted := s.runs[r].(status := NeedsUser, stage := DraftReady, planned := s.runs[r].goal);
      SendToHires(cfg, Put(s, r, drafted), r, codex, lease, packet);
    case SendTo(codex, lease, packet) => SendToHires(cfg, s, r, codex, lease, packet);
    case Verify(lease, packet) => VerifyHires(cfg, s, r, lease, packet);
    case SendRepair(lease, packet) => DevelopHires(s, r, s.runs[r], false, lease, packet);
    case _ =>
  }

  lemma StepHires(cfg: Config, s: State, step: Step)
    ensures Hires(s.agents, Next(cfg, s, step).agents, AsksForDeveloper(step) || step.InternalRepair?)
  {
    hide OnActive, LatestActive, Develop;
    var r := LatestActive(s.runs);
    if step.InternalRepair? {
      if step.origin < |s.runs| && s.runs[step.origin].pending > 0 && r.Some? {
        var begins := RepairOpen(cfg, s.runs[r.value]) && step.lease;
        var t := Put(s, step.origin, TakeRepair(s.runs[step.origin], begins));
        DevelopHires(t, r.value, t.runs[r.value], false, step.lease, step.packet);
      }
    } else if r.Some? {
      OnActiveHires(cfg, s, r.value, step);
    }
  }

  function TotalBegun(runs: seq<Run>): nat {
    if runs == [] then 0 else TotalBegun(runs[..|runs| - 1]) + runs[|runs| - 1].begun
  }

  lemma {:induction false} TotalSame(runs: seq<Run>, next: seq<Run>)
    requires |runs| == |next| && forall i: nat :: i < |runs| ==> next[i].begun == runs[i].begun
    ensures TotalBegun(next) == TotalBegun(runs)
  {
    if runs != [] { TotalSame(runs[..|runs| - 1], next[..|next| - 1]); }
  }

  lemma {:induction false} TotalBumped(runs: seq<Run>, next: seq<Run>, k: nat)
    requires |runs| == |next| && k < |runs|
    requires forall i: nat :: i < |runs| ==> next[i].begun == runs[i].begun + if i == k then 1 else 0
    ensures TotalBegun(next) == TotalBegun(runs) + 1
  {
    var n := |runs| - 1;
    if k == n {
      TotalSame(runs[..n], next[..n]);
    } else {
      TotalBumped(runs[..n], next[..n], k);
    }
  }

  lemma {:induction false} TotalBounded(runs: seq<Run>)
    requires forall i: nat :: i < |runs| ==> runs[i].begun < MAX_INTERNAL_TEST_ATTEMPTS
    ensures TotalBegun(runs) <= (MAX_INTERNAL_TEST_ATTEMPTS - 1) * |runs|
  {
    if runs != [] { TotalBounded(runs[..|runs| - 1]); }
  }

  /** A step adds a run only for a new `/auto`, and no step removes one. */
  lemma RunsGrow(cfg: Config, s: State, step: Step)
    ensures var t := Next(cfg, s, step);
            |t.runs| == |s.runs| || (step.StartAuto? && t.agents == s.agents && t.runs == s.runs + [NewRun(step.goal)])
  {
    hide OnActive, LatestActive, Develop;
    var r := LatestActive(s.runs);
    if r.Some? {
      OnActiveFrame(cfg, s, r.value, step);
      if step.InternalRepair? && step.origin < |s.runs| && s.runs[step.origin].pending > 0 {
        var t := Put(s, step.origin, TakeRepair(s.runs[step.origin], RepairOpen(cfg, s.runs[r.value]) && step.lease));
        DevelopFrame(t, r.value, t.runs[r.value], false, step.lease, step.packet);
      }
    }
  }

  lemma StepTotals(cfg: Config, s: State, step: Step)
    ensures var t := Next(cfg, s, step);
            TotalBegun(t.runs) >= TotalBegun(s.runs) + if step.InternalRepair? && |t.agents| > |s.agents| then 1 else 0
  {
    hide Next, TotalBegun;
    var t := Next(cfg, s, step);
    RunsGrow(cfg, s, step);
    if |t.runs| != |s.runs| {
      AddedRun(s.runs, t.runs[|s.runs|]);
    } else {
      forall i: nat | i < |s.runs|
        ensures t.runs[i].begun == s.runs[i].begun + if step.InternalRepair? && step.origin == i && |t.agents| > |s.agents| then 1 else 0 {
        StepCounts(cfg, s, step, i);
      }
      if step.InternalRepair? && |t.agents| > |s.agents| {
        KnownOrigin(cfg, s, step);
        TotalBumped(s.runs, t.runs, step.origin);
      } else {
        TotalSame(s.runs, t.runs);
      }
    }
  }

  lemma AddedRun(runs: seq<Run>, run: Run)
    ensures TotalBegun(runs + [run]) >= TotalBegun(runs)
  {
    assert (runs + [run])[..|runs|] == runs;
  }

  lemma KnownOrigin(cfg: Config, s: State, step: Step)
    requires step.InternalRepair? && |Next(cfg, s, step).agents| > |s.agents|
    ensures step.origin < |s.runs|
  {
    hide InternalRepairOn, LatestActive;
  }

  lemma {:induction false} DevelopersCounted(cfg: Config, s: State, steps: seq<Step>)
    ensures Developers(RunAll(cfg, s, steps).agents) + TotalBegun(s.runs)
              <= Developers(s.agents) + DeveloperClicks(steps) + TotalBegun(RunAll(cfg, s, steps).runs)
    decreases |steps|
  {
    hide Next, Hires, Developers, TotalBegun;
    if steps != [] {
      var t := Next(cfg, s, steps[0]);
      StepHires(cfg, s, steps[0]);
      HiresCounts(s.agents, t.agents, AsksForDeveloper(steps[0]) || steps[0].InternalRepair?);
      StepTotals(cfg, s, steps[0]);
      DevelopersCounted(cfg, t, steps[1..]);
    }
  }

  /**
   A developer starts only because somebody clicked for one, apart from the bounded automatic repairs: over any run
   there are at most as many developer agent runs as clicks asking for one, plus two for each `/auto` run.
   */
  lemma DevelopersNeedClicks(cfg: Config, steps: seq<Step>)
    ensures var s := RunAll(cfg, Initial(), steps);
            Developers(s.agents) <= DeveloperClicks(steps) + (MAX_INTERNAL_TEST_ATTEMPTS - 1) * |s.runs|
  {
    hide RunAll, Next;
    var s := RunAll(cfg, Initial(), steps);
    DevelopersCounted(cfg, Initial(), steps);
    InitialInv(cfg);
    RunAllKeeps(cfg, Initial(), steps);
    forall i: nat | i < |s.runs| ensures s.runs[i].begun < MAX_INTERNAL_TEST_ATTEMPTS {
      RowInv(cfg, s, i);
    }
    TotalBounded(s.runs);
  }

  // ---- Finished runs ----

  /** The step is the failure of a launch made for run `i`, still awaited. */
  predicate LateFailure(s: State, step: Step, i: nat) {
    step.LaunchReturns? && !step.ok && step.launch < |s.launches| && s.launches[step.launch].waiting && s.launches[step.launch].run == i
  }

  /** A finished run changes status exactly when a launch made for it fails late, and then it becomes failed. */
  lemma FinishedStaysFinished(cfg: Config, s: State, step: Step, i: nat)
    requires i < |s.runs| && !Active(s.runs[i])
    ensures var t := Next(cfg, s, step);
            && i < |t.runs| && !Active(t.runs[i])
            && (t.runs[i].status != s.runs[i].status <==> LateFailure(s, step, i) && !s.runs[i].status.Failed?)
            && (LateFailure(s, step, i) ==> t.runs[i].status.Failed?)
  {
    hide OnActive, LatestActive, Develop;
    var r := LatestActive(s.runs);
    if r.Some? {
      if step.InternalRepair? {
        if step.origin < |s.runs| && s.runs[step.origin].pending > 0 {
          var begins := RepairOpen(cfg, s.runs[r.value]) && step.lease;
          var t := Put(s, step.origin, TakeRepair(s.runs[step.origin], begins));
          DevelopFrame(t, r.value, t.runs[r.value], false, step.lease, step.packet);
        }
      } else {
        OnActiveFrame(cfg, s, r.value, step);
      }
    }
  }

  /** So a run over states: once finished, never active again. */
  lemma {:induction false} NeverReopened(cfg: Config, s: State, steps: seq<Step>, i: nat)
    requires i < |s.runs| && !Active(s.runs[i])
    ensures var t := RunAll(cfg, s, steps); i < |t.runs| && !Active(t.runs[i])
    ensures s.runs[i].status.Failed? ==> RunAll(cfg, s, steps).runs[i].status.Failed?
    decreases |steps|
  {
    hide Next;
    if steps != [] {
      FinishedStaysFinished(cfg, s, steps[0], i);
      NeverReopened(cfg, Next(cfg, s, steps[0]), steps[1..], i);
    }
  }

  /** A cancelled run does not stay cancelled when the launch it was waiting for fails afterwards. */
  lemma CancelledThenFailed(cfg: Config, route: Route)
    ensures var s := RunAll(cfg, Initial(), [StartAuto(true), RouteAnalysis(route, true, true), Cancel]);
            && |s.runs| == 1 && s.runs[0].status.Aborted?
            && Next(cfg, s, LaunchReturns(0, false)).runs[0].status.Failed?
  {
    hide NewTeam, FailJob, RunAll, RouteAnalysisOn, LatestActive, Next;
    StartsRun(cfg);
    var a := State([NewRun(true)], [], None, None, []);
    var b := RouteAnalysisOn(cfg, a, 0, route, true, true);
    RoutesRun(cfg, a, route);
    var c := Next(cfg, b, Cancel);
    CancelsRun(cfg, b);
    LaunchFails(cfg, c);
    ThreeSteps(cfg, Initial(), StartAuto(true), RouteAnalysis(route, true, true), Cancel);
  }

  lemma StartsRun(cfg: Config)
    ensures Next(cfg, Initial(), StartAuto(true)) == State([NewRun(true)], [], None, None, [])
  {}

  lemma RoutesRun(cfg: Config, s: State, route: Route)
    requires s == State([NewRun(true)], [], None, None, [])
    ensures var t := RouteAnalysisOn(cfg, s, 0, route, true, true);
            && Next(cfg, s, RouteAnalysis(route, true, true)) == t
            && |t.runs| == 1 && Active(t.runs[0]) && t.launches == [Launch(0, t.launches[0].job, true)]
  {
    hide NewTeam, LatestActive, Next;
    SoleRun(cfg, s, RouteAnalysis(route, true, true));
  }

  lemma CancelsRun(cfg: Config, s: State)
    requires |s.runs| == 1 && Active(s.runs[0])
    ensures Next(cfg, s, Cancel) == Put(s, 0, s.runs[0].(status := Aborted, stage := Completed))
  {
    SoleRun(cfg, s, Cancel);
  }

  lemma LaunchFails(cfg: Config, s: State)
    requires |s.runs| == 1 && |s.launches| == 1 && s.launches[0].waiting && s.launches[0].run == 0
    ensures |Next(cfg, s, LaunchReturns(0, false)).runs| == 1 && Next(cfg, s, LaunchReturns(0, false)).runs[0].status.Failed?
  {
    hide LatestActive, FailJob;
  }

  lemma OneStep(cfg: Config, s: State, step: Step)
    ensures RunAll(cfg, s, [step]) == Next(cfg, s, step)
  {
    hide Next;
    assert RunAll(cfg, Next(cfg, s, step), []) == Next(cfg, s, step);
  }

  lemma ThreeSteps(cfg: Config, s: State, first: Step, second: Step, third: Step)
    ensures RunAll(cfg, s, [first, second, third]) == Next(cfg, Next(cfg, Next(cfg, s, first), second), third)
  {
    hide Next;
    assert [first, second, third][1..] == [second, third];
    assert [second, third][1..] == [third];
    OneStep(cfg, Next(cfg, Next(cfg, s, first), second), third);
  }

  lemma {:induction false} RunSplit(cfg: Config, s: State, first: seq<Step>, second: seq<Step>)
    ensures RunAll(cfg, s, first + second) == RunAll(cfg, RunAll(cfg, s, first), second)
    decreases |first|
  {
    hide Next;
    if first == [] {
      assert first + second == second;
    } else {
      assert (first + second)[0] == first[0] && (first + second)[1..] == first[1..] + second;
      RunSplit(cfg, Next(cfg, s, first[0]), first[1..], second);
    }
  }

  // ---- Which tests an audit rests on ----

  /** Gate C reads the newest tester exactly when that tester is done; otherwise it falls back to an older round. */
  lemma GateCReads(v: Validators, t: Team)
    requires TeamInv(v, t) && CheckTests(v, t).Some?
    ensures LatestJob(t.jobs, Tester, None).Some?
    ensures var newest := LatestJob(t.jobs, Tester, None).value;
            var used := CheckTests(v, t).value.gates[|t.gates|].job;
            && used.Some? && used.value <= newest && used.value < |t.jobs| && t.jobs[used.value].role.Tester?
            && (used.value == newest <==> t.jobs[newest].status.JobDone?)
  {
    hide TeamInv, LatestArtifact;
    TestedIsTester(v, t);
  }

  // The run of a passing round, a repair whose tests fail, and an audit.

  function Planned(): seq<Step> {
    [StartAuto(true), RouteAnalysis(Feature, true, true), CodexCompletes(true, "notes", "")]
    + [MakePlan(false, true), CodexCompletes(true, "plan", ""), SendTo(false, true, true)]
  }

  function Story(): seq<Step> {
    Planned() + [ClaudeCompletes(true, "code", "good"), SendRepair(true, true), ClaudeCompletes(true, "code", "bad")]
  }

  const ARCHITECTED: Job := Job(Architect, JobDone, 0)
  const ROUTED: Artifact := Artifact(RoutingDecision, Some(0), "")
  const PLAN_REPORT: Artifact := Artifact(ArchitecturePlan, Some(0), "plan")
  const PLAN_GATE: GatePass := GatePass(GateA, 1, None, [ARCHITECTED])

  function TeamAtSend(): Team {
    Team(TeamActive, Feature, [ARCHITECTED, Job(Implementer, JobRunning, 2)], [ROUTED, PLAN_REPORT], [PLAN_GATE])
  }

  function TeamTested(): Team {
    Team(TeamActive, Feature, [ARCHITECTED, Job(Implementer, JobDone, 2), Job(Tester, JobDone, 2)],
         [ROUTED, PLAN_REPORT, Artifact(ImplementationReport, Some(1), "code"), Artifact(TestReport, Some(2), "good")], [PLAN_GATE])
  }

  function TeamUntested(): Team {
    Team(TeamActive, Feature,
         [ARCHITECTED, Job(Implementer, JobDone, 2), Job(Tester, JobDone, 2), Job(Implementer, JobDone, 3), Job(Tester, JobFailed, 3)],
         [ROUTED, PLAN_REPORT, Artifact(ImplementationReport, Some(1), "code"), Artifact(TestReport, Some(2), "good"),
          Artifact(ImplementationReport, Some(3), "code"), Artifact(TestReport, Some(4), "bad")], [PLAN_GATE])
  }

  predicate Told(cfg: Config) {
    cfg.teams && cfg.claude && cfg.v.plan("plan") && cfg.v.implementation("code") && cfg.v.test("good") && !cfg.v.test("bad")
  }

  lemma FirstRound(v: Validators)
    requires v.test("good")
    ensures Build(v, TeamAtSend(), 2, "code", "good", false) == Built(TeamTested(), Some(true))
  {
    var t := TeamAtSend();
    assert RunningJob(t.jobs, Implementer, 2, 0) == Some(1);
    var b := Report(v, t, 1, "code", "good", false);
    assert b.team.jobs == [ARCHITECTED, Job(Implementer, JobRunning, 2), Job(Tester, JobDone, 2)];
    assert b.team.artifacts == TeamTested().artifacts;
  }

  lemma SecondRound(v: Validators)
    requires !v.test("bad")
    ensures Build(v, AddJob(TeamTested(), Implementer, 3), 3, "code", "bad", false) == Built(TeamUntested(), Some(false))
  {
    var t := AddJob(TeamTested(), Implementer, 3);
    assert t.jobs[3] == Job(Implementer, JobRunning, 3);
    assert RunningJob(t.jobs, Implementer, 3, 0) == Some(3);
    var b := Report(v, t, 3, "code", "bad", false);
    assert b.team.jobs == [ARCHITECTED, Job(Implementer, JobDone, 2), Job(Tester, JobDone, 2), Job(Implementer, JobRunning, 3), Job(Tester, JobFailed, 3)];
    assert b.team.artifacts == TeamUntested().artifacts;
  }

  /** Audit gates on the second round: B reads the new implementation, C the old tests. */
  lemma GatesOnSecondRound(v: Validators)
    requires v.implementation("code") && v.test("good")
    ensures CheckBuild(v, TeamUntested()) == Some(LogGate(TeamUntested(), GateB, 4, Some(3)))
    ensures CheckTests(v, LogGate(TeamUntested(), GateB, 4, Some(3))) ==
              Some(LogGate(LogGate(TeamUntested(), GateB, 4, Some(3)), GateC, 3, Some(2)))
  {
    hide LatestJob, LatestArtifact;
    var t := TeamUntested();
    assert t.jobs[3] == Job(Implementer, JobDone, 3) && t.jobs[2] == Job(Tester, JobDone, 2);
    assert LatestJob(t.jobs, Implementer, Some(JobDone)) == Some(3);
    assert LatestJob(t.jobs, Tester, Some(JobDone)) == Some(2);
    assert Fits(t.artifacts[4], ImplementationReport, Some(3)) && Fits(t.artifacts[3], TestReport, Some(2));
    assert LatestArtifact(t.artifacts, ImplementationReport, Some(3)) == Some(4);
    assert LatestArtifact(t.artifacts, TestReport, Some(2)) == Some(3);
  }

  lemma PlanOnTeam(v: Validators)
    requires v.plan("plan")
    ensures var t := Team(TeamActive, Feature, [ARCHITECTED], [ROUTED, PLAN_REPORT], []);
            && RecordPlan(NewTeam(Feature, 0), 1, "plan") == t
            && CheckPlan(v, t) == Some(t.(gates := [PLAN_GATE]))
            && AddJob(t.(gates := [PLAN_GATE]), Implementer, 2) == TeamAtSend()
  {
    hide LatestJob, LatestArtifact, RunningJob, JobOf, Strip;
    StripPlain("plan");
    var n := NewTeam(Feature, 0);
    assert n.jobs[0] == Job(Architect, JobRunning, 0);
    assert LatestJob(n.jobs, Architect, Some(JobRunning)) == Some(0);
    assert RunningJob(n.jobs, Architect, 1, 0) == None;
    assert JobOf(n.jobs, Architect, 1, 0) == None;
    assert PlanJob(n, 1) == Some(0);
    var t := Team(TeamActive, Feature, [ARCHITECTED], [ROUTED, PLAN_REPORT], []);
    assert AddArtifact(n, ArchitecturePlan, Some(0), "plan").artifacts == t.artifacts;
    assert SetJob(AddArtifact(n, ArchitecturePlan, Some(0), "plan"), 0, JobDone).jobs == t.jobs;
    assert Fits(t.artifacts[1], ArchitecturePlan, None);
    assert LatestArtifact(t.artifacts, ArchitecturePlan, None) == Some(1);
    assert LogGate(t, GateA, 1, None).gates == [PLAN_GATE];
  }

  lemma SoleRun(cfg: Config, s: State, step: Step)
    requires |s.runs| == 1 && Active(s.runs[0])
    requires !(step.StartAuto? || step.OtherTask? || step.DirectClaude? || step.LaunchReturns? || step.InternalRepair?)
    ensures Next(cfg, s, step) == OnActive(cfg, s, 0, step)
  {
    hide LatestActive, OnActive;
    assert Active(s.runs[0]);
    assert LatestActive(s.runs) == Some(0);
  }

  const CREW: seq<Agent> :=
    [Agent(Analysis, 0, true), Agent(FinalPlan, 0, true), Agent(Implementation, 0, false), Agent(Implementation, 0, false)]

  /** The story's state with `n` agent runs behind it. */
  function Scene(status: Status, stage: Stage, planned: bool, team: Team, scheduled: nat, n: nat): State
    requires 1 <= n <= |CREW|
  {
    State([Run(status, stage, true, planned, Some(team), scheduled, scheduled, 0)], CREW[..n], Some(n - 1),
          if n > 2 then Some(n - 1) else None, [Launch(0, Some(0), true)])
  }

  lemma SceneRoute(cfg: Config)
    requires Told(cfg)
    ensures Next(cfg, State([NewRun(true)], [], None, None, []), RouteAnalysis(Feature, true, true))
              == Scene(Running, CollectingContext, false, NewTeam(Feature, 0), 0, 1)
  {
    hide NewTeam;
    var s := State([NewRun(true)], [], None, None, []);
    SoleRun(cfg, s, RouteAnalysis(Feature, true, true));
    assert CREW[..1] == [Agent(Analysis, 0, true)];
  }

  /** A text that neither begins nor ends with a blank is its own trimmed form. */
  lemma StripPlain(s: string)
    requires s != "" && !IsSpace(s[0]) && !IsSpace(s[|s| - 1])
    ensures Strip(s) == s
  {}

  lemma SceneNotes(cfg: Config)
    ensures Next(cfg, Scene(Running, CollectingContext, false, NewTeam(Feature, 0), 0, 1), CodexCompletes(true, "notes", ""))
              == Scene(NeedsUser, CollectingContext, true, NewTeam(Feature, 0), 0, 1)
  {
    hide NewTeam, Strip;
    StripPlain("notes");
    SoleRun(cfg, Scene(Running, CollectingContext, false, NewTeam(Feature, 0), 0, 1), CodexCompletes(true, "notes", ""));
  }

  lemma ScenePlan(cfg: Config)
    ensures Next(cfg, Scene(NeedsUser, CollectingContext, true, NewTeam(Feature, 0), 0, 1), MakePlan(false, true))
              == Scene(Running, CollectingContext, true, NewTeam(Feature, 0), 0, 2)
  {
    hide NewTeam;
    SoleRun(cfg, Scene(NeedsUser, CollectingContext, true, NewTeam(Feature, 0), 0, 1), MakePlan(false, true));
    assert CREW[..2] == CREW[..1] + [Agent(FinalPlan, 0, true)];
  }

  lemma SceneDraft(cfg: Config, t: Team)
    requires RecordPlan(NewTeam(Feature, 0), 1, "plan") == t
    ensures Next(cfg, Scene(Running, CollectingContext, true, NewTeam(Feature, 0), 0, 2), CodexCompletes(true, "plan", ""))
              == Scene(NeedsUser, DraftReady, true, t, 0, 2)
  {
    hide NewTeam, RecordPlan, Strip;
    StripPlain("plan");
    SoleRun(cfg, Scene(Running, CollectingContext, true, NewTeam(Feature, 0), 0, 2), CodexCompletes(true, "plan", ""));
  }

  lemma SceneSend(cfg: Config, t: Team, gated: Team)
    requires Told(cfg) && CheckPlan(cfg.v, t) == Some(gated)
    ensures Next(cfg, Scene(NeedsUser, DraftReady, true, t, 0, 2), SendTo(false, true, true))
              == Scene(Running, ClaudeRunning, true, AddJob(gated, Implementer, 2), 0, 3)
  {
    hide CheckPlan, AddJob;
    SoleRun(cfg, Scene(NeedsUser, DraftReady, true, t, 0, 2), SendTo(false, true, true));
    assert CREW[..3] == CREW[..2] + [Agent(Implementation, 0, false)];
  }

  lemma SceneBuilt(cfg: Config, t: Team, b: Built, test: string, n: nat)
    requires 3 <= n <= 4 && Build(cfg.v, t, n - 1, "code", test, false) == b && b.passed == Some(test == "good")
    requires !b.passed.value ==> Testers(b.team.jobs) < MAX_INTERNAL_TEST_ATTEMPTS
    ensures Next(cfg, Scene(Running, ClaudeRunning, true, t, 0, n), ClaudeCompletes(true, "code", test))
              == if test == "good" then Scene(NeedsUser, ClaudeDone, true, b.team, 0, n) else Scene(NeedsUser, RetryReady, true, b.team, 1, n)
  {
    hide Build, Testers;
    SoleRun(cfg, Scene(Running, ClaudeRunning, true, t, 0, n), ClaudeCompletes(true, "code", test));
  }

  lemma SceneRepair(cfg: Config, t: Team)
    requires Told(cfg)
    ensures Next(cfg, Scene(NeedsUser, ClaudeDone, true, t, 0, 3), SendRepair(true, true))
              == Scene(Running, ClaudeRunning, true, AddJob(t, Implementer, 3), 0, 4)
  {
    hide AddJob;
    SoleRun(cfg, Scene(NeedsUser, ClaudeDone, true, t, 0, 3), SendRepair(true, true));
    assert CREW[..4] == CREW[..3] + [Agent(Implementation, 0, false)];
  }

  lemma StoryReaches(cfg: Config)
    requires Told(cfg)
    ensures RunAll(cfg, Initial(), Story()) == Scene(NeedsUser, RetryReady, true, TeamUntested(), 1, 4)
  {
    hide RunAll, Next, Scene, Build, CheckPlan, RecordPlan, AddJob, Testers;
    StartsRun(cfg);
    SceneRoute(cfg);
    SceneNotes(cfg);
    ThreeSteps(cfg, Initial(), StartAuto(true), RouteAnalysis(Feature, true, true), CodexCompletes(true, "notes", ""));
    var t := Team(TeamActive, Feature, [ARCHITECTED], [ROUTED, PLAN_REPORT], []);
    PlanOnTeam(cfg.v);
    ScenePlan(cfg);
    SceneDraft(cfg, t);
    SceneSend(cfg, t, t.(gates := [PLAN_GATE]));
    var noted := Scene(NeedsUser, CollectingContext, true, NewTeam(Feature, 0), 0, 1);
    ThreeSteps(cfg, noted, MakePlan(false, true), CodexCompletes(true, "plan", ""), SendTo(false, true, true));
    FirstRound(cfg.v);
    SceneBuilt(cfg, TeamAtSend(), Built(TeamTested(), Some(true)), "good", 3);
    SceneRepair(cfg, TeamTested());
    SecondRound(cfg.v);
    TwoTesters();
    SceneBuilt(cfg, AddJob(TeamTested(), Implementer, 3), Built(TeamUntested(), Some(false)), "bad", 4);
    var sent := Scene(Running, ClaudeRunning, true, TeamAtSend(), 0, 3);
    ThreeSteps(cfg, sent, ClaudeCompletes(true, "code", "good"), SendRepair(true, true), ClaudeCompletes(true, "code", "bad"));
    RunSplit(cfg, Initial(), [StartAuto(true), RouteAnalysis(Feature, true, true), CodexCompletes(true, "notes", "")],
             [MakePlan(false, true), CodexCompletes(true, "plan", ""), SendTo(false, true, true)]);
    RunSplit(cfg, Initial(), Planned(),
             [ClaudeCompletes(true, "code", "good"), SendRepair(true, true), ClaudeCompletes(true, "code", "bad")]);
  }

  lemma TwoTesters()
    ensures Testers(TeamUntested().jobs) == 2
  {
    var jobs := TeamUntested().jobs;
    assert jobs[..0] == [];
    assert jobs[..1][..0] == jobs[..0] && jobs[..2][..1] == jobs[..1] && jobs[..3][..2] == jobs[..2] && jobs[..4][..3] == jobs[..3];
    assert Testers(jobs[..1]) == 0;
    assert Testers(jobs[..2]) == 0;
    assert Testers(jobs[..3]) == 1;
    assert Testers(jobs[..4]) == 1;
  }

  /**
   The audit does not always rest on tests of the current round: in a reachable state the newest implementation, whose
   own tests failed, passes Gates B and C on the test report of the round before, and an audit begins.
   */
  lemma OlderTestsCarryTheAudit(cfg: Config)
    requires Told(cfg)
    ensures var s := Next(cfg, RunAll(cfg, Initial(), Story()), Verify(true, true));
            && |s.runs| == 1 && s.runs[0].stage.Verifying? && s.runs[0].team.Some?
            && var t := s.runs[0].team.value;
               && |t.jobs| == 6 && t.jobs[5].role.Auditor?
               && t.jobs[3] == Job(Implementer, JobDone, 3) && t.jobs[4] == Job(Tester, JobFailed, 3)
               && |t.gates| == 3 && t.gates[1].job == Some(3) && t.gates[2].job == Some(2)
  {
    hide RunAll, CheckBuild, CheckTests;
    StoryReaches(cfg);
    var s := Scene(NeedsUser, RetryReady, true, TeamUntested(), 1, 4);
    SoleRun(cfg, s, Verify(true, true));
    GatesOnSecondRound(cfg.v);
  }
}
