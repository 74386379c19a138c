/**
 Which implementation the tests of an audit belong to.  Every done implementer of an active run is followed by its own
 tester; so Gate C reads the tests of the implementation under audit exactly when the newest tester is done.
 */
module AutoRounds {
  import opened Options
  import opened Decimal
  import opened AutoTeam
  import opened AutoWorkflow

  /** Implementer jobs belong to agent runs in the order they started. */
  predicate Ordered(jobs: seq<Job>, agents: nat) {
    && (forall j: nat :: j < |jobs| ==> jobs[j].agent < agents)
    && (forall i: nat, j: nat :: i < j < |jobs| && jobs[i].role.Implementer? && jobs[j].role.Implementer? ==> jobs[i].agent < jobs[j].agent)
  }

  /** Testers are pairwise of different agent runs, and each follows a done implementer of its own. */
  ghost predicate Followed(jobs: seq<Job>) {
    && (forall i: nat, j: nat :: i < j < |jobs| && jobs[i].role.Tester? && jobs[j].role.Tester? ==> jobs[i].agent != jobs[j].agent)
    && (forall k: nat :: k < |jobs| && jobs[k].role.Tester? ==> HasDone(jobs, jobs[k].agent))
  }

  ghost predicate HasDone(jobs: seq<Job>, agent: nat) {
    exists j: nat :: j < |jobs| && jobs[j] == Job(Implementer, JobDone, agent)
  }

  /** The newest done implementer, if any, has the newest tester. */
  predicate Paired(jobs: seq<Job>) {
    var built := LatestJob(jobs, Implementer, Some(JobDone));
    built.Some? ==>
      LatestJob(jobs, Tester, None).Some? && jobs[LatestJob(jobs, Tester, None).value].agent == jobs[built.value].agent
  }

  predicate Closed(jobs: seq<Job>, job: Option<nat>) { job.Some? && job.value < |jobs| ==> !jobs[job.value].status.JobRunning? }

  /** A job with an implementation report is not running. */
  predicate Reported(t: Team) {
    forall i: nat :: i < |t.artifacts| && t.artifacts[i].kind.ImplementationReport? ==> Closed(t.jobs, t.artifacts[i].job)
  }

  predicate ReportsKnown(t: Team) {
    forall i: nat :: i < |t.artifacts| && (t.artifacts[i].kind.ImplementationReport? || t.artifacts[i].kind.TestReport?) ==>
      t.artifacts[i].job.Some? && t.artifacts[i].job.value < |t.jobs|
  }

  ghost predicate TeamRounds(t: Team, agents: nat) {
    Ordered(t.jobs, agents) && Followed(t.jobs) && Paired(t.jobs) && Reported(t) && ReportsKnown(t)
  }

  /** Claude's job is running only in the stage for it, and no Codex work is the active task then. */
  predicate ClaudeFits(s: State, run: Run)
    requires run.team.Some?
  {
    s.activeClaude.Some? && RunningJob(run.team.value.jobs, Implementer, s.activeClaude.value, 0).Some? ==>
      && run.stage.ClaudeRunning? && (s.activeTask.None? || s.activeTask == s.activeClaude)
      && Newest(run.team.value.jobs, s.activeClaude.value)
  }

  /** Every implementer job of another agent run is older. */
  predicate Newest(jobs: seq<Job>, agent: nat) {
    forall j: nat :: j < |jobs| && jobs[j].role.Implementer? ==> jobs[j].agent <= agent
  }

  ghost predicate RunRounds(s: State, run: Run) {
    Active(run) && run.team.Some? ==> TeamRounds(run.team.value, |s.agents|) && ClaudeFits(s, run)
  }

  ghost predicate Rounds(s: State) {
    && (forall i: nat :: i < |s.runs| ==> RunRounds(s, s.runs[i]))
    && (s.activeTask.Some? ==> s.activeTask.value == |s.agents| - 1 && s.agents != [])
    && (s.activeClaude.Some? ==> s.activeClaude.value < |s.agents| && !s.agents[s.activeClaude.value].codex)
  }

  // ---- What keeps a team's rounds ----

  /** The jobs that matter here, and the reports on them, are the same. */
  ghost predicate SameRounds(t: Team, u: Team) {
    && |t.jobs| <= |u.jobs|
    && (forall j: nat :: j < |t.jobs| ==> u.jobs[j].role == t.jobs[j].role && u.jobs[j].agent == t.jobs[j].agent)
    && (forall j: nat :: j < |t.jobs| && (t.jobs[j].role.Implementer? || t.jobs[j].role.Tester?) ==> u.jobs[j] == t.jobs[j])
    && (forall j: nat :: |t.jobs| <= j < |u.jobs| ==> !u.jobs[j].role.Implementer? && !u.jobs[j].role.Tester?)
    && |t.artifacts| <= |u.artifacts| && t.artifacts == u.artifacts[..|t.artifacts|]
    && (forall i: nat :: |t.artifacts| <= i < |u.artifacts| ==>
          !u.artifacts[i].kind.ImplementationReport? && !u.artifacts[i].kind.TestReport?)
  }

  lemma SameLatest(jobs: seq<Job>, next: seq<Job>, role: JobRole, status: Option<JobStatus>)
    requires |jobs| <= |next| && (role.Implementer? || role.Tester?)
    requires forall j: nat :: j < |jobs| && (jobs[j].role == role || next[j].role == role) ==> next[j] == jobs[j]
    requires forall j: nat :: |jobs| <= j < |next| ==> next[j].role != role
    ensures LatestJob(next, role, status) == LatestJob(jobs, role, status)
  {
    hide LatestJob;
    var a, b := LatestJob(jobs, role, status), LatestJob(next, role, status);
    if a.Some? { assert next[a.value] == jobs[a.value]; }
    if b.Some? { assert b.value < |jobs| && next[b.value] == jobs[b.value]; }
  }

  lemma SamePaired(t: Team, u: Team)
    requires SameRounds(t, u)
    ensures Paired(u.jobs) == Paired(t.jobs)
  {
    hide LatestJob;
    SameLatest(t.jobs, u.jobs, Implementer, Some(JobDone));
    SameLatest(t.jobs, u.jobs, Tester, None);
  }

  lemma SameFollowed(t: Team, u: Team)
    requires SameRounds(t, u) && Followed(t.jobs)
    ensures Followed(u.jobs)
  {
    forall k: nat | k < |u.jobs| && u.jobs[k].role.Tester? ensures HasDone(u.jobs, u.jobs[k].agent) {
      assert HasDone(t.jobs, t.jobs[k].agent);
      var j: nat :| j < |t.jobs| && t.jobs[j] == Job(Implementer, JobDone, t.jobs[k].agent);
      assert u.jobs[j] == t.jobs[j];
    }
  }

  lemma SameReported(t: Team, u: Team)
    requires SameRounds(t, u) && Reported(t) && ReportsKnown(t)
    requires forall j: nat :: j < |t.jobs| && u.jobs[j].status.JobRunning? ==> t.jobs[j].status.JobRunning?
    ensures Reported(u) && ReportsKnown(u)
  {
    forall i: nat | i < |u.artifacts| && (u.artifacts[i].kind.ImplementationReport? || u.artifacts[i].kind.TestReport?)
      ensures u.artifacts[i].job.Some? && u.artifacts[i].job.value < |t.jobs| && i < |t.artifacts| && u.artifacts[i] == t.artifacts[i] {
      assert i < |t.artifacts|;
      assert u.artifacts[i] == u.artifacts[..|t.artifacts|][i];
    }
  }

  /** Nothing but new jobs of other roles, closed jobs and other artifacts. */
  lemma SameKeeps(t: Team, u: Team, agents: nat, more: nat)
    requires TeamRounds(t, agents) && SameRounds(t, u) && agents <= more
    requires forall j: nat :: |t.jobs| <= j < |u.jobs| ==> u.jobs[j].agent < more
    requires forall j: nat :: j < |t.jobs| && u.jobs[j].status.JobRunning? ==> t.jobs[j].status.JobRunning?
    ensures TeamRounds(u, more)
  {
    hide Paired;
    SamePaired(t, u);
    SameFollowed(t, u);
    SameReported(t, u);
  }

  lemma AddImplementerKeeps(t: Team, agents: nat)
    requires TeamRounds(t, agents)
    ensures var u := AddJob(t, Implementer, agents); TeamRounds(u, agents + 1) && Newest(u.jobs, agents)
  {
    hide Paired, Followed;
    JoinPaired(t.jobs, agents);
    JoinFollowed(t.jobs, agents);
  }

  lemma JoinPaired(jobs: seq<Job>, agent: nat)
    requires Paired(jobs)
    ensures Paired(jobs + [Job(Implementer, JobRunning, agent)])
  {
    var next := jobs + [Job(Implementer, JobRunning, agent)];
    assert next[..|jobs|] == jobs;
  }

  lemma JoinFollowed(jobs: seq<Job>, agent: nat)
    requires Followed(jobs)
    ensures Followed(jobs + [Job(Implementer, JobRunning, agent)])
  {
    var next := jobs + [Job(Implementer, JobRunning, agent)];
    forall k: nat | k < |next| && next[k].role.Tester? ensures HasDone(next, next[k].agent) {
      assert HasDone(jobs, jobs[k].agent);
      var j: nat :| j < |jobs| && jobs[j] == Job(Implementer, JobDone, jobs[k].agent);
      assert next[j] == jobs[j];
    }
  }

  // ---- A build ----

  /** What a build on a running, unreported job does to the team. */
  predicate BuiltOn(t: Team, u: Team, j: nat, status: JobStatus)
    requires j < |t.jobs|
  {
    && u.jobs == t.jobs[j := t.jobs[j].(status := JobDone)] + [Job(Tester, status, t.jobs[j].agent)]
    && |u.artifacts| == |t.artifacts| + 2 && u.artifacts[..|t.artifacts|] == t.artifacts
    && u.artifacts[|t.artifacts|].kind.ImplementationReport? && u.artifacts[|t.artifacts|].job == Some(j)
    && u.artifacts[|t.artifacts| + 1].kind.TestReport? && u.artifacts[|t.artifacts| + 1].job == Some(|t.jobs|)
    && !status.JobRunning?
  }

  lemma NoTesterYet(t: Team, agents: nat, j: nat)
    requires TeamRounds(t, agents) && j < |t.jobs| && t.jobs[j].role.Implementer? && t.jobs[j].status.JobRunning?
    ensures forall k: nat :: k < |t.jobs| && t.jobs[k].role.Tester? ==> t.jobs[k].agent != t.jobs[j].agent
  {
    hide Paired;
    forall k: nat | k < |t.jobs| && t.jobs[k].role.Tester? ensures t.jobs[k].agent != t.jobs[j].agent {
      assert HasDone(t.jobs, t.jobs[k].agent);
      var i: nat :| i < |t.jobs| && t.jobs[i] == Job(Implementer, JobDone, t.jobs[k].agent);
      assert i != j;
    }
  }

  lemma BuildExplicit(v: Validators, t: Team, agents: nat, agent: nat, implementation: string, test: string, reuse: bool)
    requires TeamRounds(t, agents) && RunningJob(t.jobs, Implementer, agent, 0).Some?
    ensures var j := RunningJob(t.jobs, Implementer, agent, 0).value;
            var b := Build(v, t, agent, implementation, test, reuse);
            && BuiltOn(t, b.team, j, if v.test(test) then JobDone else JobFailed) && b.passed == Some(v.test(test))
  {
    hide RunningJob, Paired, Ordered, Followed;
    var j := RunningJob(t.jobs, Implementer, agent, 0).value;
    NoTesterYet(t, agents, j);
    assert JobOf(t.jobs, Tester, agent, 0).None?;
    ReportExplicit(v, t, j, implementation, test, reuse);
  }

  lemma ReportExplicit(v: Validators, t: Team, j: nat, implementation: string, test: string, reuse: bool)
    requires j < |t.jobs| && ReportsKnown(t) && JobOf(t.jobs, Tester, t.jobs[j].agent, 0).None?
    ensures var b := Report(v, t, j, implementation, test, reuse);
            && BuiltOn(t, SetJob(b.team, j, JobDone), j, if v.test(test) then JobDone else JobFailed)
            && b.passed == Some(v.test(test))
  {
    hide JobOf;
  }

  lemma BuiltPaired(t: Team, u: Team, agents: nat, j: nat, status: JobStatus)
    requires Ordered(t.jobs, agents) && j < |t.jobs| && BuiltOn(t, u, j, status)
    requires t.jobs[j].role.Implementer? && Newest(t.jobs, t.jobs[j].agent)
    ensures Paired(u.jobs)
  {
    hide LatestJob;
    var n := |t.jobs|;
    assert u.jobs[n].role.Tester? && u.jobs[j] == Job(Implementer, JobDone, t.jobs[j].agent);
    assert forall i: nat :: j < i < |u.jobs| ==> !u.jobs[i].role.Implementer?;
    assert LatestJob(u.jobs, Tester, None) == Some(n);
    assert LatestJob(u.jobs, Implementer, Some(JobDone)) == Some(j);
  }

  lemma BuiltFollowed(t: Team, u: Team, j: nat, status: JobStatus)
    requires Followed(t.jobs) && j < |t.jobs| && BuiltOn(t, u, j, status)
    requires t.jobs[j].role.Implementer? && t.jobs[j].status.JobRunning?
    requires forall k: nat :: k < |t.jobs| && t.jobs[k].role.Tester? ==> t.jobs[k].agent != t.jobs[j].agent
    ensures Followed(u.jobs)
  {
    forall k: nat | k < |u.jobs| && u.jobs[k].role.Tester? ensures HasDone(u.jobs, u.jobs[k].agent) {
      if k < |t.jobs| {
        assert HasDone(t.jobs, t.jobs[k].agent);
        var i: nat :| i < |t.jobs| && t.jobs[i] == Job(Implementer, JobDone, t.jobs[k].agent);
        assert u.jobs[i] == t.jobs[i];
      } else {
        assert u.jobs[j] == Job(Implementer, JobDone, u.jobs[k].agent);
      }
    }
  }

  lemma BuiltKeeps(t: Team, u: Team, agents: nat, j: nat, status: JobStatus)
    requires TeamRounds(t, agents) && j < |t.jobs| && BuiltOn(t, u, j, status)
    requires t.jobs[j].role.Implementer? && t.jobs[j].status.JobRunning? && Newest(t.jobs, t.jobs[j].agent)
    ensures TeamRounds(u, agents)
  {
    hide Paired, HasDone;
    NoTesterYet(t, agents, j);
    BuiltPaired(t, u, agents, j, status);
    BuiltFollowed(t, u, j, status);
    forall i: nat | i < |t.artifacts| ensures u.artifacts[i] == t.artifacts[i] {
      assert u.artifacts[..|t.artifacts|][i] == t.artifacts[i];
    }
  }

  /** A build by the newest implementer keeps the rounds, and leaves that implementer's job closed. */
  lemma BuildKeepsRounds(v: Validators, t: Team, agents: nat, agent: nat, implementation: string, test: string, reuse: bool)
    requires TeamRounds(t, agents)
    requires RunningJob(t.jobs, Implementer, agent, 0).Some? ==> Newest(t.jobs, agent)
    ensures var u := Build(v, t, agent, implementation, test, reuse).team;
            TeamRounds(u, agents) && RunningJob(u.jobs, Implementer, agent, 0).None?
    ensures var u := Build(v, t, agent, implementation, test, reuse).team;
            forall a: nat :: RunningJob(u.jobs, Implementer, a, 0).Some? ==> RunningJob(t.jobs, Implementer, a, 0).Some?
  {
    hide RunningJob, Build, TeamRounds;
    var j := RunningJob(t.jobs, Implementer, agent, 0);
    if j.None? {
      NoBuild(v, t, agent, implementation, test, reuse);
    } else {
      BuildExplicit(v, t, agents, agent, implementation, test, reuse);
      var u := Build(v, t, agent, implementation, test, reuse).team;
      BuiltKeeps(t, u, agents, j.value, if v.test(test) then JobDone else JobFailed);
      OneRunning(t, agents, j.value);
    }
  }

  lemma NoBuild(v: Validators, t: Team, agent: nat, implementation: string, test: string, reuse: bool)
    requires RunningJob(t.jobs, Implementer, agent, 0).None?
    ensures Build(v, t, agent, implementation, test, reuse).team == t
  {}

  lemma OneRunning(t: Team, agents: nat, j: nat)
    requires TeamRounds(t, agents) && j < |t.jobs| && t.jobs[j].role.Implementer?
    ensures forall i: nat :: i < |t.jobs| && i != j && t.jobs[i].role.Implementer? ==> t.jobs[i].agent != t.jobs[j].agent
  {
    hide Paired;
  }

  // ---- Handlers ----

  /** The team of a run after a gate has logged a pass. */
  lemma GateKeepsRounds(t: Team, u: Team, agents: nat)
    requires TeamRounds(t, agents) && u.jobs == t.jobs && u.artifacts == t.artifacts
    ensures TeamRounds(u, agents)
  {}

  lemma CheckKeepsRows(t: Team, gate: Gate, kind: Kind, valid: string -> bool, job: Option<nat>, bound: bool)
    ensures var u := CheckGate(t, gate, kind, valid, job, bound);
            u.Some? ==> u.value.jobs == t.jobs && u.value.artifacts == t.artifacts
  {
    hide LatestArtifact;
  }

  lemma PlanKeepsRows(v: Validators, t: Team)
    ensures CheckPlan(v, t).Some? ==> CheckPlan(v, t).value.jobs == t.jobs && CheckPlan(v, t).value.artifacts == t.artifacts
  {
    hide CheckGate, PlanValid;
    CheckKeepsRows(t, GateA, PlanKind(t.route), PlanValid(v, t.route), None, false);
  }

  lemma AuditGatesKeepRows(v: Validators, t: Team)
    ensures CheckBuild(v, t).Some? ==> CheckBuild(v, t).value.jobs == t.jobs && CheckBuild(v, t).value.artifacts == t.artifacts
    ensures CheckTests(v, t).Some? ==> CheckTests(v, t).value.jobs == t.jobs && CheckTests(v, t).value.artifacts == t.artifacts
  {
    hide CheckGate, LatestJob;
    CheckKeepsRows(t, GateB, ImplementationReport, v.implementation, LatestJob(t.jobs, Implementer, Some(JobDone)), true);
    CheckKeepsRows(t, GateC, TestReport, v.test, TestedJob(t.jobs), true);
  }

  /** Nothing of Claude's runs in this run. */
  predicate Quiet(s: State, run: Run) {
    run.team.Some? && s.activeClaude.Some? ==> RunningJob(run.team.value.jobs, Implementer, s.activeClaude.value, 0).None?
  }

  lemma OffStageIsQuiet(s: State, run: Run)
    requires RunRounds(s, run) && Active(run) && !run.stage.ClaudeRunning?
    ensures Quiet(s, run)
  {}

  lemma FreshAgent(jobs: seq<Job>, agents: nat)
    requires Ordered(jobs, agents)
    ensures RunningJob(jobs, Implementer, agents, 0).None?
  {}

  /** Starting a developer from a stage in which Claude is quiet. */
  lemma DevelopRounds(s: State, r: nat, run: Run, codex: bool, lease: bool, packet: bool)
    requires r < |s.runs| && Active(run) && Quiet(s, run) && (run.team.Some? ==> TeamRounds(run.team.value, |s.agents|))
    requires s.activeClaude.Some? ==> s.activeClaude.value < |s.agents|
    ensures var t := Develop(s, r, run, codex, lease, packet); RunRounds(t, t.runs[r])
  {
    hide TeamRounds, RunningJob, Wrecked;
    var moving := run.(status := Running, stage := ClaudeRunning);
    if lease && run.team.Some? {
      var staffed := WithJob(moving, Implementer, |s.agents|);
      AddImplementerKeeps(run.team.value, |s.agents|);
      WreckedOff(staffed, NewJobId(moving));
      AppendRunning(run.team.value.jobs, |s.agents|);
    }
  }

  lemma WreckedOff(run: Run, job: Option<nat>)
    ensures !Active(Wrecked(run, job))
  {}

  lemma AppendRunning(jobs: seq<Job>, agent: nat)
    ensures forall a: nat :: a != agent && RunningJob(jobs, Implementer, a, 0).None? ==>
              RunningJob(jobs + [Job(Implementer, JobRunning, agent)], Implementer, a, 0).None?
  {
    hide RunningJob;
  }

  lemma SendToRounds(cfg: Config, s: State, r: nat, codex: bool, lease: bool, packet: bool)
    requires r < |s.runs| && Active(s.runs[r]) && RunRounds(s, s.runs[r])
    requires s.activeClaude.Some? ==> s.activeClaude.value < |s.agents|
    ensures var t := SendToOn(cfg, s, r, codex, lease, packet); r < |t.runs| && RunRounds(t, t.runs[r])
  {
    hide Develop, CheckPlan, TeamRounds, RunningJob;
    var run := s.runs[r];
    if (run.stage.DraftReady? || run.stage.RetryReady?) && (if codex then cfg.codex else cfg.claude) && run.planned {
      OffStageIsQuiet(s, run);
      if run.team.None? {
        DevelopRounds(s, r, run, codex, lease, packet);
        DevelopRuns(s, r, run, codex, lease, packet);
      } else if CheckPlan(cfg.v, run.team.value).Some? {
        PlanKeepsRows(cfg.v, run.team.value);
        GateKeepsRounds(run.team.value, CheckPlan(cfg.v, run.team.value).value, |s.agents|);
        var gated := run.(team := CheckPlan(cfg.v, run.team.value));
        DevelopRounds(s, r, gated, codex, lease, packet);
        DevelopRuns(s, r, gated, codex, lease, packet);
      }
    }
  }

  lemma DevelopRuns(s: State, r: nat, run: Run, codex: bool, lease: bool, packet: bool)
    requires r < |s.runs|
    ensures |Develop(s, r, run, codex, lease, packet).runs| == |s.runs|
  {
    hide Wrecked;
  }

  lemma SendRepairRounds(cfg: Config, s: State, r: nat, lease: bool, packet: bool)
    requires r < |s.runs| && Active(s.runs[r]) && RunRounds(s, s.runs[r])
    requires s.activeClaude.Some? ==> s.activeClaude.value < |s.agents|
    ensures var t := SendRepairOn(cfg, s, r, lease, packet); r < |t.runs| && RunRounds(t, t.runs[r])
  {
    hide Develop, TeamRounds, RunningJob;
    if RepairOpen(cfg, s.runs[r]) {
      OffStageIsQuiet(s, s.runs[r]);
      DevelopRounds(s, r, s.runs[r], false, lease, packet);
      DevelopRuns(s, r, s.runs[r], false, lease, packet);
    }
  }

  lemma AuditRounds(s: State, r: nat, run: Run, lease: bool, packet: bool)
    requires r < |s.runs| && Active(run) && Quiet(s, run) && (run.team.Some? ==> TeamRounds(run.team.value, |s.agents|))
    requires s.activeClaude.Some? ==> s.activeClaude.value < |s.agents|
    ensures var t := BeginAudit(s, r, run, lease, packet); r < |t.runs| && RunRounds(t, t.runs[r])
  {
    hide TeamRounds, RunningJob, Wrecked;
    var moving := run.(status := Running, stage := Verifying);
    if lease && run.team.Some? {
      var asked := WithRequest(WithJob(moving, Auditor, |s.agents|));
      AuditorJoins(run.team.value, |s.agents|);
      WreckedOff(asked, NewJobId(moving));
    }
  }

  lemma AuditorJoins(t: Team, agents: nat)
    requires TeamRounds(t, agents)
    ensures var u := AddArtifact(AddJob(t, Auditor, agents), VerificationRequest, Some(|t.jobs|), "");
            && TeamRounds(u, agents + 1)
            && forall a: nat :: RunningJob(u.jobs, Implementer, a, 0).Some? ==> RunningJob(t.jobs, Implementer, a, 0).Some?
  {
    hide TeamRounds, RunningJob;
    var u := AddArtifact(AddJob(t, Auditor, agents), VerificationRequest, Some(|t.jobs|), "");
    SameKeeps(t, u, agents, agents + 1);
    AppendOther(t.jobs, Job(Auditor, JobRunning, agents));
  }

  lemma AppendOther(jobs: seq<Job>, job: Job)
    requires !job.role.Implementer?
    ensures forall a: nat :: RunningJob(jobs + [job], Implementer, a, 0).Some? ==> RunningJob(jobs, Implementer, a, 0).Some?
  {
    hide RunningJob;
  }

  lemma VerifyRounds(cfg: Config, s: State, r: nat, lease: bool, packet: bool)
    requires r < |s.runs| && Active(s.runs[r]) && RunRounds(s, s.runs[r])
    requires s.activeClaude.Some? ==> s.activeClaude.value < |s.agents|
    ensures var t := VerifyOn(cfg, s, r, lease, packet); r < |t.runs| && RunRounds(t, t.runs[r])
  {
    hide BeginAudit, CheckBuild, CheckTests, TeamRounds, RunningJob;
    var run := s.runs[r];
    if run.stage.ClaudeDone? || run.stage.RetryReady? {
      OffStageIsQuiet(s, run);
      if run.team.None? {
        AuditRounds(s, r, run, lease, packet);
      } else {
        var team := run.team.value;
        AuditGatesKeepRows(cfg.v, team);
        var built := CheckBuild(cfg.v, team);
        if built.Some? {
          GateKeepsRounds(team, built.value, |s.agents|);
          AuditGatesKeepRows(cfg.v, built.value);
          var tested := CheckTests(cfg.v, built.value);
          if tested.Some? {
            GateKeepsRounds(built.value, tested.value, |s.agents|);
            AuditRounds(s, r, run.(team := tested), lease, packet);
          }
        }
      }
    }
  }

  lemma RouteRounds(cfg: Config, s: State, r: nat, step: Step)
    requires Inv(cfg, s) && r < |s.runs| && Active(s.runs[r]) && (step.RouteDirect? || step.RouteAnalysis?)
    requires RunRounds(s, s.runs[r]) && (s.activeClaude.Some? ==> s.activeClaude.value < |s.agents|)
    ensures var t := OnActive(cfg, s, r, step); r < |t.runs| && RunRounds(t, t.runs[r])
  {
    hide SendToOn, TeamRounds, RunningJob, Inv, NewTeam, Wrecked;
    var run := s.runs[r];
    RowInv(cfg, s, r);
    assert run.stage.RouteSelect? ==> run.team.None?;
    if step.RouteDirect? {
      var drafted := run.(status := NeedsUser, stage := DraftReady, planned := run.goal);
      if run.stage.RouteSelect? { SendToRounds(cfg, Put(s, r, drafted), r, step.codex, step.lease, step.packet); }
    } else {
      NewTeamRounds(step.route, |s.agents|);
      WreckedOff(run.(team := Some(NewTeam(step.route, |s.agents|))), Some(0));
    }
  }

  lemma NewTeamRounds(route: Route, agent: nat)
    ensures TeamRounds(NewTeam(route, agent), agent + 1)
    ensures forall a: nat :: RunningJob(NewTeam(route, agent).jobs, Implementer, a, 0).None?
  {}

  /** Handlers that do not touch the team. */
  lemma StagingRounds(cfg: Config, s: State, r: nat, step: Step)
    requires r < |s.runs| && Active(s.runs[r]) && RunRounds(s, s.runs[r])
    requires step.PlainText? || step.MakePlan? || step.ContinueContext? || step.TakeOver? || step.Close? || step.Cancel?
    ensures var t := OnActive(cfg, s, r, step); r < |t.runs| && RunRounds(t, t.runs[r])
  {
    hide TeamRounds, RunningJob;
    var run := s.runs[r];
    if run.team.Some? {
      MoreAgents(run.team.value, |s.agents|);
      if !run.stage.ClaudeRunning? { OffStageIsQuiet(s, run); }
    }
  }

  lemma MoreAgents(t: Team, agents: nat)
    requires TeamRounds(t, agents)
    ensures TeamRounds(t, agents + 1)
  {}

  lemma ClaudeRounds(cfg: Config, s: State, r: nat, done: bool, implementation: string, test: string)
    requires r < |s.runs| && Active(s.runs[r]) && RunRounds(s, s.runs[r])
    ensures var t := ClaudeCompletesOn(cfg, s, r, done, implementation, test); r < |t.runs| && RunRounds(t, t.runs[r])
  {
    hide TeamRounds, RunningJob, Build, Testers;
    var run := s.runs[r];
    if run.stage.ClaudeRunning? && done && run.team.Some? && s.activeClaude.Some? {
      BuildKeepsRounds(cfg.v, run.team.value, |s.agents|, s.activeClaude.value, implementation, test, false);
    }
  }

  lemma RecordPlanRounds(t: Team, agents: nat, agent: nat, plan: string)
    requires TeamRounds(t, agents)
    ensures TeamRounds(RecordPlan(t, agent, plan), agents)
    ensures SameRounds(t, RecordPlan(t, agent, plan))
  {
    hide TeamRounds, RunningJob, LatestJob, JobOf, PlanJob, HasArtifact;
    SameKeeps(t, RecordPlan(t, agent, plan), agents, agents);
  }

  lemma AuditRecordRounds(v: Validators, t: Team, agents: nat, agent: nat, report: string)
    requires TeamRounds(t, agents)
    ensures var (u, _) := Audit(v, t, agent, report); TeamRounds(u, agents) && SameRounds(t, u)
  {
    hide TeamRounds, RunningJob, HasArtifact;
    var (u, _) := Audit(v, t, agent, report);
    SameKeeps(t, u, agents, agents);
  }

  lemma SameRunning(t: Team, u: Team)
    requires SameRounds(t, u)
    ensures forall a: nat :: RunningJob(u.jobs, Implementer, a, 0).Some? ==> RunningJob(t.jobs, Implementer, a, 0).Some?
  {
    hide RunningJob;
    forall a: nat | RunningJob(u.jobs, Implementer, a, 0).Some? ensures RunningJob(t.jobs, Implementer, a, 0).Some? {
      var j := RunningJob(u.jobs, Implementer, a, 0).value;
      assert j < |t.jobs| && t.jobs[j] == u.jobs[j];
    }
  }

  /** Codex work that completes is no Claude work, so Claude is quiet, before and after. */
  lemma CodexRounds(cfg: Config, s: State, r: nat, done: bool, text: string, test: string)
    requires r < |s.runs| && Active(s.runs[r]) && RunRounds(s, s.runs[r])
    requires s.activeTask.Some? ==> s.activeTask.value == |s.agents| - 1
    requires s.activeClaude.Some? ==> s.activeClaude.value < |s.agents| && !s.agents[s.activeClaude.value].codex
    ensures var t := CodexCompletesOn(cfg, s, r, done, text, test); r < |t.runs| && RunRounds(t, t.runs[r])
  {
    hide TeamRounds, RunningJob, Build, Audit, RecordPlan, FailRunning, Strip;
    var run := s.runs[r];
    if s.activeTask.Some? && s.agents[s.activeTask.value].codex && run.team.Some? {
      var a, t := s.activeTask.value, run.team.value;
      assert Quiet(s, run);
      LastIsNewest(t, |s.agents|);
      match s.agents[a].role
      case FinalPlan =>
        RecordPlanRounds(t, |s.agents|, a, text);
        SameRunning(t, RecordPlan(t, a, text));
      case Implementation => BuildKeepsRounds(cfg.v, t, |s.agents|, a, text, test, true);
      case Verification =>
        AuditRecordRounds(cfg.v, t, |s.agents|, a, text);
        SameRunning(t, Audit(cfg.v, t, a, text).0);
      case _ =>
    }
  }

  lemma LastIsNewest(t: Team, agents: nat)
    requires TeamRounds(t, agents) && agents > 0
    ensures Newest(t.jobs, agents - 1)
  {
    hide Paired, Followed;
  }

  // ---- Steps and runs ----

  /** At most one agent run is added, it becomes the active task, and Claude's current run is one of Claude's. */
  predicate Staffs(s: State, t: State) {
    && |t.runs| == |s.runs|
    && (t.agents == s.agents || (|t.agents| == |s.agents| + 1 && s.agents <= t.agents))
    && t.activeTask == (if t.agents == s.agents then s.activeTask else Some(|s.agents|))
    && (t.activeClaude == s.activeClaude
        || (t.agents != s.agents && t.activeClaude == Some(|s.agents|) && !t.agents[|s.agents|].codex))
  }

  lemma DevelopStaffs(s: State, r: nat, run: Run, codex: bool, lease: bool, packet: bool)
    requires r < |s.runs|
    ensures Staffs(s, Develop(s, r, run, codex, lease, packet))
  {
    hide Wrecked;
  }

  lemma SendToStaffs(cfg: Config, s: State, r: nat, codex: bool, lease: bool, packet: bool)
    requires r < |s.runs|
    ensures Staffs(s, SendToOn(cfg, s, r, codex, lease, packet))
  {
    hide Develop, CheckPlan;
    var run := s.runs[r];
    DevelopStaffs(s, r, run, codex, lease, packet);
    if run.team.Some? { DevelopStaffs(s, r, run.(team := CheckPlan(cfg.v, run.team.value)), codex, lease, packet); }
  }

  lemma VerifyStaffs(cfg: Config, s: State, r: nat, lease: bool, packet: bool)
    requires r < |s.runs|
    ensures Staffs(s, VerifyOn(cfg, s, r, lease, packet))
  {
    hide BeginAudit, CheckBuild, CheckTests;
    var run := s.runs[r];
    AuditStaffs(s, r, run, lease, packet);
    if run.team.Some? && CheckBuild(cfg.v, run.team.value).Some? {
      AuditStaffs(s, r, run.(team := CheckTests(cfg.v, CheckBuild(cfg.v, run.team.value).value)), lease, packet);
    }
  }

  lemma AuditStaffs(s: State, r: nat, run: Run, lease: bool, packet: bool)
    requires r < |s.runs|
    ensures Staffs(s, BeginAudit(s, r, run, lease, packet))
  {
    hide Wrecked;
  }

  lemma OnActiveStaffs(cfg: Config, s: State, r: nat, step: Step)
    requires r < |s.runs|
    ensures Staffs(s, OnActive(cfg, s, r, step))
  {
    hide SendToOn, VerifyOn, Develop, CodexRow, ClaudeDoneRow, NewTeam, Wrecked;
    match step
    case RouteDirect(codex, lease, packet) =>
      var drafted := s.runs[r].(status := NeedsUser, stage := DraftReady, planned := s.runs[r].goal);
      SendToStaffs(cfg, Put(s, r, drafted), r, codex, lease, packet);
    case SendTo(codex, lease, packet) => SendToStaffs(cfg, s, r, codex, lease, packet);
    case Verify(lease, packet) => VerifyStaffs(cfg, s, r, lease, packet);
    case SendRepair(lease, packet) => DevelopStaffs(s, r, s.runs[r], false, lease, packet);
    case _ =>
  }

  lemma OnActiveRounds(cfg: Config, s: State, r: nat, step: Step)
    requires Inv(cfg, s) && Rounds(s) && r < |s.runs| && Active(s.runs[r])
    ensures var t := OnActive(cfg, s, r, step); r < |t.runs| && RunRounds(t, t.runs[r])
  {
    hide Inv, RunRounds, OnActive;
    match step
    case RouteDirect(_, _, _) => RouteRounds(cfg, s, r, step);
    case RouteAnalysis(_, _, _) => RouteRounds(cfg, s, r, step);
    case PlainText(_, _) => StagingRounds(cfg, s, r, step);
    case MakePlan(_, _) => StagingRounds(cfg, s, r, step);
    case ContinueContext => StagingRounds(cfg, s, r, step);
    case TakeOver(_) => StagingRounds(cfg, s, r, step);
    case Close => StagingRounds(cfg, s, r, step);
    case Cancel => StagingRounds(cfg, s, r, step);
    case _ => WorkRounds(cfg, s, r, step);
  }

  lemma WorkRounds(cfg: Config, s: State, r: nat, step: Step)
    requires Rounds(s) && r < |s.runs| && Active(s.runs[r])
    requires !(step.RouteDirect? || step.RouteAnalysis? || step.PlainText? || step.MakePlan? || step.ContinueContext?
               || step.TakeOver? || step.Close? || step.Cancel?)
    ensures var t := OnActive(cfg, s, r, step); r < |t.runs| && RunRounds(t, t.runs[r])
  {
    hide RunRounds, SendToOn, VerifyOn, SendRepairOn, ClaudeCompletesOn, CodexCompletesOn;
    match step
    case SendTo(codex, lease, packet) => SendToRounds(cfg, s, r, codex, lease, packet);
    case Verify(lease, packet) => VerifyRounds(cfg, s, r, lease, packet);
    case SendRepair(lease, packet) => SendRepairRounds(cfg, s, r, lease, packet);
    case ClaudeCompletes(done, implementation, test) => ClaudeRounds(cfg, s, r, done, implementation, test);
    case CodexCompletes(done, text, test) => CodexRounds(cfg, s, r, done, text, test);
    case _ =>
  }

  /** Only the newest run can be active, so its rounds are all there is to keep. */
  lemma LastRounds(cfg: Config, s: State, t: State)
    requires Rounds(s) && Inv(cfg, t) && Staffs(s, t)
    requires t.runs != [] ==> RunRounds(t, t.runs[|t.runs| - 1])
    ensures Rounds(t)
  {
    hide RunRounds;
    forall i: nat | i < |t.runs| ensures RunRounds(t, t.runs[i]) {
      if i + 1 < |t.runs| { Idle(t, t.runs[i]); }
    }
  }

  lemma Idle(s: State, run: Run)
    requires !Active(run)
    ensures RunRounds(s, run)
  {}

  lemma InternalRounds(cfg: Config, s: State, origin: nat, lease: bool, packet: bool)
    requires Inv(cfg, s) && Rounds(s)
    ensures var t := Next(cfg, s, InternalRepair(origin, lease, packet));
            Staffs(s, t) && (t.runs != [] ==> RunRounds(t, t.runs[|t.runs| - 1]))
  {
    hide SendRepairOn, LatestActive, TeamRounds, RunningJob, Inv;
    var r := LatestActive(s.runs);
    if r.Some? { LatestIsLast(cfg, s); }
    if origin < |s.runs| && s.runs[origin].pending > 0 {
      var begins := r.Some? && RepairOpen(cfg, s.runs[r.value]) && lease;
      var t := Put(s, origin, TakeRepair(s.runs[origin], begins));
      if r.Some? {
        assert RunRounds(t, t.runs[r.value]);
        SendRepairRounds(cfg, t, r.value, lease, packet);
        SendRepairStaffs(cfg, t, r.value, lease, packet);
        if RepairOpen(cfg, t.runs[r.value]) { OffStageIsQuiet(t, t.runs[r.value]); }
      }
    }
  }

  lemma SendRepairStaffs(cfg: Config, s: State, r: nat, lease: bool, packet: bool)
    requires r < |s.runs|
    ensures Staffs(s, SendRepairOn(cfg, s, r, lease, packet))
  {
    hide Develop;
    DevelopStaffs(s, r, s.runs[r], false, lease, packet);
  }

  lemma ReturnedRounds(cfg: Config, s: State, k: nat, ok: bool)
    requires Inv(cfg, s) && Rounds(s) && k < |s.launches|
    ensures Rounds(Returned(s, k, ok))
  {
    hide TeamRounds, RunningJob, Inv, Wrecked;
    var t := Returned(s, k, ok);
    var l := s.launches[k];
    if !ok && l.run < |s.runs| { WreckedOff(s.runs[l.run], l.job); }
    forall i: nat | i < |t.runs| ensures RunRounds(t, t.runs[i]) {
      assert RunRounds(s, s.runs[i]);
    }
  }

  lemma OutsideRounds(cfg: Config, s: State, step: Step)
    requires Inv(cfg, s) && Rounds(s) && (step.StartAuto? || step.OtherTask? || step.DirectClaude?)
    ensures Rounds(Next(cfg, s, step))
  {
    hide TeamRounds, RunningJob, LatestActive, Inv;
    var t := Next(cfg, s, step);
    forall i: nat | i < |t.runs| ensures RunRounds(t, t.runs[i]) {
      if i < |s.runs| {
        assert RunRounds(s, s.runs[i]);
        if Active(s.runs[i]) && s.runs[i].team.Some? {
          MoreAgents(s.runs[i].team.value, |s.agents|);
          assert Ordered(s.runs[i].team.value.jobs, |s.agents|) by { RoundsOrdered(s.runs[i].team.value, |s.agents|); }
          FreshAgent(s.runs[i].team.value.jobs, |s.agents|);
        }
      }
    }
  }

  lemma RoundsOrdered(t: Team, agents: nat)
    requires TeamRounds(t, agents)
    ensures Ordered(t.jobs, agents)
  {}

  lemma NextRounds(cfg: Config, s: State, step: Step)
    requires Inv(cfg, s) && Rounds(s)
    ensures Rounds(Next(cfg, s, step))
  {
    hide Inv, Rounds, OnActive, Returned, InternalRepairOn, LatestActive, RunRounds, Staffs;
    NextKeeps(cfg, s, step);
    match step
    case StartAuto(_) => OutsideRounds(cfg, s, step);
    case OtherTask => OutsideRounds(cfg, s, step);
    case DirectClaude => OutsideRounds(cfg, s, step);
    case LaunchReturns(k, ok) => if k < |s.launches| { ReturnedRounds(cfg, s, k, ok); }
    case InternalRepair(origin, lease, packet) =>
      InternalRounds(cfg, s, origin, lease, packet);
      LastRounds(cfg, s, Next(cfg, s, step));
    case _ =>
      if LatestActive(s.runs).Some? {
        LatestIsLast(cfg, s);
        var r := |s.runs| - 1;
        OnActiveRounds(cfg, s, r, step);
        OnActiveStaffs(cfg, s, r, step);
        SameLength(s, OnActive(cfg, s, r, step));
        LastRounds(cfg, s, OnActive(cfg, s, r, step));
      }
  }

  lemma SameLength(s: State, t: State)
    requires Staffs(s, t)
    ensures |t.runs| == |s.runs|
  {}

  lemma {:induction false} RunAllRounds(cfg: Config, s: State, steps: seq<Step>)
    requires Inv(cfg, s) && Rounds(s)
    ensures Inv(cfg, RunAll(cfg, s, steps)) && Rounds(RunAll(cfg, s, steps))
    decreases |steps|
  {
    hide Inv, Next, Rounds;
    if steps != [] {
      NextKeeps(cfg, s, steps[0]);
      NextRounds(cfg, s, steps[0]);
      RunAllRounds(cfg, Next(cfg, s, steps[0]), steps[1..]);
    }
  }

  // ---- Whose tests an audit rests on ----

  /**
   In every reachable state, for every active run with a team on which Gates B and C pass: the tests Gate C reads are
   those of the implementation Gate B reads if and only if the newest tester is done.
   */
  lemma CurrentRoundExactly(cfg: Config, steps: seq<Step>, i: nat, built: Team, tested: Team)
    requires i < |RunAll(cfg, Initial(), steps).runs|
    requires var run := RunAll(cfg, Initial(), steps).runs[i];
             && Active(run) && run.team.Some?
             && CheckBuild(cfg.v, run.team.value) == Some(built) && CheckTests(cfg.v, built) == Some(tested)
    ensures var t := RunAll(cfg, Initial(), steps).runs[i].team.value;
            var n := |t.gates|;
            && |tested.gates| == n + 2 && tested.gates[n].gate == GateB && tested.gates[n + 1].gate == GateC
            && tested.gates[n].job.Some? && tested.gates[n].job.value < |t.jobs|
            && tested.gates[n + 1].job.Some? && tested.gates[n + 1].job.value < |t.jobs|
            && LatestJob(t.jobs, Tester, None).Some?
            && (t.jobs[tested.gates[n + 1].job.value].agent == t.jobs[tested.gates[n].job.value].agent
                <==> t.jobs[LatestJob(t.jobs, Tester, None).value].status.JobDone?)
  {
    hide RunAll, CheckBuild, CheckTests, LatestJob, Rounds, Inv;
    InitialInv(cfg);
    NoRounds();
    RunAllRounds(cfg, Initial(), steps);
    var s := RunAll(cfg, Initial(), steps);
    RowInv(cfg, s, i);
    var t := s.runs[i].team.value;
    RowRounds(s, i);
    GatesRead(cfg.v, t, built, tested);
    TestersOfRound(t, |s.agents|);
  }

  lemma NoRounds()
    ensures Rounds(Initial())
  {}

  lemma RowRounds(s: State, i: nat)
    requires Rounds(s) && i < |s.runs| && Active(s.runs[i]) && s.runs[i].team.Some?
    ensures TeamRounds(s.runs[i].team.value, |s.agents|)
  {}

  /** The jobs the two gates are bound to. */
  lemma GatesRead(v: Validators, t: Team, built: Team, tested: Team)
    requires TeamInv(v, t) && CheckBuild(v, t) == Some(built) && CheckTests(v, built) == Some(tested)
    ensures var n := |t.gates|;
            && |tested.gates| == n + 2 && tested.gates[n].gate == GateB && tested.gates[n + 1].gate == GateC
            && tested.gates[n].job == LatestJob(t.jobs, Implementer, Some(JobDone)) && tested.gates[n].job.Some?
            && tested.gates[n + 1].job == LatestJob(t.jobs, Tester, Some(JobDone)) && tested.gates[n + 1].job.Some?
  {
    hide TeamInv, LatestJob, LatestArtifact;
    ChecksKeep(v, t);
    TestedIsTester(v, built);
  }

  lemma TestersOfRound(t: Team, agents: nat)
    requires TeamRounds(t, agents)
    requires LatestJob(t.jobs, Implementer, Some(JobDone)).Some? && LatestJob(t.jobs, Tester, Some(JobDone)).Some?
    ensures LatestJob(t.jobs, Tester, None).Some?
    ensures var b := LatestJob(t.jobs, Implementer, Some(JobDone)).value;
            var c := LatestJob(t.jobs, Tester, Some(JobDone)).value;
            t.jobs[c].agent == t.jobs[b].agent <==> t.jobs[LatestJob(t.jobs, Tester, None).value].status.JobDone?
  {
    hide LatestJob;
    var newest := LatestJob(t.jobs, Tester, None).value;
    var c := LatestJob(t.jobs, Tester, Some(JobDone)).value;
    assert c <= newest;
    if t.jobs[newest].status.JobDone? {
      assert c == newest;
    } else {
      assert c < newest;
    }
  }
}
