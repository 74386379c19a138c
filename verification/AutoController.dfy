/** The ledger rows of one conversation and the handlers that update them step by step. */
module AutoControllerObject {
  import opened Options
  import opened Decimal
  import opened AutoTeam
  import opened AutoWorkflow

  lemma PutTwice(s: State, r: nat, first: Run, second: Run)
    requires r < |s.runs|
    ensures Put(Put(s, r, first), r, second) == Put(s, r, second)
  {}

  /** Writing the gated team first and then developing is developing the gated row. */
  lemma SameDevelop(s: State, r: nat, run: Run, lease: bool, packet: bool)
    requires r < |s.runs|
    ensures Develop(Put(s, r, run), r, run, false, lease, packet) == Develop(s, r, run, false, lease, packet)
  {
    var moving := run.(status := Running, stage := ClaudeRunning);
    var staffed := WithJob(moving, Implementer, |s.agents|);
    PutTwice(s, r, run, moving);
    PutTwice(s, r, run, staffed);
    PutTwice(s, r, run, Wrecked(staffed, NewJobId(moving)));
  }

  lemma SameAudit(s: State, r: nat, run: Run, lease: bool, packet: bool)
    requires r < |s.runs|
    ensures BeginAudit(Put(s, r, run), r, run, lease, packet) == BeginAudit(s, r, run, lease, packet)
  {
    var moving := run.(status := Running, stage := Verifying);
    var asked := WithRequest(WithJob(moving, Auditor, |s.agents|));
    PutTwice(s, r, run, moving);
    PutTwice(s, r, run, asked);
    PutTwice(s, r, run, Wrecked(asked, NewJobId(moving)));
  }

  lemma GateKeepsJobs(t: Team, gate: Gate, kind: Kind, valid: string -> bool, job: Option<nat>, bound: bool)
    ensures var u := CheckGate(t, gate, kind, valid, job, bound); u.Some? ==> u.value.jobs == t.jobs
  {
    hide LatestArtifact;
  }

  class AutoController {
    const cfg: Config
    var runs: seq<Run>
    var agents: seq<Agent>
    var activeTask: Option<nat>
    var activeClaude: Option<nat>
    var launches: seq<Launch>

    ghost function View(): State
      reads this
    {
      State(runs, agents, activeTask, activeClaude, launches)
    }

    constructor (cfg: Config)
      ensures View() == Initial() && this.cfg == cfg
    {
      this.cfg := cfg;
      runs, agents, activeTask, activeClaude, launches := [], [], None, None, [];
    }

    // ---- Ledger reads ----

    /** `get_latest_active_auto_run`. */
    method FindActive() returns (r: Option<nat>)
      ensures r == LatestActive(runs)
      ensures r.Some? ==> r.value < |runs|
    {
      var n := |runs|;
      assert runs[..n] == runs;
      while n > 0
        invariant n <= |runs| && LatestActive(runs[..n]) == LatestActive(runs)
      {
        assert runs[..n][..n - 1] == runs[..n - 1];
        if Active(runs[n - 1]) {
          return Some(n - 1);
        }
        n := n - 1;
      }
      return None;
    }

    /** `_latest_team_job_id`: the newest job of a role and status. */
    method LatestTeamJob(jobs: seq<Job>, role: JobRole, status: JobStatus) returns (r: Option<nat>)
      ensures r == LatestJob(jobs, role, Some(status))
    {
      var n := |jobs|;
      assert jobs[..n] == jobs;
      while n > 0
        invariant n <= |jobs| && LatestJob(jobs[..n], role, Some(status)) == LatestJob(jobs, role, Some(status))
      {
        assert jobs[..n][..n - 1] == jobs[..n - 1];
        if jobs[n - 1].role == role && jobs[n - 1].status == status {
          return Some(n - 1);
        }
        n := n - 1;
      }
      return None;
    }

    /** `_running_team_job`: the first running job of a role for an agent run. */
    method RunningTeamJob(jobs: seq<Job>, role: JobRole, agent: nat) returns (r: Option<nat>)
      ensures r == RunningJob(jobs, role, agent, 0)
    {
      var i := 0;
      while i < |jobs|
        invariant i <= |jobs| && RunningJob(jobs, role, agent, 0) == RunningJob(jobs, role, agent, i)
      {
        if jobs[i].role == role && jobs[i].status.JobRunning? && jobs[i].agent == agent {
          return Some(i);
        }
        i := i + 1;
      }
      return None;
    }

    /** `_latest_team_artifact_payload`, by position. */
    method LatestTeamArtifact(artifacts: seq<Artifact>, kind: Kind, job: Option<nat>) returns (r: Option<nat>)
      ensures r == LatestArtifact(artifacts, kind, job)
    {
      var n := |artifacts|;
      assert artifacts[..n] == artifacts;
      while n > 0
        invariant n <= |artifacts| && LatestArtifact(artifacts[..n], kind, job) == LatestArtifact(artifacts, kind, job)
      {
        assert artifacts[..n][..n - 1] == artifacts[..n - 1];
        if artifacts[n - 1].kind == kind && (job.None? || artifacts[n - 1].job == job) {
          return Some(n - 1);
        }
        n := n - 1;
      }
      return None;
    }

    /** `_has_team_artifact`. */
    method HasTeamArtifact(artifacts: seq<Artifact>, kind: Kind, job: Option<nat>) returns (r: bool)
      ensures r == HasArtifact(artifacts, kind, job)
    {
      for i := 0 to |artifacts|
        invariant forall k :: 0 <= k < i ==> !(artifacts[k].kind == kind && artifacts[k].job == job)
      {
        if artifacts[i].kind == kind && artifacts[i].job == job {
          return true;
        }
      }
      return false;
    }

    /** `_tester_attempt_count`. */
    method TesterAttempts(jobs: seq<Job>) returns (n: nat)
      ensures n == Testers(jobs)
    {
      n := 0;
      for i := 0 to |jobs|
        invariant n == Testers(jobs[..i])
      {
        assert jobs[..i + 1][..i] == jobs[..i];
        if jobs[i].role.Tester? {
          n := n + 1;
        }
      }
      assert jobs[..|jobs|] == jobs;
    }

    /** `_team_gate_response`: the team with the pass on record, or nothing. */
    method TeamGate(team: Team, gate: Gate, kind: Kind, valid: string -> bool, job: Option<nat>, bound: bool) returns (r: Option<Team>)
      ensures r == CheckGate(team, gate, kind, valid, job, bound)
    {
      if bound && job.None? {
        return None;
      }
      var i := LatestTeamArtifact(team.artifacts, kind, if bound then job else None);
      if i.None? || !valid(team.artifacts[i.value].payload) {
        return None;
      }
      return Some(team.(gates := team.gates + [GatePass(gate, i.value, job, team.jobs)]));
    }

    // ---- Ledger writes ----

    method UpdateRun(r: nat, status: Status, stage: Stage)
      requires r < |runs|
      modifies this`runs
      ensures View() == Put(old(View()), r, old(runs)[r].(status := status, stage := stage))
    {
      runs := runs[r := runs[r].(status := status, stage := stage)];
    }

    method UpdateTeam(r: nat, team: Team)
      requires r < |runs|
      modifies this`runs
      ensures View() == Put(old(View()), r, old(runs)[r].(team := Some(team)))
    {
      runs := runs[r := runs[r].(team := Some(team))];
    }

    method ReserveLease(r: nat, role: AgentRole, codex: bool) returns (agent: nat)
      modifies this`agents, this`activeTask
      ensures View() == Reserve(old(View()), r, role, codex) && agent == |old(agents)|
    {
      agent := |agents|;
      agents, activeTask := agents + [Agent(role, r, codex)], Some(agent);
    }

    /** A context packet that could not be built fails the run, its team and the job made for it. */
    method FailPrepared(r: nat, job: nat)
      requires r < |runs| && runs[r].team.Some?
      modifies this`runs
      ensures View() == Put(old(View()), r, Wrecked(old(runs)[r], Some(job)))
    {
      var run := runs[r];
      runs := runs[r := run.(status := Failed, team := Some(FailJob(run.team.value, job)))];
    }

    // ---- Handlers ----

    /** From the stage change on, as `_handle_auto_send_to_claude` and the repair handler share it. */
    method LaunchClaude(r: nat, lease: bool, packet: bool)
      requires r < |runs|
      modifies this
      ensures View() == Develop(old(View()), r, old(runs)[r], false, lease, packet)
    {
      UpdateRun(r, Running, ClaudeRunning);
      if !lease {
        return;
      }
      var agent := ReserveLease(r, Implementation, false);
      activeClaude := Some(agent);
      if runs[r].team.Some? {
        var job := |runs[r].team.value.jobs|;
        UpdateTeam(r, AddJob(runs[r].team.value, Implementer, agent));
        if !packet {
          FailPrepared(r, job);
        }
      }
    }

    /** `_handle_auto_send_to_claude`. */
    method HandleSendToClaude(lease: bool, packet: bool)
      modifies this
      ensures View() == Next(cfg, old(View()), SendTo(false, lease, packet))
    {
      hide LatestActive, LatestArtifact, Develop;
      var active := FindActive();
      if active.None? {
        return;
      }
      var r := active.value;
      var run := runs[r];
      if !(run.stage.DraftReady? || run.stage.RetryReady?) || !cfg.claude || !run.planned {
        return;
      }
      if run.team.Some? {
        var team := run.team.value;
        var gated := TeamGate(team, GateA, PlanKind(team.route), PlanValid(cfg.v, team.route), None, false);
        if gated.None? {
          return;
        }
        UpdateTeam(r, gated.value);
        SameDevelop(old(View()), r, run.(team := gated), lease, packet);
      }
      LaunchClaude(r, lease, packet);
    }

    /** `_handle_auto_send_repair_to_claude`. */
    method HandleSendRepair(lease: bool, packet: bool)
      modifies this
      ensures View() == Next(cfg, old(View()), SendRepair(lease, packet))
    {
      hide LatestActive, Develop;
      var active := FindActive();
      if active.None? {
        return;
      }
      var r := active.value;
      if !(runs[r].stage.ClaudeDone? || runs[r].stage.RetryReady?) || !cfg.claude {
        return;
      }
      LaunchClaude(r, lease, packet);
    }

    /** From the stage change on, once the gates of `_handle_auto_codex_verify` have passed. */
    method LaunchAudit(r: nat, lease: bool, packet: bool)
      requires r < |runs|
      modifies this
      ensures View() == BeginAudit(old(View()), r, old(runs)[r], lease, packet)
    {
      UpdateRun(r, Running, Verifying);
      if !lease {
        return;
      }
      var agent := ReserveLease(r, Verification, true);
      var job := None;
      if runs[r].team.Some? {
        job := Some(|runs[r].team.value.jobs|);
        UpdateTeam(r, AddJob(runs[r].team.value, Auditor, agent));
        UpdateTeam(r, AddArtifact(runs[r].team.value, VerificationRequest, job, ""));
        if !packet {
          FailPrepared(r, job.value);
          return;
        }
      }
      launches := launches + [Launch(r, job, true)];
    }

    /** Gates B and C, each pass on record; the run goes back to `retry_ready` when one fails. */
    method PassAuditGates(r: nat) returns (open: bool)
      requires r < |runs| && runs[r].team.Some?
      modifies this`runs
      ensures var run := old(runs)[r];
              var built := CheckBuild(cfg.v, run.team.value);
              if built.None? then !open && View() == Put(old(View()), r, run.(status := NeedsUser, stage := RetryReady))
              else
                var tested := CheckTests(cfg.v, built.value);
                if tested.None? then !open && View() == Put(old(View()), r, run.(status := NeedsUser, stage := RetryReady, team := built))
                else open && View() == Put(old(View()), r, run.(team := tested))
    {
      hide LatestArtifact, LatestJob, CheckGate;
      var team := runs[r].team.value;
      var implementer := LatestTeamJob(team.jobs, Implementer, JobDone);
      var tester := LatestTeamJob(team.jobs, Tester, JobDone);
      if tester.None? {
        tester := implementer;
      }
      var built := TeamGate(team, GateB, ImplementationReport, cfg.v.implementation, implementer, true);
      if built.None? {
        UpdateRun(r, NeedsUser, RetryReady);
        return false;
      }
      GateKeepsJobs(team, GateB, ImplementationReport, cfg.v.implementation, implementer, true);
      UpdateTeam(r, built.value);
      var tested := TeamGate(built.value, GateC, TestReport, cfg.v.test, tester, true);
      if tested.None? {
        UpdateRun(r, NeedsUser, RetryReady);
        return false;
      }
      UpdateTeam(r, tested.value);
      return true;
    }

    /** `_handle_auto_codex_verify`. */
    method HandleVerify(lease: bool, packet: bool)
      modifies this
      ensures View() == Next(cfg, old(View()), Verify(lease, packet))
    {
      hide LatestActive, BeginAudit, CheckBuild, CheckTests;
      var active := FindActive();
      if active.None? {
        return;
      }
      var r := active.value;
      if !(runs[r].stage.ClaudeDone? || runs[r].stage.RetryReady?) {
        return;
      }
      if runs[r].team.Some? {
        var open := PassAuditGates(r);
        if !open {
          return;
        }
        SameAudit(old(View()), r, runs[r], lease, packet);
      }
      LaunchAudit(r, lease, packet);
    }

    /** The report, the tester that follows it and its verdict, for a running implementer job of `agent`. */
    method RecordBuild(team: Team, agent: nat, implementation: string, test: string, reuse: bool) returns (b: Built)
      ensures b == Build(cfg.v, team, agent, implementation, test, reuse)
    {
      hide RunningJob, HasArtifact, JobOf, SetJob;
      var j := RunningTeamJob(team.jobs, Implementer, agent);
      if j.None? {
        return Built(team, None);
      }
      var reported := HasTeamArtifact(team.artifacts, ImplementationReport, j);
      if reported {
        return Built(SetJob(team, j.value, JobDone), None);
      }
      b := Report(cfg.v, team, j.value, implementation, test, reuse);
      b := Built(SetJob(b.team, j.value, JobDone), b.passed);
    }

    /** `_transition_auto_claude_completed`. */
    method TransitionClaudeCompleted(done: bool, implementation: string, test: string)
      modifies this`runs
      ensures View() == Next(cfg, old(View()), ClaudeCompletes(done, implementation, test))
    {
      hide LatestActive, Build, Testers;
      var active := FindActive();
      if active.None? {
        return;
      }
      var r := active.value;
      var run := runs[r];
      if !run.stage.ClaudeRunning? {
        return;
      }
      UpdateRun(r, if done then NeedsUser else Failed, if done then ClaudeDone else run.stage);
      if !done || run.team.None? || activeClaude.None? {
        return;
      }
      var b := RecordBuild(run.team.value, activeClaude.value, implementation, test, false);
      UpdateTeam(r, b.team);
      if b.passed == Some(false) {
        var attempts := TesterAttempts(b.team.jobs);
        UpdateRun(r, NeedsUser, RetryReady);
        if attempts < MAX_INTERNAL_TEST_ATTEMPTS {
          runs := runs[r := runs[r].(scheduled := runs[r].scheduled + 1, pending := runs[r].pending + 1)];
        }
      }
    }

    /** The verification branch of `_advance_staged_auto_on_completion`: audit report, Gate D, and completion. */
    method RecordAudit(team: Team, agent: nat, report: string) returns (next: Team, allowed: bool)
      ensures (next, allowed) == Audit(cfg.v, team, agent, report)
    {
      hide RunningJob, HasArtifact;
      var j := RunningTeamJob(team.jobs, Auditor, agent);
      if j.None? {
        return team, false;
      }
      var reported := HasTeamArtifact(team.artifacts, AuditReport, j);
      if reported {
        return SetJob(team, j.value, JobDone), false;
      }
      next := AddArtifact(team, AuditReport, j, report);
      var gate := cfg.v.audit(report);
      if gate {
        next := LogGate(next, GateD, |team.artifacts|, j);
      }
      allowed := gate && cfg.v.passing(report);
      next := SetJob(next, j.value, JobDone);
      if allowed {
        next := next.(status := TeamCompleted);
      }
    }

    /** `_advance_staged_auto_on_completion`. */
    method AdvanceOnCompletion(done: bool, text: string, test: string)
      modifies this`runs
      ensures View() == Next(cfg, old(View()), CodexCompletes(done, text, test))
    {
      hide LatestActive, Build, Audit, RecordPlan, FailRunning;
      var active := FindActive();
      if active.None? || activeTask.None? || activeTask.value >= |agents| || !agents[activeTask.value].codex {
        return;
      }
      var r := active.value;
      var run := runs[r];
      var agent := activeTask.value;
      match agents[agent].role
      case Analysis =>
        if done {
          runs := runs[r := run.(status := NeedsUser, stage := CollectingContext, planned := Strip(text) != "")];
        }
      case FinalPlan =>
        if done {
          runs := runs[r := run.(status := NeedsUser, stage := DraftReady, planned := Strip(text) != "")];
          if run.team.Some? {
            UpdateTeam(r, RecordPlan(run.team.value, agent, text));
          }
        }
      case Implementation =>
        FinishImplementation(r, agent, done, text, test);
      case Verification =>
        FinishVerification(r, agent, done, text);
      case Takeover =>
        if done {
          runs := runs[r := run.(status := Passed, stage := Completed, planned := Strip(text) != "")];
        }
      case Direct =>
    }

    method FinishImplementation(r: nat, agent: nat, done: bool, text: string, test: string)
      requires r < |runs|
      modifies this`runs
      ensures View() == Put(old(View()), r, CodexRow(cfg, old(runs)[r], Implementation, agent, done, text, test))
    {
      hide Build, FailRunning;
      var run := runs[r];
      if !done {
        UpdateRun(r, Failed, run.stage);
        if run.team.Some? {
          UpdateTeam(r, FailRunning(run.team.value, Implementer, agent));
        }
        return;
      }
      var passed := None;
      if run.team.Some? {
        var b := RecordBuild(run.team.value, agent, text, test, true);
        UpdateTeam(r, b.team);
        passed := b.passed;
      }
      UpdateRun(r, NeedsUser, if passed == Some(false) then RetryReady else ClaudeDone);
    }

    method FinishVerification(r: nat, agent: nat, done: bool, report: string)
      requires r < |runs|
      modifies this`runs
      ensures forall test :: View() == Put(old(View()), r, CodexRow(cfg, old(runs)[r], Verification, agent, done, report, test))
    {
      hide Audit, FailRunning;
      var run := runs[r];
      if !done {
        UpdateRun(r, Failed, run.stage);
        if run.team.Some? {
          UpdateTeam(r, FailRunning(run.team.value, Auditor, agent));
        }
        return;
      }
      var allowed := cfg.v.passing(report);
      if run.team.Some? {
        var team;
        team, allowed := RecordAudit(run.team.value, agent, report);
        UpdateTeam(r, team);
      }
      UpdateRun(r, NeedsUser, if allowed then Completed else RetryReady);
    }
  }
}
