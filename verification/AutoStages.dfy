/** Where each completion and each click leads a run, told by the stages, the reports and the jobs alone. */
module AutoStages {
  import opened Options
  import opened Decimal
  import opened AutoTeam
  import opened AutoWorkflow

  /** The text has something to read in it. */
  predicate Says(text: string) { exists i :: 0 <= i < |text| && !IsSpace(text[i]) }

  /** Job `j` is the first running job of that role for that agent run. */
  predicate FirstRunning(jobs: seq<Job>, role: JobRole, agent: nat, j: nat) {
    && j < |jobs| && jobs[j].role == role && jobs[j].status.JobRunning? && jobs[j].agent == agent
    && forall i :: 0 <= i < j ==> !(jobs[i].role == role && jobs[i].status.JobRunning? && jobs[i].agent == agent)
  }

  predicate NoReport(t: Team, kind: Kind, job: nat) {
    forall a :: 0 <= a < |t.artifacts| ==> !(t.artifacts[a].kind == kind && t.artifacts[a].job == Some(job))
  }

  /** The agent run's first running job of the role has no report of the kind yet. */
  ghost predicate FirstReport(t: Team, role: JobRole, kind: Kind, agent: nat) {
    exists j: nat :: FirstRunning(t.jobs, role, agent, j) && NoReport(t, kind, j)
  }

  lemma RunningIsFirst(t: Team, role: JobRole, kind: Kind, agent: nat)
    ensures var j := RunningJob(t.jobs, role, agent, 0);
            FirstReport(t, role, kind, agent) <==> j.Some? && !HasArtifact(t.artifacts, kind, j)
  {
    var r := RunningJob(t.jobs, role, agent, 0);
    if r.Some? {
      assert FirstRunning(t.jobs, role, agent, r.value);
      forall j: nat | FirstRunning(t.jobs, role, agent, j) ensures j == r.value {
        assert t.jobs[j] == Job(role, JobRunning, agent);
      }
    } else {
      assert forall j: nat :: j < |t.jobs| ==> t.jobs[j] != Job(role, JobRunning, agent);
    }
  }

  lemma StripSays(s: string)
    ensures Strip(s) != "" <==> Says(s)
  {
    hide Strip, IsSpace;
    var i, j := StripMeans(s);
    if i < j { assert Says(s); }
  }

  // ---- Codex completions ----

  /** A Codex agent run is the active task of the conversation, and `r` is the run that its completion advances. */
  predicate Completing(s: State, r: nat, role: AgentRole) {
    && LatestActive(s.runs) == Some(r)
    && s.activeTask.Some? && s.activeTask.value < |s.agents|
    && s.agents[s.activeTask.value].codex && s.agents[s.activeTask.value].role == role
  }

  /** Nothing but run `r` changes. */
  predicate OnlyRun(s: State, t: State, r: nat) {
    && |t.runs| == |s.runs| && (forall i :: 0 <= i < |s.runs| && i != r ==> t.runs[i] == s.runs[i])
    && t.agents == s.agents && t.activeTask == s.activeTask && t.activeClaude == s.activeClaude && t.launches == s.launches
  }

  /**
   The end of an audit.  The run is completed, for the user to close, exactly if the report passes and either the run has
   no team or the report is valid and the first of a running auditor job of that agent run; then, and only then, is the
   team completed.  Any other report sends the run back for a retry; an audit that fails fails the run where it stands.
   */
  lemma AuditOutcome(cfg: Config, s: State, r: nat, done: bool, text: string, test: string)
    requires Completing(s, r, Verification) && r < |s.runs|
    ensures var t := Next(cfg, s, CodexCompletes(done, text, test));
            var agent, before := s.activeTask.value, s.runs[r];
            && OnlyRun(s, t, r)
            && var after := t.runs[r];
               && (after.team.Some? <==> before.team.Some?)
               && (done ==>
                     && after.status.NeedsUser? && (after.stage.Completed? || after.stage.RetryReady?)
                     && (after.stage.Completed? <==>
                           && cfg.v.passing(text)
                           && (before.team.Some? ==> cfg.v.audit(text) && FirstReport(before.team.value, Auditor, AuditReport, agent)))
                     && (before.team.Some? && after.stage.Completed? ==> after.team.value.status.TeamCompleted?)
                     && (before.team.Some? && after.stage.RetryReady? ==> after.team.value.status == before.team.value.status))
               && (!done ==>
                     && after.status.Failed? && after.stage == before.stage
                     && (before.team.Some? ==> after.team.value.status.TeamFailed?))
  {
    var run, agent := s.runs[r], s.activeTask.value;
    if run.team.Some? {
      RunningIsFirst(run.team.value, Auditor, AuditReport, agent);
    }
  }

  /** Analysis ends in collected context, a final plan in a draft, a take-over in a passed run; each keeps what it wrote if it wrote anything. */
  lemma ReadingOutcome(cfg: Config, s: State, r: nat, role: AgentRole, done: bool, text: string, test: string)
    requires Completing(s, r, role) && r < |s.runs| && (role.Analysis? || role.FinalPlan? || role.Takeover? || role.Direct?)
    ensures var t := Next(cfg, s, CodexCompletes(done, text, test));
            var before := s.runs[r];
            && OnlyRun(s, t, r)
            && var after := t.runs[r];
               if !done || role.Direct? then after == before
               else
                 && (after.planned <==> Says(text))
                 && (match role
                     case Analysis => after.status.NeedsUser? && after.stage.CollectingContext? && after.team == before.team
                     case FinalPlan => after.status.NeedsUser? && after.stage.DraftReady?
                     case _ => after.status.Passed? && after.stage.Completed? && after.team == before.team)
  {
    StripSays(text);
  }

  /**
   Codex work on the code: it is ready for the audit unless its first report came with a failing test report; that report
   counts when the agent run's first tester, if it has one already, has none yet.
   */
  lemma ImplementationOutcome(cfg: Config, s: State, r: nat, done: bool, text: string, test: string)
    requires Inv(cfg, s) && Completing(s, r, Implementation) && r < |s.runs|
    ensures var t := Next(cfg, s, CodexCompletes(done, text, test));
            var agent, before := s.activeTask.value, s.runs[r];
            && OnlyRun(s, t, r)
            && var after := t.runs[r];
               && (done ==>
                     && after.status.NeedsUser? && (after.stage.RetryReady? || after.stage.ClaudeDone?)
                     && (after.stage.RetryReady? <==>
                           && before.team.Some? && !cfg.v.test(test)
                           && FirstReport(before.team.value, Implementer, ImplementationReport, agent)
                           && Untested(before.team.value, agent)))
               && (!done ==> after.status.Failed? && after.stage == before.stage)
  {
    hide Inv, TeamInv, PlanPassed;
    var run, agent := s.runs[r], s.activeTask.value;
    if run.team.Some? {
      RowInv(cfg, s, r);
      RunningIsFirst(run.team.value, Implementer, ImplementationReport, agent);
      ReportPasses(cfg, run.team.value, agent, text, test);
    }
  }

  /** The first tester of the agent run, if there is one, has no test report. */
  ghost predicate Untested(t: Team, agent: nat) {
    forall k: nat :: FirstTester(t.jobs, agent, k) ==> NoReport(t, TestReport, k)
  }

  predicate FirstTester(jobs: seq<Job>, agent: nat, k: nat) {
    && k < |jobs| && jobs[k].role.Tester? && jobs[k].agent == agent
    && forall i :: 0 <= i < k ==> !(jobs[i].role.Tester? && jobs[i].agent == agent)
  }

  lemma {:induction false} FirstOfAgent(jobs: seq<Job>, role: JobRole, agent: nat, from: nat)
    ensures var k := JobOf(jobs, role, agent, from);
            if k.Some? then forall i :: from <= i < k.value ==> !(jobs[i].role == role && jobs[i].agent == agent)
            else forall i :: from <= i < |jobs| ==> !(jobs[i].role == role && jobs[i].agent == agent)
    decreases |jobs| - from
  {
    if from < |jobs| && !(jobs[from].role == role && jobs[from].agent == agent) {
      FirstOfAgent(jobs, role, agent, from + 1);
    }
  }

  lemma ReportPasses(cfg: Config, t: Team, agent: nat, text: string, test: string)
    requires TeamInv(cfg.v, t)
    ensures var b := Build(cfg.v, t, agent, text, test, true);
            var j := RunningJob(t.jobs, Implementer, agent, 0);
            b.passed == Some(false) <==>
              j.Some? && !HasArtifact(t.artifacts, ImplementationReport, j) && Untested(t, agent) && !cfg.v.test(test)
  {
    hide PlanPassed, AuditorBacked, PassingAudit, RunningJob;
    FirstOfAgent(t.jobs, Tester, agent, 0);
    var j := RunningJob(t.jobs, Implementer, agent, 0);
    if j.Some? && !HasArtifact(t.artifacts, ImplementationReport, j) {
      var earlier := JobOf(t.jobs, Tester, agent, 0);
      var k := if earlier.Some? then earlier.value else |t.jobs|;
      NoTestYet(cfg.v, t, j.value, text, k);
    }
  }

  lemma NoTestYet(v: Validators, t: Team, j: nat, text: string, k: nat)
    requires TeamInv(v, t)
    ensures HasArtifact(t.artifacts + [Artifact(ImplementationReport, Some(j), text)], TestReport, Some(k)) <==> !NoReport(t, TestReport, k)
    ensures k >= |t.jobs| ==> NoReport(t, TestReport, k)
  {
    hide PlanPassed, AuditorBacked, PassingAudit;
    var more := t.artifacts + [Artifact(ImplementationReport, Some(j), text)];
    if a :| 0 <= a < |t.artifacts| && t.artifacts[a].kind.TestReport? && t.artifacts[a].job == Some(k) {
      assert more[a] == t.artifacts[a];
      assert ReportPlaced(t, a);
    }
  }

  // ---- The gates ----

  /** Artifact `i` is the newest of its kind, or the newest of its kind on that job. */
  predicate Newest(t: Team, kind: Kind, i: nat) {
    i < |t.artifacts| && t.artifacts[i].kind == kind && forall k :: i < k < |t.artifacts| ==> t.artifacts[k].kind != kind
  }

  predicate NewestOn(t: Team, kind: Kind, j: nat, i: nat) {
    && i < |t.artifacts| && t.artifacts[i].kind == kind && t.artifacts[i].job == Some(j)
    && forall k :: i < k < |t.artifacts| ==> !(t.artifacts[k].kind == kind && t.artifacts[k].job == Some(j))
  }

  predicate NewestDone(t: Team, role: JobRole, j: nat) {
    && j < |t.jobs| && t.jobs[j].role == role && t.jobs[j].status.JobDone?
    && forall k :: j < k < |t.jobs| ==> !(t.jobs[k].role == role && t.jobs[k].status.JobDone?)
  }

  /** Gate A: the newest diagnosis of a bug, or the newest plan of a feature, is valid. */
  ghost predicate PlanOpens(v: Validators, t: Team) {
    if t.route.Bug? then exists i: nat :: Newest(t, DiagnosisReport, i) && v.diagnosis(t.artifacts[i].payload)
    else exists i: nat :: Newest(t, ArchitecturePlan, i) && v.plan(t.artifacts[i].payload)
  }

  /** Gate B: the newest report of the newest done implementer is valid. */
  ghost predicate BuildOpens(v: Validators, t: Team) {
    exists j: nat, i: nat :: NewestDone(t, Implementer, j) && NewestOn(t, ImplementationReport, j, i) && v.implementation(t.artifacts[i].payload)
  }

  /** Gate C: the newest test report of the newest done tester is valid. */
  ghost predicate TestsOpen(v: Validators, t: Team) {
    exists j: nat, i: nat :: NewestDone(t, Tester, j) && NewestOn(t, TestReport, j, i) && v.test(t.artifacts[i].payload)
  }

  /**
   A final plan opens Gate A: when a text that says something comes from the investigator of a bug or the architect of a
   feature, is that job's first report and is valid, the gate passes on it, and the job is done.
   */
  lemma RecordedPlanOpens(cfg: Config, s: State, r: nat, text: string, test: string, j: nat)
    requires Completing(s, r, FinalPlan) && r < |s.runs| && s.runs[r].team.Some? && Says(text)
    requires var t, agent := s.runs[r].team.value, s.activeTask.value;
             if t.route.Bug? then FirstRunning(t.jobs, Investigator, agent, j) && NoReport(t, DiagnosisReport, j) && cfg.v.diagnosis(text)
             else FirstRunning(t.jobs, Architect, agent, j) && NoReport(t, ArchitecturePlan, j) && cfg.v.plan(text)
    ensures var u := Next(cfg, s, CodexCompletes(true, text, test));
            && r < |u.runs| && u.runs[r].team.Some? && u.runs[r].stage.DraftReady? && PlanOpens(cfg.v, u.runs[r].team.value)
            && j < |u.runs[r].team.value.jobs| && u.runs[r].team.value.jobs[j].status.JobDone?
            && u.runs[r].team.value.artifacts[..|s.runs[r].team.value.artifacts|] == s.runs[r].team.value.artifacts
  {
    StripSays(text);
    var t, agent := s.runs[r].team.value, s.activeTask.value;
    PlanRecorded(t, agent, text, j);
    var u := RecordPlan(t, agent, text);
    assert Newest(u, PlanKind(t.route), |t.artifacts|);
  }

  lemma PlanRecorded(t: Team, agent: nat, text: string, j: nat)
    requires Strip(text) != "" && FirstRunning(t.jobs, FirstRole(t.route), agent, j) && NoReport(t, PlanKind(t.route), j)
    ensures var u := RecordPlan(t, agent, text);
            && u.route == t.route && u.artifacts == t.artifacts + [Artifact(PlanKind(t.route), Some(j), text)]
            && |u.jobs| == |t.jobs| && u.jobs[j].status.JobDone?
  {
    assert RunningJob(t.jobs, FirstRole(t.route), agent, 0) == Some(j) by {
      assert t.jobs[j] == Job(FirstRole(t.route), JobRunning, agent);
      var first := RunningJob(t.jobs, FirstRole(t.route), agent, 0);
      assert first.Some?;
    }
  }

  lemma NewestReads(t: Team, kind: Kind)
    ensures var r := LatestArtifact(t.artifacts, kind, None); forall i: nat :: Newest(t, kind, i) <==> r == Some(i)
  {
    var r := LatestArtifact(t.artifacts, kind, None);
    forall i: nat ensures Newest(t, kind, i) <==> r == Some(i) {
      assert forall k: nat :: k < |t.artifacts| ==> (Fits(t.artifacts[k], kind, None) <==> t.artifacts[k].kind == kind);
    }
  }

  lemma NewestOnReads(t: Team, kind: Kind, j: nat)
    ensures var r := LatestArtifact(t.artifacts, kind, Some(j)); forall i: nat :: NewestOn(t, kind, j, i) <==> r == Some(i)
  {
    var r := LatestArtifact(t.artifacts, kind, Some(j));
    forall i: nat ensures NewestOn(t, kind, j, i) <==> r == Some(i) {
      assert forall k: nat :: k < |t.artifacts| ==>
               (Fits(t.artifacts[k], kind, Some(j)) <==> t.artifacts[k].kind == kind && t.artifacts[k].job == Some(j));
    }
  }

  lemma NewestDoneReads(t: Team, role: JobRole)
    ensures var r := LatestJob(t.jobs, role, Some(JobDone)); forall j: nat :: NewestDone(t, role, j) <==> r == Some(j)
  {
  }

  /** The three gates before an audit pass exactly on these reports. */
  lemma GatesExactly(v: Validators, t: Team)
    requires TeamInv(v, t)
    ensures CheckPlan(v, t).Some? <==> PlanOpens(v, t)
    ensures CheckBuild(v, t).Some? <==> BuildOpens(v, t)
    ensures CheckTests(v, t).Some? <==> TestsOpen(v, t)
    ensures forall u: Team :: u.jobs == t.jobs && u.artifacts == t.artifacts ==> (CheckTests(v, u).Some? <==> CheckTests(v, t).Some?)
  {
    hide TeamInv, Newest, NewestOn, NewestDone, LatestJob, LatestArtifact;
    NewestReads(t, DiagnosisReport);
    NewestReads(t, ArchitecturePlan);
    BuildExactly(v, t);
    TestsExactly(v, t);
  }

  lemma BuildExactly(v: Validators, t: Team)
    ensures CheckBuild(v, t).Some? <==> BuildOpens(v, t)
  {
    hide NewestOn, NewestDone, LatestJob, LatestArtifact;
    NewestDoneReads(t, Implementer);
    var j := LatestJob(t.jobs, Implementer, Some(JobDone));
    if j.Some? { NewestOnReads(t, ImplementationReport, j.value); }
  }

  lemma TestsExactly(v: Validators, t: Team)
    requires TeamInv(v, t)
    ensures CheckTests(v, t).Some? <==> TestsOpen(v, t)
  {
    hide TeamInv, NewestOn, NewestDone, LatestJob, LatestArtifact;
    NewestDoneReads(t, Tester);
    if CheckTests(v, t).Some? { TestedIsTester(v, t); }
    var j := LatestJob(t.jobs, Tester, Some(JobDone));
    if j.Some? { NewestOnReads(t, TestReport, j.value); }
  }

  // ---- Clicks ----

  predicate At(run: Run, status: Status, stage: Stage) { run.status == status && run.stage == stage }

  /** Work handed out in a stage runs, unless the packet of a team's job cannot be built: then the run has failed there. */
  predicate HandedOut(before: Run, next: Run, stage: Stage, lease: bool, packet: bool) {
    At(next, if lease && before.team.Some? && !packet then Failed else Running, stage)
  }

  /** Where a click or the end of Claude's work leads the active run. */
  ghost predicate LeadsTo(cfg: Config, run: Run, claude: Option<nat>, step: Step, next: Run) {
    match step
    case RouteDirect(codex, _, _) =>
      if !run.stage.RouteSelect? || !(if codex then cfg.codex else cfg.claude) then next == run
      else if run.goal then At(next, Running, ClaudeRunning)
      else At(next, NeedsUser, DraftReady)
    case RouteAnalysis(_, lease, packet) =>
      if !run.stage.RouteSelect? || !lease then next == run
      else if cfg.teams && !packet then At(next, Failed, RouteSelect)
      else At(next, Running, CollectingContext) && (next.team.Some? <==> cfg.teams)
    case PlainText(_, _) => if run.stage.DraftReady? then At(next, Running, CollectingContext) else next == run
    case MakePlan(rewrite, lease) =>
      if lease && run.status.NeedsUser? && (run.stage.CollectingContext? || (rewrite && run.stage.DraftReady?))
      then At(next, Running, CollectingContext) else next == run
    case SendTo(codex, lease, packet) =>
      if (run.stage.DraftReady? || run.stage.RetryReady?) && (if codex then cfg.codex else cfg.claude) && run.planned
         && (run.team.Some? ==> PlanOpens(cfg.v, run.team.value))
      then HandedOut(run, next, ClaudeRunning, lease, packet) else next == run
    case ContinueContext =>
      if run.stage.DraftReady? || run.stage.RetryReady? then At(next, Running, CollectingContext) else next == run
    case Verify(lease, packet) =>
      if !(run.stage.ClaudeDone? || run.stage.RetryReady?) then next == run
      else if run.team.Some? && !(BuildOpens(cfg.v, run.team.value) && TestsOpen(cfg.v, run.team.value)) then At(next, NeedsUser, RetryReady)
      else HandedOut(run, next, Verifying, lease, packet)
    case TakeOver(_) =>
      if run.stage.DraftReady? || run.stage.ClaudeDone? || run.stage.RetryReady? then At(next, Running, TakeoverRunning) else next == run
    case SendRepair(lease, packet) =>
      if (run.stage.ClaudeDone? || run.stage.RetryReady?) && cfg.claude then HandedOut(run, next, ClaudeRunning, lease, packet) else next == run
    case Close => At(next, Passed, Completed)
    case Cancel => At(next, Aborted, Completed)
    case ClaudeCompletes(done, _, test) =>
      if !run.stage.ClaudeRunning? then next == run
      else if !done then At(next, Failed, ClaudeRunning)
      else if run.team.Some? && claude.Some? && !cfg.v.test(test)
              && FirstReport(run.team.value, Implementer, ImplementationReport, claude.value) then At(next, NeedsUser, RetryReady)
      else At(next, NeedsUser, ClaudeDone)
    case _ => true
  }

  /** The steps the table speaks of. */
  predicate Click(step: Step) {
    !(step.StartAuto? || step.CodexCompletes? || step.InternalRepair? || step.LaunchReturns? || step.OtherTask? || step.DirectClaude?)
  }

  lemma DevelopLeads(s: State, r: nat, run: Run, codex: bool, lease: bool, packet: bool)
    requires r < |s.runs|
    ensures var t := Develop(s, r, run, codex, lease, packet);
            |t.runs| == |s.runs| && (forall i :: 0 <= i < |s.runs| && i != r ==> t.runs[i] == s.runs[i])
            && HandedOut(run, t.runs[r], ClaudeRunning, lease, packet)
  {
  }

  lemma BeginAuditLeads(s: State, r: nat, run: Run, lease: bool, packet: bool)
    requires r < |s.runs|
    ensures var t := BeginAudit(s, r, run, lease, packet);
            |t.runs| == |s.runs| && (forall i :: 0 <= i < |s.runs| && i != r ==> t.runs[i] == s.runs[i])
            && HandedOut(run, t.runs[r], Verifying, lease, packet)
  {
  }

  lemma SendToLeads(cfg: Config, s: State, r: nat, codex: bool, lease: bool, packet: bool)
    requires r < |s.runs| && TeamFits(cfg, s.runs[r])
    ensures var t := SendToOn(cfg, s, r, codex, lease, packet);
            |t.runs| == |s.runs| && (forall i :: 0 <= i < |s.runs| && i != r ==> t.runs[i] == s.runs[i])
            && LeadsTo(cfg, s.runs[r], s.activeClaude, SendTo(codex, lease, packet), t.runs[r])
  {
    hide Develop, TeamInv, CheckPlan, PlanOpens, PlanPassed;
    var run := s.runs[r];
    DevelopLeads(s, r, run, codex, lease, packet);
    if run.team.Some? {
      GatesExactly(cfg.v, run.team.value);
      DevelopLeads(s, r, run.(team := CheckPlan(cfg.v, run.team.value)), codex, lease, packet);
    }
  }

  lemma VerifyLeads(cfg: Config, s: State, r: nat, lease: bool, packet: bool)
    requires r < |s.runs| && TeamFits(cfg, s.runs[r])
    ensures var t := VerifyOn(cfg, s, r, lease, packet);
            |t.runs| == |s.runs| && (forall i :: 0 <= i < |s.runs| && i != r ==> t.runs[i] == s.runs[i])
            && LeadsTo(cfg, s.runs[r], s.activeClaude, Verify(lease, packet), t.runs[r])
  {
    hide BeginAudit, TeamInv, CheckBuild, CheckTests, BuildOpens, TestsOpen, PlanPassed;
    var run := s.runs[r];
    BeginAuditLeads(s, r, run, lease, packet);
    if run.team.Some? {
      GatesExactly(cfg.v, run.team.value);
      var built := CheckBuild(cfg.v, run.team.value);
      if built.Some? {
        BuildLogs(cfg.v, run.team.value);
        BeginAuditLeads(s, r, run.(team := CheckTests(cfg.v, built.value)), lease, packet);
      }
    }
  }

  lemma BuildLogs(v: Validators, t: Team)
    requires CheckBuild(v, t).Some?
    ensures CheckBuild(v, t).value.jobs == t.jobs && CheckBuild(v, t).value.artifacts == t.artifacts
  {
    hide LatestJob, LatestArtifact;
  }

  lemma ClaudeLeads(cfg: Config, run: Run, claude: Option<nat>, implementation: string, test: string)
    requires TeamFits(cfg, run) && run.stage.ClaudeRunning?
    ensures LeadsTo(cfg, run, claude, ClaudeCompletes(true, implementation, test), ClaudeDoneRow(cfg, run, claude, implementation, test))
  {
    hide TeamInv, PlanPassed, FirstReport, Testers;
    if run.team.Some? && claude.Some? {
      RunningIsFirst(run.team.value, Implementer, ImplementationReport, claude.value);
      FreshTester(cfg.v, run.team.value, claude.value, implementation, test);
    }
  }

  lemma FreshTester(v: Validators, t: Team, agent: nat, text: string, test: string)
    requires TeamInv(v, t)
    ensures var j := RunningJob(t.jobs, Implementer, agent, 0);
            Build(v, t, agent, text, test, false).passed == Some(false) <==>
              j.Some? && !HasArtifact(t.artifacts, ImplementationReport, j) && !v.test(test)
  {
    hide TeamInv, RunningJob, NoReport;
    var j := RunningJob(t.jobs, Implementer, agent, 0);
    if j.Some? { NoTestYet(v, t, j.value, text, |t.jobs|); }
  }

  /**
   The table of the workflow: from every reachable state, where each click and the end of Claude's work lead the active
   run, told by its stage and status, by what is enabled, and by the reports its gates read.  No other run moves.
   */
  lemma ClicksLead(cfg: Config, s: State, r: nat, step: Step)
    requires Inv(cfg, s) && LatestActive(s.runs) == Some(r) && Click(step)
    ensures var t := Next(cfg, s, step);
            |t.runs| == |s.runs| && (forall i :: 0 <= i < |s.runs| && i != r ==> t.runs[i] == s.runs[i])
            && LeadsTo(cfg, s.runs[r], s.activeClaude, step, t.runs[r])
  {
    hide Inv, RunInv, LatestActive, LeadsTo, OnActive;
    RowInv(cfg, s, r);
    if Gated(step) { GatedLead(cfg, s, r, step); } else { PlainLead(cfg, s, r, step); }
  }

  predicate Gated(step: Step) {
    step.RouteDirect? || step.SendTo? || step.Verify? || step.SendRepair? || step.ClaudeCompletes?
  }

  lemma GatedLead(cfg: Config, s: State, r: nat, step: Step)
    requires r < |s.runs| && RunInv(cfg, s.runs[r]) && Active(s.runs[r]) && Gated(step)
    ensures var t := OnActive(cfg, s, r, step);
            |t.runs| == |s.runs| && (forall i :: 0 <= i < |s.runs| && i != r ==> t.runs[i] == s.runs[i])
            && LeadsTo(cfg, s.runs[r], s.activeClaude, step, t.runs[r])
  {
    hide TeamInv, PlanPassed, Develop, SendToOn, VerifyOn, RouteDirectOn, ClaudeDoneRow, PlanOpens, BuildOpens, TestsOpen, FirstReport;
    match step
    case RouteDirect(codex, lease, packet) => DirectLeads(cfg, s, r, codex, lease, packet);
    case SendTo(codex, lease, packet) => SendToLeads(cfg, s, r, codex, lease, packet);
    case Verify(lease, packet) => VerifyLeads(cfg, s, r, lease, packet);
    case SendRepair(lease, packet) => DevelopLeads(s, r, s.runs[r], false, lease, packet);
    case ClaudeCompletes(_, implementation, test) =>
      if s.runs[r].stage.ClaudeRunning? { ClaudeLeads(cfg, s.runs[r], s.activeClaude, implementation, test); }
  }

  lemma PlainLead(cfg: Config, s: State, r: nat, step: Step)
    requires r < |s.runs| && RunInv(cfg, s.runs[r]) && Active(s.runs[r]) && Click(step) && !Gated(step)
    ensures var t := OnActive(cfg, s, r, step);
            |t.runs| == |s.runs| && (forall i :: 0 <= i < |s.runs| && i != r ==> t.runs[i] == s.runs[i])
            && LeadsTo(cfg, s.runs[r], s.activeClaude, step, t.runs[r])
  {
    hide TeamInv, PlanPassed, Wrecked;
    if step.RouteAnalysis? { WreckedAt(s.runs[r].(team := Some(NewTeam(step.route, |s.agents|))), Some(0)); }
  }

  lemma WreckedAt(run: Run, job: Option<nat>)
    ensures At(Wrecked(run, job), Failed, run.stage)
  {}

  lemma DirectLeads(cfg: Config, s: State, r: nat, codex: bool, lease: bool, packet: bool)
    requires r < |s.runs| && RunInv(cfg, s.runs[r]) && Active(s.runs[r])
    ensures var t := RouteDirectOn(cfg, s, r, codex, lease, packet);
            |t.runs| == |s.runs| && (forall i :: 0 <= i < |s.runs| && i != r ==> t.runs[i] == s.runs[i])
            && LeadsTo(cfg, s.runs[r], s.activeClaude, RouteDirect(codex, lease, packet), t.runs[r])
  {
    hide TeamInv, PlanPassed, SendToOn, PlanOpens;
    var run := s.runs[r];
    if run.stage.RouteSelect? {
      var drafted := run.(status := NeedsUser, stage := DraftReady, planned := run.goal);
      SendToLeads(cfg, Put(s, r, drafted), r, codex, lease, packet);
    }
  }

  /**
   The repair without a click: it is scheduled exactly when Claude's work ends in a failed test and the team has had fewer
   than three testers, that one included.
   */
  lemma RepairScheduledExactly(cfg: Config, s: State, r: nat, done: bool, implementation: string, test: string)
    requires Inv(cfg, s) && LatestActive(s.runs) == Some(r)
    ensures var t := Next(cfg, s, ClaudeCompletes(done, implementation, test));
            r < |t.runs|
            && var run, next := s.runs[r], t.runs[r];
               var due := run.stage.ClaudeRunning? && next.stage.RetryReady? && next.team.Some? && Testers(next.team.value.jobs) < 3;
               && next.scheduled == run.scheduled + (if due then 1 else 0)
               && next.pending == run.pending + (if due then 1 else 0) && next.begun == run.begun
  {
    hide Inv, Build, Testers;
  }

  /**
   And when it runs, it acts on whatever run is active then: one that waits for an audit or a retry is handed to Claude
   once more, or is sent back for a retry if no lease is to be had; any other stays where it is.
   */
  lemma RepairLeads(cfg: Config, s: State, origin: nat, r: nat, lease: bool, packet: bool)
    requires LatestActive(s.runs) == Some(r) && origin < |s.runs| && r < |s.runs|
    ensures var t := Next(cfg, s, InternalRepair(origin, lease, packet));
            var open := (s.runs[r].stage.ClaudeDone? || s.runs[r].stage.RetryReady?) && cfg.claude;
            && |t.runs| == |s.runs|
            && (s.runs[origin].pending == 0 ==> t == s)
            && (s.runs[origin].pending > 0 ==>
                  && (if !open then At(t.runs[r], s.runs[r].status, s.runs[r].stage)
                      else if lease then HandedOut(s.runs[r], t.runs[r], ClaudeRunning, true, packet)
                      else At(t.runs[r], NeedsUser, RetryReady))
                  && t.runs[origin].pending == s.runs[origin].pending - 1
                  && t.runs[origin].begun == s.runs[origin].begun + if open && lease then 1 else 0)
  {
    hide Develop, LatestActive;
    if s.runs[origin].pending > 0 {
      var begins := RepairOpen(cfg, s.runs[r]) && lease;
      var u := Put(s, origin, TakeRepair(s.runs[origin], begins));
      DevelopLeads(u, r, u.runs[r], false, lease, packet);
      DevelopKeepsCounts(u, r, u.runs[r], lease, packet);
    }
  }

  lemma DevelopKeepsCounts(s: State, r: nat, run: Run, lease: bool, packet: bool)
    requires r < |s.runs|
    ensures var t := Develop(s, r, run, false, lease, packet);
            r < |t.runs| && t.runs[r].pending == run.pending && t.runs[r].begun == run.begun
  {}

  // ---- Whom a click puts to work ----

  /** The agent run a click starts for the active run: its role, and whether Codex does it. */
  ghost function Employs(cfg: Config, run: Run, step: Step): Option<(AgentRole, bool)> {
    match step
    case RouteDirect(codex, lease, _) =>
      if run.stage.RouteSelect? && (if codex then cfg.codex else cfg.claude) && run.goal && lease then Some((Implementation, codex)) else None
    case RouteAnalysis(_, lease, _) => if run.stage.RouteSelect? && lease then Some((Analysis, true)) else None
    case PlainText(steered, lease) =>
      if (run.stage.CollectingContext? || run.stage.DraftReady?) && !steered && lease then Some((Analysis, true)) else None
    case MakePlan(rewrite, lease) =>
      if lease && run.status.NeedsUser? && (run.stage.CollectingContext? || (rewrite && run.stage.DraftReady?))
      then Some((FinalPlan, true)) else None
    case SendTo(codex, lease, _) =>
      if (run.stage.DraftReady? || run.stage.RetryReady?) && (if codex then cfg.codex else cfg.claude) && run.planned
         && (run.team.Some? ==> PlanOpens(cfg.v, run.team.value)) && lease then Some((Implementation, codex)) else None
    case Verify(lease, _) =>
      if (run.stage.ClaudeDone? || run.stage.RetryReady?) && lease
         && (run.team.Some? ==> BuildOpens(cfg.v, run.team.value) && TestsOpen(cfg.v, run.team.value)) then Some((Verification, true)) else None
    case TakeOver(lease) =>
      if (run.stage.DraftReady? || run.stage.ClaudeDone? || run.stage.RetryReady?) && lease then Some((Takeover, true)) else None
    case SendRepair(lease, _) =>
      if (run.stage.ClaudeDone? || run.stage.RetryReady?) && cfg.claude && lease then Some((Implementation, false)) else None
    case _ => None
  }

  /** One new agent run is the conversation's active task, or none is new. */
  ghost predicate Employed(s: State, t: State, r: nat, work: Option<(AgentRole, bool)>) {
    if work.None? then t.agents == s.agents && t.activeTask == s.activeTask && t.activeClaude == s.activeClaude && t.launches == s.launches
    else
      && t.agents == s.agents + [Agent(work.value.0, r, work.value.1)] && t.activeTask == Some(|s.agents|)
      && t.activeClaude == if work.value.1 then s.activeClaude else Some(|s.agents|)
  }

  /** The team's new job, for the new agent run, failed if its packet could not be built. */
  ghost predicate Hired(before: Run, next: Run, role: JobRole, agent: nat, packet: bool) {
    before.team.Some? ==>
      next.team.Some? && next.team.value.jobs == before.team.value.jobs + [Job(role, if packet then JobRunning else JobFailed, agent)]
  }

  lemma DevelopEmploys(s: State, r: nat, run: Run, codex: bool, lease: bool, packet: bool)
    requires r < |s.runs|
    ensures var t := Develop(s, r, run, codex, lease, packet);
            && Employed(s, t, r, if lease then Some((Implementation, codex)) else None)
            && r < |t.runs| && (lease ==> Hired(run, t.runs[r], Implementer, |s.agents|, packet))
            && t.launches == s.launches + if lease && codex && (run.team.Some? ==> packet)
                                          then [Launch(r, if run.team.Some? then Some(|run.team.value.jobs|) else None, true)] else []
  {
  }

  lemma BeginAuditEmploys(s: State, r: nat, run: Run, lease: bool, packet: bool)
    requires r < |s.runs|
    ensures var t := BeginAudit(s, r, run, lease, packet);
            && Employed(s, t, r, if lease then Some((Verification, true)) else None)
            && r < |t.runs| && (lease ==> Hired(run, t.runs[r], Auditor, |s.agents|, packet))
            && t.launches == s.launches + if lease && (run.team.Some? ==> packet)
                                          then [Launch(r, if run.team.Some? then Some(|run.team.value.jobs|) else None, true)] else []
  {
  }

  lemma SendToEmploys(cfg: Config, s: State, r: nat, codex: bool, lease: bool, packet: bool)
    requires r < |s.runs| && TeamFits(cfg, s.runs[r])
    ensures var t := SendToOn(cfg, s, r, codex, lease, packet);
            var work := Employs(cfg, s.runs[r], SendTo(codex, lease, packet));
            Employed(s, t, r, work) && r < |t.runs| && (work.Some? ==> Hired(s.runs[r], t.runs[r], Implementer, |s.agents|, packet))
  {
    hide Develop, TeamInv, CheckPlan, PlanOpens, PlanPassed;
    var run := s.runs[r];
    DevelopEmploys(s, r, run, codex, lease, packet);
    if run.team.Some? {
      GatesExactly(cfg.v, run.team.value);
      if CheckPlan(cfg.v, run.team.value).Some? { PlanLogs(cfg.v, run.team.value); }
      DevelopEmploys(s, r, run.(team := CheckPlan(cfg.v, run.team.value)), codex, lease, packet);
    }
  }

  lemma PlanLogs(v: Validators, t: Team)
    requires CheckPlan(v, t).Some?
    ensures CheckPlan(v, t).value.jobs == t.jobs
  {
    hide LatestArtifact;
  }

  lemma VerifyEmploys(cfg: Config, s: State, r: nat, lease: bool, packet: bool)
    requires r < |s.runs| && TeamFits(cfg, s.runs[r])
    ensures var t := VerifyOn(cfg, s, r, lease, packet);
            var work := Employs(cfg, s.runs[r], Verify(lease, packet));
            Employed(s, t, r, work) && r < |t.runs| && (work.Some? ==> Hired(s.runs[r], t.runs[r], Auditor, |s.agents|, packet))
  {
    hide BeginAudit, TeamInv, CheckBuild, CheckTests, BuildOpens, TestsOpen, PlanPassed;
    var run := s.runs[r];
    BeginAuditEmploys(s, r, run, lease, packet);
    if run.team.Some? {
      GatesExactly(cfg.v, run.team.value);
      var built := CheckBuild(cfg.v, run.team.value);
      if built.Some? {
        BuildLogs(cfg.v, run.team.value);
        if CheckTests(cfg.v, built.value).Some? { TestsLog(cfg.v, built.value); }
        BeginAuditEmploys(s, r, run.(team := CheckTests(cfg.v, built.value)), lease, packet);
      }
    }
  }

  lemma TestsLog(v: Validators, t: Team)
    requires CheckTests(v, t).Some?
    ensures CheckTests(v, t).value.jobs == t.jobs
  {
    hide LatestJob, LatestArtifact;
  }

  /** What the new job of a team's run is for. */
  function JobFor(role: AgentRole): JobRole { if role.Verification? then Auditor else Implementer }

  predicate PacketOf(step: Step) {
    (step.SendTo? && step.packet) || (step.Verify? && step.packet) || (step.SendRepair? && step.packet)
  }

  /**
   From every reachable state, a click starts an agent run exactly where the table says, in the role and with the backend
   it says, makes it the conversation's active task, and gives the team of a run that had one exactly one new job for it;
   any other click leaves agent runs, active task and launches alone.
   */
  lemma ClicksEmploy(cfg: Config, s: State, r: nat, step: Step)
    requires Inv(cfg, s) && LatestActive(s.runs) == Some(r) && Click(step)
    ensures var t := Next(cfg, s, step);
            var work := Employs(cfg, s.runs[r], step);
            && Employed(s, t, r, work) && r < |t.runs|
            && (work.Some? && (work.value.0.Implementation? || work.value.0.Verification?) && !step.RouteDirect? ==>
                  Hired(s.runs[r], t.runs[r], JobFor(work.value.0), |s.agents|, PacketOf(step)))
  {
    hide Inv, RunInv, LatestActive, Employs, OnActive, Hired;
    RowInv(cfg, s, r);
    if Gated(step) { GatedEmploys(cfg, s, r, step); } else { PlainEmploys(cfg, s, r, step); }
  }

  lemma GatedEmploys(cfg: Config, s: State, r: nat, step: Step)
    requires r < |s.runs| && RunInv(cfg, s.runs[r]) && Active(s.runs[r]) && Gated(step)
    ensures var t := OnActive(cfg, s, r, step);
            var work := Employs(cfg, s.runs[r], step);
            && Employed(s, t, r, work) && r < |t.runs|
            && (work.Some? && !step.RouteDirect? ==> Hired(s.runs[r], t.runs[r], JobFor(work.value.0), |s.agents|, PacketOf(step)))
  {
    hide TeamInv, PlanPassed, Develop, SendToOn, VerifyOn, RouteDirectOn, ClaudeDoneRow, PlanOpens, BuildOpens, TestsOpen, Hired;
    match step
    case RouteDirect(codex, lease, packet) => DirectEmploys(cfg, s, r, codex, lease, packet);
    case SendTo(codex, lease, packet) => SendToEmploys(cfg, s, r, codex, lease, packet);
    case Verify(lease, packet) => VerifyEmploys(cfg, s, r, lease, packet);
    case SendRepair(lease, packet) => DevelopEmploys(s, r, s.runs[r], false, lease, packet);
    case ClaudeCompletes(_, _, _) =>
  }

  lemma DirectEmploys(cfg: Config, s: State, r: nat, codex: bool, lease: bool, packet: bool)
    requires r < |s.runs| && RunInv(cfg, s.runs[r]) && Active(s.runs[r])
    ensures var t := RouteDirectOn(cfg, s, r, codex, lease, packet);
            Employed(s, t, r, Employs(cfg, s.runs[r], RouteDirect(codex, lease, packet))) && r < |t.runs|
  {
    hide TeamInv, PlanPassed, SendToOn, PlanOpens, Hired;
    var run := s.runs[r];
    if run.stage.RouteSelect? {
      var drafted := run.(status := NeedsUser, stage := DraftReady, planned := run.goal);
      SendToEmploys(cfg, Put(s, r, drafted), r, codex, lease, packet);
    }
  }

  lemma PlainEmploys(cfg: Config, s: State, r: nat, step: Step)
    requires r < |s.runs| && RunInv(cfg, s.runs[r]) && Active(s.runs[r]) && Click(step) && !Gated(step)
    ensures var t := OnActive(cfg, s, r, step);
            Employed(s, t, r, Employs(cfg, s.runs[r], step)) && r < |t.runs|
            && (Employs(cfg, s.runs[r], step).Some? ==> !Building(Employs(cfg, s.runs[r], step).value.0))
  {
    hide TeamInv, PlanPassed, Wrecked, NewTeam;
  }

  // ---- Completed over runs ----

  /** An active run with a team that waits as completed has a completed team. */
  predicate Backed(run: Run) {
    Active(run) && run.stage.Completed? && run.team.Some? ==> run.team.value.status.TeamCompleted?
  }

  ghost predicate AllBacked(s: State) { forall i :: 0 <= i < |s.runs| ==> Backed(s.runs[i]) }

  lemma LeadsBacked(cfg: Config, run: Run, claude: Option<nat>, step: Step, next: Run)
    requires Click(step) && LeadsTo(cfg, run, claude, step, next) && Backed(run)
    ensures Backed(next)
  {
    hide PlanOpens, BuildOpens, TestsOpen, FirstReport;
  }

  lemma CodexBacked(cfg: Config, s: State, r: nat, done: bool, text: string, test: string)
    requires Inv(cfg, s) && LatestActive(s.runs) == Some(r) && Backed(s.runs[r])
    ensures var t := Next(cfg, s, CodexCompletes(done, text, test));
            |t.runs| == |s.runs| && (forall i :: 0 <= i < |s.runs| && i != r ==> t.runs[i] == s.runs[i]) && Backed(t.runs[r])
  {
    hide Inv, CodexRow, FirstReport, Untested, Says, LatestActive;
    if s.activeTask.Some? && s.activeTask.value < |s.agents| && s.agents[s.activeTask.value].codex {
      var role := s.agents[s.activeTask.value].role;
      if role.Verification? { AuditOutcome(cfg, s, r, done, text, test); }
      else if role.Implementation? { ImplementationOutcome(cfg, s, r, done, text, test); }
      else { ReadingOutcome(cfg, s, r, role, done, text, test); }
    }
  }

  lemma RepairBacked(cfg: Config, s: State, origin: nat, lease: bool, packet: bool)
    requires AllBacked(s)
    ensures AllBacked(Next(cfg, s, InternalRepair(origin, lease, packet)))
  {
    hide Develop, LatestActive;
    var r := LatestActive(s.runs);
    if r.Some? && origin < |s.runs| && s.runs[origin].pending > 0 {
      var begins := RepairOpen(cfg, s.runs[r.value]) && lease;
      var t := Put(s, origin, TakeRepair(s.runs[origin], begins));
      DevelopLeads(t, r.value, t.runs[r.value], false, lease, packet);
    }
  }

  lemma ReturnBacked(s: State, k: nat, ok: bool)
    requires AllBacked(s) && k < |s.launches|
    ensures AllBacked(Returned(s, k, ok))
  {
    hide Wrecked;
    if s.launches[k].run < |s.runs| { WreckedAt(s.runs[s.launches[k].run], s.launches[k].job); }
  }

  lemma ClickBacked(cfg: Config, s: State, step: Step)
    requires Inv(cfg, s) && AllBacked(s) && Click(step)
    ensures AllBacked(Next(cfg, s, step))
  {
    hide Inv, OnActive, LeadsTo, LatestActive;
    var r := LatestActive(s.runs);
    if r.Some? {
      ClicksLead(cfg, s, r.value, step);
      LeadsBacked(cfg, s.runs[r.value], s.activeClaude, step, Next(cfg, s, step).runs[r.value]);
    }
  }

  lemma NextBacked(cfg: Config, s: State, step: Step)
    requires Inv(cfg, s) && AllBacked(s)
    ensures AllBacked(Next(cfg, s, step))
  {
    hide Inv, OnActive, Returned, InternalRepairOn, LatestActive;
    if Click(step) {
      ClickBacked(cfg, s, step);
    } else {
      var r := LatestActive(s.runs);
      if step.LaunchReturns? && step.launch < |s.launches| { ReturnBacked(s, step.launch, step.ok); }
      if step.CodexCompletes? && r.Some? { CodexBacked(cfg, s, r.value, step.done, step.text, step.test); }
      if step.InternalRepair? { RepairBacked(cfg, s, step.origin, step.lease, step.packet); }
    }
  }

  lemma {:induction false} RunBacked(cfg: Config, s: State, steps: seq<Step>)
    requires Inv(cfg, s) && AllBacked(s)
    ensures AllBacked(RunAll(cfg, s, steps))
    decreases |steps|
  {
    hide Inv, Next, AllBacked;
    if steps != [] {
      NextKeeps(cfg, s, steps[0]);
      NextBacked(cfg, s, steps[0]);
      RunBacked(cfg, Next(cfg, s, steps[0]), steps[1..]);
    }
  }

  /**
   In every reachable state: an active run that waits as completed and has a team has a completed team, and so a passing
   audit report that meets Gate D on an auditor job that Gates B and C led to.
   */
  lemma CompletedRunsAreAudited(cfg: Config, steps: seq<Step>, i: nat)
    requires i < |RunAll(cfg, Initial(), steps).runs|
    ensures var run := RunAll(cfg, Initial(), steps).runs[i];
            Active(run) && run.stage.Completed? && run.team.Some? ==>
              var t := run.team.value;
              && t.status.TeamCompleted? && PlanPassed(cfg.v, t)
              && exists a: nat :: PassingAudit(cfg.v, t, a) && AuditorBacked(cfg.v, t, t.artifacts[a].job.value)
  {
    hide RunAll, PlanPassed, AuditorBacked;
    InitialInv(cfg);
    RunBacked(cfg, Initial(), steps);
    CompletedMeansAudited(cfg, steps, i);
    assert Backed(RunAll(cfg, Initial(), steps).runs[i]);
  }
}
