/**
 The staged auto workflow of one conversation as a machine whose steps are the code between two suspensions: the
 button handlers up to their launch, the return of a launch, the completion of Claude and Codex work, and the repair
 that a failed test gate schedules without a click.
 */
module AutoWorkflow {
  import opened Options
  import opened Decimal
  import opened AutoTeam

  const MAX_INTERNAL_TEST_ATTEMPTS: nat := 3

  datatype Status = Running | NeedsUser | Passed | Failed | Aborted

  datatype Stage =
    | RouteSelect | CollectingContext | DraftReady | ClaudeRunning | ClaudeDone
    | Verifying | RetryReady | TakeoverRunning | Completed

  predicate RunningStage(stage: Stage) {
    stage.CollectingContext? || stage.ClaudeRunning? || stage.Verifying? || stage.TakeoverRunning?
  }

  predicate WaitingStage(stage: Stage) { stage.RouteSelect? || stage.DraftReady? || stage.ClaudeDone? || stage.RetryReady? }

  /**
   An orchestration run.  `scheduled`, `pending` and `begun` count the repairs its test failures scheduled, those still
   to run, and those that started.
   */
  datatype Run = Run(status: Status, stage: Stage, goal: bool, planned: bool, team: Option<Team>,
                     scheduled: nat, pending: nat, begun: nat)

  datatype AgentRole = Analysis | FinalPlan | Implementation | Verification | Takeover | Direct

  datatype Agent = Agent(role: AgentRole, run: nat, codex: bool)

  /** A Codex turn being started; its failure is written to the rows it was started for. */
  datatype Launch = Launch(run: nat, job: Option<nat>, waiting: bool)

  datatype State = State(runs: seq<Run>, agents: seq<Agent>, activeTask: Option<nat>, activeClaude: Option<nat>, launches: seq<Launch>)

  datatype Config = Config(teams: bool, claude: bool, codex: bool, v: Validators)

  datatype Step =
    | StartAuto(goal: bool)
    | RouteDirect(codex: bool, lease: bool, packet: bool)
    | RouteAnalysis(route: Route, lease: bool, packet: bool)
    | PlainText(steered: bool, lease: bool)
    | MakePlan(rewrite: bool, lease: bool)
    | SendTo(codex: bool, lease: bool, packet: bool)
    | ContinueContext
    | Verify(lease: bool, packet: bool)
    | TakeOver(lease: bool)
    | SendRepair(lease: bool, packet: bool)
    | Close
    | Cancel
    | ClaudeCompletes(done: bool, implementation: string, test: string)
    | CodexCompletes(done: bool, text: string, test: string)
    | InternalRepair(origin: nat, lease: bool, packet: bool)
    | LaunchReturns(launch: nat, ok: bool)
    | OtherTask
    | DirectClaude

  predicate Active(run: Run) { run.status.Running? || run.status.NeedsUser? }

  /** `get_latest_active_auto_run`. */
  function LatestActive(runs: seq<Run>): (r: Option<nat>)
    ensures r.Some? ==> r.value < |runs| && Active(runs[r.value])
    ensures forall i: nat :: (if r.Some? then r.value + 1 else 0) <= i < |runs| ==> !Active(runs[i])
  {
    if runs == [] then None
    else if Active(runs[|runs| - 1]) then Some(|runs| - 1)
    else LatestActive(runs[..|runs| - 1])
  }

  // ---- Building blocks ----

  function Put(s: State, r: nat, run: Run): State
    requires r < |s.runs|
  {
    s.(runs := s.runs[r := run])
  }

  /** Reserving a lease makes the new agent run's task the conversation's active one. */
  function Reserve(s: State, r: nat, role: AgentRole, codex: bool): State {
    s.(agents := s.agents + [Agent(role, r, codex)], activeTask := Some(|s.agents|))
  }

  function NotedClaude(s: State, agent: nat): State { s.(activeClaude := Some(agent)) }

  function Launched(s: State, r: nat, job: Option<nat>): State {
    s.(launches := s.launches + [Launch(r, job, true)])
  }

  /** The job a handler is about to create, if the run has a team. */
  function NewJobId(run: Run): Option<nat> { if run.team.Some? then Some(|run.team.value.jobs|) else None }

  function WithJob(run: Run, role: JobRole, agent: nat): Run {
    if run.team.None? then run else run.(team := Some(AddJob(run.team.value, role, agent)))
  }

  function WithRequest(run: Run): Run {
    if run.team.None? || run.team.value.jobs == [] then run
    else run.(team := Some(AddArtifact(run.team.value, VerificationRequest, Some(|run.team.value.jobs| - 1), "")))
  }

  /** What a failed packet or launch writes: the run, its team and the job all failed. */
  function Wrecked(run: Run, job: Option<nat>): Run {
    var failed := run.(status := Failed);
    if run.team.None? then failed
    else failed.(team := Some(if job.Some? then FailJob(run.team.value, job.value) else run.team.value.(status := TeamFailed)))
  }

  /** Puts a run that starts work into its stage, then reserves; a refused lease raises and leaves the stage set. */
  function Develop(s: State, r: nat, run: Run, codex: bool, lease: bool, packet: bool): State
    requires r < |s.runs|
  {
    var moving := run.(status := Running, stage := ClaudeRunning);
    if !lease then Put(s, r, moving)
    else
      var agent := |s.agents|;
      var job := NewJobId(moving);
      var staffed := WithJob(moving, Implementer, agent);
      var broken := job.Some? && !packet;
      var t := Reserve(Put(s, r, if broken then Wrecked(staffed, job) else staffed), r, Implementation, codex);
      var u := if codex then t else NotedClaude(t, agent);
      if codex && !broken then Launched(u, r, job) else u
  }

  // ---- Handlers on the latest active run ----

  function RouteAnalysisOn(cfg: Config, s: State, r: nat, route: Route, lease: bool, packet: bool): State
    requires r < |s.runs|
  {
    var run := s.runs[r];
    if !run.stage.RouteSelect? || !lease then s
    else
      var agent := |s.agents|;
      var teamed := if cfg.teams then run.(team := Some(NewTeam(route, agent))) else run;
      var job := if cfg.teams then Some(0) else None;
      if cfg.teams && !packet then Reserve(Put(s, r, Wrecked(teamed, job)), r, Analysis, true)
      else Launched(Reserve(Put(s, r, teamed.(status := Running, stage := CollectingContext)), r, Analysis, true), r, job)
  }

  function PlainTextOn(s: State, r: nat, steered: bool, lease: bool): State
    requires r < |s.runs|
  {
    var run := s.runs[r];
    if !(run.stage.CollectingContext? || run.stage.DraftReady?) then s
    else
      var t := if run.stage.DraftReady? then Put(s, r, run.(status := Running, stage := CollectingContext)) else s;
      if steered || !lease then t else Reserve(t, r, Analysis, true)
  }

  function MakePlanOn(s: State, r: nat, rewrite: bool, lease: bool): State
    requires r < |s.runs|
  {
    var run := s.runs[r];
    var collecting := run.stage.CollectingContext? && run.status.NeedsUser?;
    var rewriting := rewrite && run.status.NeedsUser? && run.stage.DraftReady?;
    if !(collecting || rewriting) || !lease then s
    else Reserve(Put(s, r, run.(status := Running, stage := CollectingContext)), r, FinalPlan, true)
  }

  function SendToOn(cfg: Config, s: State, r: nat, codex: bool, lease: bool, packet: bool): State
    requires r < |s.runs|
  {
    var run := s.runs[r];
    if !(run.stage.DraftReady? || run.stage.RetryReady?) || !(if codex then cfg.codex else cfg.claude) || !run.planned then s
    else if run.team.None? then Develop(s, r, run, codex, lease, packet)
    else
      var gated := CheckPlan(cfg.v, run.team.value);
      if gated.None? then s else Develop(s, r, run.(team := gated), codex, lease, packet)
  }

  function RouteDirectOn(cfg: Config, s: State, r: nat, codex: bool, lease: bool, packet: bool): State
    requires r < |s.runs|
  {
    var run := s.runs[r];
    if !run.stage.RouteSelect? || !(if codex then cfg.codex else cfg.claude) then s
    else SendToOn(cfg, Put(s, r, run.(status := NeedsUser, stage := DraftReady, planned := run.goal)), r, codex, lease, packet)
  }

  predicate RepairOpen(cfg: Config, run: Run) { (run.stage.ClaudeDone? || run.stage.RetryReady?) && cfg.claude }

  function SendRepairOn(cfg: Config, s: State, r: nat, lease: bool, packet: bool): State
    requires r < |s.runs|
  {
    if RepairOpen(cfg, s.runs[r]) then Develop(s, r, s.runs[r], false, lease, packet) else s
  }

  /** The audit once its gates, if any, have passed. */
  function BeginAudit(s: State, r: nat, run: Run, lease: bool, packet: bool): State
    requires r < |s.runs|
  {
    var moving := run.(status := Running, stage := Verifying);
    if !lease then Put(s, r, moving)
    else
      var agent := |s.agents|;
      var job := NewJobId(moving);
      var staffed := WithRequest(WithJob(moving, Auditor, agent));
      if job.Some? && !packet then Reserve(Put(s, r, Wrecked(staffed, job)), r, Verification, true)
      else Launched(Reserve(Put(s, r, staffed), r, Verification, true), r, job)
  }

  function VerifyOn(cfg: Config, s: State, r: nat, lease: bool, packet: bool): State
    requires r < |s.runs|
  {
    var run := s.runs[r];
    if !(run.stage.ClaudeDone? || run.stage.RetryReady?) then s
    else if run.team.None? then BeginAudit(s, r, run, lease, packet)
    else
      var built := CheckBuild(cfg.v, run.team.value);
      if built.None? then Put(s, r, run.(status := NeedsUser, stage := RetryReady))
      else
        var tested := CheckTests(cfg.v, built.value);
        if tested.None? then Put(s, r, run.(status := NeedsUser, stage := RetryReady, team := built))
        else BeginAudit(s, r, run.(team := tested), lease, packet)
  }

  function TakeOverOn(s: State, r: nat, lease: bool): State
    requires r < |s.runs|
  {
    var run := s.runs[r];
    if !(run.stage.DraftReady? || run.stage.ClaudeDone? || run.stage.RetryReady?) then s
    else
      var t := Put(s, r, run.(status := Running, stage := TakeoverRunning));
      if lease then Reserve(t, r, Takeover, true) else t
  }

  function ContinueOn(s: State, r: nat): State
    requires r < |s.runs|
  {
    var run := s.runs[r];
    if run.stage.DraftReady? || run.stage.RetryReady? then Put(s, r, run.(status := Running, stage := CollectingContext)) else s
  }

  /** `_transition_auto_claude_completed` on the row. */
  function ClaudeDoneRow(cfg: Config, run: Run, claude: Option<nat>, implementation: string, test: string): Run {
    var waiting := run.(status := NeedsUser, stage := ClaudeDone);
    if run.team.None? || claude.None? then waiting
    else
      var b := Build(cfg.v, run.team.value, claude.value, implementation, test, false);
      var built := waiting.(team := Some(b.team));
      if b.passed != Some(false) then built
      else
        var retry := built.(stage := RetryReady);
        if Testers(b.team.jobs) < MAX_INTERNAL_TEST_ATTEMPTS
        then retry.(scheduled := retry.scheduled + 1, pending := retry.pending + 1) else retry
  }

  function ClaudeCompletesOn(cfg: Config, s: State, r: nat, done: bool, implementation: string, test: string): State
    requires r < |s.runs|
  {
    var run := s.runs[r];
    if !run.stage.ClaudeRunning? then s
    else Put(s, r, if done then ClaudeDoneRow(cfg, run, s.activeClaude, implementation, test) else run.(status := Failed))
  }

  /** `_advance_staged_auto_on_completion` on the row, by the role of the agent run that ended. */
  function CodexRow(cfg: Config, run: Run, role: AgentRole, agent: nat, done: bool, text: string, test: string): Run {
    match role
    case Analysis =>
      if done then run.(status := NeedsUser, stage := CollectingContext, planned := Strip(text) != "") else run
    case FinalPlan =>
      if !done then run
      else
        var ready := run.(status := NeedsUser, stage := DraftReady, planned := Strip(text) != "");
        if run.team.None? then ready else ready.(team := Some(RecordPlan(run.team.value, agent, text)))
    case Implementation =>
      if !done then FailedRow(run, Implementer, agent)
      else if run.team.None? then run.(status := NeedsUser, stage := ClaudeDone)
      else
        var b := Build(cfg.v, run.team.value, agent, text, test, true);
        run.(status := NeedsUser, team := Some(b.team), stage := if b.passed == Some(false) then RetryReady else ClaudeDone)
    case Verification =>
      if !done then FailedRow(run, Auditor, agent)
      else if run.team.None? then run.(status := NeedsUser, stage := if cfg.v.passing(text) then Completed else RetryReady)
      else
        var (team, allowed) := Audit(cfg.v, run.team.value, agent, text);
        run.(status := NeedsUser, team := Some(team), stage := if allowed then Completed else RetryReady)
    case Takeover =>
      if done then run.(status := Passed, stage := Completed, planned := Strip(text) != "") else run
    case Direct => run
  }

  function FailedRow(run: Run, role: JobRole, agent: nat): Run {
    var failed := run.(status := Failed);
    if run.team.None? then failed else failed.(team := Some(FailRunning(run.team.value, role, agent)))
  }

  /** Only the conversation's active task, when it is a Codex one, reaches the workflow. */
  function CodexCompletesOn(cfg: Config, s: State, r: nat, done: bool, text: string, test: string): State
    requires r < |s.runs|
  {
    if s.activeTask.None? || s.activeTask.value >= |s.agents| || !s.agents[s.activeTask.value].codex then s
    else Put(s, r, CodexRow(cfg, s.runs[r], s.agents[s.activeTask.value].role, s.activeTask.value, done, text, test))
  }

  /** A scheduled repair runs: it acts on whatever run is active then, and falls back to `retry_ready` if its lease is refused. */
  function InternalRepairOn(cfg: Config, s: State, r: nat, lease: bool, packet: bool): State
    requires r < |s.runs|
  {
    if !RepairOpen(cfg, s.runs[r]) then s
    else if lease then SendRepairOn(cfg, s, r, lease, packet)
    else Put(s, r, s.runs[r].(status := NeedsUser, stage := RetryReady))
  }

  function TakeRepair(run: Run, begins: bool): Run
    requires run.pending > 0
  {
    run.(pending := run.pending - 1, begun := run.begun + if begins then 1 else 0)
  }

  function OnActive(cfg: Config, s: State, r: nat, step: Step): State
    requires r < |s.runs|
  {
    match step
    case RouteDirect(codex, lease, packet) => RouteDirectOn(cfg, s, r, codex, lease, packet)
    case RouteAnalysis(route, lease, packet) => RouteAnalysisOn(cfg, s, r, route, lease, packet)
    case PlainText(steered, lease) => PlainTextOn(s, r, steered, lease)
    case MakePlan(rewrite, lease) => MakePlanOn(s, r, rewrite, lease)
    case SendTo(codex, lease, packet) => SendToOn(cfg, s, r, codex, lease, packet)
    case ContinueContext => ContinueOn(s, r)
    case Verify(lease, packet) => VerifyOn(cfg, s, r, lease, packet)
    case TakeOver(lease) => TakeOverOn(s, r, lease)
    case SendRepair(lease, packet) => SendRepairOn(cfg, s, r, lease, packet)
    case Close => Put(s, r, s.runs[r].(status := Passed, stage := Completed))
    case Cancel => Put(s, r, s.runs[r].(status := Aborted, stage := Completed))
    case ClaudeCompletes(done, implementation, test) => ClaudeCompletesOn(cfg, s, r, done, implementation, test)
    case CodexCompletes(done, text, test) => CodexCompletesOn(cfg, s, r, done, text, test)
    case _ => s
  }

  /** The row of a new run, once its handler returns. */
  function NewRun(goal: bool): Run { Run(NeedsUser, RouteSelect, goal, false, None, 0, 0, 0) }

  function Next(cfg: Config, s: State, step: Step): State {
    var r := LatestActive(s.runs);
    match step
    case StartAuto(goal) => if r.Some? then s else s.(runs := s.runs + [NewRun(goal)])
    case OtherTask => s.(activeTask := None)
    case DirectClaude => NotedClaude(Reserve(s, 0, Direct, false), |s.agents|)
    case LaunchReturns(k, ok) => if k < |s.launches| && s.launches[k].waiting then Returned(s, k, ok) else s
    case InternalRepair(origin, lease, packet) =>
      if origin >= |s.runs| || s.runs[origin].pending == 0 then s
      else
        var begins := r.Some? && RepairOpen(cfg, s.runs[r.value]) && lease;
        var t := Put(s, origin, TakeRepair(s.runs[origin], begins));
        if r.Some? then InternalRepairOn(cfg, t, r.value, lease, packet) else t
    case _ => if r.Some? then OnActive(cfg, s, r.value, step) else s
  }

  /** A launch comes back; a failure is written without looking at what happened to the run in the meantime. */
  function Returned(s: State, k: nat, ok: bool): State
    requires k < |s.launches|
  {
    var l := s.launches[k];
    var t := s.(launches := s.launches[k := l.(waiting := false)]);
    if ok || l.run >= |s.runs| then t else Put(t, l.run, Wrecked(s.runs[l.run], l.job))
  }

  function RunAll(cfg: Config, s: State, steps: seq<Step>): State
    decreases |steps|
  {
    if steps == [] then s else RunAll(cfg, Next(cfg, s, steps[0]), steps[1..])
  }

  function Initial(): State { State([], [], None, None, []) }

  // ---- The invariant ----

  /** Running means a running stage; waiting for the user means a waiting stage, collected context or completion. */
  predicate StageFits(run: Run) {
    && (run.status.Running? ==> RunningStage(run.stage))
    && (run.status.NeedsUser? ==> WaitingStage(run.stage) || run.stage.CollectingContext? || run.stage.Completed?)
  }

  /** Stages a run with a team reaches only after Gate A. */
  predicate GatedStage(stage: Stage) { stage.ClaudeRunning? || stage.ClaudeDone? || stage.Verifying? || stage.RetryReady? }

  ghost predicate TeamFits(cfg: Config, run: Run) {
    run.team.Some? ==>
      && cfg.teams && TeamInv(cfg.v, run.team.value)
      && (GatedStage(run.stage) ==> PlanPassed(cfg.v, run.team.value))
  }

  predicate RepairsFit(run: Run) {
    && run.pending + run.begun <= run.scheduled < MAX_INTERNAL_TEST_ATTEMPTS
    && run.scheduled <= if run.team.Some? then Testers(run.team.value.jobs) else 0
  }

  predicate Unrouted(run: Run) { Active(run) && run.stage.RouteSelect? }

  ghost predicate RunInv(cfg: Config, run: Run) {
    && StageFits(run) && TeamFits(cfg, run) && RepairsFit(run)
    && (Unrouted(run) ==> run.team.None?)
  }

  predicate Building(role: AgentRole) { role.Implementation? || role.Verification? }

  /** Work on the code of a run with a team started only after that team's Gate A. */
  ghost predicate AgentInv(cfg: Config, s: State, a: nat)
    requires a < |s.agents|
  {
    var agent := s.agents[a];
    !agent.role.Direct? ==>
      && agent.run < |s.runs| && !Unrouted(s.runs[agent.run])
      && (Building(agent.role) && s.runs[agent.run].team.Some? ==> PlanPassed(cfg.v, s.runs[agent.run].team.value))
  }

  ghost predicate Inv(cfg: Config, s: State) {
    && (forall i: nat :: i < |s.runs| ==> RunInv(cfg, s.runs[i]))
    && (forall i: nat :: i + 1 < |s.runs| ==> !Active(s.runs[i]))
    && (forall a: nat :: a < |s.agents| ==> AgentInv(cfg, s, a))
    && (s.activeTask.Some? ==> s.activeTask.value < |s.agents| && TaskFits(s))
  }

  /** Building work that is the active task belongs to the active run as soon as that run has a team. */
  predicate TaskFits(s: State)
    requires s.activeTask.Some? && s.activeTask.value < |s.agents|
  {
    Building(s.agents[s.activeTask.value].role) && s.runs != [] && Active(s.runs[|s.runs| - 1]) && s.runs[|s.runs| - 1].team.Some? ==>
      s.agents[s.activeTask.value].run == |s.runs| - 1
  }

  /** How a run's row may move under one write. */
  ghost predicate Moves(run: Run, next: Run) {
    && (Active(next) ==> Active(run))
    && (Unrouted(next) ==> Unrouted(run))
    && (run.team.Some? ==> next.team.Some? && Extends(run.team.value, next.team.value))
    && (run.team.None? && next.team.Some? ==> Unrouted(run))
  }

  lemma PutKeeps(cfg: Config, s: State, r: nat, run: Run)
    requires Inv(cfg, s) && r < |s.runs| && RunInv(cfg, run) && Moves(s.runs[r], run)
    requires s.runs[r].team.None? ==> run.team.None?
    ensures Inv(cfg, Put(s, r, run))
  {
    hide RunInv, PlanPassed, Extends;
    var t := Put(s, r, run);
    forall a: nat | a < |t.agents| ensures AgentInv(cfg, t, a) {
      assert AgentInv(cfg, s, a);
      if s.agents[a].run == r && Building(s.agents[a].role) && run.team.Some? {
        PlanPassedStays(cfg.v, s.runs[r].team.value, run.team.value);
      }
    }
  }

  lemma PutReserveKeeps(cfg: Config, s: State, r: nat, run: Run, role: AgentRole, codex: bool)
    requires Inv(cfg, s) && r == |s.runs| - 1 && RunInv(cfg, run) && Moves(s.runs[r], run) && !Unrouted(run)
    requires Building(role) && run.team.Some? ==> PlanPassed(cfg.v, run.team.value)
    ensures Inv(cfg, Reserve(Put(s, r, run), r, role, codex))
  {
    hide RunInv, PlanPassed, Extends;
    var t := Reserve(Put(s, r, run), r, role, codex);
    forall a: nat | a < |t.agents| ensures AgentInv(cfg, t, a) {
      if a < |s.agents| {
        assert AgentInv(cfg, s, a);
        if s.agents[a].run == r && Building(s.agents[a].role) && run.team.Some? {
          PlanPassedStays(cfg.v, s.runs[r].team.value, run.team.value);
        }
      }
    }
  }

  lemma ReserveKeeps(cfg: Config, s: State, r: nat, role: AgentRole, codex: bool)
    requires Inv(cfg, s) && r == |s.runs| - 1 && !Unrouted(s.runs[r]) && !Building(role)
    ensures Inv(cfg, Reserve(s, r, role, codex))
  {
    hide RunInv, PlanPassed;
    var t := Reserve(s, r, role, codex);
    forall a: nat | a < |t.agents| ensures AgentInv(cfg, t, a) {
      if a < |s.agents| { assert AgentInv(cfg, s, a); }
    }
  }

  lemma NoteKeeps(cfg: Config, s: State, claude: Option<nat>, launches: seq<Launch>)
    requires Inv(cfg, s)
    ensures Inv(cfg, s.(activeClaude := claude, launches := launches))
  {
    hide RunInv, PlanPassed;
    var t := s.(activeClaude := claude, launches := launches);
    forall a: nat | a < |t.agents| ensures AgentInv(cfg, t, a) {
      assert AgentInv(cfg, s, a);
    }
  }

  // ---- Row moves that keep the row's invariant ----

  /** Changing only status, stage and plan. */
  lemma RestageKeeps(cfg: Config, run: Run, next: Run)
    requires RunInv(cfg, run)
    requires next == run.(status := next.status, stage := next.stage, planned := next.planned)
    requires StageFits(next) && !Unrouted(next) && (Active(next) ==> Active(run))
    requires GatedStage(next.stage) && next.team.Some? ==> PlanPassed(cfg.v, next.team.value)
    ensures RunInv(cfg, next) && Moves(run, next)
  {
    hide TeamInv, PlanPassed;
    if run.team.Some? { ExtendsSelf(run.team.value); }
  }

  /** Changing the team as well, by an extension that loses no tester. */
  lemma ReteamKeeps(cfg: Config, run: Run, next: Run)
    requires RunInv(cfg, run) && run.team.Some? && next.team.Some?
    requires next == run.(status := next.status, stage := next.stage, planned := next.planned, team := next.team)
    requires StageFits(next) && !Unrouted(next) && (Active(next) ==> Active(run))
    requires TeamInv(cfg.v, next.team.value) && Extends(run.team.value, next.team.value)
    requires Testers(next.team.value.jobs) >= Testers(run.team.value.jobs)
    requires GatedStage(next.stage) ==> PlanPassed(cfg.v, run.team.value) || PlanPassed(cfg.v, next.team.value)
    ensures RunInv(cfg, next) && Moves(run, next)
    ensures GatedStage(next.stage) ==> PlanPassed(cfg.v, next.team.value)
  {
    hide TeamInv, PlanPassed, Extends, Testers;
    if PlanPassed(cfg.v, run.team.value) { PlanPassedStays(cfg.v, run.team.value, next.team.value); }
  }

  lemma WreckedKeeps(cfg: Config, run: Run, job: Option<nat>)
    requires RunInv(cfg, run)
    ensures RunInv(cfg, Wrecked(run, job)) && Moves(run, Wrecked(run, job)) && !Active(Wrecked(run, job))
    ensures run.team.Some? <==> Wrecked(run, job).team.Some?
    ensures run.team.Some? && PlanPassed(cfg.v, run.team.value) ==> PlanPassed(cfg.v, Wrecked(run, job).team.value)
  {
    hide TeamInv, PlanPassed, Extends, Testers, FailJob;
    if run.team.None? {
      RestageKeeps(cfg, run, Wrecked(run, job));
    } else {
      var t := run.team.value;
      if job.Some? {
        FailJobKeeps(cfg.v, t, job.value);
      } else {
        StatusFails(cfg.v, t);
      }
      var u := Wrecked(run, job).team.value;
      ReteamKeeps(cfg, run, Wrecked(run, job));
      if PlanPassed(cfg.v, t) { PlanPassedStays(cfg.v, t, u); }
    }
  }

  lemma StatusFails(v: Validators, t: Team)
    requires TeamInv(v, t)
    ensures TeamInv(v, t.(status := TeamFailed)) && Extends(t, t.(status := TeamFailed))
  {
    hide PlanPassed, AuditorBacked;
    ExtensionKeeps(v, t, t.(status := TeamFailed));
  }

  lemma MovesTrans(run: Run, mid: Run, next: Run)
    requires Moves(run, mid) && Moves(mid, next) && (mid.team.None? ==> next.team.None?)
    ensures Moves(run, next)
  {
    hide Extends;
    if run.team.Some? { ExtendsTrans(run.team.value, mid.team.value, next.team.value); }
  }

  /** Handing work to a new job of a run in a gated stage. */
  lemma StaffedKeeps(cfg: Config, run: Run, role: JobRole, agent: nat)
    requires RunInv(cfg, run) && Active(run) && GatedStage(run.stage) && (role.Implementer? || role.Auditor?)
    requires role.Auditor? && run.team.Some? ==> AuditorBacked(cfg.v, run.team.value, |run.team.value.jobs|)
    ensures var next := WithJob(run, role, agent);
            RunInv(cfg, next) && Moves(run, next) && (next.team.Some? <==> run.team.Some?)
  {
    hide TeamInv, PlanPassed, Extends, Testers, AuditorBacked;
    if run.team.None? {
      RestageKeeps(cfg, run, run);
    } else {
      AddPlainJobKeeps(cfg.v, run.team.value, role, agent);
      TestersAdd(run.team.value, role, agent);
      ReteamKeeps(cfg, run, WithJob(run, role, agent));
    }
  }

  lemma DevelopKeeps(cfg: Config, s: State, r: nat, run: Run, codex: bool, lease: bool, packet: bool)
    requires Inv(cfg, s) && r == |s.runs| - 1 && RunInv(cfg, run) && Moves(s.runs[r], run) && Active(run) && !Unrouted(run)
    requires (s.runs[r].team.Some? <==> run.team.Some?) && (run.team.Some? ==> PlanPassed(cfg.v, run.team.value))
    ensures Inv(cfg, Develop(s, r, run, codex, lease, packet))
  {
    hide Inv, RunInv, TeamInv, PlanPassed, Moves, WithJob, Wrecked, NewJobId;
    var moving := run.(status := Running, stage := ClaudeRunning);
    RestageKeeps(cfg, run, moving);
    MovesTrans(s.runs[r], run, moving);
    if !lease {
      PutKeeps(cfg, s, r, moving);
    } else {
      var agent := |s.agents|;
      var job := NewJobId(moving);
      var staffed := WithJob(moving, Implementer, agent);
      StaffedKeeps(cfg, moving, Implementer, agent);
      MovesTrans(s.runs[r], moving, staffed);
      StaffedStage(moving, Implementer, agent);
      StaysGated(cfg, staffed);
      var broken := job.Some? && !packet;
      WreckedKeeps(cfg, staffed, job);
      MovesTrans(s.runs[r], staffed, Wrecked(staffed, job));
      var row := if broken then Wrecked(staffed, job) else staffed;
      PutReserveKeeps(cfg, s, r, row, Implementation, codex);
      var t := Reserve(Put(s, r, row), r, Implementation, codex);
      var u := Develop(s, r, run, codex, lease, packet);
      NoteKeeps(cfg, t, u.activeClaude, u.launches);
    }
  }

  lemma StaffedStage(run: Run, role: JobRole, agent: nat)
    ensures WithJob(run, role, agent).stage == run.stage && WithJob(run, role, agent).status == run.status
  {}

  lemma StaysGated(cfg: Config, run: Run)
    requires RunInv(cfg, run)
    ensures run.team.Some? && GatedStage(run.stage) ==> PlanPassed(cfg.v, run.team.value)
  {}

  lemma SendToKeeps(cfg: Config, s: State, r: nat, codex: bool, lease: bool, packet: bool)
    requires Inv(cfg, s) && r == |s.runs| - 1 && Active(s.runs[r])
    ensures Inv(cfg, SendToOn(cfg, s, r, codex, lease, packet))
  {
    hide TeamInv, PlanPassed, Extends, CheckPlan, Develop, Testers;
    var run := s.runs[r];
    assert RunInv(cfg, run);
    if (run.stage.DraftReady? || run.stage.RetryReady?) && (if codex then cfg.codex else cfg.claude) && run.planned {
      if run.team.None? {
        RestageKeeps(cfg, run, run);
        DevelopKeeps(cfg, s, r, run, codex, lease, packet);
      } else if CheckPlan(cfg.v, run.team.value).Some? {
        CheckPlanKeeps(cfg.v, run.team.value);
        var gated := run.(team := CheckPlan(cfg.v, run.team.value));
        ReteamKeeps(cfg, run, gated);
        DevelopKeeps(cfg, s, r, gated, codex, lease, packet);
      }
    }
  }

  lemma RouteDirectKeeps(cfg: Config, s: State, r: nat, codex: bool, lease: bool, packet: bool)
    requires Inv(cfg, s) && r == |s.runs| - 1 && Active(s.runs[r])
    ensures Inv(cfg, RouteDirectOn(cfg, s, r, codex, lease, packet))
  {
    hide TeamInv, PlanPassed, Extends, SendToOn, Testers;
    var run := s.runs[r];
    assert RunInv(cfg, run);
    if run.stage.RouteSelect? && (if codex then cfg.codex else cfg.claude) {
      var drafted := run.(status := NeedsUser, stage := DraftReady, planned := run.goal);
      RestageKeeps(cfg, run, drafted);
      PutKeeps(cfg, s, r, drafted);
      SendToKeeps(cfg, Put(s, r, drafted), r, codex, lease, packet);
    }
  }

  lemma RouteAnalysisKeeps(cfg: Config, s: State, r: nat, route: Route, lease: bool, packet: bool)
    requires Inv(cfg, s) && r == |s.runs| - 1 && Active(s.runs[r])
    ensures Inv(cfg, RouteAnalysisOn(cfg, s, r, route, lease, packet))
  {
    hide TeamInv, PlanPassed, Extends, Testers, Wrecked, NewTeam;
    var run := s.runs[r];
    assert RunInv(cfg, run);
    if run.stage.RouteSelect? && lease {
      var agent := |s.agents|;
      NewTeamInv(cfg.v, route, agent);
      var teamed := if cfg.teams then run.(team := Some(NewTeam(route, agent))) else run;
      var job := if cfg.teams then Some(0) else None;
      var collecting := teamed.(status := Running, stage := CollectingContext);
      var row := if cfg.teams && !packet then Wrecked(teamed, job) else collecting;
      if cfg.teams && !packet {
        WreckedNew(cfg, run, teamed, job);
      }
      PutReserveKeeps(cfg, s, r, row, Analysis, true);
      var t := Reserve(Put(s, r, row), r, Analysis, true);
      NoteKeeps(cfg, t, t.activeClaude, RouteAnalysisOn(cfg, s, r, route, lease, packet).launches);
    }
  }

  /** The team made for a route whose packet could not be built is failed along with the run. */
  lemma WreckedNew(cfg: Config, run: Run, teamed: Run, job: Option<nat>)
    requires RunInv(cfg, run) && Unrouted(run) && cfg.teams && teamed.team.Some? && teamed == run.(team := teamed.team)
    requires TeamInv(cfg.v, teamed.team.value) && Testers(teamed.team.value.jobs) == 0 && job.Some?
    ensures RunInv(cfg, Wrecked(teamed, job)) && Moves(run, Wrecked(teamed, job)) && !Active(Wrecked(teamed, job))
  {
    hide TeamInv, PlanPassed, Extends, Testers, FailJob;
    FailJobKeeps(cfg.v, teamed.team.value, job.value);
  }

  lemma BeginAuditKeeps(cfg: Config, s: State, r: nat, run: Run, lease: bool, packet: bool)
    requires Inv(cfg, s) && r == |s.runs| - 1 && RunInv(cfg, run) && Moves(s.runs[r], run) && Active(run) && !Unrouted(run)
    requires (s.runs[r].team.Some? <==> run.team.Some?) && (run.team.Some? ==> PlanPassed(cfg.v, run.team.value))
    requires run.team.Some? ==> AuditorBacked(cfg.v, run.team.value, |run.team.value.jobs|)
    ensures Inv(cfg, BeginAudit(s, r, run, lease, packet))
  {
    hide Inv, RunInv, TeamInv, PlanPassed, Moves, WithJob, WithRequest, Wrecked, NewJobId, AuditorBacked;
    var moving := run.(status := Running, stage := Verifying);
    RestageKeeps(cfg, run, moving);
    MovesTrans(s.runs[r], run, moving);
    if !lease {
      PutKeeps(cfg, s, r, moving);
    } else {
      var agent := |s.agents|;
      var job := NewJobId(moving);
      var staffed := WithJob(moving, Auditor, agent);
      StaffedKeeps(cfg, moving, Auditor, agent);
      MovesTrans(s.runs[r], moving, staffed);
      StaffedStage(moving, Auditor, agent);
      var asked := WithRequest(staffed);
      AskedKeeps(cfg, staffed);
      MovesTrans(s.runs[r], staffed, asked);
      StaysGated(cfg, asked);
      WreckedKeeps(cfg, asked, job);
      MovesTrans(s.runs[r], asked, Wrecked(asked, job));
      var row := if job.Some? && !packet then Wrecked(asked, job) else asked;
      PutReserveKeeps(cfg, s, r, row, Verification, true);
      var t := Reserve(Put(s, r, row), r, Verification, true);
      NoteKeeps(cfg, t, t.activeClaude, BeginAudit(s, r, run, lease, packet).launches);
    }
  }

  lemma AskedKeeps(cfg: Config, run: Run)
    requires RunInv(cfg, run) && Active(run) && GatedStage(run.stage)
    ensures var next := WithRequest(run);
            && RunInv(cfg, next) && Moves(run, next) && (next.team.Some? <==> run.team.Some?)
            && next.stage == run.stage && next.status == run.status
  {
    hide TeamInv, PlanPassed, Extends, Testers;
    if run.team.None? || run.team.value.jobs == [] {
      RestageKeeps(cfg, run, run);
    } else {
      AddArtifactKeeps(cfg.v, run.team.value, VerificationRequest, Some(|run.team.value.jobs| - 1), "");
      ReteamKeeps(cfg, run, WithRequest(run));
    }
  }

  lemma VerifyKeeps(cfg: Config, s: State, r: nat, lease: bool, packet: bool)
    requires Inv(cfg, s) && r == |s.runs| - 1 && Active(s.runs[r])
    ensures Inv(cfg, VerifyOn(cfg, s, r, lease, packet))
  {
    hide TeamInv, PlanPassed, Extends, CheckBuild, CheckTests, BeginAudit, AuditorBacked, Testers;
    var run := s.runs[r];
    assert RunInv(cfg, run);
    if run.stage.ClaudeDone? || run.stage.RetryReady? {
      if run.team.None? {
        RestageKeeps(cfg, run, run);
        BeginAuditKeeps(cfg, s, r, run, lease, packet);
      } else {
        ChecksKeep(cfg.v, run.team.value);
        var built := CheckBuild(cfg.v, run.team.value);
        if built.None? {
          RestageKeeps(cfg, run, run.(status := NeedsUser, stage := RetryReady));
          PutKeeps(cfg, s, r, run.(status := NeedsUser, stage := RetryReady));
        } else {
          var tested := CheckTests(cfg.v, built.value);
          if tested.None? {
            var back := run.(status := NeedsUser, stage := RetryReady, team := built);
            ReteamKeeps(cfg, run, back);
            PutKeeps(cfg, s, r, back);
          } else {
            ReteamKeeps(cfg, run, run.(team := tested));
            BeginAuditKeeps(cfg, s, r, run.(team := tested), lease, packet);
          }
        }
      }
    }
  }

  lemma SendRepairKeeps(cfg: Config, s: State, r: nat, lease: bool, packet: bool)
    requires Inv(cfg, s) && r == |s.runs| - 1 && Active(s.runs[r])
    ensures Inv(cfg, SendRepairOn(cfg, s, r, lease, packet))
  {
    hide TeamInv, PlanPassed, Extends, Develop, Testers;
    var run := s.runs[r];
    assert RunInv(cfg, run);
    if RepairOpen(cfg, run) {
      RestageKeeps(cfg, run, run);
      DevelopKeeps(cfg, s, r, run, false, lease, packet);
    }
  }

  /** The handlers that only move the stage and may reserve a reading or take-over turn. */
  lemma StagingKeeps(cfg: Config, s: State, r: nat, step: Step)
    requires Inv(cfg, s) && r == |s.runs| - 1 && Active(s.runs[r])
    requires step.PlainText? || step.MakePlan? || step.ContinueContext? || step.TakeOver? || step.Close? || step.Cancel?
    ensures Inv(cfg, OnActive(cfg, s, r, step))
  {
    hide TeamInv, PlanPassed, Extends, Inv, Testers;
    var run := s.runs[r];
    assert RunInv(cfg, run) by { RowInv(cfg, s, r); }
    var collecting := run.(status := Running, stage := CollectingContext);
    var taken := run.(status := Running, stage := TakeoverRunning);
    var closed := run.(status := Passed, stage := Completed);
    var cancelled := run.(status := Aborted, stage := Completed);
    RestageKeeps(cfg, run, collecting);
    PutKeeps(cfg, s, r, collecting);
    if step.PlainText? && !run.stage.RouteSelect? {
      ReserveKeeps(cfg, s, r, Analysis, true);
      ReserveKeeps(cfg, Put(s, r, collecting), r, Analysis, true);
    } else if step.MakePlan? {
      ReserveKeeps(cfg, Put(s, r, collecting), r, FinalPlan, true);
    } else if step.TakeOver? {
      RestageKeeps(cfg, run, taken);
      PutKeeps(cfg, s, r, taken);
      ReserveKeeps(cfg, Put(s, r, taken), r, Takeover, true);
    } else if step.Close? {
      RestageKeeps(cfg, run, closed);
      PutKeeps(cfg, s, r, closed);
    } else if step.Cancel? {
      RestageKeeps(cfg, run, cancelled);
      PutKeeps(cfg, s, r, cancelled);
    }
  }

  lemma RowInv(cfg: Config, s: State, r: nat)
    requires Inv(cfg, s) && r < |s.runs|
    ensures RunInv(cfg, s.runs[r])
  {}

  /** Claude's completion: at most one more repair is scheduled, and only while testers are below the limit. */
  lemma ClaudeDoneKeeps(cfg: Config, run: Run, claude: Option<nat>, implementation: string, test: string)
    requires RunInv(cfg, run) && Active(run) && run.stage.ClaudeRunning?
    ensures var next := ClaudeDoneRow(cfg, run, claude, implementation, test);
            RunInv(cfg, next) && Moves(run, next) && (run.team.None? ==> next.team.None?)
  {
    hide TeamInv, PlanPassed, Extends, Testers, Build;
    var waiting := run.(status := NeedsUser, stage := ClaudeDone);
    RestageKeeps(cfg, run, waiting);
    if run.team.Some? && claude.Some? {
      BuildKeeps(cfg.v, run.team.value, claude.value, implementation, test, false);
      var b := Build(cfg.v, run.team.value, claude.value, implementation, test, false);
      ReteamKeeps(cfg, run, waiting.(team := Some(b.team)));
      ReteamKeeps(cfg, run, waiting.(team := Some(b.team), stage := RetryReady));
    }
  }

  lemma CodexKeeps(cfg: Config, run: Run, role: AgentRole, agent: nat, done: bool, text: string, test: string)
    requires RunInv(cfg, run) && Active(run)
    requires Building(role) && run.team.Some? ==> PlanPassed(cfg.v, run.team.value)
    ensures var next := CodexRow(cfg, run, role, agent, done, text, test);
            RunInv(cfg, next) && Moves(run, next) && (run.team.None? ==> next.team.None?)
  {
    hide TeamInv, PlanPassed, Extends, Testers, Build, Audit, RecordPlan, FailRunning;
    var next := CodexRow(cfg, run, role, agent, done, text, test);
    if next == run {
      MovesSelf(run);
    } else if next.team == run.team {
      RestageKeeps(cfg, run, next);
    } else {
      var t := run.team.value;
      RecordPlanKeeps(cfg.v, t, agent, text);
      BuildKeeps(cfg.v, t, agent, text, test, true);
      AuditKeeps(cfg.v, t, agent, text);
      FailRunningKeeps(cfg.v, t, Implementer, agent);
      FailRunningKeeps(cfg.v, t, Auditor, agent);
      ReteamKeeps(cfg, run, next);
    }
  }

  lemma MovesSelf(run: Run)
    ensures Moves(run, run)
  {
    if run.team.Some? { ExtendsSelf(run.team.value); }
  }

  lemma CompletionsKeep(cfg: Config, s: State, r: nat, step: Step)
    requires Inv(cfg, s) && r == |s.runs| - 1 && Active(s.runs[r]) && (step.ClaudeCompletes? || step.CodexCompletes?)
    ensures Inv(cfg, OnActive(cfg, s, r, step))
  {
    hide TeamInv, PlanPassed, Extends, CodexRow, ClaudeDoneRow, Testers;
    var run := s.runs[r];
    assert RunInv(cfg, run);
    match step
    case ClaudeCompletes(done, implementation, test) =>
      if run.stage.ClaudeRunning? {
        if done {
          ClaudeDoneKeeps(cfg, run, s.activeClaude, implementation, test);
          PutKeeps(cfg, s, r, ClaudeDoneRow(cfg, run, s.activeClaude, implementation, test));
        } else {
          RestageKeeps(cfg, run, run.(status := Failed));
          PutKeeps(cfg, s, r, run.(status := Failed));
        }
      }
    case CodexCompletes(done, text, test) =>
      if s.activeTask.Some? && s.agents[s.activeTask.value].codex {
        var a := s.activeTask.value;
        assert AgentInv(cfg, s, a);
        CodexKeeps(cfg, run, s.agents[a].role, a, done, text, test);
        PutKeeps(cfg, s, r, CodexRow(cfg, run, s.agents[a].role, a, done, text, test));
      }
  }

  lemma InternalKeeps(cfg: Config, s: State, origin: nat, lease: bool, packet: bool)
    requires Inv(cfg, s)
    ensures Inv(cfg, Next(cfg, s, InternalRepair(origin, lease, packet)))
  {
    hide TeamInv, PlanPassed, Extends, SendRepairOn, LatestActive, Testers;
    var r := LatestActive(s.runs);
    if origin < |s.runs| && s.runs[origin].pending > 0 {
      var begins := r.Some? && RepairOpen(cfg, s.runs[r.value]) && lease;
      var run := s.runs[origin];
      assert RunInv(cfg, run);
      var taken := TakeRepair(run, begins);
      MovesSelf(run);
      PutKeeps(cfg, s, origin, taken);
      var t := Put(s, origin, taken);
      if r.Some? {
        assert r.value == |s.runs| - 1;
        assert RunInv(cfg, t.runs[r.value]) by { RowInv(cfg, t, r.value); }
        SendRepairKeeps(cfg, t, r.value, lease, packet);
        if RepairOpen(cfg, t.runs[r.value]) && !lease {
          var back := t.runs[r.value].(status := NeedsUser, stage := RetryReady);
          RestageKeeps(cfg, t.runs[r.value], back);
          PutKeeps(cfg, t, r.value, back);
        }
      }
    }
  }

  lemma ReturnedKeeps(cfg: Config, s: State, k: nat, ok: bool)
    requires Inv(cfg, s) && k < |s.launches|
    ensures Inv(cfg, Returned(s, k, ok))
  {
    hide Inv, RunInv, Moves, Wrecked;
    var l := s.launches[k];
    NoteKeeps(cfg, s, s.activeClaude, s.launches[k := l.(waiting := false)]);
    if !ok && l.run < |s.runs| {
      RowInv(cfg, s, l.run);
      WreckedKeeps(cfg, s.runs[l.run], l.job);
      PutKeeps(cfg, s.(launches := s.launches[k := l.(waiting := false)]), l.run, Wrecked(s.runs[l.run], l.job));
    }
  }

  lemma OutsideKeeps(cfg: Config, s: State, step: Step)
    requires Inv(cfg, s) && (step.StartAuto? || step.OtherTask? || step.DirectClaude?)
    ensures Inv(cfg, Next(cfg, s, step))
  {
    hide PlanPassed, TeamInv, LatestActive, Testers;
    var t := Next(cfg, s, step);
    if t.runs != s.runs {
      assert RunInv(cfg, t.runs[|s.runs|]);
    }
    forall a: nat | a < |t.agents| ensures AgentInv(cfg, t, a) {
      if a < |s.agents| { assert AgentInv(cfg, s, a); }
    }
  }

  lemma OnActiveKeeps(cfg: Config, s: State, r: nat, step: Step)
    requires Inv(cfg, s) && r == |s.runs| - 1 && Active(s.runs[r])
    ensures Inv(cfg, OnActive(cfg, s, r, step))
  {
    hide Inv, RouteDirectOn, RouteAnalysisOn, SendToOn, VerifyOn, SendRepairOn, ClaudeCompletesOn, CodexCompletesOn, PlainTextOn, MakePlanOn, TakeOverOn;
    match step
    case RouteDirect(codex, lease, packet) => RouteDirectKeeps(cfg, s, r, codex, lease, packet);
    case RouteAnalysis(route, lease, packet) => RouteAnalysisKeeps(cfg, s, r, route, lease, packet);
    case SendTo(codex, lease, packet) => SendToKeeps(cfg, s, r, codex, lease, packet);
    case Verify(lease, packet) => VerifyKeeps(cfg, s, r, lease, packet);
    case SendRepair(lease, packet) => SendRepairKeeps(cfg, s, r, lease, packet);
    case ClaudeCompletes(_, _, _) => CompletionsKeep(cfg, s, r, step);
    case CodexCompletes(_, _, _) => CompletionsKeep(cfg, s, r, step);
    case PlainText(_, _) => StagingKeeps(cfg, s, r, step);
    case MakePlan(_, _) => StagingKeeps(cfg, s, r, step);
    case ContinueContext => StagingKeeps(cfg, s, r, step);
    case TakeOver(_) => StagingKeeps(cfg, s, r, step);
    case Close => StagingKeeps(cfg, s, r, step);
    case Cancel => StagingKeeps(cfg, s, r, step);
    case _ =>
  }

  lemma LatestIsLast(cfg: Config, s: State)
    requires Inv(cfg, s) && LatestActive(s.runs).Some?
    ensures LatestActive(s.runs).value == |s.runs| - 1
  {}

  lemma NextKeeps(cfg: Config, s: State, step: Step)
    requires Inv(cfg, s)
    ensures Inv(cfg, Next(cfg, s, step))
  {
    hide Inv, OnActive, Returned, InternalRepairOn, LatestActive;
    match step
    case StartAuto(_) => OutsideKeeps(cfg, s, step);
    case OtherTask => OutsideKeeps(cfg, s, step);
    case DirectClaude => OutsideKeeps(cfg, s, step);
    case LaunchReturns(k, ok) => if k < |s.launches| { ReturnedKeeps(cfg, s, k, ok); }
    case InternalRepair(origin, lease, packet) => InternalKeeps(cfg, s, origin, lease, packet);
    case _ =>
      if LatestActive(s.runs).Some? {
        LatestIsLast(cfg, s);
        OnActiveKeeps(cfg, s, |s.runs| - 1, step);
      }
  }

  lemma {:induction false} RunAllKeeps(cfg: Config, s: State, steps: seq<Step>)
    requires Inv(cfg, s)
    ensures Inv(cfg, RunAll(cfg, s, steps))
    decreases |steps|
  {
    hide Inv, Next;
    if steps != [] {
      NextKeeps(cfg, s, steps[0]);
      RunAllKeeps(cfg, Next(cfg, s, steps[0]), steps[1..]);
    }
  }

  // ---- Main results ----

  lemma InitialInv(cfg: Config)
    ensures Inv(cfg, Initial())
  {}

  /**
   A team run marked completed has a passing audit report that meets Gate D, on an auditor job that was created right
   after Gate B passed on the then newest done implementer and Gate C on the then newest done tester; and Gate A had
   passed before the team had any implementer.
   */
  lemma CompletedMeansAudited(cfg: Config, steps: seq<Step>, i: nat)
    requires i < |RunAll(cfg, Initial(), steps).runs|
    ensures var run := RunAll(cfg, Initial(), steps).runs[i];
            run.team.Some? && run.team.value.status.TeamCompleted? ==>
              var t := run.team.value;
              && PlanPassed(cfg.v, t)
              && exists a: nat :: PassingAudit(cfg.v, t, a) && AuditorBacked(cfg.v, t, t.artifacts[a].job.value)
  {
    hide RunAll, PlanPassed, AuditorBacked;
    InitialInv(cfg);
    RunAllKeeps(cfg, Initial(), steps);
    RowInv(cfg, RunAll(cfg, Initial(), steps), i);
  }

  /** Whatever the interleaving, an implementer or auditor job exists only in a team whose Gate A had passed first. */
  lemma BuildersAreGated(cfg: Config, steps: seq<Step>, i: nat, j: nat)
    requires i < |RunAll(cfg, Initial(), steps).runs|
    requires RunAll(cfg, Initial(), steps).runs[i].team.Some? && j < |RunAll(cfg, Initial(), steps).runs[i].team.value.jobs|
    ensures var t := RunAll(cfg, Initial(), steps).runs[i].team.value;
            && (BuildRole(t.jobs[j].role) ==> PlanPassed(cfg.v, t))
            && (t.jobs[j].role.Auditor? ==> AuditorBacked(cfg.v, t, j))
  {
    hide RunAll, PlanPassed, AuditorBacked;
    InitialInv(cfg);
    RunAllKeeps(cfg, Initial(), steps);
    RowInv(cfg, RunAll(cfg, Initial(), steps), i);
  }

  /** Statuses and stages agree in every reachable state, and the ledger lookup finds the only active run there is. */
  lemma StatusDiscipline(cfg: Config, steps: seq<Step>, i: nat)
    requires i < |RunAll(cfg, Initial(), steps).runs|
    ensures var s := RunAll(cfg, Initial(), steps);
            && (s.runs[i].status.Running? ==> RunningStage(s.runs[i].stage))
            && (s.runs[i].status.NeedsUser? ==> WaitingStage(s.runs[i].stage) || s.runs[i].stage.CollectingContext? || s.runs[i].stage.Completed?)
            && (Active(s.runs[i]) <==> LatestActive(s.runs) == Some(i))
  {
    hide RunAll;
    InitialInv(cfg);
    RunAllKeeps(cfg, Initial(), steps);
    RowInv(cfg, RunAll(cfg, Initial(), steps), i);
    var s := RunAll(cfg, Initial(), steps);
    if Active(s.runs[i]) {
      assert i == |s.runs| - 1;
    }
  }
}
