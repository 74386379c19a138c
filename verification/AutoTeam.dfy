/**
 A team run of the staged auto workflow: its jobs, its append-only artifacts and the gate passes it logged, with the
 ledger writes the handlers make and what every write keeps.
 */
module AutoTeam {
  import opened Options
  import opened Decimal

  datatype Route = Bug | Feature

  datatype JobRole = Investigator | Architect | Implementer | Tester | Auditor

  datatype JobStatus = JobRunning | JobDone | JobFailed

  datatype Job = Job(role: JobRole, status: JobStatus, agent: nat)

  datatype Kind =
    | RoutingDecision | ArchitecturePlan | DiagnosisReport | ImplementationReport | TestReport
    | VerificationRequest | AuditReport

  datatype Artifact = Artifact(kind: Kind, job: Option<nat>, payload: string)

  datatype Gate = GateA | GateB | GateC | GateD

  /** A logged gate pass: the artifact it judged, the job it was bound to, and the team's jobs at that moment. */
  datatype GatePass = GatePass(gate: Gate, artifact: nat, job: Option<nat>, jobs: seq<Job>)

  datatype TeamStatus = TeamActive | TeamCompleted | TeamFailed

  datatype Team = Team(status: TeamStatus, route: Route, jobs: seq<Job>, artifacts: seq<Artifact>, gates: seq<GatePass>)

  /** The artifact validators, and the decision an audit report carries. */
  datatype Validators = Validators(
    diagnosis: string -> bool, plan: string -> bool, implementation: string -> bool,
    test: string -> bool, audit: string -> bool, passing: string -> bool)

  // ---- Lookups ----

  /** The newest job of a role, of a given status when one is asked for. */
  function LatestJob(jobs: seq<Job>, role: JobRole, status: Option<JobStatus>): (r: Option<nat>)
    ensures r.Some? ==> r.value < |jobs| && jobs[r.value].role == role && (status.Some? ==> jobs[r.value].status == status.value)
    ensures forall j: nat :: (if r.Some? then r.value + 1 else 0) <= j < |jobs| ==>
              !(jobs[j].role == role && (status.Some? ==> jobs[j].status == status.value))
  {
    if jobs == [] then None
    else
      var last := jobs[|jobs| - 1];
      if last.role == role && (status.Some? ==> last.status == status.value) then Some(|jobs| - 1)
      else LatestJob(jobs[..|jobs| - 1], role, status)
  }

  /** The first running job of a role that belongs to an agent run. */
  function RunningJob(jobs: seq<Job>, role: JobRole, agent: nat, from: nat): (r: Option<nat>)
    ensures r.Some? ==> from <= r.value < |jobs| && jobs[r.value] == Job(role, JobRunning, agent)
    ensures forall j: nat :: from <= j < (if r.Some? then r.value else |jobs|) ==> jobs[j] != Job(role, JobRunning, agent)
    decreases |jobs| - from
  {
    if from >= |jobs| then None
    else if jobs[from] == Job(role, JobRunning, agent) then Some(from)
    else RunningJob(jobs, role, agent, from + 1)
  }

  /** The first job of a role that belongs to an agent run, whatever its status. */
  function JobOf(jobs: seq<Job>, role: JobRole, agent: nat, from: nat): (r: Option<nat>)
    ensures r.Some? ==> from <= r.value < |jobs| && jobs[r.value].role == role && jobs[r.value].agent == agent
    decreases |jobs| - from
  {
    if from >= |jobs| then None
    else if jobs[from].role == role && jobs[from].agent == agent then Some(from)
    else JobOf(jobs, role, agent, from + 1)
  }

  /** The running job of a role when there is exactly one. */
  function SingleRunning(jobs: seq<Job>, role: JobRole): Option<nat> {
    var j := LatestJob(jobs, role, Some(JobRunning));
    if j.Some? && LatestJob(jobs[..j.value], role, Some(JobRunning)).None? then j else None
  }

  function Testers(jobs: seq<Job>): nat {
    if jobs == [] then 0 else Testers(jobs[..|jobs| - 1]) + if jobs[|jobs| - 1].role.Tester? then 1 else 0
  }

  predicate Fits(a: Artifact, kind: Kind, job: Option<nat>) {
    a.kind == kind && (job.Some? ==> a.job == job)
  }

  /** The newest artifact of a kind, of one job when a job is given. */
  function LatestArtifact(artifacts: seq<Artifact>, kind: Kind, job: Option<nat>): (r: Option<nat>)
    ensures r.Some? ==> r.value < |artifacts| && Fits(artifacts[r.value], kind, job)
    ensures forall i: nat :: (if r.Some? then r.value + 1 else 0) <= i < |artifacts| ==> !Fits(artifacts[i], kind, job)
  {
    if artifacts == [] then None
    else if Fits(artifacts[|artifacts| - 1], kind, job) then Some(|artifacts| - 1)
    else LatestArtifact(artifacts[..|artifacts| - 1], kind, job)
  }

  // ---- Writes ----

  function AddJob(t: Team, role: JobRole, agent: nat): Team { t.(jobs := t.jobs + [Job(role, JobRunning, agent)]) }

  function SetJob(t: Team, j: nat, status: JobStatus): Team {
    if j < |t.jobs| then t.(jobs := t.jobs[j := t.jobs[j].(status := status)]) else t
  }

  function AddArtifact(t: Team, kind: Kind, job: Option<nat>, payload: string): Team {
    t.(artifacts := t.artifacts + [Artifact(kind, job, payload)])
  }

  function LogGate(t: Team, gate: Gate, artifact: nat, job: Option<nat>): Team {
    t.(gates := t.gates + [GatePass(gate, artifact, job, t.jobs)])
  }

  /** `_team_gate_response`: the team with the pass logged, or nothing when the gate fails. */
  function CheckGate(t: Team, gate: Gate, kind: Kind, valid: string -> bool, job: Option<nat>, bound: bool): Option<Team> {
    if bound && job.None? then None
    else
      var i := LatestArtifact(t.artifacts, kind, if bound then job else None);
      if i.Some? && valid(t.artifacts[i.value].payload) then Some(LogGate(t, gate, i.value, job)) else None
  }

  function PlanKind(route: Route): Kind { if route.Bug? then DiagnosisReport else ArchitecturePlan }

  function PlanValid(v: Validators, route: Route): string -> bool { if route.Bug? then v.diagnosis else v.plan }

  function CheckPlan(v: Validators, t: Team): Option<Team> {
    CheckGate(t, GateA, PlanKind(t.route), PlanValid(v, t.route), None, false)
  }

  /** The job Gate C is bound to: the newest done tester, else the newest done implementer. */
  function TestedJob(jobs: seq<Job>): Option<nat> {
    var tester := LatestJob(jobs, Tester, Some(JobDone));
    if tester.Some? then tester else LatestJob(jobs, Implementer, Some(JobDone))
  }

  function CheckBuild(v: Validators, t: Team): Option<Team> {
    CheckGate(t, GateB, ImplementationReport, v.implementation, LatestJob(t.jobs, Implementer, Some(JobDone)), true)
  }

  function CheckTests(v: Validators, t: Team): Option<Team> {
    CheckGate(t, GateC, TestReport, v.test, TestedJob(t.jobs), true)
  }

  predicate HasArtifact(artifacts: seq<Artifact>, kind: Kind, job: Option<nat>) {
    exists i :: 0 <= i < |artifacts| && artifacts[i].kind == kind && artifacts[i].job == job
  }

  function FirstRole(route: Route): JobRole { if route.Bug? then Investigator else Architect }

  function NewTeam(route: Route, agent: nat): Team {
    Team(TeamActive, route, [Job(FirstRole(route), JobRunning, agent)], [Artifact(RoutingDecision, Some(0), "")], [])
  }

  function PlanJob(t: Team, agent: nat): Option<nat> {
    var running := RunningJob(t.jobs, FirstRole(t.route), agent, 0);
    var own := JobOf(t.jobs, FirstRole(t.route), agent, 0);
    if running.Some? then running else if own.Some? then own else SingleRunning(t.jobs, FirstRole(t.route))
  }

  /** A final plan arrives: its report is recorded once per job, and the first job is closed. */
  function RecordPlan(t: Team, agent: nat, plan: string): Team {
    var job := PlanJob(t, agent);
    var t1 := if Strip(plan) == "" || HasArtifact(t.artifacts, PlanKind(t.route), job) then t else AddArtifact(t, PlanKind(t.route), job, plan);
    var running := RunningJob(t.jobs, FirstRole(t.route), agent, 0);
    var closing := if running.Some? then running else SingleRunning(t.jobs, FirstRole(t.route));
    if closing.Some? then SetJob(t1, closing.value, JobDone) else t1
  }

  datatype Built = Built(team: Team, passed: Option<bool>)

  /** The implementation report of job `j` with the tester that follows it. */
  function Report(v: Validators, t: Team, j: nat, implementation: string, test: string, reuse: bool): Built
    requires j < |t.jobs|
  {
    var agent := t.jobs[j].agent;
    var t1 := AddArtifact(t, ImplementationReport, Some(j), implementation);
    var earlier := if reuse then JobOf(t.jobs, Tester, agent, 0) else None;
    var k := if earlier.Some? then earlier.value else |t.jobs|;
    var t2 := if earlier.Some? then t1 else AddJob(t1, Tester, agent);
    if HasArtifact(t2.artifacts, TestReport, Some(k)) then Built(t2, None)
    else
      Built(SetJob(AddArtifact(t2, TestReport, Some(k), test), k, if v.test(test) then JobDone else JobFailed), Some(v.test(test)))
  }

  /** An implementer's agent run is done: report it, unless its job is unknown or already reported, and close the job. */
  function Build(v: Validators, t: Team, agent: nat, implementation: string, test: string, reuse: bool): Built {
    var j := RunningJob(t.jobs, Implementer, agent, 0);
    if j.None? then Built(t, None)
    else if HasArtifact(t.artifacts, ImplementationReport, j) then Built(SetJob(t, j.value, JobDone), None)
    else
      var b := Report(v, t, j.value, implementation, test, reuse);
      b.(team := SetJob(b.team, j.value, JobDone))
  }

  /** An auditor's agent run is done: its report, Gate D, and the team completed when both it and its decision pass. */
  function Audit(v: Validators, t: Team, agent: nat, report: string): (Team, bool) {
    var j := RunningJob(t.jobs, Auditor, agent, 0);
    if j.None? then (t, false)
    else if HasArtifact(t.artifacts, AuditReport, j) then (SetJob(t, j.value, JobDone), false)
    else
      var t1 := AddArtifact(t, AuditReport, j, report);
      var t2 := if v.audit(report) then LogGate(t1, GateD, |t.artifacts|, j) else t1;
      var t3 := SetJob(t2, j.value, JobDone);
      if v.passing(report) && v.audit(report) then (t3.(status := TeamCompleted), true) else (t3, false)
  }

  function FailJob(t: Team, j: nat): Team { SetJob(t, j, JobFailed).(status := TeamFailed) }

  function FailRunning(t: Team, role: JobRole, agent: nat): Team {
    t.(status := TeamFailed,
       jobs := seq(|t.jobs|, i requires 0 <= i < |t.jobs| =>
                 if t.jobs[i] == Job(role, JobRunning, agent) then t.jobs[i].(status := JobFailed) else t.jobs[i]))
  }

  // ---- What the ledger always holds about a team ----

  ghost predicate GateAOk(v: Validators, t: Team, g: GatePass) {
    && g.gate == GateA && g.artifact < |t.artifacts|
    && t.artifacts[g.artifact].kind == PlanKind(t.route)
    && PlanValid(v, t.route)(t.artifacts[g.artifact].payload)
    && forall j :: 0 <= j < |g.jobs| ==> !g.jobs[j].role.Implementer?
  }

  /** Gate A passed at a moment when the team had no implementer job. */
  ghost predicate PlanPassed(v: Validators, t: Team) {
    exists g :: 0 <= g < |t.gates| && GateAOk(v, t, t.gates[g])
  }

  /** `g` is a pass bound to `job`, for the newest valid report of that job. */
  ghost predicate BoundPass(t: Team, g: GatePass, gate: Gate, kind: Kind, valid: string -> bool, job: Option<nat>) {
    && g.gate == gate && job.Some? && g.job == job && g.artifact < |t.artifacts|
    && t.artifacts[g.artifact].kind == kind && t.artifacts[g.artifact].job == job
    && valid(t.artifacts[g.artifact].payload)
  }

  /** Gates B and C passed back to back when the team had exactly `n` jobs: B for its newest done implementer, C for its newest done tester. */
  ghost predicate GatesPassedAt(v: Validators, t: Team, n: nat, b: nat) {
    && b + 1 < |t.gates|
    && t.gates[b].jobs == t.gates[b + 1].jobs && |t.gates[b].jobs| == n
    && BoundPass(t, t.gates[b], GateB, ImplementationReport, v.implementation, LatestJob(t.gates[b].jobs, Implementer, Some(JobDone)))
    && BoundPass(t, t.gates[b + 1], GateC, TestReport, v.test, LatestJob(t.gates[b].jobs, Tester, Some(JobDone)))
  }

  ghost predicate AuditorBacked(v: Validators, t: Team, n: nat) {
    exists b: nat :: GatesPassedAt(v, t, n, b)
  }

  /** The audit report that lets a team run be completed. */
  ghost predicate PassingAudit(v: Validators, t: Team, i: nat) {
    && i < |t.artifacts| && t.artifacts[i].kind.AuditReport?
    && v.audit(t.artifacts[i].payload) && v.passing(t.artifacts[i].payload)
    && t.artifacts[i].job.Some? && t.artifacts[i].job.value < |t.jobs| && t.jobs[t.artifacts[i].job.value].role.Auditor?
  }

  /** Test and audit reports sit on tester and auditor jobs. */
  predicate ReportPlaced(t: Team, i: nat)
    requires i < |t.artifacts|
  {
    var a := t.artifacts[i];
    && (a.kind.TestReport? ==> a.job.Some? && a.job.value < |t.jobs| && t.jobs[a.job.value].role.Tester?)
    && (a.kind.AuditReport? ==> a.job.Some? && a.job.value < |t.jobs| && t.jobs[a.job.value].role.Auditor?)
  }

  predicate BuildRole(role: JobRole) { role.Implementer? || role.Auditor? }

  ghost predicate TeamInv(v: Validators, t: Team) {
    && (forall j: nat :: j < |t.jobs| && BuildRole(t.jobs[j].role) ==> PlanPassed(v, t))
    && (forall j: nat :: j < |t.jobs| && t.jobs[j].role.Auditor? ==> AuditorBacked(v, t, j))
    && (forall i: nat :: i < |t.artifacts| ==> ReportPlaced(t, i))
    && (t.status.TeamCompleted? ==> exists i: nat :: PassingAudit(v, t, i))
  }

  /** Artifacts and gate passes are only ever added; jobs keep their role and agent. */
  ghost predicate Extends(t: Team, u: Team) {
    && u.route == t.route && t.artifacts <= u.artifacts && t.gates <= u.gates && |t.jobs| <= |u.jobs|
    && forall j: nat :: j < |t.jobs| ==> u.jobs[j].role == t.jobs[j].role && u.jobs[j].agent == t.jobs[j].agent
  }

  lemma ExtendsTrans(t: Team, u: Team, w: Team)
    requires Extends(t, u) && Extends(u, w)
    ensures Extends(t, w)
  {}

  lemma PlanPassedStays(v: Validators, t: Team, u: Team)
    requires PlanPassed(v, t) && Extends(t, u)
    ensures PlanPassed(v, u)
  {
    var g :| 0 <= g < |t.gates| && GateAOk(v, t, t.gates[g]);
    assert u.gates[g] == t.gates[g] && u.artifacts[t.gates[g].artifact] == t.artifacts[t.gates[g].artifact];
    assert GateAOk(v, u, u.gates[g]);
  }

  lemma AuditorBackedStays(v: Validators, t: Team, u: Team, n: nat)
    requires AuditorBacked(v, t, n) && Extends(t, u)
    ensures AuditorBacked(v, u, n)
  {
    hide LatestJob;
    var b: nat :| GatesPassedAt(v, t, n, b);
    assert u.gates[b] == t.gates[b] && u.gates[b + 1] == t.gates[b + 1];
    assert u.artifacts[t.gates[b].artifact] == t.artifacts[t.gates[b].artifact];
    assert u.artifacts[t.gates[b + 1].artifact] == t.artifacts[t.gates[b + 1].artifact];
    assert GatesPassedAt(v, u, n, b);
  }

  lemma PassingAuditStays(v: Validators, t: Team, u: Team, i: nat)
    requires PassingAudit(v, t, i) && Extends(t, u)
    ensures PassingAudit(v, u, i)
  {
    assert u.artifacts[i] == t.artifacts[i];
  }

  /** The invariant survives any extension whose new jobs and artifacts are themselves in order. */
  lemma ExtensionKeeps(v: Validators, t: Team, u: Team)
    requires TeamInv(v, t) && Extends(t, u)
    requires forall j: nat :: |t.jobs| <= j < |u.jobs| && BuildRole(u.jobs[j].role) ==> PlanPassed(v, u)
    requires forall j: nat :: |t.jobs| <= j < |u.jobs| && u.jobs[j].role.Auditor? ==> AuditorBacked(v, u, j)
    requires forall i: nat :: |t.artifacts| <= i < |u.artifacts| ==> ReportPlaced(u, i)
    requires u.status.TeamCompleted? && !t.status.TeamCompleted? ==> exists i: nat :: PassingAudit(v, u, i)
    ensures TeamInv(v, u)
  {
    hide PlanPassed, AuditorBacked, PassingAudit;
    forall j: nat | j < |u.jobs| && BuildRole(u.jobs[j].role) ensures PlanPassed(v, u) {
      if j < |t.jobs| { PlanPassedStays(v, t, u); }
    }
    forall j: nat | j < |u.jobs| && u.jobs[j].role.Auditor? ensures AuditorBacked(v, u, j) {
      if j < |t.jobs| { AuditorBackedStays(v, t, u, j); }
    }
    forall i: nat | i < |u.artifacts| ensures ReportPlaced(u, i) {
      if i < |t.artifacts| { assert ReportPlaced(t, i) && u.artifacts[i] == t.artifacts[i]; }
    }
    if u.status.TeamCompleted? && t.status.TeamCompleted? {
      var i: nat :| PassingAudit(v, t, i);
      PassingAuditStays(v, t, u, i);
    }
  }

  // ---- Each write keeps the invariant ----

  lemma {:induction false} TestersSame(jobs: seq<Job>, next: seq<Job>)
    requires |jobs| == |next| && forall j :: 0 <= j < |jobs| ==> jobs[j].role == next[j].role
    ensures Testers(jobs) == Testers(next)
  {
    if jobs != [] {
      TestersSame(jobs[..|jobs| - 1], next[..|jobs| - 1]);
    }
  }

  lemma TestersAdd(t: Team, role: JobRole, agent: nat)
    ensures Testers(AddJob(t, role, agent).jobs) == Testers(t.jobs) + if role.Tester? then 1 else 0
  {
    assert AddJob(t, role, agent).jobs[..|t.jobs|] == t.jobs;
  }

  lemma SetJobKeeps(v: Validators, t: Team, j: nat, status: JobStatus)
    requires TeamInv(v, t)
    ensures TeamInv(v, SetJob(t, j, status)) && Extends(t, SetJob(t, j, status)) && Testers(SetJob(t, j, status).jobs) == Testers(t.jobs)
  {
    hide Testers;
    ExtensionKeeps(v, t, SetJob(t, j, status));
    TestersSame(t.jobs, SetJob(t, j, status).jobs);
  }

  lemma AddPlainJobKeeps(v: Validators, t: Team, role: JobRole, agent: nat)
    requires TeamInv(v, t)
    requires BuildRole(role) ==> PlanPassed(v, t)
    requires role.Auditor? ==> AuditorBacked(v, t, |t.jobs|)
    ensures TeamInv(v, AddJob(t, role, agent)) && Extends(t, AddJob(t, role, agent))
  {
    hide PlanPassed, AuditorBacked;
    var u := AddJob(t, role, agent);
    if BuildRole(role) { PlanPassedStays(v, t, u); }
    if role.Auditor? { AuditorBackedStays(v, t, u, |t.jobs|); }
    ExtensionKeeps(v, t, u);
  }

  lemma AddArtifactKeeps(v: Validators, t: Team, kind: Kind, job: Option<nat>, payload: string)
    requires TeamInv(v, t)
    requires kind.TestReport? ==> job.Some? && job.value < |t.jobs| && t.jobs[job.value].role.Tester?
    requires kind.AuditReport? ==> job.Some? && job.value < |t.jobs| && t.jobs[job.value].role.Auditor?
    ensures TeamInv(v, AddArtifact(t, kind, job, payload)) && Extends(t, AddArtifact(t, kind, job, payload))
  {
    hide PlanPassed, AuditorBacked;
    ExtensionKeeps(v, t, AddArtifact(t, kind, job, payload));
  }

  lemma LogGateKeeps(v: Validators, t: Team, gate: Gate, artifact: nat, job: Option<nat>)
    requires TeamInv(v, t)
    ensures TeamInv(v, LogGate(t, gate, artifact, job)) && Extends(t, LogGate(t, gate, artifact, job))
  {
    hide PlanPassed, AuditorBacked;
    ExtensionKeeps(v, t, LogGate(t, gate, artifact, job));
  }

  lemma NewTeamInv(v: Validators, route: Route, agent: nat)
    ensures TeamInv(v, NewTeam(route, agent)) && Testers(NewTeam(route, agent).jobs) == 0
  {
    assert NewTeam(route, agent).jobs[..0] == [];
  }

  lemma FailJobKeeps(v: Validators, t: Team, j: nat)
    requires TeamInv(v, t)
    ensures TeamInv(v, FailJob(t, j)) && Extends(t, FailJob(t, j)) && Testers(FailJob(t, j).jobs) == Testers(t.jobs)
  {
    hide PlanPassed, AuditorBacked, Testers;
    SetJobKeeps(v, t, j, JobFailed);
    ExtensionKeeps(v, t, FailJob(t, j));
  }

  lemma FailRunningKeeps(v: Validators, t: Team, role: JobRole, agent: nat)
    requires TeamInv(v, t)
    ensures TeamInv(v, FailRunning(t, role, agent)) && Extends(t, FailRunning(t, role, agent))
    ensures Testers(FailRunning(t, role, agent).jobs) == Testers(t.jobs)
  {
    hide PlanPassed, AuditorBacked, Testers;
    ExtensionKeeps(v, t, FailRunning(t, role, agent));
    TestersSame(t.jobs, FailRunning(t, role, agent).jobs);
  }

  lemma RecordPlanKeeps(v: Validators, t: Team, agent: nat, plan: string)
    requires TeamInv(v, t)
    ensures TeamInv(v, RecordPlan(t, agent, plan)) && Extends(t, RecordPlan(t, agent, plan))
    ensures Testers(RecordPlan(t, agent, plan).jobs) == Testers(t.jobs)
  {
    hide TeamInv, Testers, PlanJob, SingleRunning, RunningJob, SetJob, AddArtifact, HasArtifact, Extends;
    var job := PlanJob(t, agent);
    AddArtifactKeeps(v, t, PlanKind(t.route), job, plan);
    var t1 := if Strip(plan) == "" || HasArtifact(t.artifacts, PlanKind(t.route), job) then t else AddArtifact(t, PlanKind(t.route), job, plan);
    SameJobs(t, PlanKind(t.route), job, plan);
    ExtendsSelf(t);
    var running := RunningJob(t.jobs, FirstRole(t.route), agent, 0);
    var closing := if running.Some? then running else SingleRunning(t.jobs, FirstRole(t.route));
    if closing.Some? {
      SetJobKeeps(v, t1, closing.value, JobDone);
      ExtendsTrans(t, t1, SetJob(t1, closing.value, JobDone));
    }
  }

  lemma SameJobs(t: Team, kind: Kind, job: Option<nat>, payload: string)
    ensures AddArtifact(t, kind, job, payload).jobs == t.jobs
  {}

  lemma ExtendsSelf(t: Team)
    ensures Extends(t, t)
  {}

  /** Gate A: once it has passed, it passed before the first implementer job. */
  lemma CheckPlanKeeps(v: Validators, t: Team)
    requires TeamInv(v, t) && CheckPlan(v, t).Some?
    ensures var u := CheckPlan(v, t).value;
            TeamInv(v, u) && Extends(t, u) && PlanPassed(v, u) && u.jobs == t.jobs
  {
    hide PlanPassed, AuditorBacked, PlanValid;
    var u := CheckPlan(v, t).value;
    var g := u.gates[|t.gates|];
    LogGateKeeps(v, t, GateA, g.artifact, None);
    if j: nat :| j < |t.jobs| && t.jobs[j].role.Implementer? {
      assert BuildRole(t.jobs[j].role);
      PlanPassedStays(v, t, u);
    } else {
      FirstPass(v, u, |t.gates|);
    }
  }

  lemma FirstPass(v: Validators, t: Team, g: nat)
    requires g < |t.gates| && GateAOk(v, t, t.gates[g])
    ensures PlanPassed(v, t)
  {}

  /** Gates B and C in a row back the auditor job that follows; on their own they keep everything. */
  lemma ChecksKeep(v: Validators, t: Team)
    requires TeamInv(v, t)
    ensures CheckBuild(v, t).Some? ==>
              var b := CheckBuild(v, t).value;
              && TeamInv(v, b) && Extends(t, b) && b.jobs == t.jobs
              && (CheckTests(v, b).Some? ==>
                    var c := CheckTests(v, b).value;
                    TeamInv(v, c) && Extends(t, c) && c.jobs == t.jobs && AuditorBacked(v, c, |t.jobs|))
  {
    hide PlanPassed, AuditorBacked, TeamInv, LatestJob, LatestArtifact;
    if CheckBuild(v, t).Some? {
      var b := CheckBuild(v, t).value;
      LogGateKeeps(v, t, GateB, b.gates[|t.gates|].artifact, b.gates[|t.gates|].job);
      if CheckTests(v, b).Some? {
        var c := CheckTests(v, b).value;
        LogGateKeeps(v, b, GateC, c.gates[|b.gates|].artifact, c.gates[|b.gates|].job);
        ExtendsTrans(t, b, c);
        TestedIsTester(v, b);
        BothPassed(v, c, |t.jobs|, |t.gates|);
      }
    }
  }

  lemma BothPassed(v: Validators, t: Team, n: nat, b: nat)
    requires GatesPassedAt(v, t, n, b)
    ensures AuditorBacked(v, t, n)
  {}

  /** The fallback of Gate C to an implementer job never passes: test reports sit on testers. */
  lemma TestedIsTester(v: Validators, t: Team)
    requires TeamInv(v, t) && CheckTests(v, t).Some?
    ensures LatestJob(t.jobs, Tester, Some(JobDone)).Some?
  {
    hide PlanPassed, AuditorBacked;
    var i := LatestArtifact(t.artifacts, TestReport, TestedJob(t.jobs));
    assert ReportPlaced(t, i.value);
  }

  lemma ReportKeeps(v: Validators, t: Team, j: nat, implementation: string, test: string, reuse: bool)
    requires TeamInv(v, t) && j < |t.jobs|
    ensures var b := Report(v, t, j, implementation, test, reuse);
            && TeamInv(v, b.team) && Extends(t, b.team)
            && Testers(b.team.jobs) >= Testers(t.jobs)
            && (!reuse && b.passed.Some? ==> Testers(b.team.jobs) == Testers(t.jobs) + 1)
  {
    hide TeamInv, Testers, HasArtifact, JobOf, SetJob, Extends;
    var agent := t.jobs[j].agent;
    var t1 := AddArtifact(t, ImplementationReport, Some(j), implementation);
    AddArtifactKeeps(v, t, ImplementationReport, Some(j), implementation);
    var earlier := if reuse then JobOf(t.jobs, Tester, agent, 0) else None;
    var k := if earlier.Some? then earlier.value else |t.jobs|;
    var t2 := if earlier.Some? then t1 else AddJob(t1, Tester, agent);
    if earlier.None? {
      AddPlainJobKeeps(v, t1, Tester, agent);
      TestersAdd(t1, Tester, agent);
      ExtendsTrans(t, t1, t2);
    }
    if !HasArtifact(t2.artifacts, TestReport, Some(k)) {
      var t3 := AddArtifact(t2, TestReport, Some(k), test);
      AddArtifactKeeps(v, t2, TestReport, Some(k), test);
      SetJobKeeps(v, t3, k, if v.test(test) then JobDone else JobFailed);
      ExtendsTrans(t, t2, t3);
      ExtendsTrans(t, t3, SetJob(t3, k, if v.test(test) then JobDone else JobFailed));
    }
  }

  lemma BuildKeeps(v: Validators, t: Team, agent: nat, implementation: string, test: string, reuse: bool)
    requires TeamInv(v, t)
    ensures var b := Build(v, t, agent, implementation, test, reuse);
            && TeamInv(v, b.team) && Extends(t, b.team)
            && Testers(b.team.jobs) >= Testers(t.jobs)
            && (!reuse && b.passed.Some? ==> Testers(b.team.jobs) == Testers(t.jobs) + 1)
  {
    hide TeamInv, Testers, HasArtifact, RunningJob, SetJob, Extends, Report;
    var j := RunningJob(t.jobs, Implementer, agent, 0);
    ExtendsSelf(t);
    if j.Some? {
      if HasArtifact(t.artifacts, ImplementationReport, j) {
        SetJobKeeps(v, t, j.value, JobDone);
      } else {
        ReportKeeps(v, t, j.value, implementation, test, reuse);
        var b := Report(v, t, j.value, implementation, test, reuse);
        SetJobKeeps(v, b.team, j.value, JobDone);
        ExtendsTrans(t, b.team, SetJob(b.team, j.value, JobDone));
      }
    }
  }

  /**
   Recording an audit keeps what the ledger holds about the team.  It completes the team exactly if the report is valid
   and passing and is the first of a running auditor job of that agent run; then the report is on that job.
   */
  lemma AuditKeeps(v: Validators, t: Team, agent: nat, report: string)
    requires TeamInv(v, t)
    ensures var (u, allowed) := Audit(v, t, agent, report);
            var j := RunningJob(t.jobs, Auditor, agent, 0);
            && TeamInv(v, u) && Extends(t, u) && Testers(u.jobs) == Testers(t.jobs)
            && (allowed <==> j.Some? && !HasArtifact(t.artifacts, AuditReport, j) && v.audit(report) && v.passing(report))
            && (allowed ==> u.status.TeamCompleted? && t.jobs[j.value] == Job(Auditor, JobRunning, agent)
                            && u.artifacts == t.artifacts + [Artifact(AuditReport, j, report)])
            && (!allowed ==> u.status == t.status)
  {
    hide TeamInv, Testers, HasArtifact, RunningJob, SetJob, Extends, PassingAudit;
    AuditCompletes(v, t, agent, report);
    var j := RunningJob(t.jobs, Auditor, agent, 0);
    ExtendsSelf(t);
    if j.Some? {
      if HasArtifact(t.artifacts, AuditReport, j) {
        SetJobKeeps(v, t, j.value, JobDone);
      } else {
        var t1 := AddArtifact(t, AuditReport, j, report);
        AddArtifactKeeps(v, t, AuditReport, j, report);
        var t2 := if v.audit(report) then LogGate(t1, GateD, |t.artifacts|, j) else t1;
        if v.audit(report) {
          LogGateKeeps(v, t1, GateD, |t.artifacts|, j);
          ExtendsTrans(t, t1, t2);
        }
        var t3 := SetJob(t2, j.value, JobDone);
        SetJobKeeps(v, t2, j.value, JobDone);
        ExtendsTrans(t, t2, t3);
        if v.passing(report) && v.audit(report) {
          AuditPasses(v, t2, t3, |t.artifacts|);
          CompleteKeeps(v, t3, |t.artifacts|);
          ExtendsTrans(t, t3, t3.(status := TeamCompleted));
        }
      }
    }
  }

  lemma AuditCompletes(v: Validators, t: Team, agent: nat, report: string)
    ensures var (u, allowed) := Audit(v, t, agent, report);
            var j := RunningJob(t.jobs, Auditor, agent, 0);
            && (allowed <==> j.Some? && !HasArtifact(t.artifacts, AuditReport, j) && v.audit(report) && v.passing(report))
            && (allowed ==> u.status.TeamCompleted? && t.jobs[j.value] == Job(Auditor, JobRunning, agent)
                            && u.artifacts == t.artifacts + [Artifact(AuditReport, j, report)])
            && (!allowed ==> u.status == t.status)
  {
    hide RunningJob, HasArtifact;
  }

  lemma AuditPasses(v: Validators, t: Team, u: Team, i: nat)
    requires i < |t.artifacts| && t.artifacts[i].kind.AuditReport? && t.artifacts[i].job.Some?
    requires v.audit(t.artifacts[i].payload) && v.passing(t.artifacts[i].payload)
    requires t.artifacts[i].job.value < |t.jobs| && t.jobs[t.artifacts[i].job.value].role.Auditor?
    requires Extends(t, u)
    ensures PassingAudit(v, u, i)
  {
    assert u.artifacts[i] == t.artifacts[i];
  }

  lemma CompleteKeeps(v: Validators, t: Team, i: nat)
    requires TeamInv(v, t) && PassingAudit(v, t, i)
    ensures var u := t.(status := TeamCompleted); TeamInv(v, u) && Extends(t, u) && u.jobs == t.jobs
  {
    var u := t.(status := TeamCompleted);
    assert PassingAudit(v, u, i);
    ExtensionKeeps(v, t, u);
  }
}
