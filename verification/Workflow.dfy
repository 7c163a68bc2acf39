/** The approval workflow of v2 tasks (src/agent_team/workflow.py with the commands of service.py and
    the transitions of engine.py that move the same tasks): requirements bound to an Issue, versioned
    plans, and single-use approvals of exact hashes. */
module Workflow {
  import opened Wrappers
  import opened Domain

  datatype Settings = Settings(requirementsApprovers: set<string>, planApprovers: set<string>, revisionLimit: nat)

  /** An Issue. */
  datatype Key = Key(repository: string, issue: nat)

  /** A v2 task. An empty approval id means not approved. */
  datatype Task = Task(
    state: TaskState, previous: Option<nat>, issue: Option<nat>, reference: Option<Key>, specVersion: nat,
    requirements: string, requirementsConfirmation: string, requirementsApproval: string,
    plan: Option<nat>, planHash: string, base: string, planConfirmation: string, planApproval: string,
    revisions: nat, retryState: Option<TaskState>, pr: bool)

  /** The Issue an approved text lives in, and the task that may speak for it. */
  datatype Reference = Reference(task: nat, bodyHash: string, approved: bool)

  datatype Verdict = Pending | ChangesRequested | Approved

  datatype Plan = Plan(task: nat, reference: Key, version: nat, hash: string, base: string, verdict: Verdict)

  datatype Stage = Requirements | Implementation

  datatype Grant = Grant(task: nat, stage: Stage, hash: string, sha: string, confirmation: string, actor: string,
                         expired: bool)

  datatype State = State(tasks: seq<Task>, refs: map<Key, Reference>, plans: seq<Plan>, grants: seq<Grant>)

  type Outcome = Result<State, string>

  function SetTask(s: State, t: nat, task: Task): State
    requires t < |s.tasks|
  {
    s.(tasks := s.tasks[t := task])
  }

  const NEW_TASK := Task(DraftingRequirements, None, None, None, 0, "", "", "", None, "", "", "", "", 0, None, false)

  function CreateTask(s: State): State { s.(tasks := s.tasks + [NEW_TASK]) }

  /** A cancelled task is continued by a new task, which keeps its Issue. */
  function RestartCancelled(s: State, t: nat): Outcome {
    if t >= |s.tasks| || !s.tasks[t].state.Cancelled? then Err("Only a cancelled v2 task can be restarted")
    else Ok(s.(tasks := s.tasks + [NEW_TASK.(previous := Some(t), issue := s.tasks[t].issue)]))
  }

  /** Another task may take the Issue over only from its own cancelled predecessor. */
  predicate MayBind(s: State, t: nat, key: Key)
    requires t < |s.tasks|
  {
    key in s.refs && s.refs[key].task != t ==>
      && s.refs[key].task < |s.tasks| && s.tasks[s.refs[key].task].state.Cancelled?
      && s.tasks[t].previous == Some(s.refs[key].task)
  }

  function RegisterRequirements(s: State, t: nat, key: Key, hash: string, explained: bool, uid: string): Outcome {
    if t >= |s.tasks| then Err("Unknown task")
    else if !explained then Err("Requirements explanation is required before approval")
    else if !s.tasks[t].state.DraftingRequirements? then Err("Task is not drafting v2 requirements")
    else if !MayBind(s, t, key) then Err("Issue authority is already bound to another active task")
    else
      var task := s.tasks[t];
      Ok(SetTask(s.(refs := s.refs[key := Reference(t, hash, false)]), t,
                 task.(state := AwaitingRequirementsConfirmation, issue := Some(key.issue), reference := Some(key),
                       specVersion := task.specVersion + 1, requirements := hash,
                       requirementsConfirmation := "REQ-" + uid)))
  }

  predicate Consumed(grants: seq<Grant>, confirmation: string) {
    exists i :: 0 <= i < |grants| && grants[i].confirmation == confirmation
  }

  function ApproveRequirements(cfg: Settings, s: State, t: nat, actor: string, hash: string, confirmation: string)
    : Outcome
  {
    if t >= |s.tasks| then Err("Unknown task")
    else if actor !in cfg.requirementsApprovers then Err("Actor cannot approve requirements")
    else
      var task := s.tasks[t];
      if !task.state.AwaitingRequirementsConfirmation? || hash != task.requirements
         || confirmation != task.requirementsConfirmation then Err("Stale requirements approval")
      else if task.reference.None? || task.reference.value !in s.refs || s.refs[task.reference.value].bodyHash != hash
      then Err("Requirements authority mismatch")
      else if Consumed(s.grants, confirmation) then Err("Approval confirmation was already consumed")
      else
        var key := task.reference.value;
        Ok(SetTask(s.(refs := s.refs[key := s.refs[key].(approved := true)],
                      grants := s.grants + [Grant(t, Requirements, hash, "", confirmation, actor, false)]), t,
                   task.(state := PlanningImplementation, requirementsApproval := confirmation)))
  }

  /** The largest version of the plans of one Issue, or 0. */
  function MaxVersion(plans: seq<Plan>, key: Key): (v: nat)
    ensures forall i | 0 <= i < |plans| && plans[i].reference == key :: plans[i].version <= v
    ensures v > 0 ==> exists i :: 0 <= i < |plans| && plans[i].reference == key && plans[i].version == v
  {
    if plans == [] then 0
    else
      var rest, last := MaxVersion(plans[..|plans| - 1], key), plans[|plans| - 1];
      if last.reference == key && last.version > rest then last.version else rest
  }

  /** `valid`: the plan covers the requirements, as planning.py checks it. */
  function RegisterPlan(s: State, t: nat, hash: string, base: string, valid: bool): Outcome {
    if t >= |s.tasks| then Err("Unknown task")
    else
      var task := s.tasks[t];
      if !task.state.PlanningImplementation? then Err("Task is not planning implementation")
      else if task.reference.None? || task.reference.value !in s.refs || !s.refs[task.reference.value].approved
      then Err("Requirements are not approved")
      else if !valid then Err("Invalid implementation plan")
      else
        var key := task.reference.value;
        Ok(SetTask(s.(plans := s.plans + [Plan.Plan(t, key, MaxVersion(s.plans, key) + 1, hash, base, Pending)]), t,
                   task.(state := ReviewingImplementationPlan, plan := Some(|s.plans|), planHash := hash,
                         base := base)))
  }

  function Judge(s: State, p: nat, verdict: Verdict): State
    requires p < |s.plans|
  {
    s.(plans := s.plans[p := s.plans[p].(verdict := verdict)])
  }

  /** `covered`: the review maps every acceptance id and leaves no blocking finding. */
  function CompletePlanReview(cfg: Settings, s: State, t: nat, hash: string, covered: bool, explained: bool,
                              uid: string): Outcome
  {
    if t >= |s.tasks| then Err("Unknown task")
    else
      var task := s.tasks[t];
      if !task.state.ReviewingImplementationPlan? || task.plan.None? || task.plan.value >= |s.plans|
         || s.plans[task.plan.value].hash != hash then Err("Stale implementation plan review")
      else if !covered then
        var judged := Judge(s, task.plan.value, ChangesRequested);
        if task.revisions >= cfg.revisionLimit then Ok(SetTask(judged, t, task.(state := Blocked)))
        else Ok(SetTask(judged, t, task.(state := PlanningImplementation, revisions := task.revisions + 1)))
      else if !explained then Err("Plan explanation is required before approval")
      else
        Ok(SetTask(Judge(s, task.plan.value, Approved), t,
                   task.(state := AwaitingPlanApproval, planConfirmation := "PLAN-" + uid)))
  }

  function ApprovePlan(cfg: Settings, s: State, t: nat, actor: string, hash: string, sha: string, confirmation: string)
    : Outcome
  {
    if t >= |s.tasks| then Err("Unknown task")
    else if actor !in cfg.planApprovers then Err("Actor cannot approve implementation plans")
    else
      var task := s.tasks[t];
      if !task.state.AwaitingPlanApproval? || task.plan.None? || task.plan.value >= |s.plans|
         || s.plans[task.plan.value].verdict != Approved || hash != s.plans[task.plan.value].hash
         || sha != s.plans[task.plan.value].base || confirmation != task.planConfirmation
      then Err("Stale implementation plan approval")
      else if Consumed(s.grants, confirmation) then Err("Approval confirmation was already consumed")
      else
        Ok(SetTask(s.(grants := s.grants + [Grant(t, Implementation, hash, sha, confirmation, actor, false)]), t,
                   task.(state := Queued, planApproval := confirmation)))
  }

  predicate Closed(state: TaskState) { state in {TaskState.Cancelled, Merged} }

  /** An owner's answer or revision takes both approvals back. */
  function Revise(s: State, t: nat): Outcome {
    if t >= |s.tasks| then Err("Unknown task")
    else if Closed(s.tasks[t].state) || s.tasks[t].state.Merging? then Err("Cannot revise this task")
    else Ok(SetTask(s, t, s.tasks[t].(state := DraftingRequirements, requirementsApproval := "", planApproval := "")))
  }

  /** An answer to a question of the implementation itself. `current`: the asking job's identity. */
  function Clarify(s: State, t: nat, fix: bool, current: bool): Outcome {
    if t >= |s.tasks| then Err("Unknown task")
    else
      var task := s.tasks[t];
      if !task.state.Blocked? || task.requirementsApproval == "" || task.planApproval == "" then Revise(s, t)
      else if !current then Err("Clarification targets a stale implementation")
      else Ok(SetTask(s, t, task.(state := if fix then Fixing else Queued)))
  }

  function Expire(grants: seq<Grant>, t: nat): seq<Grant> {
    seq(|grants|, i requires 0 <= i < |grants| =>
      if grants[i].task == t then grants[i].(expired := true) else grants[i])
  }

  function Cancel(s: State, t: nat): Outcome {
    if t >= |s.tasks| || Closed(s.tasks[t].state) then Err("Task is terminal")
    else Ok(SetTask(s.(grants := Expire(s.grants, t)), t, s.tasks[t].(state := TaskState.Cancelled)))
  }

  function Pause(s: State, t: nat): Outcome {
    if t >= |s.tasks| || Closed(s.tasks[t].state) then Err("Task is terminal")
    else Ok(SetTask(s, t, s.tasks[t].(state := Paused)))
  }

  /** Does reconciliation compare this task with its Issue and its plan? */
  predicate Compared(task: Task) {
    && task.pr && task.state !in {Merged, Paused, TaskState.Cancelled, DraftingRequirements,
                                  AwaitingRequirementsConfirmation}
    && !(task.state.Blocked? && task.requirementsApproval == "")
  }

  /** reconcile: the Issue has changed. */
  function IssueChanged(s: State, t: nat): Outcome {
    if t >= |s.tasks| || !Compared(s.tasks[t]) then Err("Not compared")
    else Ok(SetTask(s, t, s.tasks[t].(state := DraftingRequirements, requirementsApproval := "", planApproval := "")))
  }

  /** reconcile: the plan at the head of the pull request is not the approved one. */
  function PlanChanged(s: State, t: nat): Outcome {
    if t >= |s.tasks| || !Compared(s.tasks[t]) then Err("Not compared")
    else Ok(SetTask(s, t, s.tasks[t].(state := PlanningImplementation, planApproval := "")))
  }

  /** reconcile: somebody pushed to the pull request, and neither the Issue nor the plan file changed. */
  function HeadChanged(s: State, t: nat): Outcome {
    if t >= |s.tasks| || !Compared(s.tasks[t]) || Stopped(s.tasks[t].state) then Err("Not compared")
    else Ok(SetTask(s, t, s.tasks[t].(state := Reviewing)))
  }

  /** reconcile: the pull request has been merged, by whomever. */
  function FoundMerged(s: State, t: nat): Outcome {
    if t >= |s.tasks| || !Compared(s.tasks[t]) then Err("Not compared")
    else Ok(SetTask(s, t, s.tasks[t].(state := Merged)))
  }

  predicate Executing(state: TaskState) {
    state in {Queued, Implementing, Fixing, Reviewing, AwaitingChecks, AwaitingMergeApproval, ReadyToMerge, Merging}
  }

  /** A plan or an implementation is published, which opens the pull request. */
  function Publish(s: State, t: nat): Outcome {
    if t >= |s.tasks| || s.tasks[t].state !in {PlanningImplementation, Implementing, Fixing} then
      Err("Nothing to publish")
    else Ok(SetTask(s, t, s.tasks[t].(pr := true)))
  }

  /** The engine moves a task that is being executed. It puts no task back into the queue. */
  function Work(s: State, t: nat, state: TaskState): Outcome {
    if t >= |s.tasks| || !Executing(s.tasks[t].state) then Err("Not executing")
    else if !Executing(state) && !state.Merged? then Err("Not executing")
    else if state.Queued? && !s.tasks[t].state.Queued? then Err("Not queued again")
    else Ok(SetTask(s, t, s.tasks[t].(state := state)))
  }

  /** A guard or a limit stops the task; a failed job also records where it was. */
  function Block(s: State, t: nat, failed: bool): Outcome {
    if t >= |s.tasks| || Stopped(s.tasks[t].state) then Err("Task is stopped")
    else
      var task := s.tasks[t];
      Ok(SetTask(s, t, task.(state := Blocked, retryState := if failed then Some(task.state) else task.retryState)))
  }

  /** Where `retry` and `resume` send a task: back to drafting when it waits for its saved proposal, else to
      the recorded state, to the state for the kind of its last failed job (`failed`), or by its pull request. */
  function Target(task: Task, proposal: bool, failed: Option<Kind>): Option<TaskState> {
    if task.state.Blocked? && proposal then Some(DraftingRequirements)
    else if task.state.Blocked? && failed.Some? then
      if task.retryState.Some? then task.retryState else KindState(failed.value)
    else Some(if task.pr then Reviewing else Clarifying)
  }

  function Retry(s: State, t: nat, proposal: bool, failed: Option<Kind>): Outcome {
    if t >= |s.tasks| || s.tasks[t].state !in {Blocked, Paused} then Err("Expected Blocked or Paused")
    else
      var task := s.tasks[t];
      var used := task.state.Blocked? && !proposal && failed.Some?;
      match Target(task, proposal, failed)
      case None => Err("Failed v2 job cannot be retried from its saved state")
      case Some(state) =>
        Ok(SetTask(s, t, task.(state := state, retryState := if used then None else task.retryState)))
  }

  /** recover_connected_v2_workers, recover_after_runtime_change and recover_invalid_spec_finding: work of
      the kind that failed is done again, in the state for that kind. */
  function Reconnect(s: State, t: nat, kind: Kind): Outcome {
    if t >= |s.tasks| || !s.tasks[t].state.Blocked? then Err("Expected Blocked")
    else
      match KindState(kind)
      case None => Err("Nothing to do again")
      case Some(state) => Ok(SetTask(s, t, s.tasks[t].(state := state)))
  }

  datatype Step =
    | CreateStep
    | RestartStep(t: nat)
    | RegisterStep(t: nat, key: Key, hash: string, explained: bool, uid: string)
    | ApproveRequirementsStep(t: nat, actor: string, hash: string, confirmation: string)
    | PlanStep(t: nat, hash: string, base: string, valid: bool)
    | ReviewStep(t: nat, hash: string, covered: bool, explained: bool, uid: string)
    | ApprovePlanStep(t: nat, actor: string, hash: string, sha: string, confirmation: string)
    | ReviseStep(t: nat)
    | ClarifyStep(t: nat, fix: bool, isCurrent: bool)
    | CancelStep(t: nat)
    | PauseStep(t: nat)
    | IssueChangedStep(t: nat)
    | PlanChangedStep(t: nat)
    | HeadChangedStep(t: nat)
    | FoundMergedStep(t: nat)
    | PublishStep(t: nat)
    | WorkStep(t: nat, state: TaskState)
    | BlockStep(t: nat, hasFailed: bool)
    | RetryStep(t: nat, proposal: bool, failed: Option<Kind>)
    | ReconnectStep(t: nat, kind: Kind)

  function Try(cfg: Settings, s: State, step: Step): Outcome {
    match step
    case CreateStep => Ok(CreateTask(s))
    case RestartStep(t) => RestartCancelled(s, t)
    case RegisterStep(t, key, hash, explained, uid) => RegisterRequirements(s, t, key, hash, explained, uid)
    case ApproveRequirementsStep(t, actor, hash, confirmation) =>
      ApproveRequirements(cfg, s, t, actor, hash, confirmation)
    case PlanStep(t, hash, base, valid) => RegisterPlan(s, t, hash, base, valid)
    case ReviewStep(t, hash, covered, explained, uid) => CompletePlanReview(cfg, s, t, hash, covered, explained, uid)
    case ApprovePlanStep(t, actor, hash, sha, confirmation) => ApprovePlan(cfg, s, t, actor, hash, sha, confirmation)
    case ReviseStep(t) => Revise(s, t)
    case ClarifyStep(t, fix, isCurrent) => Clarify(s, t, fix, isCurrent)
    case CancelStep(t) => Cancel(s, t)
    case PauseStep(t) => Pause(s, t)
    case IssueChangedStep(t) => IssueChanged(s, t)
    case PlanChangedStep(t) => PlanChanged(s, t)
    case HeadChangedStep(t) => HeadChanged(s, t)
    case FoundMergedStep(t) => FoundMerged(s, t)
    case PublishStep(t) => Publish(s, t)
    case WorkStep(t, state) => Work(s, t, state)
    case BlockStep(t, hasFailed) => Block(s, t, hasFailed)
    case RetryStep(t, proposal, failed) => Retry(s, t, proposal, failed)
    case ReconnectStep(t, kind) => Reconnect(s, t, kind)
  }

  /** A rejected call rolls its transaction back. */
  function Apply(cfg: Settings, s: State, step: Step): State {
    match Try(cfg, s, step) case Ok(s') => s' case Err(_) => s
  }
}
