/** What every step of the approval workflow keeps, and what follows for whole runs. */
module WorkflowSafety {
  import opened Wrappers
  import opened Domain
  import opened Workflow

  /** Somebody approved exactly this, and the approval still stands. */
  predicate Granted(grants: seq<Grant>, t: nat, stage: Stage, hash: string, sha: string, confirmation: string) {
    exists i :: 0 <= i < |grants| && Matches(grants[i], t, stage, hash, sha, confirmation)
  }

  predicate Matches(g: Grant, t: nat, stage: Stage, hash: string, sha: string, confirmation: string) {
    g.task == t && g.stage == stage && g.hash == hash && g.sha == sha && g.confirmation == confirmation && !g.expired
  }

  /** The plan a task points to is the one whose hash and base it carries. */
  predicate PlanMatches(plans: seq<Plan>, t: nat, task: Task) {
    && task.plan.Some? && task.plan.value < |plans| && plans[task.plan.value].task == t
    && plans[task.plan.value].hash == task.planHash && plans[task.plan.value].base == task.base
    && Some(plans[task.plan.value].reference) == task.reference
  }

  /** Which approvals a state calls for. `strict`: nobody pushes to a pull request whose plan is not yet
      approved. Without that, a task that reconcile sent on to its review may lack the approval of its plan,
      as long as it is not queued. */
  predicate Phase(strict: bool, state: TaskState, requirementsApproval: string, planApproval: string, pr: bool) {
    match state
    case DraftingRequirements | AwaitingRequirementsConfirmation => requirementsApproval == "" && planApproval == ""
    case PlanningImplementation | ReviewingImplementationPlan | AwaitingPlanApproval =>
      requirementsApproval != "" && planApproval == ""
    case Clarifying | AwaitingSpecApproval => !pr
    case Merged | Paused | Blocked | Cancelled => true
    case Queued => requirementsApproval != "" && planApproval != ""
    case _ => requirementsApproval != "" && (strict ==> planApproval != "")
  }

  predicate Bound(refs: map<Key, Reference>, plans: seq<Plan>, grants: seq<Grant>, t: nat, task: Task) {
    && (task.reference.Some? ==> task.reference.value in refs && refs[task.reference.value].task == t)
    && (task.requirementsApproval != "" ==>
          task.reference.Some?
          && Granted(grants, t, Requirements, task.requirements, "", task.requirementsApproval))
    && (task.planApproval != "" ==>
          PlanMatches(plans, t, task) && plans[task.plan.value].verdict == Approved
          && Granted(grants, t, Implementation, task.planHash, task.base, task.planApproval))
  }

  predicate TaskOk(strict: bool, refs: map<Key, Reference>, plans: seq<Plan>, grants: seq<Grant>, t: nat, task: Task) {
    && (task.state.Cancelled? || Bound(refs, plans, grants, t, task))
    && Phase(strict, task.state, task.requirementsApproval, task.planApproval, task.pr)
    && (task.state in {ReviewingImplementationPlan, AwaitingPlanApproval} ==> PlanMatches(plans, t, task))
    && (task.state.AwaitingRequirementsConfirmation? ==> task.requirementsConfirmation != "")
    && (task.state.AwaitingPlanApproval? ==> task.planConfirmation != "")
  }

  ghost predicate TasksOk(strict: bool, s: State) {
    forall t | 0 <= t < |s.tasks| :: TaskOk(strict, s.refs, s.plans, s.grants, t, s.tasks[t])
  }

  ghost predicate RefsOk(tasks: nat, refs: map<Key, Reference>) {
    forall k | k in refs :: refs[k].task < tasks
  }

  /** No confirmation id has been consumed twice. */
  ghost predicate SingleUse(grants: seq<Grant>) {
    forall i, j | 0 <= i < j < |grants| :: grants[i].confirmation != grants[j].confirmation
  }

  /** The plans of an Issue are numbered upwards. */
  ghost predicate Numbered(plans: seq<Plan>) {
    forall i, j | 0 <= i < j < |plans| && plans[i].reference == plans[j].reference ::
      plans[i].version < plans[j].version
  }

  ghost predicate Inv(strict: bool, s: State) {
    TasksOk(strict, s) && RefsOk(|s.tasks|, s.refs) && SingleUse(s.grants) && Numbered(s.plans)
  }

  // ----- one step -----

  /** What a step of task `t` may do to the rows of other tasks. */
  ghost predicate Others(s: State, s': State, t: nat) {
    && |s.tasks| <= |s'.tasks|
    && (forall u | 0 <= u < |s.tasks| && u != t :: s'.tasks[u] == s.tasks[u])
    && (forall k | k in s.refs ::
          && k in s'.refs
          && (s'.refs[k] == s.refs[k] || s.refs[k].task == t
              || (s.refs[k].task < |s.tasks| && s.tasks[s.refs[k].task].state.Cancelled?)))
    && |s.plans| <= |s'.plans|
    && (forall p | 0 <= p < |s.plans| :: s'.plans[p] == s.plans[p] || s.plans[p].task == t)
    && |s.grants| <= |s'.grants|
    && (forall i | 0 <= i < |s.grants| :: s'.grants[i] == s.grants[i] || s.grants[i].task == t)
  }

  lemma GrantedStays(s: State, s': State, t: nat, u: nat, stage: Stage, hash: string, sha: string, confirmation: string)
    requires Others(s, s', t) && u != t && Granted(s.grants, u, stage, hash, sha, confirmation)
    ensures Granted(s'.grants, u, stage, hash, sha, confirmation)
  {
    var i :| 0 <= i < |s.grants| && Matches(s.grants[i], u, stage, hash, sha, confirmation);
    assert Matches(s'.grants[i], u, stage, hash, sha, confirmation);
  }

  lemma OtherOk(strict: bool, s: State, s': State, t: nat, u: nat)
    requires Others(s, s', t) && u != t && u < |s.tasks| && RefsOk(|s.tasks|, s.refs)
    requires TaskOk(strict, s.refs, s.plans, s.grants, u, s.tasks[u])
    ensures TaskOk(strict, s'.refs, s'.plans, s'.grants, u, s'.tasks[u])
  {
    var task := s.tasks[u];
    if !task.state.Cancelled? {
      if task.requirementsApproval != "" {
        GrantedStays(s, s', t, u, Requirements, task.requirements, "", task.requirementsApproval);
      }
      if task.planApproval != "" {
        GrantedStays(s, s', t, u, Implementation, task.planHash, task.base, task.planApproval);
      }
    }
  }

  lemma OthersKeep(strict: bool, s: State, s': State, t: nat)
    requires TasksOk(strict, s) && RefsOk(|s.tasks|, s.refs) && Others(s, s', t)
    requires forall u | 0 <= u < |s'.tasks| && (u == t || u >= |s.tasks|) ::
               TaskOk(strict, s'.refs, s'.plans, s'.grants, u, s'.tasks[u])
    ensures TasksOk(strict, s')
  {
    forall u | 0 <= u < |s'.tasks| ensures TaskOk(strict, s'.refs, s'.plans, s'.grants, u, s'.tasks[u]) {
      if u != t && u < |s.tasks| {
        OtherOk(strict, s, s', t, u);
      }
    }
  }

  /** Retries, reconnections and the review after a push trust what they find; this is what a caller can
      check first. */
  predicate Guarded(strict: bool, s: State, step: Step) {
    match step
    case RetryStep(t, proposal, failed) =>
      t < |s.tasks| && Target(s.tasks[t], proposal, failed).Some? ==>
        Fits(strict, s, t, Target(s.tasks[t], proposal, failed).value)
    case ReconnectStep(t, kind) => t < |s.tasks| && KindState(kind).Some? ==> Fits(strict, s, t, KindState(kind).value)
    case HeadChangedStep(t) => strict && HeadChanged(s, t).Ok? ==> s.tasks[t].planApproval != ""
    case _ => true
  }

  /** May task `t` stand in `state` with the approvals it holds? */
  predicate Fits(strict: bool, s: State, t: nat, state: TaskState)
    requires t < |s.tasks|
  {
    var task := s.tasks[t];
    && Phase(strict, state, task.requirementsApproval, task.planApproval, task.pr)
    && (state in {ReviewingImplementationPlan, AwaitingPlanApproval} ==> PlanMatches(s.plans, t, task))
    && (state.AwaitingRequirementsConfirmation? ==> task.requirementsConfirmation != "")
    && (state.AwaitingPlanApproval? ==> task.planConfirmation != "")
  }

  lemma CreateKeeps(strict: bool, s: State, task: Task)
    requires Inv(strict, s) && task.state.DraftingRequirements? && task.reference.None?
    requires task.requirementsApproval == "" && task.planApproval == ""
    ensures Inv(strict, s.(tasks := s.tasks + [task]))
  {
    OthersKeep(strict, s, s.(tasks := s.tasks + [task]), |s.tasks|);
  }

  lemma RegisterKeeps(strict: bool, s: State, t: nat, key: Key, hash: string, explained: bool, uid: string)
    requires Inv(strict, s) && RegisterRequirements(s, t, key, hash, explained, uid).Ok?
    ensures Inv(strict, RegisterRequirements(s, t, key, hash, explained, uid).value)
  {
    OthersKeep(strict, s, RegisterRequirements(s, t, key, hash, explained, uid).value, t);
  }

  lemma GrantKeeps(grants: seq<Grant>, g: Grant)
    requires SingleUse(grants) && !Consumed(grants, g.confirmation)
    ensures SingleUse(grants + [g])
    ensures !g.expired ==> Granted(grants + [g], g.task, g.stage, g.hash, g.sha, g.confirmation)
  {
    assert (grants + [g])[|grants|] == g;
    assert !g.expired ==> Matches((grants + [g])[|grants|], g.task, g.stage, g.hash, g.sha, g.confirmation);
  }

  lemma GrantedMore(grants: seq<Grant>, g: Grant, t: nat, stage: Stage, hash: string, sha: string, confirmation: string)
    requires Granted(grants, t, stage, hash, sha, confirmation)
    ensures Granted(grants + [g], t, stage, hash, sha, confirmation)
  {
    var i :| 0 <= i < |grants| && Matches(grants[i], t, stage, hash, sha, confirmation);
    assert Matches((grants + [g])[i], t, stage, hash, sha, confirmation);
  }

  lemma ApproveRequirementsKeeps(strict: bool, cfg: Settings, s: State, t: nat, actor: string, hash: string,
                                 confirmation: string)
    requires Inv(strict, s) && ApproveRequirements(cfg, s, t, actor, hash, confirmation).Ok?
    ensures Inv(strict, ApproveRequirements(cfg, s, t, actor, hash, confirmation).value)
  {
    var s' := ApproveRequirements(cfg, s, t, actor, hash, confirmation).value;
    GrantKeeps(s.grants, Grant(t, Requirements, hash, "", confirmation, actor, false));
    OthersKeep(strict, s, s', t);
  }

  lemma PlanKeeps(strict: bool, s: State, t: nat, hash: string, base: string, valid: bool)
    requires Inv(strict, s) && RegisterPlan(s, t, hash, base, valid).Ok?
    ensures Inv(strict, RegisterPlan(s, t, hash, base, valid).value)
  {
    OthersKeep(strict, s, RegisterPlan(s, t, hash, base, valid).value, t);
  }

  lemma ReviewKeeps(strict: bool, cfg: Settings, s: State, t: nat, hash: string, covered: bool, explained: bool,
                    uid: string)
    requires Inv(strict, s) && CompletePlanReview(cfg, s, t, hash, covered, explained, uid).Ok?
    ensures Inv(strict, CompletePlanReview(cfg, s, t, hash, covered, explained, uid).value)
  {
    var s' := CompletePlanReview(cfg, s, t, hash, covered, explained, uid).value;
    assert TaskOk(strict, s.refs, s.plans, s.grants, t, s.tasks[t]);
    JudgedOk(strict, cfg, s, t, hash, covered, explained, uid);
    OthersKeep(strict, s, s', t);
  }

  lemma JudgedOk(strict: bool, cfg: Settings, s: State, t: nat, hash: string, covered: bool, explained: bool,
                 uid: string)
    requires CompletePlanReview(cfg, s, t, hash, covered, explained, uid).Ok?
    requires TaskOk(strict, s.refs, s.plans, s.grants, t, s.tasks[t])
    ensures var s' := CompletePlanReview(cfg, s, t, hash, covered, explained, uid).value;
            && |s'.tasks| == |s.tasks| && TaskOk(strict, s'.refs, s'.plans, s'.grants, t, s'.tasks[t])
            && Others(s, s', t)
  {
  }

  lemma ApprovePlanKeeps(strict: bool, cfg: Settings, s: State, t: nat, actor: string, hash: string, sha: string,
                         confirmation: string)
    requires Inv(strict, s) && ApprovePlan(cfg, s, t, actor, hash, sha, confirmation).Ok?
    ensures Inv(strict, ApprovePlan(cfg, s, t, actor, hash, sha, confirmation).value)
  {
    var s', task := ApprovePlan(cfg, s, t, actor, hash, sha, confirmation).value, s.tasks[t];
    var g := Grant(t, Implementation, hash, sha, confirmation, actor, false);
    GrantKeeps(s.grants, g);
    GrantedMore(s.grants, g, t, Requirements, task.requirements, "", task.requirementsApproval);
    OthersKeep(strict, s, s', t);
  }

  lemma CancelKeeps(strict: bool, s: State, t: nat)
    requires Inv(strict, s) && Cancel(s, t).Ok?
    ensures Inv(strict, Cancel(s, t).value)
  {
    OthersKeep(strict, s, Cancel(s, t).value, t);
  }

  /** The other steps write only the row of their task. */
  predicate RowOnly(step: Step) { Revokes(step) || Trusts(step) || Moves(step) }

  /** The steps among them that take an approval back or hand work on under it. */
  predicate Revokes(step: Step) {
    step.ReviseStep? || step.ClarifyStep? || step.IssueChangedStep? || step.PlanChangedStep?
  }

  predicate Trusts(step: Step) { step.RetryStep? || step.ReconnectStep? || step.HeadChangedStep? }

  predicate Moves(step: Step) {
    step.PauseStep? || step.FoundMergedStep? || step.PublishStep? || step.WorkStep? || step.BlockStep?
  }

  ghost predicate RowWritten(s: State, t: nat, s': State) {
    && t < |s.tasks| && |s'.tasks| == |s.tasks| && s' == SetTask(s, t, s'.tasks[t])
    && s'.tasks[t].previous == s.tasks[t].previous && !s.tasks[t].state.Cancelled?
    && s'.tasks[t].revisions == s.tasks[t].revisions
  }

  lemma RevokedShape(cfg: Settings, s: State, step: Step)
    requires Revokes(step) && Try(cfg, s, step).Ok?
    ensures RowWritten(s, step.t, Try(cfg, s, step).value)
  {
  }

  lemma TrustedShape(cfg: Settings, s: State, step: Step)
    requires Trusts(step) && Try(cfg, s, step).Ok?
    ensures RowWritten(s, step.t, Try(cfg, s, step).value)
  {
  }

  lemma MovedShape(cfg: Settings, s: State, step: Step)
    requires Moves(step) && Try(cfg, s, step).Ok?
    ensures RowWritten(s, step.t, Try(cfg, s, step).value)
  {
  }

  lemma RowShape(cfg: Settings, s: State, step: Step)
    requires RowOnly(step) && Try(cfg, s, step).Ok?
    ensures RowWritten(s, step.t, Try(cfg, s, step).value)
  {
    if Revokes(step) {
      RevokedShape(cfg, s, step);
    } else if Trusts(step) {
      TrustedShape(cfg, s, step);
    } else {
      MovedShape(cfg, s, step);
    }
  }

  lemma RevokedOk(strict: bool, cfg: Settings, s: State, step: Step)
    requires Revokes(step) && Try(cfg, s, step).Ok? && step.t < |s.tasks|
    requires TaskOk(strict, s.refs, s.plans, s.grants, step.t, s.tasks[step.t])
    ensures step.t < |Try(cfg, s, step).value.tasks|
    ensures TaskOk(strict, s.refs, s.plans, s.grants, step.t, Try(cfg, s, step).value.tasks[step.t])
  {
  }

  lemma MovedOk(strict: bool, cfg: Settings, s: State, step: Step)
    requires Moves(step) && Try(cfg, s, step).Ok? && step.t < |s.tasks|
    requires TaskOk(strict, s.refs, s.plans, s.grants, step.t, s.tasks[step.t])
    ensures step.t < |Try(cfg, s, step).value.tasks|
    ensures TaskOk(strict, s.refs, s.plans, s.grants, step.t, Try(cfg, s, step).value.tasks[step.t])
  {
  }

  lemma TrustedOk(strict: bool, cfg: Settings, s: State, step: Step)
    requires Trusts(step) && Guarded(strict, s, step) && Try(cfg, s, step).Ok? && step.t < |s.tasks|
    requires TaskOk(strict, s.refs, s.plans, s.grants, step.t, s.tasks[step.t])
    ensures step.t < |Try(cfg, s, step).value.tasks|
    ensures TaskOk(strict, s.refs, s.plans, s.grants, step.t, Try(cfg, s, step).value.tasks[step.t])
  {
  }

  lemma SetTaskKeeps(strict: bool, s: State, t: nat, task: Task)
    requires Inv(strict, s) && t < |s.tasks| && TaskOk(strict, s.refs, s.plans, s.grants, t, task)
    ensures Inv(strict, SetTask(s, t, task))
  {
    OthersKeep(strict, s, SetTask(s, t, task), t);
  }

  lemma RowKeeps(strict: bool, cfg: Settings, s: State, step: Step)
    requires Inv(strict, s) && RowOnly(step) && Guarded(strict, s, step) && Try(cfg, s, step).Ok?
    ensures Inv(strict, Try(cfg, s, step).value)
  {
    RowShape(cfg, s, step);
    if Revokes(step) {
      RevokedOk(strict, cfg, s, step);
    } else if Trusts(step) {
      TrustedOk(strict, cfg, s, step);
    } else {
      MovedOk(strict, cfg, s, step);
    }
    SetTaskKeeps(strict, s, step.t, Try(cfg, s, step).value.tasks[step.t]);
  }

  lemma ReviseKeeps(strict: bool, cfg: Settings, s: State, t: nat)
    requires Inv(strict, s) && Revise(s, t).Ok?
    ensures Inv(strict, Revise(s, t).value)
  {
    RowKeeps(strict, cfg, s, ReviseStep(t));
  }

  lemma ClarifyKeeps(strict: bool, cfg: Settings, s: State, t: nat, fix: bool, current: bool)
    requires Inv(strict, s) && Workflow.Clarify(s, t, fix, current).Ok?
    ensures Inv(strict, Workflow.Clarify(s, t, fix, current).value)
  {
    RowKeeps(strict, cfg, s, ClarifyStep(t, fix, current));
  }

  lemma StepKeeps(strict: bool, cfg: Settings, s: State, step: Step)
    requires Inv(strict, s) && Guarded(strict, s, step)
    ensures Inv(strict, Apply(cfg, s, step))
  {
    if Try(cfg, s, step).Ok? {
      match step
      case CreateStep => CreateKeeps(strict, s, NEW_TASK);
      case RestartStep(t) => CreateKeeps(strict, s, NEW_TASK.(previous := Some(t), issue := s.tasks[t].issue));
      case RegisterStep(t, key, hash, explained, uid) => RegisterKeeps(strict, s, t, key, hash, explained, uid);
      case ApproveRequirementsStep(t, actor, hash, confirmation) =>
        ApproveRequirementsKeeps(strict, cfg, s, t, actor, hash, confirmation);
      case PlanStep(t, hash, base, valid) => PlanKeeps(strict, s, t, hash, base, valid);
      case ReviewStep(t, hash, covered, explained, uid) =>
        ReviewKeeps(strict, cfg, s, t, hash, covered, explained, uid);
      case ApprovePlanStep(t, actor, hash, sha, confirmation) =>
        ApprovePlanKeeps(strict, cfg, s, t, actor, hash, sha, confirmation);
      case CancelStep(t) => CancelKeeps(strict, s, t);
      case _ => RowKeeps(strict, cfg, s, step);
    }
  }

  // ----- runs -----

  ghost function After(cfg: Settings, s: State, steps: seq<Step>): State
    decreases |steps|
  {
    if steps == [] then s else After(cfg, Apply(cfg, s, steps[0]), steps[1..])
  }

  const EMPTY := State([], map[], [], [])

  /** Every such step of the run passes its check. */
  ghost predicate AllGuarded(strict: bool, cfg: Settings, s: State, steps: seq<Step>)
    decreases |steps|
  {
    steps == [] || (Guarded(strict, s, steps[0]) && AllGuarded(strict, cfg, Apply(cfg, s, steps[0]), steps[1..]))
  }

  lemma {:induction false} RunInv(strict: bool, cfg: Settings, s: State, steps: seq<Step>)
    requires Inv(strict, s) && AllGuarded(strict, cfg, s, steps)
    ensures Inv(strict, After(cfg, s, steps))
    decreases |steps|
  {
    if steps != [] {
      StepKeeps(strict, cfg, s, steps[0]);
      RunInv(strict, cfg, Apply(cfg, s, steps[0]), steps[1..]);
    }
  }

  /** A queued task carries a standing approval of exactly its requirements, and one of exactly its plan
      and base, given for this task; the plan has passed its review. Pushes do not matter here. */
  lemma QueuedIsApproved(cfg: Settings, steps: seq<Step>, t: nat)
    requires AllGuarded(false, cfg, EMPTY, steps)
    requires var s := After(cfg, EMPTY, steps); t < |s.tasks| && s.tasks[t].state.Queued?
    ensures var s := After(cfg, EMPTY, steps);
            var task := s.tasks[t];
            && task.requirementsApproval != "" && task.planApproval != ""
            && Granted(s.grants, t, Requirements, task.requirements, "", task.requirementsApproval)
            && Granted(s.grants, t, Implementation, task.planHash, task.base, task.planApproval)
            && PlanMatches(s.plans, t, task) && s.plans[task.plan.value].verdict == Approved
  {
    RunInv(false, cfg, EMPTY, steps);
    var s := After(cfg, EMPTY, steps);
    assert TaskOk(false, s.refs, s.plans, s.grants, t, s.tasks[t]);
  }

  lemma GrantsKept(cfg: Settings, s: State, step: Step)
    requires !step.ApproveRequirementsStep? && !step.ApprovePlanStep? && !step.CancelStep?
    ensures Apply(cfg, s, step).grants == s.grants
  {
    if Try(cfg, s, step).Ok? && RowOnly(step) {
      RowShape(cfg, s, step);
    }
  }

  lemma ConsumedOnce(cfg: Settings, s: State, step: Step)
    requires SingleUse(s.grants)
    ensures SingleUse(Apply(cfg, s, step).grants)
  {
    match step
    case ApproveRequirementsStep(t, actor, hash, confirmation) =>
      if Try(cfg, s, step).Ok? {
        GrantKeeps(s.grants, Grant(t, Requirements, hash, "", confirmation, actor, false));
      }
    case ApprovePlanStep(t, actor, hash, sha, confirmation) =>
      if Try(cfg, s, step).Ok? {
        GrantKeeps(s.grants, Grant(t, Implementation, hash, sha, confirmation, actor, false));
      }
    case CancelStep(t) =>
    case _ => GrantsKept(cfg, s, step);
  }

  /** Each confirmation id is consumed at most once, in any run. */
  lemma {:induction false} ConsumedOnceInRun(cfg: Settings, s: State, steps: seq<Step>)
    requires SingleUse(s.grants)
    ensures SingleUse(After(cfg, s, steps).grants)
    decreases |steps|
  {
    if steps != [] {
      ConsumedOnce(cfg, s, steps[0]);
      ConsumedOnceInRun(cfg, Apply(cfg, s, steps[0]), steps[1..]);
    }
  }

  lemma PlansKept(cfg: Settings, s: State, step: Step)
    requires !step.PlanStep? && !step.ReviewStep?
    ensures Apply(cfg, s, step).plans == s.plans
  {
    if Try(cfg, s, step).Ok? && RowOnly(step) {
      RowShape(cfg, s, step);
    }
  }

  lemma RefsKept(cfg: Settings, s: State, step: Step)
    requires !step.RegisterStep? && !step.ApproveRequirementsStep?
    ensures Apply(cfg, s, step).refs == s.refs
  {
    if Try(cfg, s, step).Ok? && RowOnly(step) {
      RowShape(cfg, s, step);
    }
  }

  lemma NumberedStep(cfg: Settings, s: State, step: Step)
    requires Numbered(s.plans)
    ensures Numbered(Apply(cfg, s, step).plans)
  {
    if !step.PlanStep? && !step.ReviewStep? {
      PlansKept(cfg, s, step);
    }
  }

  /** Plan versions strictly increase for each Issue, in any run. */
  lemma {:induction false} VersionsIncrease(cfg: Settings, s: State, steps: seq<Step>)
    requires Numbered(s.plans)
    ensures Numbered(After(cfg, s, steps).plans)
    decreases |steps|
  {
    if steps != [] {
      NumberedStep(cfg, s, steps[0]);
      VersionsIncrease(cfg, Apply(cfg, s, steps[0]), steps[1..]);
    }
  }

  // ----- who speaks for an Issue -----

  /** Task `b` is `a`, or continues a task that descends from `a`. */
  ghost predicate Descends(tasks: seq<Task>, b: nat, a: nat)
    decreases b
  {
    b == a || (b < |tasks| && tasks[b].previous.Some? && tasks[b].previous.value < b
               && Descends(tasks, tasks[b].previous.value, a))
  }

  /** No task is continued before it exists, and nobody rewrites who continues whom. */
  ghost predicate Lineage(tasks: seq<Task>) {
    forall t | 0 <= t < |tasks| && tasks[t].previous.Some? :: tasks[t].previous.value < t
  }

  ghost predicate SameLineage(tasks: seq<Task>, tasks': seq<Task>) {
    |tasks| <= |tasks'| && forall t | 0 <= t < |tasks| :: tasks'[t].previous == tasks[t].previous
  }

  lemma LineageStep(cfg: Settings, s: State, step: Step)
    requires Lineage(s.tasks)
    ensures Lineage(Apply(cfg, s, step).tasks) && SameLineage(s.tasks, Apply(cfg, s, step).tasks)
  {
    if Try(cfg, s, step).Ok? {
      if RowOnly(step) {
        RowShape(cfg, s, step);
      } else {
        match step
        case CreateStep =>
        case RestartStep(t) =>
        case _ => WrittenRow(cfg, s, step);
      }
    }
  }

  lemma WrittenRow(cfg: Settings, s: State, step: Step)
    requires !RowOnly(step) && !step.CreateStep? && !step.RestartStep? && Try(cfg, s, step).Ok?
    ensures var s', t := Try(cfg, s, step).value, step.t;
            t < |s.tasks| && |s'.tasks| == |s.tasks| && s'.tasks == s.tasks[t := s'.tasks[t]]
            && s'.tasks[t].previous == s.tasks[t].previous && !s.tasks[t].state.Cancelled?
            && (s'.tasks[t].revisions == s.tasks[t].revisions
                || (step.ReviewStep? && s.tasks[t].revisions < cfg.revisionLimit
                    && s'.tasks[t].revisions == s.tasks[t].revisions + 1))
  {
  }

  /** A cancelled task stays cancelled; only a new task can continue it. */
  lemma CancelledStays(cfg: Settings, s: State, step: Step, t: nat)
    requires t < |s.tasks| && s.tasks[t].state.Cancelled?
    ensures t < |Apply(cfg, s, step).tasks| && Apply(cfg, s, step).tasks[t] == s.tasks[t]
  {
    if Try(cfg, s, step).Ok? {
      if RowOnly(step) {
        RowShape(cfg, s, step);
      } else if !step.CreateStep? && !step.RestartStep? {
        WrittenRow(cfg, s, step);
      }
    }
  }

  lemma {:induction false} CancelledForGood(cfg: Settings, s: State, steps: seq<Step>, t: nat)
    requires t < |s.tasks| && s.tasks[t].state.Cancelled?
    ensures t < |After(cfg, s, steps).tasks| && After(cfg, s, steps).tasks[t] == s.tasks[t]
    decreases |steps|
  {
    if steps != [] {
      CancelledStays(cfg, s, steps[0], t);
      CancelledForGood(cfg, Apply(cfg, s, steps[0]), steps[1..], t);
    }
  }

  /** A step hands an Issue over only from a cancelled task to the task that continues it. */
  lemma HandOver(cfg: Settings, s: State, step: Step, k: Key)
    requires k in s.refs
    ensures var s' := Apply(cfg, s, step);
            k in s'.refs
            && (s'.refs[k].task != s.refs[k].task ==>
                  && step.RegisterStep? && step.t == s'.refs[k].task && step.t < |s.tasks|
                  && s.refs[k].task < |s.tasks| && s.tasks[s.refs[k].task].state.Cancelled?
                  && s.tasks[step.t].previous == Some(s.refs[k].task))
  {
    if !step.RegisterStep? && !step.ApproveRequirementsStep? {
      RefsKept(cfg, s, step);
    }
  }

  lemma {:induction false} DescendsLater(tasks: seq<Task>, tasks': seq<Task>, b: nat, a: nat)
    requires SameLineage(tasks, tasks') && Descends(tasks, b, a)
    ensures Descends(tasks', b, a)
    decreases b
  {
    if b != a {
      DescendsLater(tasks, tasks', tasks[b].previous.value, a);
    }
  }

  lemma {:induction false} DescendsThen(tasks: seq<Task>, c: nat, b: nat, a: nat)
    requires Descends(tasks, c, b) && Descends(tasks, b, a)
    ensures Descends(tasks, c, a)
    decreases c
  {
    if c != b {
      DescendsThen(tasks, tasks[c].previous.value, b, a);
    }
  }

  lemma {:induction false} RunLineage(cfg: Settings, s: State, steps: seq<Step>)
    requires Lineage(s.tasks)
    ensures SameLineage(s.tasks, After(cfg, s, steps).tasks) && Lineage(After(cfg, s, steps).tasks)
    decreases |steps|
  {
    if steps != [] {
      LineageStep(cfg, s, steps[0]);
      RunLineage(cfg, Apply(cfg, s, steps[0]), steps[1..]);
    }
  }

  /** Whoever speaks for an Issue later descends, restart by restart, from whoever spoke for it. */
  lemma {:induction false} AuthorityDescends(cfg: Settings, s: State, steps: seq<Step>, k: Key)
    requires Lineage(s.tasks) && k in s.refs
    ensures var s' := After(cfg, s, steps);
            k in s'.refs && Descends(s'.tasks, s'.refs[k].task, s.refs[k].task)
    decreases |steps|
  {
    if steps != [] {
      var next := Apply(cfg, s, steps[0]);
      var s' := After(cfg, s, steps);
      LineageStep(cfg, s, steps[0]);
      HandOver(cfg, s, steps[0], k);
      AuthorityDescends(cfg, next, steps[1..], k);
      RunLineage(cfg, next, steps[1..]);
      assert Descends(next.tasks, next.refs[k].task, s.refs[k].task);
      DescendsLater(next.tasks, s'.tasks, next.refs[k].task, s.refs[k].task);
      DescendsThen(s'.tasks, s'.refs[k].task, next.refs[k].task, s.refs[k].task);
    }
  }

  /** At most one task that is not cancelled is bound to an Issue. */
  lemma OneSpeaker(cfg: Settings, steps: seq<Step>, a: nat, b: nat)
    requires AllGuarded(false, cfg, EMPTY, steps)
    requires var tasks := After(cfg, EMPTY, steps).tasks;
             a < |tasks| && b < |tasks| && !tasks[a].state.Cancelled? && !tasks[b].state.Cancelled?
             && tasks[a].reference.Some? && tasks[a].reference == tasks[b].reference
    ensures a == b
  {
    RunInv(false, cfg, EMPTY, steps);
    var s := After(cfg, EMPTY, steps);
    assert TaskOk(false, s.refs, s.plans, s.grants, a, s.tasks[a]);
    assert TaskOk(false, s.refs, s.plans, s.grants, b, s.tasks[b]);
  }

  // ----- a recorded state that is no longer true -----

  /** A retry keeps the invariant exactly when it is refused or the approvals of the task fit the state it
      goes to. */
  lemma RetryKeepsIff(strict: bool, cfg: Settings, s: State, t: nat, proposal: bool, failed: Option<Kind>)
    requires Inv(strict, s) && t < |s.tasks| && s.tasks[t].state in {Blocked, Paused}
    ensures Inv(strict, Apply(cfg, s, RetryStep(t, proposal, failed))) <==>
            match Target(s.tasks[t], proposal, failed)
            case None => true
            case Some(state) => Fits(strict, s, t, state)
  {
    var s' := Apply(cfg, s, RetryStep(t, proposal, failed));
    if Guarded(strict, s, RetryStep(t, proposal, failed)) {
      StepKeeps(strict, cfg, s, RetryStep(t, proposal, failed));
    }
    if Inv(strict, s') && Target(s.tasks[t], proposal, failed).Some? {
      assert TaskOk(strict, s'.refs, s'.plans, s'.grants, t, s'.tasks[t]);
    }
  }

  /** So a retry may hand a task on for execution exactly when the task holds both approvals. */
  lemma RetryIntoWorkIff(cfg: Settings, s: State, t: nat, proposal: bool, failed: Option<Kind>)
    requires Inv(true, s) && t < |s.tasks| && s.tasks[t].state in {Blocked, Paused}
    requires var target := Target(s.tasks[t], proposal, failed); target.Some? && Executing(target.value)
    ensures Inv(true, Apply(cfg, s, RetryStep(t, proposal, failed))) <==>
            s.tasks[t].requirementsApproval != "" && s.tasks[t].planApproval != ""
  {
    RetryKeepsIff(true, cfg, s, t, proposal, failed);
  }

  /** The same for work that is done again: it must fit the state for the kind of the failed job. */
  lemma ReconnectKeepsIff(strict: bool, cfg: Settings, s: State, t: nat, kind: Kind)
    requires Inv(strict, s) && t < |s.tasks| && s.tasks[t].state.Blocked?
    ensures Inv(strict, Apply(cfg, s, ReconnectStep(t, kind))) <==>
            match KindState(kind)
            case None => true
            case Some(state) => Fits(strict, s, t, state)
  {
    var s' := Apply(cfg, s, ReconnectStep(t, kind));
    if Guarded(strict, s, ReconnectStep(t, kind)) {
      StepKeeps(strict, cfg, s, ReconnectStep(t, kind));
    }
    if Inv(strict, s') && KindState(kind).Some? {
      assert TaskOk(strict, s'.refs, s'.plans, s'.grants, t, s'.tasks[t]);
    }
  }

  /** A push keeps every executing task approved exactly when the plan of the task is approved already. */
  lemma HeadChangeKeepsIff(cfg: Settings, s: State, t: nat)
    requires Inv(true, s) && HeadChanged(s, t).Ok?
    ensures Inv(true, Apply(cfg, s, HeadChangedStep(t))) <==> s.tasks[t].planApproval != ""
  {
    var s' := Apply(cfg, s, HeadChangedStep(t));
    if s.tasks[t].planApproval != "" {
      StepKeeps(true, cfg, s, HeadChangedStep(t));
    }
    if Inv(true, s') {
      assert TaskOk(true, s'.refs, s'.plans, s'.grants, t, s'.tasks[t]);
    }
  }

  /** A failure while queued, a revision that takes the approvals back, and a limit that stops the new
      draft: the retry trusts the recorded state and queues a task that nobody has approved. The failure
      can be that of a consultation, which runs while the implementation still waits. */
  function Stale(t: nat): seq<Step> {
    [BlockStep(t, true), ReviseStep(t), BlockStep(t, false), RetryStep(t, false, Some(DraftRequirements))]
  }

  lemma StaleRetry(cfg: Settings, s: State, t: nat)
    requires t < |s.tasks| && s.tasks[t].state.Queued?
    ensures var s' := After(cfg, s, Stale(t));
            t < |s'.tasks| && s'.tasks[t].state.Queued?
            && s'.tasks[t].requirementsApproval == "" && s'.tasks[t].planApproval == ""
  {
    var task := s.tasks[t];
    var retry := RetryStep(t, false, Some(DraftRequirements));
    var a := SetTask(s, t, task.(state := Blocked, retryState := Some(Queued)));
    var b := SetTask(a, t, a.tasks[t].(state := DraftingRequirements, requirementsApproval := "", planApproval := ""));
    var c := SetTask(b, t, b.tasks[t].(state := Blocked));
    var d := SetTask(c, t, c.tasks[t].(state := Queued, retryState := None));
    assert Apply(cfg, s, BlockStep(t, true)) == a && Apply(cfg, a, ReviseStep(t)) == b;
    assert Apply(cfg, b, BlockStep(t, false)) == c && Apply(cfg, c, retry) == d;
    AfterFour(cfg, s, BlockStep(t, true), ReviseStep(t), BlockStep(t, false), retry);
  }

  lemma AfterFour(cfg: Settings, s: State, a: Step, b: Step, c: Step, d: Step)
    ensures After(cfg, s, [a, b, c, d]) == Apply(cfg, Apply(cfg, Apply(cfg, Apply(cfg, s, a), b), c), d)
  {
    var s1 := Apply(cfg, s, a);
    var s2 := Apply(cfg, s1, b);
    var s3 := Apply(cfg, s2, c);
    calc {
      After(cfg, s, [a, b, c, d]);
      { assert [a, b, c, d][1..] == [b, c, d]; }
      After(cfg, s1, [b, c, d]);
      { assert [b, c, d][1..] == [c, d]; }
      After(cfg, s2, [c, d]);
      { assert [c, d][1..] == [d]; }
      After(cfg, s3, [d]);
      { assert [d][1..] == []; }
      Apply(cfg, s3, d);
    }
  }

  // ----- the queue can be reached -----

  /** A plan that is registered and passes its review waits for approval. */
  lemma PlanIsReviewed(cfg: Settings, s: State, t: nat, key: Key, plan: string, base: string, uid: string)
    requires t < |s.tasks| && s.tasks[t].state.PlanningImplementation? && s.tasks[t].reference == Some(key)
    requires key in s.refs && s.refs[key].approved
    ensures var s' := Apply(cfg, Apply(cfg, s, PlanStep(t, plan, base, true)), ReviewStep(t, plan, true, true, uid));
            && s'.grants == s.grants && t < |s'.tasks| && s'.tasks[t].state.AwaitingPlanApproval?
            && s'.tasks[t].plan == Some(|s.plans|) && s'.tasks[t].planConfirmation == "PLAN-" + uid
            && s'.tasks[t].planHash == plan && s'.tasks[t].base == base
            && s'.tasks[t].pr == s.tasks[t].pr && s'.tasks[t].planApproval == s.tasks[t].planApproval
            && |s'.plans| == |s.plans| + 1 && s'.plans[|s.plans|].verdict == Approved
            && s'.plans[|s.plans|].hash == plan && s'.plans[|s.plans|].base == base
  {
    var s1 := Apply(cfg, s, PlanStep(t, plan, base, true));
    assert s1.plans[|s.plans|] == Plan.Plan(t, key, MaxVersion(s.plans, key) + 1, plan, base, Pending);
  }

  /** Two approvals, with the planning between them. */
  function Approvals(t: nat, one: string, hash: string, confirmation: string, two: string, plan: string, base: string,
                     uid: string): seq<Step>
  {
    [ApproveRequirementsStep(t, one, hash, confirmation), PlanStep(t, plan, base, true),
     ReviewStep(t, plan, true, true, uid), ApprovePlanStep(t, two, plan, base, "PLAN-" + uid)]
  }

  /** From requirements that wait for approval, two approvals by the right people queue the task. */
  lemma ApprovalsQueue(cfg: Settings, s: State, t: nat, key: Key, one: string, two: string, plan: string, base: string,
                       uid: string)
    requires t < |s.tasks| && s.tasks[t].state.AwaitingRequirementsConfirmation? && s.tasks[t].reference == Some(key)
    requires key in s.refs && s.refs[key].bodyHash == s.tasks[t].requirements
    requires one in cfg.requirementsApprovers && two in cfg.planApprovers
    requires !Consumed(s.grants, s.tasks[t].requirementsConfirmation) && !Consumed(s.grants, "PLAN-" + uid)
    requires s.tasks[t].requirementsConfirmation != "PLAN-" + uid
    ensures var s' := After(cfg, s, Approvals(t, one, s.tasks[t].requirements, s.tasks[t].requirementsConfirmation,
                                              two, plan, base, uid));
            t < |s'.tasks| && s'.tasks[t].state.Queued? && s'.tasks[t].planHash == plan && s'.tasks[t].base == base
  {
    var task := s.tasks[t];
    var a := ApproveRequirementsStep(t, one, task.requirements, task.requirementsConfirmation);
    var s1 := Apply(cfg, s, a);
    assert s1.grants
        == s.grants + [Grant(t, Requirements, task.requirements, "", task.requirementsConfirmation, one, false)];
    assert !Consumed(s1.grants, "PLAN-" + uid);
    PlanIsReviewed(cfg, s1, t, key, plan, base, uid);
    AfterFour(cfg, s, a, PlanStep(t, plan, base, true), ReviewStep(t, plan, true, true, uid),
              ApprovePlanStep(t, two, plan, base, "PLAN-" + uid));
  }

  lemma {:induction false} AfterThen(cfg: Settings, s: State, a: seq<Step>, b: seq<Step>)
    ensures After(cfg, s, a + b) == After(cfg, After(cfg, s, a), b)
    decreases |a|
  {
    if a == [] {
      assert a + b == b;
    } else {
      assert (a + b)[1..] == a[1..] + b;
      AfterThen(cfg, Apply(cfg, s, a[0]), a[1..], b);
    }
  }

  /** Requirements of a first task are registered. */
  lemma Registered(cfg: Settings, key: Key, hash: string, uid: string)
    ensures var s := After(cfg, EMPTY, [CreateStep, RegisterStep(0, key, hash, true, uid)]);
            && |s.tasks| == 1 && s.grants == [] && s.tasks[0].state.AwaitingRequirementsConfirmation?
            && s.tasks[0].requirements == hash && s.tasks[0].requirementsConfirmation == "REQ-" + uid
            && s.tasks[0].reference == Some(key) && key in s.refs && s.refs[key].bodyHash == hash
            && s.tasks[0].planApproval == ""
  {
    var create, register := CreateStep, RegisterStep(0, key, hash, true, uid);
    var s := Apply(cfg, EMPTY, create);
    assert s.tasks == [NEW_TASK];
    calc {
      After(cfg, EMPTY, [create, register]);
      { assert [create, register][1..] == [register]; }
      After(cfg, s, [register]);
      { assert [register][1..] == []; }
      Apply(cfg, s, register);
    }
  }

  /** The whole way from nothing: an approved task, and after four more steps a queued one without approvals. */
  lemma QueuedWithoutApproval(cfg: Settings, key: Key, hash: string, one: string, two: string, plan: string,
                              base: string, uid: string)
    requires one in cfg.requirementsApprovers && two in cfg.planApprovers
    ensures var steps := [CreateStep, RegisterStep(0, key, hash, true, uid)]
                         + Approvals(0, one, hash, "REQ-" + uid, two, plan, base, uid) + Stale(0);
            var s := After(cfg, EMPTY, steps);
            && |s.tasks| > 0 && s.tasks[0].state.Queued?
            && s.tasks[0].requirementsApproval == "" && s.tasks[0].planApproval == ""
  {
    var first := [CreateStep, RegisterStep(0, key, hash, true, uid)];
    var second := Approvals(0, one, hash, "REQ-" + uid, two, plan, base, uid);
    Registered(cfg, key, hash, uid);
    assert ("REQ-" + uid)[0] == 'R' && ("PLAN-" + uid)[0] == 'P';
    ApprovalsQueue(cfg, After(cfg, EMPTY, first), 0, key, one, two, plan, base, uid);
    AfterThen(cfg, EMPTY, first, second);
    AfterThen(cfg, EMPTY, first + second, Stale(0));
    StaleRetry(cfg, After(cfg, EMPTY, first + second), 0);
  }

  // ----- a push before the plan is approved -----

  /** Steps that need no check. */
  predicate Plain(step: Step) { !Trusts(step) }

  lemma {:induction false} PlainIsGuarded(strict: bool, cfg: Settings, s: State, steps: seq<Step>)
    requires forall i | 0 <= i < |steps| :: Plain(steps[i])
    ensures AllGuarded(strict, cfg, s, steps)
    decreases |steps|
  {
    if steps != [] {
      PlainIsGuarded(strict, cfg, Apply(cfg, s, steps[0]), steps[1..]);
    }
  }

  /** Approved requirements, and a plan that is published and reviewed. */
  function PlanOffered(key: Key, hash: string, one: string, plan: string, base: string, uid: string): seq<Step> {
    [CreateStep, RegisterStep(0, key, hash, true, uid)]
    + [ApproveRequirementsStep(0, one, hash, "REQ-" + uid), PublishStep(0), PlanStep(0, plan, base, true),
       ReviewStep(0, plan, true, true, uid)]
  }

  lemma PlanIsOffered(cfg: Settings, key: Key, hash: string, one: string, plan: string, base: string, uid: string)
    requires one in cfg.requirementsApprovers
    ensures var s := After(cfg, EMPTY, PlanOffered(key, hash, one, plan, base, uid));
            && |s.tasks| > 0 && s.tasks[0].state.AwaitingPlanApproval? && s.tasks[0].pr && s.tasks[0].planApproval == ""
  {
    var first := [CreateStep, RegisterStep(0, key, hash, true, uid)];
    var approve := ApproveRequirementsStep(0, one, hash, "REQ-" + uid);
    Registered(cfg, key, hash, uid);
    var s := After(cfg, EMPTY, first);
    var published := Apply(cfg, Apply(cfg, s, approve), PublishStep(0));
    PlanIsReviewed(cfg, published, 0, key, plan, base, uid);
    AfterFour(cfg, s, approve, PublishStep(0), PlanStep(0, plan, base, true), ReviewStep(0, plan, true, true, uid));
    AfterThen(cfg, EMPTY, first, [approve, PublishStep(0), PlanStep(0, plan, base, true),
                                  ReviewStep(0, plan, true, true, uid)]);
  }

  /** The plan waits for its approval, somebody pushes, and the task is under review without it. */
  lemma PushBeforeApproval(cfg: Settings, key: Key, hash: string, one: string, plan: string, base: string, uid: string)
    requires one in cfg.requirementsApprovers
    ensures var steps := PlanOffered(key, hash, one, plan, base, uid);
            var s := After(cfg, EMPTY, steps);
            var s' := Apply(cfg, s, HeadChangedStep(0));
            && AllGuarded(true, cfg, EMPTY, steps) && Inv(true, s) && !Inv(true, s')
            && |s'.tasks| > 0 && s'.tasks[0].state.Reviewing? && s'.tasks[0].planApproval == ""
  {
    var steps := PlanOffered(key, hash, one, plan, base, uid);
    PlanIsOffered(cfg, key, hash, one, plan, base, uid);
    PlainIsGuarded(true, cfg, EMPTY, steps);
    RunInv(true, cfg, EMPTY, steps);
    HeadChangeKeepsIff(cfg, After(cfg, EMPTY, steps), 0);
  }

  // ----- the revision budget of a plan -----

  ghost predicate Revised(limit: nat, tasks: seq<Task>) {
    forall t | 0 <= t < |tasks| :: tasks[t].revisions <= limit
  }

  lemma RevisedStep(cfg: Settings, s: State, step: Step)
    requires Revised(cfg.revisionLimit, s.tasks)
    ensures Revised(cfg.revisionLimit, Apply(cfg, s, step).tasks)
  {
    if Try(cfg, s, step).Ok? {
      if RowOnly(step) {
        RowShape(cfg, s, step);
      } else if !step.CreateStep? && !step.RestartStep? {
        WrittenRow(cfg, s, step);
      }
    }
  }

  /** No plan is sent back more often than the limit allows, in any run. */
  lemma {:induction false} RevisionsBounded(cfg: Settings, s: State, steps: seq<Step>)
    requires Revised(cfg.revisionLimit, s.tasks)
    ensures Revised(cfg.revisionLimit, After(cfg, s, steps).tasks)
    decreases |steps|
  {
    if steps != [] {
      RevisedStep(cfg, s, steps[0]);
      RevisionsBounded(cfg, Apply(cfg, s, steps[0]), steps[1..]);
    }
  }
}
