/** WorkflowV2Service (src/agent_team/workflow.py) with the answer and cancel commands of service.py, as
    methods over the tables they write. A returned error leaves every table as it was. */
module WorkflowService {
  import opened Wrappers
  import opened Domain
  import opened Workflow
  import opened WorkflowSafety

  type Reply = Result<(), string>

  /** What a caller sees of a transaction: its rows if it committed, its error if it did not. */
  ghost predicate Commits(before: State, outcome: Outcome, after: State, reply: Reply) {
    match outcome
    case Ok(s) => after == s && reply == Ok(())
    case Err(e) => after == before && reply == Err(e)
  }

  class WorkflowV2Service {
    const cfg: Settings
    ghost const strict: bool
    var tasks: seq<Task>
    var refs: map<Key, Reference>
    var plans: seq<Plan>
    var grants: seq<Grant>

    ghost function View(): State
      reads this
    {
      State(tasks, refs, plans, grants)
    }

    /** Both forms of the invariant are kept: each method below holds for either value of `strict`. */
    ghost predicate Valid()
      reads this
    {
      Inv(strict, View())
    }

    constructor (cfg: Settings, ghost strict: bool)
      ensures Valid() && View() == EMPTY && this.cfg == cfg && this.strict == strict
    {
      this.strict := strict;
      this.cfg, tasks, refs, plans, grants := cfg, [], map[], [], [];
    }

    method Create() returns (t: nat)
      requires Valid()
      modifies `tasks
      ensures t == |old(tasks)| && View() == CreateTask(old(View())) && Valid()
    {
      CreateKeeps(strict, View(), NEW_TASK);
      t := |tasks|;
      tasks := tasks + [NEW_TASK];
    }

    method Restart(previous: nat) returns (reply: Reply)
      requires Valid()
      modifies `tasks
      ensures Commits(old(View()), RestartCancelled(old(View()), previous), View(), reply) && Valid()
    {
      StepKeeps(strict, cfg, View(), RestartStep(previous));
      if previous >= |tasks| || tasks[previous].state != TaskState.Cancelled {
        return Err("Only a cancelled v2 task can be restarted");
      }
      var t := Create();
      tasks := tasks[t := tasks[t].(previous := Some(previous), issue := tasks[previous].issue)];
      return Ok(());
    }

    method Register(t: nat, key: Key, hash: string, explained: bool, uid: string) returns (reply: Reply)
      requires Valid()
      modifies `tasks, `refs
      ensures Commits(old(View()), RegisterRequirements(old(View()), t, key, hash, explained, uid), View(), reply)
      ensures Valid()
    {
      if RegisterRequirements(View(), t, key, hash, explained, uid).Ok? {
        RegisterKeeps(strict, View(), t, key, hash, explained, uid);
      }
      if t >= |tasks| {
        return Err("Unknown task");
      }
      if !explained {
        return Err("Requirements explanation is required before approval");
      }
      if tasks[t].state != DraftingRequirements {
        return Err("Task is not drafting v2 requirements");
      }
      if key in refs && refs[key].task != t {
        var previous := refs[key].task;
        if previous >= |tasks| || tasks[previous].state != TaskState.Cancelled || tasks[t].previous != Some(previous) {
          return Err("Issue authority is already bound to another active task");
        }
      }
      refs := refs[key := Reference(t, hash, false)];
      tasks := tasks[t := tasks[t].(reference := Some(key), specVersion := tasks[t].specVersion + 1,
                                    requirements := hash, issue := Some(key.issue))];
      tasks := tasks[t := tasks[t].(state := AwaitingRequirementsConfirmation,
                                    requirementsConfirmation := "REQ-" + uid)];
      return Ok(());
    }

    method ApproveTheRequirements(t: nat, actor: string, hash: string, confirmation: string) returns (reply: Reply)
      requires Valid()
      modifies `tasks, `refs, `grants
      ensures Commits(old(View()), ApproveRequirements(cfg, old(View()), t, actor, hash, confirmation), View(), reply)
      ensures Valid()
    {
      if ApproveRequirements(cfg, View(), t, actor, hash, confirmation).Ok? {
        ApproveRequirementsKeeps(strict, cfg, View(), t, actor, hash, confirmation);
      }
      if t >= |tasks| {
        return Err("Unknown task");
      }
      if actor !in cfg.requirementsApprovers {
        return Err("Actor cannot approve requirements");
      }
      var task := tasks[t];
      if task.state != AwaitingRequirementsConfirmation || hash != task.requirements
         || confirmation != task.requirementsConfirmation {
        return Err("Stale requirements approval");
      }
      if task.reference == None || task.reference.value !in refs || refs[task.reference.value].bodyHash != hash {
        return Err("Requirements authority mismatch");
      }
      if Consumed(grants, confirmation) {
        return Err("Approval confirmation was already consumed");
      }
      grants := grants + [Grant(t, Requirements, hash, "", confirmation, actor, false)];
      var key := task.reference.value;
      refs := refs[key := refs[key].(approved := true)];
      tasks := tasks[t := task.(requirementsApproval := confirmation)];
      tasks := tasks[t := tasks[t].(state := PlanningImplementation)];
      return Ok(());
    }

    method SubmitPlan(t: nat, hash: string, base: string, valid: bool) returns (reply: Reply)
      requires Valid()
      modifies `tasks, `plans
      ensures Commits(old(View()), RegisterPlan(old(View()), t, hash, base, valid), View(), reply) && Valid()
    {
      if RegisterPlan(View(), t, hash, base, valid).Ok? {
        PlanKeeps(strict, View(), t, hash, base, valid);
      }
      if t >= |tasks| {
        return Err("Unknown task");
      }
      var task := tasks[t];
      if task.state != PlanningImplementation {
        return Err("Task is not planning implementation");
      }
      if task.reference == None || task.reference.value !in refs || !refs[task.reference.value].approved {
        return Err("Requirements are not approved");
      }
      if !valid {
        return Err("Invalid implementation plan");
      }
      var version := MaxVersion(plans, task.reference.value) + 1;
      plans := plans + [Plan.Plan(t, task.reference.value, version, hash, base, Pending)];
      tasks := tasks[t := task.(plan := Some(|plans| - 1), planHash := hash, base := base)];
      tasks := tasks[t := tasks[t].(state := ReviewingImplementationPlan)];
      return Ok(());
    }

    method CompleteReview(t: nat, hash: string, covered: bool, explained: bool, uid: string) returns (reply: Reply)
      requires Valid()
      modifies `tasks, `plans
      ensures Commits(old(View()), CompletePlanReview(cfg, old(View()), t, hash, covered, explained, uid), View(),
                      reply)
      ensures Valid()
    {
      if CompletePlanReview(cfg, View(), t, hash, covered, explained, uid).Ok? {
        ReviewKeeps(strict, cfg, View(), t, hash, covered, explained, uid);
      }
      if t >= |tasks| {
        return Err("Unknown task");
      }
      var task := tasks[t];
      if task.state != ReviewingImplementationPlan || task.plan == None || task.plan.value >= |plans|
         || plans[task.plan.value].hash != hash {
        return Err("Stale implementation plan review");
      }
      var p := task.plan.value;
      if !covered {
        plans := plans[p := plans[p].(verdict := ChangesRequested)];
        if task.revisions >= cfg.revisionLimit {
          tasks := tasks[t := task.(state := Blocked)];
        } else {
          tasks := tasks[t := task.(revisions := task.revisions + 1, state := PlanningImplementation)];
        }
        return Ok(());
      }
      if !explained {
        return Err("Plan explanation is required before approval");
      }
      plans := plans[p := plans[p].(verdict := Approved)];
      tasks := tasks[t := task.(planConfirmation := "PLAN-" + uid)];
      tasks := tasks[t := tasks[t].(state := AwaitingPlanApproval)];
      return Ok(());
    }

    method ApproveThePlan(t: nat, actor: string, hash: string, sha: string, confirmation: string) returns (reply: Reply)
      requires Valid()
      modifies `tasks, `grants
      ensures Commits(old(View()), ApprovePlan(cfg, old(View()), t, actor, hash, sha, confirmation), View(), reply)
      ensures Valid()
    {
      if ApprovePlan(cfg, View(), t, actor, hash, sha, confirmation).Ok? {
        ApprovePlanKeeps(strict, cfg, View(), t, actor, hash, sha, confirmation);
      }
      if t >= |tasks| {
        return Err("Unknown task");
      }
      if actor !in cfg.planApprovers {
        return Err("Actor cannot approve implementation plans");
      }
      var task := tasks[t];
      if task.state != AwaitingPlanApproval || task.plan == None || task.plan.value >= |plans| {
        return Err("Stale implementation plan approval");
      }
      var plan := plans[task.plan.value];
      if plan.verdict != Approved || hash != plan.hash || sha != plan.base || confirmation != task.planConfirmation {
        return Err("Stale implementation plan approval");
      }
      if Consumed(grants, confirmation) {
        return Err("Approval confirmation was already consumed");
      }
      grants := grants + [Grant(t, Implementation, hash, sha, confirmation, actor, false)];
      tasks := tasks[t := task.(planApproval := confirmation)];
      tasks := tasks[t := tasks[t].(state := Queued)];
      return Ok(());
    }

    /** The answer command: `asked` says that the last implementation asked a question, `isCurrent` that
        its identity is still the task's. */
    method Answer(t: nat, asked: bool, fix: bool, isCurrent: bool) returns (reply: Reply)
      requires Valid()
      modifies `tasks
      ensures Commits(old(View()),
                      if asked then Workflow.Clarify(old(View()), t, fix, isCurrent) else Revise(old(View()), t),
                      View(), reply)
      ensures Valid()
    {
      if asked && Workflow.Clarify(View(), t, fix, isCurrent).Ok? {
        ClarifyKeeps(strict, cfg, View(), t, fix, isCurrent);
      }
      if !asked && Revise(View(), t).Ok? {
        ReviseKeeps(strict, cfg, View(), t);
      }
      if t >= |tasks| {
        return Err("Unknown task");
      }
      var task := tasks[t];
      if task.state in {TaskState.Cancelled, Merged, Merging} {
        return Err("Cannot revise this task");
      }
      if asked && task.state == Blocked && task.requirementsApproval != "" && task.planApproval != "" {
        if !isCurrent {
          return Err("Clarification targets a stale implementation");
        }
        tasks := tasks[t := task.(state := if fix then Fixing else Queued)];
        return Ok(());
      }
      tasks := tasks[t := task.(requirementsApproval := "", planApproval := "")];
      tasks := tasks[t := tasks[t].(state := DraftingRequirements)];
      return Ok(());
    }

    /** The cancel command, whose loop expires every approval of the task. */
    method CancelTask(t: nat) returns (reply: Reply)
      requires Valid()
      modifies `tasks, `grants
      ensures Commits(old(View()), Cancel(old(View()), t), View(), reply) && Valid()
    {
      if Cancel(View(), t).Ok? {
        CancelKeeps(strict, View(), t);
      }
      if t >= |tasks| || tasks[t].state in {TaskState.Cancelled, Merged} {
        return Err("Task is terminal");
      }
      ExpireApprovals(t);
      tasks := tasks[t := tasks[t].(state := TaskState.Cancelled)];
      return Ok(());
    }

    method ExpireApprovals(t: nat)
      modifies `grants
      ensures grants == Expire(old(grants), t)
    {
      ghost var was, after := grants, Expire(grants, t);
      var i := 0;
      while i < |grants|
        invariant i <= |grants| == |was|
        invariant forall k | 0 <= k < i :: grants[k] == after[k]
        invariant forall k | i <= k < |grants| :: grants[k] == was[k]
      {
        if grants[i].task == t {
          grants := grants[i := grants[i].(expired := true)];
        }
        i := i + 1;
      }
      assert grants == after;
    }
  }
}
