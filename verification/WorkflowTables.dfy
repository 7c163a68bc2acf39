/** When each step of the approval workflow is accepted, and what it then writes, column by column. */
module WorkflowTables {
  import opened Wrappers
  import opened Domain
  import opened Workflow
  import opened WorkflowSafety

  /** Only the row of task `t` may differ among the tasks. */
  predicate OnlyTask(s: State, s': State, t: nat) {
    |s'.tasks| == |s.tasks| && forall u | 0 <= u < |s.tasks| && u != t :: s'.tasks[u] == s.tasks[u]
  }

  /** An Issue is free for a task unless another task speaks for it, which must then be the cancelled task that this
      one continues. */
  predicate IssueFree(s: State, t: nat, key: Key)
    requires t < |s.tasks|
  {
    || key !in s.refs || s.refs[key].task == t
    || (s.refs[key].task < |s.tasks| && s.tasks[s.refs[key].task].state == TaskState.Cancelled
        && s.tasks[t].previous == Some(s.refs[key].task))
  }

  lemma RegisterTable(s: State, t: nat, key: Key, hash: string, explained: bool, uid: string)
    ensures var r := RegisterRequirements(s, t, key, hash, explained, uid);
            && (r.Ok? <==>
                  t < |s.tasks| && explained && s.tasks[t].state == DraftingRequirements && IssueFree(s, t, key))
            && (r.Ok? ==>
                  var s', task, task' := r.value, s.tasks[t], r.value.tasks[t];
                  && OnlyTask(s, s', t) && s'.plans == s.plans && s'.grants == s.grants
                  && s'.refs == s.refs[key := Reference(t, hash, false)]
                  && task'.state == AwaitingRequirementsConfirmation && task'.reference == Some(key)
                  && task'.issue == Some(key.issue) && task'.requirements == hash
                  && task'.requirementsConfirmation == "REQ-" + uid && task'.specVersion == task.specVersion + 1
                  && task'.requirementsApproval == task.requirementsApproval)
  {
  }

  /** The confirmation has not been used before. */
  ghost predicate Unused(grants: seq<Grant>, confirmation: string) {
    forall i | 0 <= i < |grants| :: grants[i].confirmation != confirmation
  }

  lemma ApproveRequirementsTable(cfg: Settings, s: State, t: nat, actor: string, hash: string, confirmation: string)
    ensures var r := ApproveRequirements(cfg, s, t, actor, hash, confirmation);
            && (r.Ok? <==>
                  && t < |s.tasks| && actor in cfg.requirementsApprovers && Unused(s.grants, confirmation)
                  && var task := s.tasks[t];
                     && task.state == AwaitingRequirementsConfirmation
                     && hash == task.requirements && confirmation == task.requirementsConfirmation
                     && task.reference.Some? && task.reference.value in s.refs
                     && s.refs[task.reference.value].bodyHash == hash)
            && (r.Ok? ==>
                  var s', task, task' := r.value, s.tasks[t], r.value.tasks[t];
                  && OnlyTask(s, s', t) && s'.plans == s.plans
                  && s'.grants == s.grants + [Grant(t, Requirements, hash, "", confirmation, actor, false)]
                  && task.reference.value in s'.refs && s'.refs[task.reference.value].approved
                  && task'.state == PlanningImplementation && task'.requirementsApproval == confirmation)
  {
  }

  lemma PlanTable(s: State, t: nat, hash: string, base: string, valid: bool)
    ensures var r := RegisterPlan(s, t, hash, base, valid);
            && (r.Ok? <==>
                  && t < |s.tasks| && valid && s.tasks[t].state == PlanningImplementation
                  && s.tasks[t].reference.Some? && s.tasks[t].reference.value in s.refs
                  && s.refs[s.tasks[t].reference.value].approved)
            && (r.Ok? ==>
                  var s', task, task' := r.value, s.tasks[t], r.value.tasks[t];
                  && OnlyTask(s, s', t) && s'.refs == s.refs && s'.grants == s.grants
                  && |s'.plans| == |s.plans| + 1 && s'.plans[..|s.plans|] == s.plans
                  && var plan := s'.plans[|s.plans|];
                     && plan.task == t && plan.reference == task.reference.value && plan.verdict == Pending
                     && plan.hash == hash && plan.base == base
                     && (forall i | 0 <= i < |s.plans| && s.plans[i].reference == plan.reference ::
                           s.plans[i].version < plan.version)
                     && (plan.version == 1
                         || exists i :: 0 <= i < |s.plans| && s.plans[i].reference == plan.reference
                                        && s.plans[i].version + 1 == plan.version)
                     && task'.state == ReviewingImplementationPlan && task'.plan == Some(|s.plans|)
                     && task'.planHash == hash && task'.base == base)
  {
  }

  /** A plan that does not cover its requirements is sent back, as often as the limit allows, and then stops the task;
      one that does waits for its approval. */
  lemma PlanReviewTable(cfg: Settings, s: State, t: nat, hash: string, covered: bool, explained: bool, uid: string)
    ensures var r := CompletePlanReview(cfg, s, t, hash, covered, explained, uid);
            && (r.Ok? <==>
                  && t < |s.tasks| && s.tasks[t].state == ReviewingImplementationPlan
                  && s.tasks[t].plan.Some? && s.tasks[t].plan.value < |s.plans|
                  && s.plans[s.tasks[t].plan.value].hash == hash && (covered ==> explained))
            && (r.Ok? ==>
                  var s', task, task' := r.value, s.tasks[t], r.value.tasks[t];
                  var p := task.plan.value;
                  && OnlyTask(s, s', t) && s'.refs == s.refs && s'.grants == s.grants
                  && s'.plans == s.plans[p := s.plans[p].(verdict := if covered then Approved else ChangesRequested)]
                  && if covered then
                       task' == task.(state := AwaitingPlanApproval, planConfirmation := "PLAN-" + uid)
                     else if task.revisions < cfg.revisionLimit then
                       task' == task.(state := PlanningImplementation, revisions := task.revisions + 1)
                     else task' == task.(state := Blocked))
  {
  }

  lemma ApprovePlanTable(cfg: Settings, s: State, t: nat, actor: string, hash: string, sha: string,
                         confirmation: string)
    ensures var r := ApprovePlan(cfg, s, t, actor, hash, sha, confirmation);
            && (r.Ok? <==>
                  && t < |s.tasks| && actor in cfg.planApprovers && Unused(s.grants, confirmation)
                  && var task := s.tasks[t];
                     && task.state == AwaitingPlanApproval && task.plan.Some? && task.plan.value < |s.plans|
                     && confirmation == task.planConfirmation
                     && var plan := s.plans[task.plan.value];
                        plan.verdict == Approved && hash == plan.hash && sha == plan.base)
            && (r.Ok? ==>
                  var s', task' := r.value, r.value.tasks[t];
                  && OnlyTask(s, s', t) && s'.refs == s.refs && s'.plans == s.plans
                  && s'.grants == s.grants + [Grant(t, Implementation, hash, sha, confirmation, actor, false)]
                  && task' == s.tasks[t].(state := Queued, planApproval := confirmation))
  {
  }

  /** A cancelled task is continued by a new one, which keeps its Issue and starts over. */
  lemma RestartTable(s: State, t: nat)
    ensures var r := RestartCancelled(s, t);
            && (r.Ok? <==> t < |s.tasks| && s.tasks[t].state == TaskState.Cancelled)
            && (r.Ok? ==>
                  && |r.value.tasks| == |s.tasks| + 1 && r.value.tasks[..|s.tasks|] == s.tasks
                  && r.value.refs == s.refs && r.value.plans == s.plans && r.value.grants == s.grants
                  && var next := r.value.tasks[|s.tasks|];
                     && next.state == DraftingRequirements && next.previous == Some(t) && next.issue == s.tasks[t].issue
                     && next.requirementsApproval == next.planApproval == "" && next.reference == None)
  {
  }

  /** An answer or a revision takes both approvals back, unless it answers a question of the implementation, which
      then goes back to work under both. */
  lemma AnswerTable(s: State, t: nat, fix: bool, current: bool)
    ensures var r := Workflow.Clarify(s, t, fix, current);
            && (r.Ok? <==>
                  && t < |s.tasks| && s.tasks[t].state !in {TaskState.Cancelled, Merged, Merging}
                  && (Interrupted(s.tasks[t]) ==> current))
            && (r.Ok? ==>
                  && OnlyTask(s, r.value, t) && r.value.grants == s.grants && r.value.refs == s.refs
                  && r.value.plans == s.plans
                  && r.value.tasks[t]
                     == if Interrupted(s.tasks[t]) then s.tasks[t].(state := if fix then Fixing else Queued)
                        else s.tasks[t].(state := DraftingRequirements, requirementsApproval := "", planApproval := ""))
  {
  }

  /** Blocked under both approvals. */
  predicate Interrupted(task: Task) {
    task.state == Blocked && task.requirementsApproval != "" && task.planApproval != ""
  }

  lemma ReviseTable(s: State, t: nat)
    ensures var r := Revise(s, t);
            && (r.Ok? <==> t < |s.tasks| && s.tasks[t].state !in {TaskState.Cancelled, Merged, Merging})
            && (r.Ok? ==>
                  r.value == s.(tasks := s.tasks[t := s.tasks[t].(state := DraftingRequirements,
                                                                  requirementsApproval := "", planApproval := "")]))
  {
  }

  /** Cancelling expires every grant of the task and no other. */
  lemma CancelTable(s: State, t: nat)
    ensures var r := Cancel(s, t);
            && (r.Ok? <==> t < |s.tasks| && s.tasks[t].state !in {TaskState.Cancelled, Merged})
            && (r.Ok? ==>
                  && r.value.tasks == s.tasks[t := s.tasks[t].(state := TaskState.Cancelled)]
                  && r.value.refs == s.refs && r.value.plans == s.plans && |r.value.grants| == |s.grants|
                  && forall i | 0 <= i < |s.grants| ::
                       r.value.grants[i] == s.grants[i].(expired := s.grants[i].task == t || s.grants[i].expired))
  {
  }

  /** Does reconcile look at the Issue and the plan of this task? */
  predicate LookedAt(s: State, t: nat) {
    && t < |s.tasks|
    && var task := s.tasks[t];
       && task.pr && task.state !in {Merged, Paused, TaskState.Cancelled}
       && task.state !in {DraftingRequirements, AwaitingRequirementsConfirmation}
       && (task.state == Blocked ==> task.requirementsApproval != "")
  }

  function Changed(s: State, t: nat, task: Task): Outcome
    requires t < |s.tasks|
  {
    Ok(s.(tasks := s.tasks[t := task]))
  }

  /** What reconcile does with what it finds. */
  lemma FoundTable(s: State, t: nat)
    ensures LookedAt(s, t) ==>
              var task := s.tasks[t];
              && IssueChanged(s, t) == Changed(s, t, task.(state := DraftingRequirements, requirementsApproval := "",
                                                           planApproval := ""))
              && PlanChanged(s, t) == Changed(s, t, task.(state := PlanningImplementation, planApproval := ""))
              && FoundMerged(s, t) == Changed(s, t, task.(state := Merged))
              && (task.state != Blocked ==> HeadChanged(s, t) == Changed(s, t, task.(state := Reviewing)))
              && (task.state == Blocked ==> HeadChanged(s, t).Err?)
    ensures !LookedAt(s, t) ==>
              IssueChanged(s, t).Err? && PlanChanged(s, t).Err? && FoundMerged(s, t).Err? && HeadChanged(s, t).Err?
  {
  }

  /** A failed job records where the task was; a limit or a guard does not. */
  lemma BlockTable(s: State, t: nat, failed: bool)
    ensures var r := Block(s, t, failed);
            && (r.Ok? <==> t < |s.tasks| && s.tasks[t].state !in {Paused, Blocked, TaskState.Cancelled, Merged})
            && (r.Ok? ==>
                  var task := s.tasks[t];
                  r == Changed(s, t, task.(state := Blocked,
                                           retryState := if failed then Some(task.state) else task.retryState)))
  {
  }

  /** The state for the kind of the work that failed. */
  lemma ReconnectTable(s: State, t: nat, kind: Kind)
    ensures var r := Reconnect(s, t, kind);
            && (r.Ok? <==> t < |s.tasks| && s.tasks[t].state == Blocked && kind !in {Kind.Clarify, Consult})
            && (r.Ok? ==>
                  r == Changed(s, t, s.tasks[t].(state := match kind
                                                          case DraftRequirements => DraftingRequirements
                                                          case Plan => PlanningImplementation
                                                          case ReviewPlan => ReviewingImplementationPlan
                                                          case Implement => Queued
                                                          case Fix => Fixing
                                                          case _ => Reviewing)))
  {
  }

  /** A retry or a resumption: for a saved proposal, for a failed job, or by the pull request. */
  lemma RetryTable(s: State, t: nat, proposal: bool, failed: Option<Kind>)
    requires t < |s.tasks| && Retry(s, t, proposal, failed).Ok?
    ensures s.tasks[t].state in {Blocked, Paused}
    ensures var task, task' := s.tasks[t], Retry(s, t, proposal, failed).value.tasks[t];
            && OnlyTask(s, Retry(s, t, proposal, failed).value, t)
            && if task.state == Blocked && proposal then task' == task.(state := DraftingRequirements)
               else if task.state == Blocked && failed.Some? && task.retryState.Some? then
                 task' == task.(state := task.retryState.value, retryState := None)
               else if task.state == Blocked && failed.Some? then
                 task'.retryState == None && KindState(failed.value) == Some(task'.state)
               else task' == task.(state := if task.pr then Reviewing else Clarifying)
  {
  }
}
