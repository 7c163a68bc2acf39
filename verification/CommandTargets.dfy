/** When an owner's command is accepted, and where it leads: in columns of the task and of its newest job, as they
    are before the command. */
module CommandTargets {
  import opened Wrappers
  import opened Domain
  import opened Commands

  // ----- retry and resume -----

  /** The newest job of the task, if it failed. */
  predicate NewestFailed(db: Db, t: nat) {
    Newest(db.jobs, t).Some? && db.jobs[Newest(db.jobs, t).value].status == Failed
  }

  /** A v2 task that was stopped by the limit on model calls. */
  predicate OutOfCalls(task: Task) { task.v2 && task.reason == BUDGET }

  predicate WaitsForProposal(task: Task, retry: bool) { retry && task.v2 && task.proposal && task.reason == PROPOSAL }

  /** The newest job of a v1 task failed after it had saved a response to the present specification. */
  predicate SavedForSpec(db: Db, t: nat)
    requires t < |db.tasks|
  {
    && !db.tasks[t].v2 && NewestFailed(db, t)
    && var data := db.jobs[Newest(db.jobs, t).value].data;
       data.answered && !data.identity.v2 && data.identity.version == db.tasks[t].version
       && data.identity.authority == db.tasks[t].authority
  }

  /** The work of a v2 task that a retry repeats has failed, or the limit has dropped it. */
  predicate Repeats(db: Db, t: nat, retry: bool)
    requires t < |db.tasks|
  {
    retry && db.tasks[t].v2 && (OutOfCalls(db.tasks[t]) || NewestFailed(db, t))
  }

  /** Where work of this kind belongs. */
  function StateOf(kind: Kind): TaskState {
    if kind == DraftRequirements then DraftingRequirements
    else if kind == Plan then PlanningImplementation
    else if kind == ReviewPlan then ReviewingImplementationPlan
    else if kind == Implement then Queued
    else if kind == Fix then Fixing
    else Reviewing
  }

  lemma ProposalTarget(db: Db, t: nat)
    requires t < |db.tasks| && RetryProposal(db, t).Ok?
    ensures var task' := RetryProposal(db, t).value.tasks[t];
            task'.state == DraftingRequirements && task'.stateVersion == db.tasks[t].stateVersion + 1
  {
  }

  lemma RepeatedTarget(db: Db, t: nat, j: nat)
    requires t < |db.tasks| && j < |db.jobs| && RetryJob(db, t, j).Ok?
    ensures var task, task' := db.tasks[t], RetryJob(db, t, j).value.tasks[t];
            && task'.stateVersion == task.stateVersion + 1 && task'.retryState == None
            && task'.state == if task.retryState.Some? then task.retryState.value else StateOf(db.jobs[j].kind)
  {
  }

  lemma RestartTarget(db: Db, t: nat, retry: bool, job: Option<nat>)
    requires t < |db.tasks| && (job.Some? ==> job.value < |db.jobs|) && Restarted(db, t, retry, job).Ok?
    ensures var task, task' := db.tasks[t], Restarted(db, t, retry, job).value.tasks[t];
            && task'.stateVersion == task.stateVersion + 1
            && task'.state == if retry && job.Some? && db.jobs[job.value].data.answered
                                 && !db.jobs[job.value].data.identity.v2
                                 && db.jobs[job.value].data.identity.version == task.version
                                 && db.jobs[job.value].data.identity.authority == task.authority
                              then if db.jobs[job.value].kind == Review then Reviewing else Queued
                              else if task.pr then Reviewing
                              else if task.specApproval.Some? then Queued else Clarifying
  {
  }

  /** The limit has not been raised, or the job it dropped is not the task's any more. */
  ghost predicate CallsRefused(cfg: Settings, db: Db, t: nat)
    requires t < |db.tasks|
  {
    var newest := Newest(db.jobs, t);
    && OutOfCalls(db.tasks[t])
    && (t !in db.budgets || db.budgets[t] >= cfg.calls || newest == None
        || db.jobs[newest.value].status != Dropped || db.jobs[newest.value].data.answered
        || db.jobs[newest.value].data.identity != IdentityOf(db.tasks[t]))
  }

  /** Which job that is. */
  lemma RecoverableTable(cfg: Settings, db: Db, t: nat)
    requires t < |db.tasks|
    ensures var r := Recoverable(cfg, db, t);
            && (r.Ok? <==> !CallsRefused(cfg, db, t))
            && (r.Ok? ==> r.value == if OutOfCalls(db.tasks[t]) || NewestFailed(db, t) then Newest(db.jobs, t)
                                     else None)
            && (r.Ok? && OutOfCalls(db.tasks[t]) ==> r.value.Some?)
  {
  }

  /** The state after an accepted retry or resumption: back to drafting for a saved proposal; the recorded state, or
      the one for the kind of the job, for v2 work that is repeated; for a saved v1 response the queue, or the review
      it belongs to; else a new review of the pull request, the approved specification, or the start. */
  lemma RetryTargets(cfg: Settings, db: Db, t: nat, retry: bool)
    requires t < |db.tasks| && RetryOrResume(cfg, db, t, retry).Ok?
    ensures var task, task' := db.tasks[t], RetryOrResume(cfg, db, t, retry).value.tasks[t];
            && task'.stateVersion == task.stateVersion + 1
            && task'.state == if WaitsForProposal(task, retry) then DraftingRequirements
                              else if Repeats(db, t, retry) then
                                if task.retryState.Some? then task.retryState.value
                                else StateOf(db.jobs[Newest(db.jobs, t).value].kind)
                              else if retry && SavedForSpec(db, t) then
                                if db.jobs[Newest(db.jobs, t).value].kind == Review then Reviewing else Queued
                              else if task.pr then Reviewing
                              else if task.specApproval.Some? then Queued else Clarifying
  {
    if WaitsForProposal(db.tasks[t], retry) {
      ProposalTarget(db, t);
    } else {
      var job := Recoverable(cfg, db, t).value;
      RecoverableTable(cfg, db, t);
      if retry && job.Some? && db.tasks[t].v2 {
        RepeatedTarget(db, t, job.value);
      } else {
        RestartTarget(db, t, retry, job);
      }
    }
  }

  /** The job that could be repeated is unusable: under the limit, the limit has not been raised, or the dropped job
      is not the task's any more; a kind that has no state; or a v1 response that names no specification. */
  ghost predicate Unusable(cfg: Settings, db: Db, t: nat, retry: bool)
    requires t < |db.tasks|
  {
    var task, newest := db.tasks[t], Newest(db.jobs, t);
    || CallsRefused(cfg, db, t)
    || (Repeats(db, t, retry) && task.retryState == None && newest.Some?
        && db.jobs[newest.value].kind in {Kind.Clarify, Consult})
    || (retry && !task.v2 && NewestFailed(db, t) && db.jobs[newest.value].data.answered
        && db.jobs[newest.value].data.identity.v2)
  }

  lemma ProposalIff(db: Db, t: nat)
    requires t < |db.tasks|
    ensures RetryProposal(db, t).Ok? <==>
              NewestDraft(db.jobs, t).Some? && db.jobs[NewestDraft(db.jobs, t).value].data.answered
  {
  }

  lemma RetryUnfolds(cfg: Settings, db: Db, t: nat, retry: bool)
    requires t < |db.tasks|
    ensures RetryOrResume(cfg, db, t, retry).Ok? <==>
            && db.tasks[t].state == (if retry then Blocked else Paused)
            && if WaitsForProposal(db.tasks[t], retry) then RetryProposal(db, t).Ok?
               else
                 && Recoverable(cfg, db, t).Ok?
                 && var job := Recoverable(cfg, db, t).value;
                    if retry && job.Some? && db.tasks[t].v2 then RetryJob(db, t, job.value).Ok?
                    else Restarted(db, t, retry, job).Ok?
  {
  }

  /** A retry is accepted exactly in Blocked, a resumption exactly in Paused, if the saved proposal is there when the
      task waits for it, and if nothing else makes the job unusable. */
  lemma RetryAcceptedIff(cfg: Settings, db: Db, t: nat, retry: bool)
    requires t < |db.tasks|
    ensures RetryOrResume(cfg, db, t, retry).Ok? <==>
            && db.tasks[t].state == (if retry then Blocked else Paused)
            && if WaitsForProposal(db.tasks[t], retry) then
                 NewestDraft(db.jobs, t).Some? && db.jobs[NewestDraft(db.jobs, t).value].data.answered
               else !Unusable(cfg, db, t, retry)
  {
    RetryUnfolds(cfg, db, t, retry);
    if WaitsForProposal(db.tasks[t], retry) {
      ProposalIff(db, t);
    } else {
      RecoverableTable(cfg, db, t);
      if Recoverable(cfg, db, t).Ok? {
        BackIff(db, t, retry, Recoverable(cfg, db, t).value);
      }
    }
  }

  /** The two ways back, given the job. */
  lemma BackIff(db: Db, t: nat, retry: bool, job: Option<nat>)
    requires t < |db.tasks| && (job.Some? ==> job.value < |db.jobs|)
    ensures job.Some? ==> (RetryJob(db, t, job.value).Ok? <==>
              db.tasks[t].retryState.Some? || db.jobs[job.value].kind !in {Kind.Clarify, Consult})
    ensures Restarted(db, t, retry, job).Ok? <==>
              !(retry && job.Some? && db.jobs[job.value].data.answered && db.jobs[job.value].data.identity.v2)
  {
  }

  // ----- the other commands -----

  /** The newest job of a v2 task is an implementation or a fix that ended with a question, under both approvals. */
  predicate Questioned(db: Db, t: nat)
    requires t < |db.tasks|
  {
    var task, newest := db.tasks[t], Newest(db.jobs, t);
    && task.v2 && task.state == Blocked && task.requirementsApproval != "" && task.planApproval != ""
    && newest.Some? && db.jobs[newest.value].kind in {Implement, Fix} && db.jobs[newest.value].status == Finished
    && db.jobs[newest.value].data.asked
  }

  /** An answer or a revision is accepted unless the task is over or merging, the text is blank, a v1 task is past
      its clarification, or the question came from an implementation that is not the task's any more. */
  lemma AnswerAcceptedIff(db: Db, t: nat, action: Action)
    requires t < |db.tasks| && (action.Answer? || action.Revise?)
    ensures AnswerOrRevise(db, t, action).Ok? <==>
            && db.tasks[t].state !in {TaskState.Cancelled, Merged, Merging} && !Blank(action.text)
            && (action.Answer? && !db.tasks[t].v2 ==> db.tasks[t].state in {Clarifying, AwaitingSpecApproval})
            && (action.Answer? && Questioned(db, t) ==>
                  MayRun(db.tasks[t], db.jobs[Newest(db.jobs, t).value]))
  {
  }

  lemma QuestionTarget(db: Db, t: nat, text: string)
    requires t < |db.tasks| && Newest(db.jobs, t).Some? && AnswerExecution(db, t, text).Ok?
    ensures var task, task' := db.tasks[t], AnswerExecution(db, t, text).value.tasks[t];
            && task'.state == (if db.jobs[Newest(db.jobs, t).value].kind == Implement then Queued else Fixing)
            && task'.stateVersion == task.stateVersion + 1
            && task'.clarifications == task.clarifications + [text] && task'.answers == task.answers
            && task'.requirementsApproval == task.requirementsApproval && task'.planApproval == task.planApproval
  {
  }

  lemma RevisionTarget(db: Db, t: nat, text: string)
    requires t < |db.tasks|
    ensures var task := db.tasks[t];
            var task' := (if task.v2 then ReviseV2(db, t, text) else ReviseV1(db, t, text)).tasks[t];
            && task'.stateVersion == task.stateVersion + 1
            && task'.answers == task.answers + [text] && !task'.review && task'.approval == None
            && if task.v2 then
                 task'.state == DraftingRequirements && task'.requirementsApproval == task'.planApproval == ""
               else task'.state == Clarifying && task'.specApproval == None && task'.version == task.version + 1
  {
  }

  /** An answer to such a question goes back into the queue under both approvals; any other answer and every revision
      starts over: without approvals, in drafting, or in clarification with the next specification. */
  lemma AnswerTargets(db: Db, t: nat, action: Action)
    requires t < |db.tasks| && (action.Answer? || action.Revise?) && AnswerOrRevise(db, t, action).Ok?
    ensures var task, task' := db.tasks[t], AnswerOrRevise(db, t, action).value.tasks[t];
            && task'.stateVersion == task.stateVersion + 1
            && if action.Answer? && Questioned(db, t) then
                 && task'.state == (if db.jobs[Newest(db.jobs, t).value].kind == Implement then Queued else Fixing)
                 && task'.clarifications == task.clarifications + [action.text] && task'.answers == task.answers
                 && task'.requirementsApproval == task.requirementsApproval && task'.planApproval == task.planApproval
               else
                 && task'.answers == task.answers + [action.text] && !task'.review && task'.approval == None
                 && if task.v2 then
                      task'.state == DraftingRequirements && task'.requirementsApproval == task'.planApproval == ""
                    else task'.state == Clarifying && task'.specApproval == None && task'.version == task.version + 1
  {
    if action.Answer? && Questioned(db, t) {
      QuestionTarget(db, t, action.text);
    } else {
      RevisionTarget(db, t, action.text);
    }
  }

  lemma ApproveSpecTable(db: Db, t: nat, version: nat, hash: string)
    requires t < |db.tasks|
    ensures var r, task := DoApproveSpec(db, t, version, hash), db.tasks[t];
            && (r.Ok? <==> task.state == AwaitingSpecApproval && version == task.version && hash == task.authority)
            && (r.Ok? ==> r.value.tasks[t].state == Queued && r.value.tasks[t].specApproval == Some(hash)
                          && (!task.v2 ==> Runnable(r.value, t, |db.jobs|)
                                           && r.value.jobs[|db.jobs|].kind == Implement))
  {
  }

  lemma ApproveMergeTable(cfg: Settings, db: Db, t: nat, actor: string, head: string, base: string, hash: string)
    requires t < |db.tasks|
    ensures var r, task := DoApproveMerge(cfg, db, t, actor, head, base, hash), db.tasks[t];
            && (r.Ok? <==> task.state == AwaitingMergeApproval && head == task.head && base == task.base
                           && hash == task.authority)
            && (r.Ok? ==>
                  && r.value.tasks[t].state == ReadyToMerge && r.value.jobs == db.jobs
                  && r.value.tasks[t].approval
                     == Some(Approval(if task.v2 then [head, base, hash, task.plan] else [head, base, hash], actor,
                                      db.now + cfg.approvalSeconds)))
  {
    assert [head, base, hash] + [db.tasks[t].plan] == [head, base, hash, db.tasks[t].plan];
    assert [head, base, hash] + [] == [head, base, hash];
  }

  /** Pause and cancel: refused only for a task that is over; a task that was not stopped remembers where it was. */
  lemma StopTable(db: Db, t: nat, cancel: bool, text: string)
    requires t < |db.tasks|
    ensures var r, task := PauseOrCancel(db, t, cancel, text), db.tasks[t];
            && (r.Ok? <==> task.state !in {TaskState.Cancelled, Merged})
            && (r.Ok? ==>
                  var task' := r.value.tasks[t];
                  && task'.state == (if cancel then TaskState.Cancelled else Paused) && task'.reason == text
                  && task'.resumeState
                     == (if task.state in {Paused, Blocked} then task.resumeState else Some(task.state))
                  && r.value.leases
                     == (if task.v2 && cancel
                         then set j | j in db.leases && !(j < |db.jobs| && db.jobs[j].task == t) else db.leases)
                  && (t in r.value.issueCloses <==> t in db.issueCloses || (task.v2 && cancel)))
  {
  }

  /** A new task: its first job can run. */
  lemma RequestQueues(db: Db, v2: bool, repo: string, summary: string, previous: Option<nat>)
    ensures var r, t := CreateTask(db, v2, repo, summary, previous), |db.tasks|;
            && |r.tasks| == t + 1 && r.tasks[..t] == db.tasks && r.jobs[..|db.jobs|] == db.jobs
            && r.tasks[t].state == (if v2 then DraftingRequirements else Clarifying) && r.tasks[t].v2 == v2
            && r.tasks[t].repo == repo && r.tasks[t].summary == summary && r.tasks[t].previous == previous
            && Runnable(r, t, |db.jobs|)
            && r.jobs[|db.jobs|].kind == (if v2 then DraftRequirements else Kind.Clarify)
            && (v2 ==> t in r.budgets && r.budgets[t] == 0)
  {
  }

  // ----- the whole transaction -----

  /** An authorized command of a new event on an existing task takes effect exactly when its action is accepted, and
      then it leaves what the action leaves, with the event recorded unless it returned early. */
  lemma RunIff(cfg: Settings, db: Db, c: Command)
    requires c.task.Some? && c.task.value < |db.tasks| && c.event !in db.events
    requires !c.action.Request? && !(c.action.Restart? && db.tasks[c.task.value].v2)
    requires !c.bot && c.actor in cfg.owners && c.guild == cfg.guild
    requires c.channel in cfg.channels || c.channel in db.tasks[c.task.value].threads
    ensures var r, done := Run(cfg, db, c), ExecuteOn(cfg, db, c.task.value, c);
            && (r.1.Ok? <==> done.Ok?)
            && (done.Ok? ==>
                  && r.1.value == c.task.value
                  && r.0 == (if ReturnsEarly(db, c) then done.value
                             else done.value.(events := done.value.events[c.event := c.task.value])))
  {
  }

  /** Nobody else gets anything done. */
  lemma OnlyOwners(cfg: Settings, db: Db, c: Command)
    requires c.bot || c.actor !in cfg.owners || c.guild != cfg.guild
             || (c.channel !in cfg.channels
                 && !(c.task.Some? && c.task.value < |db.tasks| && c.channel in db.tasks[c.task.value].threads))
    ensures Run(cfg, db, c).0 == db && Run(cfg, db, c).1.Err?
  {
  }
}
