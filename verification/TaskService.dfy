/** TaskService as the code has it: every command writes its tables row by row, and a raised error
    leaves them as they were. */
module TaskService {
  import opened Wrappers
  import opened Domain
  import opened Commands

  type Reply = Result<(), string>

  ghost predicate Commits(before: Db, outcome: Outcome, after: Db, reply: Reply) {
    match outcome
    case Ok(db) => after == db && reply == Ok(())
    case Err(e) => after == before && reply == Err(e)
  }

  class TaskService {
    const cfg: Settings
    var now: int
    var tasks: seq<Task>
    var jobs: seq<Job>
    var leases: set<nat>
    var budgets: map<nat, nat>
    var grants: seq<Grant>
    var outbox: seq<Note>
    var events: map<string, nat>
    var issueCloses: set<nat>
    var rest: nat

    ghost function View(): Db
      reads this
    {
      Db(now, tasks, jobs, leases, budgets, grants, outbox, events, issueCloses, rest)
    }

    constructor (cfg: Settings, now: int)
      ensures this.cfg == cfg && View() == Db(now, [], [], {}, map[], [], [], map[], {}, 0)
    {
      this.cfg, this.now, tasks, jobs, leases := cfg, now, [], [], {};
      budgets, grants, outbox, events, issueCloses, rest := map[], [], [], map[], {}, 0;
    }

    method Move(t: nat, state: TaskState, reason: string)
      requires t < |tasks|
      modifies `tasks
      ensures View() == Transition(old(View()), t, state, reason)
    {
      tasks := tasks[t := tasks[t].(state := state, stateVersion := tasks[t].stateVersion + 1, reason := reason)];
    }

    method Add(t: nat, role: string, kind: Kind)
      requires t < |tasks|
      modifies `jobs
      ensures View() == Enqueue(old(View()), t, role, kind)
    {
      jobs := jobs + [NewJob(t, tasks[t].v2, role, kind, NewData(IdentityOf(tasks[t])))];
    }

    method AddSpec(t: nat, kind: Kind)
      requires t < |tasks|
      modifies `jobs
      ensures View() == EnqueueSpec(old(View()), t, kind)
    {
      var role := if kind in {Implement, Fix} then "downstream" else "upstream";
      jobs := jobs + [NewJob(t, tasks[t].v2, role, kind, NewData(SpecIdentity(tasks[t])))];
    }

    method InvalidateTask(t: nat)
      requires t < |tasks|
      modifies `jobs, `tasks
      ensures View() == Invalidate(old(View()), t)
    {
      jobs := DropActiveJobs(jobs, t);
      tasks := tasks[t := tasks[t].(review := false, approval := None)];
    }

    method Create(v2: bool, repo: string, summary: string, previous: Option<nat>) returns (t: nat)
      modifies `tasks, `jobs, `budgets
      ensures t == |old(tasks)| && View() == CreateTask(old(View()), v2, repo, summary, previous)
    {
      t := |tasks|;
      var state := if v2 then DraftingRequirements else Clarifying;
      tasks := tasks + [BLANK.(v2 := v2, repo := repo, summary := summary, previous := previous, state := state)];
      if v2 {
        budgets := budgets[t := 0];
        Add(t, "cto", DraftRequirements);
      } else {
        AddSpec(t, Clarify);
      }
    }

    method ReviseTask(t: nat, text: string)
      requires t < |tasks|
      modifies `tasks, `jobs
      ensures View() == if old(tasks)[t].v2 then ReviseV2(old(View()), t, text) else ReviseV1(old(View()), t, text)
    {
      InvalidateTask(t);
      var task := tasks[t];
      if task.v2 {
        tasks := tasks[t := task.(answers := task.answers + [text], requirementsApproval := "", planApproval := "")];
        Move(t, DraftingRequirements, "");
        jobs := jobs + [NewJob(t, true, "cto", DraftRequirements, NewData(DraftIdentity(task)))];
      } else {
        tasks := tasks[t := task.(answers := task.answers + [text], specApproval := None, version := task.version + 1)];
        Move(t, Clarifying, "");
        AddSpec(t, Clarify);
      }
    }

    method AnswerQuestion(t: nat, text: string) returns (reply: Reply)
      requires t < |tasks| && Newest(jobs, t).Some?
      modifies `tasks, `jobs
      ensures Commits(old(View()), AnswerExecution(old(View()), t, text), View(), reply)
    {
      var task, job := tasks[t], jobs[Newest(jobs, t).value];
      if !MayRun(task, job) {
        return Err("Clarification targets a stale implementation");
      }
      tasks := tasks[t := task.(clarifications := task.clarifications + [text])];
      Move(t, if job.kind == Implement then Queued else Fixing, "answer handed to the same plan");
      Add(t, job.role, job.kind);
      return Ok(());
    }

    method AnswerOrReviseTask(t: nat, action: Action) returns (reply: Reply)
      requires t < |tasks| && (action.Answer? || action.Revise?)
      modifies `tasks, `jobs
      ensures Commits(old(View()), AnswerOrRevise(old(View()), t, action), View(), reply)
    {
      var task := tasks[t];
      if Unrevisable(task.state) {
        return Err("Cannot revise this task");
      }
      if !task.v2 && action.Answer? && task.state !in {Clarifying, AwaitingSpecApproval} {
        return Err("Use /revise to change approved requirements");
      }
      if Blank(action.text) {
        return Err("Answer cannot be empty");
      }
      var newest := Newest(jobs, t);
      if task.v2 && action.Answer? && task.state == Blocked && newest != None
         && jobs[newest.value].kind in {Implement, Fix} && jobs[newest.value].status == Finished
         && jobs[newest.value].data.asked && task.requirementsApproval != "" && task.planApproval != "" {
        reply := AnswerQuestion(t, action.text);
        return;
      }
      ReviseTask(t, action.text);
      return Ok(());
    }

    method ApproveTheSpec(t: nat, version: nat, hash: string) returns (reply: Reply)
      requires t < |tasks|
      modifies `tasks, `jobs
      ensures Commits(old(View()), DoApproveSpec(old(View()), t, version, hash), View(), reply)
    {
      var task := tasks[t];
      if task.state != AwaitingSpecApproval || version != task.version || hash != task.authority {
        return Err("Stale specification approval");
      }
      tasks := tasks[t := task.(specApproval := Some(hash))];
      Move(t, Queued, "");
      AddSpec(t, Implement);
      return Ok(());
    }

    method ApproveTheMerge(t: nat, actor: string, head: string, base: string, hash: string) returns (reply: Reply)
      requires t < |tasks|
      modifies `tasks
      ensures Commits(old(View()), DoApproveMerge(cfg, old(View()), t, actor, head, base, hash), View(), reply)
    {
      var task := tasks[t];
      if task.state != AwaitingMergeApproval || head != task.head || base != task.base || hash != task.authority {
        return Err("Stale merge approval");
      }
      var commits := [head, base, hash];
      if task.v2 {
        commits := commits + [task.plan];
      }
      assert commits == [head, base, hash] + if task.v2 then [task.plan] else [];
      tasks := tasks[t := task.(approval := Some(Approval(commits, actor, now + cfg.approvalSeconds)))];
      Move(t, ReadyToMerge, "");
      return Ok(());
    }

    /** The loop over the approvals of a cancelled task. */
    method ExpireApprovals(t: nat)
      modifies `grants
      ensures grants == ExpireGrants(old(grants), t, now)
    {
      ghost var was, after := grants, ExpireGrants(grants, t, now);
      var i := 0;
      while i < |grants|
        invariant i <= |grants| == |was|
        invariant forall k | 0 <= k < i :: grants[k] == after[k]
        invariant forall k | i <= k < |grants| :: grants[k] == was[k]
      {
        if grants[i].task == t {
          grants := grants[i := grants[i].(expires := Some(now))];
        }
        i := i + 1;
      }
      assert grants == after;
    }

    /** The loop over the messages of a cancelled task that have not been sent. */
    method CancelMessages(t: nat)
      modifies `outbox
      ensures outbox == CancelNotes(old(outbox), t)
    {
      ghost var was, after := outbox, CancelNotes(outbox, t);
      var i := 0;
      while i < |outbox|
        invariant i <= |outbox| == |was|
        invariant forall k | 0 <= k < i :: outbox[k] == after[k]
        invariant forall k | i <= k < |outbox| :: outbox[k] == was[k]
      {
        if outbox[i].task == t && !outbox[i].sent {
          outbox := outbox[i := outbox[i].(sent := true, cancelled := true)];
        }
        i := i + 1;
      }
      assert outbox == after;
    }

    method WithdrawTask(t: nat)
      modifies `grants, `outbox, `leases, `issueCloses
      ensures View() == Withdraw(old(View()), t)
    {
      ExpireApprovals(t);
      CancelMessages(t);
      leases := leases - JobsOf(jobs, t);
      issueCloses := issueCloses + {t};
    }

    method PauseOrCancelTask(t: nat, cancel: bool, text: string) returns (reply: Reply)
      requires t < |tasks|
      modifies `tasks, `jobs, `grants, `outbox, `leases, `issueCloses
      ensures Commits(old(View()), PauseOrCancel(old(View()), t, cancel, text), View(), reply)
    {
      var before := tasks[t].state;
      if before in {TaskState.Cancelled, Merged} {
        return Err("Task is terminal");
      }
      InvalidateTask(t);
      if !Stopped(before) {
        tasks := tasks[t := tasks[t].(resumeState := Some(before))];
      }
      if tasks[t].v2 && cancel {
        WithdrawTask(t);
      }
      Move(t, if cancel then TaskState.Cancelled else Paused, text);
      return Ok(());
    }

    method RetryTheProposal(t: nat) returns (reply: Reply)
      requires t < |tasks|
      modifies `tasks, `jobs
      ensures Commits(old(View()), RetryProposal(old(View()), t), View(), reply)
    {
      var draft := NewestDraft(jobs, t);
      if draft == None || !jobs[draft.value].data.answered {
        return Err("Saved requirements proposal is unavailable");
      }
      jobs := jobs[draft.value := jobs[draft.value].(status := Waiting, attempt := 0, owner := 0)];
      Move(t, DraftingRequirements, "proposal is compared again");
      return Ok(());
    }

    method RetryTheJob(t: nat, j: nat) returns (reply: Reply)
      requires t < |tasks| && j < |jobs|
      modifies `tasks, `jobs
      ensures Commits(old(View()), RetryJob(old(View()), t, j), View(), reply)
    {
      var target := tasks[t].retryState;
      if target == None {
        target := KindState(jobs[j].kind);
      }
      if target == None {
        return Err("Failed v2 job cannot be retried from its saved state");
      }
      jobs := jobs[j := jobs[j].(status := Waiting, attempt := 0, owner := 0, lease := 0)];
      tasks := tasks[t := tasks[t].(retryState := None, failedPhase := "")];
      Move(t, target.value, "failed job runs again");
      return Ok(());
    }

    method Restart(t: nat, retry: bool, job: Option<nat>) returns (reply: Reply)
      requires t < |tasks| && (job.Some? ==> job.value < |jobs|)
      modifies `tasks, `jobs
      ensures Commits(old(View()), Restarted(old(View()), t, retry, job), View(), reply)
    {
      var task := tasks[t];
      if retry && job != None && jobs[job.value].data.answered {
        var identity := jobs[job.value].data.identity;
        if identity.v2 {
          return Err("The job names no specification");
        }
        if identity.version == task.version && identity.authority == task.authority {
          var state := if jobs[job.value].kind == Review then Reviewing else Queued;
          jobs := jobs[job.value := jobs[job.value].(status := Waiting, attempt := 0)];
          Move(t, state, "saved results are compared");
          return Ok(());
        }
      }
      if task.pr {
        Move(t, Reviewing, "new review");
        if task.v2 {
          Add(t, "cto", Review);
        } else {
          AddSpec(t, Review);
        }
      } else if task.specApproval != None {
        Move(t, Queued, "");
        AddSpec(t, Implement);
      } else {
        Move(t, Clarifying, "");
        AddSpec(t, Clarify);
      }
      return Ok(());
    }

    method RetryOrResumeTask(t: nat, retry: bool) returns (reply: Reply)
      requires t < |tasks|
      modifies `tasks, `jobs
      ensures Commits(old(View()), RetryOrResume(cfg, old(View()), t, retry), View(), reply)
    {
      var task := tasks[t];
      if task.state != (if retry then Blocked else Paused) {
        return Err("Unexpected state");
      }
      if task.v2 && retry && task.proposal && task.reason == PROPOSAL {
        reply := RetryTheProposal(t);
        return;
      }
      var db := Db(now, tasks, jobs, leases, budgets, grants, outbox, events, issueCloses, rest);
      var recoverable := Recoverable(cfg, db, t);
      if recoverable.Err? {
        return Err(recoverable.error);
      }
      if retry && recoverable.value.Some? && task.v2 {
        reply := RetryTheJob(t, recoverable.value.value);
        return;
      }
      reply := Restart(t, retry, recoverable.value);
    }

    /** What workflow.py and deployments.py do with a command. */
    method Delegate(t: nat, c: Command) returns (reply: Reply)
      requires t < |tasks|
      modifies this
      ensures Commits(old(View()), cfg.delegate(old(View()), t, c), View(), reply)
    {
      match cfg.delegate(Db(now, tasks, jobs, leases, budgets, grants, outbox, events, issueCloses, rest), t, c)
      case Err(e) => return Err(e);
      case Ok(db) =>
        now, tasks, jobs, leases := db.now, db.tasks, db.jobs, db.leases;
        budgets, grants, outbox := db.budgets, db.grants, db.outbox;
        events, issueCloses, rest := db.events, db.issueCloses, db.rest;
        return Ok(());
    }

    predicate Approves(action: Action) {
      action.ApproveDeploy? || action.ApproveRequirements? || action.ApprovePlan? || action.ApproveSpec?
      || action.ApproveMerge?
    }

    method ApproveOn(t: nat, c: Command) returns (reply: Reply)
      requires t < |tasks| && Approves(c.action)
      modifies this
      ensures Commits(old(View()), ExecuteOn(cfg, old(View()), t, c), View(), reply)
    {
      if c.action.ApproveSpec? {
        reply := ApproveTheSpec(t, c.action.version, c.action.hash);
      } else if c.action.ApproveMerge? {
        reply := ApproveTheMerge(t, c.actor, c.action.head, c.action.base, c.action.hash);
      } else if c.action.ApproveDeploy? || tasks[t].v2 {
        reply := Delegate(t, c);
      } else {
        return Err("Unknown command");
      }
    }

    method ActOn(t: nat, c: Command) returns (reply: Reply)
      requires t < |tasks|
      modifies this
      ensures Commits(old(View()), ExecuteOn(cfg, old(View()), t, c), View(), reply)
    {
      if Approves(c.action) {
        reply := ApproveOn(t, c);
        return;
      }
      match c.action
      case Retry =>
        if tasks[t].state == Merged {
          reply := Delegate(t, c);
        } else {
          reply := RetryOrResumeTask(t, true);
        }
      case Answer(_) => reply := AnswerOrReviseTask(t, c.action);
      case Revise(_) => reply := AnswerOrReviseTask(t, c.action);
      case Resume =>
        if tasks[t].v2 && tasks[t].state == TaskState.Cancelled {
          return Err("Cancelled v2 work must restart as a new task");
        }
        reply := RetryOrResumeTask(t, false);
      case Status => return Ok(());
      case Pause(text) => reply := PauseOrCancelTask(t, false, text);
      case Cancel(text) => reply := PauseOrCancelTask(t, true, text);
      case _ => return Err("Unknown command");
    }

    /** The action of an authorized command: the task it is about, or the error. */
    method Act(c: Command) returns (reply: Result<nat, string>)
      modifies this
      ensures match Execute(cfg, old(View()), c)
              case Err(e) => View() == old(View()) && reply == Err(e)
              case Ok(done) => View() == done.db && reply == Ok(done.task)
    {
      if c.action.Request? {
        if c.task != None || c.action.repo !in cfg.repos || Blank(c.action.text) {
          return Err("Request requires allowlisted repo and summary");
        }
        var created := Create(c.action.repo in cfg.v2Repos, c.action.repo, c.action.text, None);
        return Ok(created);
      }
      if c.task == None {
        return Err("Task is required");
      }
      var t := c.task.value;
      if t >= |tasks| {
        return Err("Unknown task");
      }
      if c.action.Restart? && tasks[t].v2 {
        if tasks[t].state != TaskState.Cancelled {
          return Err("Only a cancelled v2 task can be restarted");
        }
        var created := Create(true, tasks[t].repo, tasks[t].summary, Some(t));
        return Ok(created);
      }
      var done := ActOn(t, c);
      return if done.Err? then Err(done.error) else Ok(t);
    }

    method Command(c: Command) returns (reply: Result<nat, string>)
      modifies this
      ensures (View(), reply) == Run(cfg, old(View()), c)
    {
      if c.task != None && c.task.value >= |tasks| {
        return Err("Unknown task");
      }
      if !Authorized(cfg, Db(now, tasks, jobs, leases, budgets, grants, outbox, events, issueCloses, rest), c) {
        return Err("Unauthorized actor, guild or channel");
      }
      if c.event in events {
        return Ok(events[c.event]);
      }
      var early := ReturnsEarly(Db(now, tasks, jobs, leases, budgets, grants, outbox, events, issueCloses, rest), c);
      reply := Act(c);
      if reply.Ok? && !early {
        events := events[c.event := reply.value];
      }
    }
  }
}
