/** TaskService.command (src/agent_team/service.py): one transaction for each owner command, recorded
    under the id of the event that carried it so that a replay finds it again. */
module Commands {
  import opened Wrappers
  import opened Domain

  datatype Approval = Approval(commits: seq<string>, actor: string, expires: int)

  /** `authority` is the requirements hash (v2) or the specification hash (v1). */
  datatype Task = Task(
    v2: bool, repo: string, threads: set<string>, state: TaskState, stateVersion: nat, version: nat, reason: string,
    summary: string, answers: seq<string>, clarifications: seq<string>,
    authority: string, specApproval: Option<string>, requirementsApproval: string, proposal: bool,
    planVersion: nat, plan: string, planApproval: string, base: string, head: string,
    review: bool, approval: Option<Approval>, pr: bool,
    resumeState: Option<TaskState>, retryState: Option<TaskState>, failedPhase: string, previous: Option<nat>)

  /** A consumed approval of the v2 workflow, and a message that waits to be sent. */
  datatype Grant = Grant(task: nat, expires: Option<int>)
  datatype Note = Note(task: nat, sent: bool, cancelled: bool)

  /** `leases` are the jobs that hold a repository, `issueCloses` the tasks whose Issue is to be closed;
      `rest` stands for the tables that only the delegates write. */
  datatype Db = Db(now: int, tasks: seq<Task>, jobs: seq<Job>, leases: set<nat>, budgets: map<nat, nat>,
                   grants: seq<Grant>, outbox: seq<Note>, events: map<string, nat>, issueCloses: set<nat>, rest: nat)

  datatype Action =
    | Request(repo: string, text: string)
    | Retry | Resume | Restart | Status
    | Answer(text: string) | Revise(text: string)
    | ApproveSpec(version: nat, hash: string)
    | ApproveMerge(head: string, base: string, hash: string)
    | ApproveRequirements(hash: string, confirmation: string)
    | ApprovePlan(hash: string, base: string, confirmation: string)
    | ApproveDeploy(operation: string, hash: string, head: string)
    | Pause(text: string) | Cancel(text: string)
    | Unknown

  datatype Command = Command(action: Action, event: string, actor: string, guild: string, channel: string,
                             task: Option<nat>, bot: bool)

  /** `delegate` runs an approval of workflow.py or a proposal or approval of deployments.py. */
  datatype Settings = Settings(owners: set<string>, guild: string, channels: set<string>, repos: set<string>,
                               v2Repos: set<string>, approvalSeconds: nat, calls: nat,
                               delegate: (Db, nat, Command) -> Result<Db, string>)

  type Outcome = Result<Db, string>

  /** A step on task `t` keeps every other task. */
  predicate Only(db: Db, db': Db, t: nat) {
    |db'.tasks| == |db.tasks| && forall u | 0 <= u < |db.tasks| && u != t :: db'.tasks[u] == db.tasks[u]
  }

  const BUDGET := "model call limit of the task"
  const PROPOSAL := "apply the proposed requirements to the Issue, then retry"

  function Transition(db: Db, t: nat, state: TaskState, reason: string): (r: Db)
    requires t < |db.tasks|
    ensures Only(db, r, t)
  {
    var task := db.tasks[t];
    db.(tasks := db.tasks[t := task.(state := state, stateVersion := task.stateVersion + 1, reason := reason)])
  }

  function SetTask(db: Db, t: nat, task: Task): (r: Db)
    requires t < |db.tasks|
    ensures Only(db, r, t)
  {
    db.(tasks := db.tasks[t := task])
  }

  function IdentityOf(task: Task): Identity {
    Identity(true, task.authority, task.planVersion, task.plan, task.base, Some(task.head))
  }

  function SpecIdentity(task: Task): Identity {
    Identity(false, if task.v2 then "" else task.authority, task.version, "", "", None)
  }

  /** Will claim accept this job's identity for the task as it stands? */
  predicate MayRun(task: Task, job: Job) {
    Matches(task.v2, job.data.identity, if task.v2 then IdentityOf(task) else SpecIdentity(task))
  }

  /** enqueue_v2. */
  function Enqueue(db: Db, t: nat, role: string, kind: Kind): (r: Db)
    requires t < |db.tasks|
    ensures Only(db, r, t)
  {
    db.(jobs := db.jobs + [NewJob(t, db.tasks[t].v2, role, kind, NewData(IdentityOf(db.tasks[t])))])
  }

  /** enqueue, which names the specification whatever the task. */
  function EnqueueSpec(db: Db, t: nat, kind: Kind): (r: Db)
    requires t < |db.tasks|
    ensures Only(db, r, t)
  {
    var role := if kind in {Implement, Fix} then "downstream" else "upstream";
    db.(jobs := db.jobs + [NewJob(t, db.tasks[t].v2, role, kind, NewData(SpecIdentity(db.tasks[t])))])
  }

  /** invalidate: active jobs are fenced off, and review and merge approvals go. */
  function Invalidate(db: Db, t: nat): (r: Db)
    requires t < |db.tasks|
    ensures Only(db, r, t)
  {
    db.(jobs := InvalidateJobs(db.jobs, t), tasks := db.tasks[t := db.tasks[t].(review := false, approval := None)])
  }

  /** The newest job of a task. */
  function Newest(jobs: seq<Job>, t: nat): (r: Option<nat>)
    ensures r.Some? ==> r.value < |jobs| && jobs[r.value].task == t
    ensures r.Some? ==> forall j | r.value < j < |jobs| :: jobs[j].task != t
    ensures r.None? ==> forall j | 0 <= j < |jobs| :: jobs[j].task != t
  {
    if jobs == [] then None
    else if jobs[|jobs| - 1].task == t then Some(|jobs| - 1)
    else Newest(jobs[..|jobs| - 1], t)
  }

  predicate DraftDone(job: Job, t: nat) { job.task == t && job.kind.DraftRequirements? && job.status.Finished? }

  /** The newest finished draft of a task. */
  function NewestDraft(jobs: seq<Job>, t: nat): (r: Option<nat>)
    ensures r.Some? ==> r.value < |jobs| && DraftDone(jobs[r.value], t)
    ensures r.Some? ==> forall j | r.value < j < |jobs| :: !DraftDone(jobs[j], t)
    ensures r.None? ==> forall j | 0 <= j < |jobs| :: !DraftDone(jobs[j], t)
  {
    if jobs == [] then None
    else if DraftDone(jobs[|jobs| - 1], t) then Some(|jobs| - 1)
    else NewestDraft(jobs[..|jobs| - 1], t)
  }

  predicate Authorized(cfg: Settings, db: Db, c: Command) {
    && !c.bot && c.actor in cfg.owners && c.guild == cfg.guild
    && (c.channel in cfg.channels
        || (c.task.Some? && c.task.value < |db.tasks| && c.channel in db.tasks[c.task.value].threads))
  }

  const BLANK := Task(false, "", {}, Clarifying, 0, 0, "", "", [], [], "", None, "", false, 0, "", "", "", "", false,
                      None,
                      false, None, None, "", None)

  function CreateTask(db: Db, v2: bool, repo: string, summary: string, previous: Option<nat>): Db {
    var t := |db.tasks|;
    var task := BLANK.(v2 := v2, repo := repo, summary := summary, previous := previous,
                       state := if v2 then DraftingRequirements else Clarifying);
    var created := db.(tasks := db.tasks + [task], budgets := if v2 then db.budgets[t := 0] else db.budgets);
    if v2 then Enqueue(created, t, "cto", DraftRequirements) else EnqueueSpec(created, t, Clarify)
  }

  predicate Blank(text: string) { forall i | 0 <= i < |text| :: text[i] in {' ', '\n', '\t', '\r'} }

  /** The branch that answers a question of the implementation itself. */
  predicate AnswersExecution(db: Db, t: nat, action: Action)
    requires t < |db.tasks|
  {
    var task, newest := db.tasks[t], Newest(db.jobs, t);
    && task.v2 && action.Answer? && task.state.Blocked? && newest.Some?
    && db.jobs[newest.value].kind in {Implement, Fix} && db.jobs[newest.value].status.Finished?
    && db.jobs[newest.value].data.asked && task.requirementsApproval != "" && task.planApproval != ""
  }

  function AnswerExecution(db: Db, t: nat, text: string): (r: Outcome)
    requires t < |db.tasks| && Newest(db.jobs, t).Some?
    ensures r.Ok? ==> Only(db, r.value, t)
  {
    var task, job := db.tasks[t], db.jobs[Newest(db.jobs, t).value];
    if !MayRun(task, job) then Err("Clarification targets a stale implementation")
    else
      var told := SetTask(db, t, task.(clarifications := task.clarifications + [text]));
      var moved :=
        Transition(told, t, if job.kind.Implement? then Queued else Fixing, "answer handed to the same plan");
      Ok(Enqueue(moved, t, job.role, job.kind))
  }

  predicate Unrevisable(state: TaskState) { state in {TaskState.Cancelled, Merged, Merging} }

  /** A draft after a revision names no plan and no head. */
  function DraftIdentity(task: Task): Identity { Identity(true, task.authority, 0, "", task.base, None) }

  function ReviseV2(db: Db, t: nat, text: string): (r: Db)
    requires t < |db.tasks|
    ensures Only(db, r, t)
  {
    var dropped := Invalidate(db, t);
    var task := dropped.tasks[t];
    var told := SetTask(dropped, t, task.(answers := task.answers + [text], requirementsApproval := "",
                                          planApproval := ""));
    var moved := Transition(told, t, DraftingRequirements, "");
    moved.(jobs := moved.jobs + [NewJob(t, true, "cto", DraftRequirements, NewData(DraftIdentity(task)))])
  }

  function ReviseV1(db: Db, t: nat, text: string): (r: Db)
    requires t < |db.tasks|
    ensures Only(db, r, t)
  {
    var dropped := Invalidate(db, t);
    var task := dropped.tasks[t];
    var told := SetTask(dropped, t, task.(answers := task.answers + [text], specApproval := None,
                                          version := task.version + 1));
    EnqueueSpec(Transition(told, t, Clarifying, ""), t, Clarify)
  }

  function AnswerOrRevise(db: Db, t: nat, action: Action): (r: Outcome)
    requires t < |db.tasks| && (action.Answer? || action.Revise?)
    ensures r.Ok? ==> Only(db, r.value, t)
  {
    var task := db.tasks[t];
    if Unrevisable(task.state) then Err("Cannot revise this task")
    else if !task.v2 && action.Answer? && task.state !in {Clarifying, AwaitingSpecApproval}
    then Err("Use /revise to change approved requirements")
    else if Blank(action.text) then Err("Answer cannot be empty")
    else if AnswersExecution(db, t, action) then AnswerExecution(db, t, action.text)
    else Ok(if task.v2 then ReviseV2(db, t, action.text) else ReviseV1(db, t, action.text))
  }

  function DoApproveSpec(db: Db, t: nat, version: nat, hash: string): (r: Outcome)
    requires t < |db.tasks|
    ensures r.Ok? ==> Only(db, r.value, t)
  {
    var task := db.tasks[t];
    if !task.state.AwaitingSpecApproval? || version != task.version || hash != task.authority
    then Err("Stale specification approval")
    else
      Ok(EnqueueSpec(Transition(SetTask(db, t, task.(specApproval := Some(hash))), t, Queued, ""), t, Implement))
  }

  function DoApproveMerge(cfg: Settings, db: Db, t: nat, actor: string, head: string, base: string, hash: string)
    : (r: Outcome)
    requires t < |db.tasks|
    ensures r.Ok? ==> Only(db, r.value, t)
  {
    var task := db.tasks[t];
    if !task.state.AwaitingMergeApproval? || head != task.head || base != task.base || hash != task.authority
    then Err("Stale merge approval")
    else
      var commits := [head, base, hash] + if task.v2 then [task.plan] else [];
      var approval := Approval(commits, actor, db.now + cfg.approvalSeconds);
      Ok(Transition(SetTask(db, t, task.(approval := Some(approval))), t, ReadyToMerge, ""))
  }

  function JobsOf(jobs: seq<Job>, t: nat): set<nat> { set j | 0 <= j < |jobs| && jobs[j].task == t }

  function ExpireGrants(grants: seq<Grant>, t: nat, now: int): seq<Grant> {
    seq(|grants|, i requires 0 <= i < |grants| =>
      if grants[i].task == t then grants[i].(expires := Some(now)) else grants[i])
  }

  function CancelNotes(outbox: seq<Note>, t: nat): seq<Note> {
    seq(|outbox|, i requires 0 <= i < |outbox| =>
      if outbox[i].task == t && !outbox[i].sent then outbox[i].(sent := true, cancelled := true) else outbox[i])
  }

  /** What else a cancelled v2 task gives up: approvals, unsent messages, repositories and its Issue. */
  function Withdraw(db: Db, t: nat): Db {
    db.(grants := ExpireGrants(db.grants, t, db.now), outbox := CancelNotes(db.outbox, t),
        leases := db.leases - JobsOf(db.jobs, t), issueCloses := db.issueCloses + {t})
  }

  function PauseOrCancel(db: Db, t: nat, cancel: bool, text: string): (r: Outcome)
    requires t < |db.tasks|
    ensures r.Ok? ==> Only(db, r.value, t)
  {
    var task := db.tasks[t];
    if task.state in {TaskState.Cancelled, Merged} then Err("Task is terminal")
    else
      var dropped := Invalidate(db, t);
      var resume := if !Stopped(task.state) then Some(task.state) else task.resumeState;
      var noted := SetTask(dropped, t, dropped.tasks[t].(resumeState := resume));
      var freed := if task.v2 && cancel then Withdraw(noted, t) else noted;
      Ok(Transition(freed, t, if cancel then TaskState.Cancelled else Paused, text))
  }

  function Requeue(db: Db, j: nat, clearLease: bool): Db
    requires j < |db.jobs|
  {
    var job := db.jobs[j].(status := Waiting, attempt := 0);
    db.(jobs := db.jobs[j := if clearLease then job.(owner := 0, lease := 0) else job])
  }

  /** Which job of a stopped task could run again. */
  function Recoverable(cfg: Settings, db: Db, t: nat): Result<Option<nat>, string>
    requires t < |db.tasks|
  {
    var task, newest := db.tasks[t], Newest(db.jobs, t);
    if task.v2 && task.reason == BUDGET then
      if t !in db.budgets || db.budgets[t] >= cfg.calls then Err("The model call limit has not been raised")
      else if newest.None? || !db.jobs[newest.value].status.Dropped? || db.jobs[newest.value].data.answered
      then Err("Budget-stopped job is unavailable")
      else if db.jobs[newest.value].data.identity != IdentityOf(task) then Err("Budget-stopped job has stale context")
      else Ok(newest)
    else if newest.Some? && db.jobs[newest.value].status.Failed? then Ok(newest)
    else Ok(None)
  }

  function RetryProposal(db: Db, t: nat): (r: Outcome)
    requires t < |db.tasks|
    ensures r.Ok? ==> Only(db, r.value, t)
  {
    var draft := NewestDraft(db.jobs, t);
    if draft.None? || !db.jobs[draft.value].data.answered then Err("Saved requirements proposal is unavailable")
    else
      var job := db.jobs[draft.value].(status := Waiting, attempt := 0, owner := 0);
      Ok(Transition(db.(jobs := db.jobs[draft.value := job]), t, DraftingRequirements, "proposal is compared again"))
  }

  function RetryOrResume(cfg: Settings, db: Db, t: nat, retry: bool): (r: Outcome)
    requires t < |db.tasks|
    ensures r.Ok? ==> Only(db, r.value, t)
  {
    var task := db.tasks[t];
    if task.state != (if retry then Blocked else Paused) then Err("Unexpected state")
    else if task.v2 && retry && task.proposal && task.reason == PROPOSAL then RetryProposal(db, t)
    else
      match Recoverable(cfg, db, t)
      case Err(e) => Err(e)
      case Ok(job) =>
        if retry && job.Some? && db.tasks[t].v2 then RetryJob(db, t, job.value) else Restarted(db, t, retry, job)
  }

  /** A failed or budget-stopped v2 job runs again, in the recorded state or in that of its kind. */
  function RetryJob(db: Db, t: nat, j: nat): (r: Outcome)
    requires t < |db.tasks| && j < |db.jobs|
    ensures r.Ok? ==> Only(db, r.value, t)
  {
    var task := db.tasks[t];
    var target := if task.retryState.Some? then task.retryState else KindState(db.jobs[j].kind);
    if target.None? then Err("Failed v2 job cannot be retried from its saved state")
    else
      var forgotten := SetTask(Requeue(db, j, true), t, task.(retryState := None, failedPhase := ""));
      Ok(Transition(forgotten, t, target.value, "failed job runs again"))
  }

  /** The other ways back: a saved v1 response, the pull request, the approved specification, or the start. */
  function Restarted(db: Db, t: nat, retry: bool, job: Option<nat>): (r: Outcome)
    requires t < |db.tasks| && (job.Some? ==> job.value < |db.jobs|)
    ensures r.Ok? ==> Only(db, r.value, t)
  {
    var task := db.tasks[t];
    if retry && job.Some? && db.jobs[job.value].data.answered && db.jobs[job.value].data.identity.v2
    then Err("The job names no specification")
    else if retry && job.Some? && db.jobs[job.value].data.answered
            && db.jobs[job.value].data.identity.version == task.version
            && db.jobs[job.value].data.identity.authority == task.authority
    then
      var state := if db.jobs[job.value].kind.Review? then Reviewing else Queued;
      Ok(Transition(Requeue(db, job.value, false), t, state, "saved results are compared"))
    else if task.pr then
      var moved := Transition(db, t, Reviewing, "new review");
      Ok(if task.v2 then Enqueue(moved, t, "cto", Review) else EnqueueSpec(moved, t, Review))
    else if task.specApproval.Some? then Ok(EnqueueSpec(Transition(db, t, Queued, ""), t, Implement))
    else Ok(EnqueueSpec(Transition(db, t, Clarifying, ""), t, Clarify))
  }

  datatype Executed = Executed(db: Db, task: nat)

  /** What the action does, and the task it is about. */
  function Execute(cfg: Settings, db: Db, c: Command): Result<Executed, string> {
    if c.action.Request? then
      if c.task.Some? || c.action.repo !in cfg.repos || Blank(c.action.text)
      then Err("Request requires allowlisted repo and summary")
      else Ok(Executed(CreateTask(db, c.action.repo in cfg.v2Repos, c.action.repo, c.action.text, None), |db.tasks|))
    else if c.task.None? then Err("Task is required")
    else if c.task.value >= |db.tasks| then Err("Unknown task")
    else if c.action.Restart? && db.tasks[c.task.value].v2 then
      var t := c.task.value;
      if !db.tasks[t].state.Cancelled? then Err("Only a cancelled v2 task can be restarted")
      else Ok(Executed(CreateTask(db, true, db.tasks[t].repo, db.tasks[t].summary, Some(t)), |db.tasks|))
    else
      match ExecuteOn(cfg, db, c.task.value, c)
      case Err(e) => Err(e)
      case Ok(db') => Ok(Executed(db', c.task.value))
  }

  function ExecuteOn(cfg: Settings, db: Db, t: nat, c: Command): Outcome
    requires t < |db.tasks|
  {
    var task := db.tasks[t];
    match c.action
    case Retry =>
      if task.state.Merged? then cfg.delegate(db, t, c) else RetryOrResume(cfg, db, t, true)
    case ApproveDeploy(_, _, _) => cfg.delegate(db, t, c)
    case ApproveRequirements(_, _) => if task.v2 then cfg.delegate(db, t, c) else Err("Unknown command")
    case ApprovePlan(_, _, _) => if task.v2 then cfg.delegate(db, t, c) else Err("Unknown command")
    case Answer(_) => AnswerOrRevise(db, t, c.action)
    case Revise(_) => AnswerOrRevise(db, t, c.action)
    case Resume =>
      if task.v2 && task.state.Cancelled? then Err("Cancelled v2 work must restart as a new task")
      else RetryOrResume(cfg, db, t, false)
    case Status => Ok(db)
    case ApproveSpec(version, hash) => DoApproveSpec(db, t, version, hash)
    case ApproveMerge(head, base, hash) => DoApproveMerge(cfg, db, t, c.actor, head, base, hash)
    case Pause(text) => PauseOrCancel(db, t, false, text)
    case Cancel(text) => PauseOrCancel(db, t, true, text)
    case _ => Err("Unknown command")
  }

  /** The answer to an execution question returns before its event is recorded. */
  predicate ReturnsEarly(db: Db, c: Command) {
    && c.task.Some? && c.task.value < |db.tasks| && !Unrevisable(db.tasks[c.task.value].state)
    && c.action.Answer? && !Blank(c.action.text) && AnswersExecution(db, c.task.value, c.action)
  }

  /** The whole transaction: the new database, and the task shown to the caller. */
  function Run(cfg: Settings, db: Db, c: Command): (Db, Result<nat, string>) {
    if c.task.Some? && c.task.value >= |db.tasks| then (db, Err("Unknown task"))
    else if !Authorized(cfg, db, c) then (db, Err("Unauthorized actor, guild or channel"))
    else if c.event in db.events then (db, Ok(db.events[c.event]))
    else
      match Execute(cfg, db, c)
      case Err(e) => (db, Err(e))
      case Ok(Executed(db', t)) =>
        if ReturnsEarly(db, c) then (db', Ok(t)) else (db'.(events := db'.events[c.event := t]), Ok(t))
  }

  // ----- one command -----

  /** Recorded events stay, with the task they were about. */
  ghost predicate Grows(db: Db, db': Db) {
    forall e | e in db.events :: e in db'.events && db'.events[e] == db.events[e]
  }

  /** A recorded event answers every replay, in every later database, without touching it. */
  lemma RecordedReplay(cfg: Settings, db: Db, c: Command, later: Db, again: Command)
    requires !ReturnsEarly(db, c) && Run(cfg, db, c).1.Ok? && Grows(Run(cfg, db, c).0, later) && again.event == c.event
    ensures Run(cfg, later, again).0 == later
    ensures Run(cfg, later, again).1.Ok? ==> Run(cfg, later, again).1 == Run(cfg, db, c).1
  {
  }

  /** After an early return the same command is a revision: it takes both approvals back. */
  lemma EarlyReplay(cfg: Settings, db: Db, c: Command)
    requires ReturnsEarly(db, c) && c.event !in db.events && Run(cfg, db, c).1.Ok?
    ensures var t, once := c.task.value, Run(cfg, db, c).0;
            var (twice, reply) := Run(cfg, once, c);
            && reply.Ok? && t < |once.tasks| && t < |twice.tasks|
            && once.tasks[t].state in {Queued, Fixing} && once.tasks[t].planApproval != ""
            && twice.tasks[t].state.DraftingRequirements?
            && twice.tasks[t].requirementsApproval == "" && twice.tasks[t].planApproval == ""
  {
    var t, once := c.task.value, Run(cfg, db, c).0;
    assert once.tasks[t].state in {Queued, Fixing};
    assert Run(cfg, once, c).0.tasks == ReviseV2(once, t, c.action.text).tasks;
  }

  /** Replaying an accepted command changes nothing exactly when it had not returned early. */
  lemma ReplayIff(cfg: Settings, db: Db, c: Command)
    requires Run(cfg, db, c).1.Ok? && c.event !in db.events
    ensures Run(cfg, Run(cfg, db, c).0, c).0 == Run(cfg, db, c).0 <==> !ReturnsEarly(db, c)
  {
    var once := Run(cfg, db, c).0;
    if ReturnsEarly(db, c) {
      EarlyReplay(cfg, db, c);
    } else {
      RecordedReplay(cfg, db, c, once, c);
    }
  }

  /** Commands on one task leave every other task alone, as far as the delegates do. */
  lemma OthersUntouched(cfg: Settings, db: Db, c: Command, u: nat)
    requires u < |db.tasks| && c.task != Some(u)
    requires forall t: nat | t < |db.tasks| && cfg.delegate(db, t, c).Ok? :: Only(db, cfg.delegate(db, t, c).value, t)
    ensures u < |Run(cfg, db, c).0.tasks| && Run(cfg, db, c).0.tasks[u] == db.tasks[u]
  {
    if c.task.Some? && c.task.value < |db.tasks| && !c.action.Request? {
      OnlyItsTask(cfg, db, c.task.value, c);
    }
  }

  lemma OnlyItsTask(cfg: Settings, db: Db, t: nat, c: Command)
    requires t < |db.tasks| && (cfg.delegate(db, t, c).Ok? ==> Only(db, cfg.delegate(db, t, c).value, t))
    ensures ExecuteOn(cfg, db, t, c).Ok? ==> Only(db, ExecuteOn(cfg, db, t, c).value, t)
  {
  }

  // ----- the work that a command leaves in the queue -----

  /** A waiting job of `t` whose identity claim will accept, of a task that is not stopped. */
  predicate Runnable(db: Db, t: nat, j: nat) {
    && t < |db.tasks| && j < |db.jobs| && db.jobs[j].task == t && db.jobs[j].status.Waiting?
    && MayRun(db.tasks[t], db.jobs[j]) && db.tasks[t].state !in {Paused, Blocked, TaskState.Cancelled, Merged}
  }

  predicate RetriesProposal(task: Task, retry: bool) {
    task.v2 && retry && task.proposal && task.reason == PROPOSAL
  }

  /** The job that a retry or a resumption puts into the queue. */
  function QueuedBy(cfg: Settings, db: Db, t: nat, retry: bool): nat
    requires t < |db.tasks| && RetryOrResume(cfg, db, t, retry).Ok?
  {
    if RetriesProposal(db.tasks[t], retry) then NewestDraft(db.jobs, t).value
    else
      match Recoverable(cfg, db, t).value
      case None => |db.jobs|
      case Some(j) =>
        if !retry then |db.jobs|
        else if db.tasks[t].v2 then j
        else if db.jobs[j].data.answered && db.jobs[j].data.identity.version == db.tasks[t].version
                && db.jobs[j].data.identity.authority == db.tasks[t].authority then j
        else |db.jobs|
  }

  /** What decides, before the command, whether that job can run: a v2 job that waits again must still
      match its task, which must not go back to a state in which it is stopped, and a v2 task without such a
      job must have a pull request. */
  predicate RetrySound(cfg: Settings, db: Db, t: nat, retry: bool)
    requires t < |db.tasks| && RetryOrResume(cfg, db, t, retry).Ok?
  {
    var task := db.tasks[t];
    if !task.v2 then true
    else if RetriesProposal(task, retry) then MayRun(task, db.jobs[NewestDraft(db.jobs, t).value])
    else
      var job := Recoverable(cfg, db, t).value;
      if retry && job.Some? then
        && (task.reason == BUDGET || MayRun(task, db.jobs[job.value]))
        && (task.retryState.Some? ==> task.retryState.value !in {Paused, Blocked, TaskState.Cancelled, Merged})
      else task.pr
  }

  lemma SavedQueues(db: Db, t: nat, j: nat)
    requires t < |db.tasks| && j < |db.jobs| && db.jobs[j].task == t && !db.tasks[t].v2
    requires Restarted(db, t, true, Some(j)).Ok? && db.jobs[j].data.answered
    requires db.jobs[j].data.identity.version == db.tasks[t].version
    requires db.jobs[j].data.identity.authority == db.tasks[t].authority
    ensures Runnable(Restarted(db, t, true, Some(j)).value, t, j)
  {
  }

  lemma RestartedQueues(db: Db, t: nat, retry: bool, job: Option<nat>)
    requires t < |db.tasks| && (job.Some? ==> job.value < |db.jobs| && db.jobs[job.value].task == t)
    requires Restarted(db, t, retry, job).Ok? && (retry && job.Some? ==> !db.tasks[t].v2)
    ensures var db', task := Restarted(db, t, retry, job).value, db.tasks[t];
            if retry && job.Some? && db.jobs[job.value].data.answered
               && db.jobs[job.value].data.identity.version == task.version
               && db.jobs[job.value].data.identity.authority == task.authority
            then Runnable(db', t, job.value)
            else |db'.jobs| == |db.jobs| + 1 && db'.jobs[|db.jobs|].task == t && db'.jobs[|db.jobs|].status.Waiting?
                 && (Runnable(db', t, |db.jobs|) <==> !task.v2 || task.pr)
  {
    if retry && job.Some? && db.jobs[job.value].data.answered
       && db.jobs[job.value].data.identity.version == db.tasks[t].version
       && db.jobs[job.value].data.identity.authority == db.tasks[t].authority {
      SavedQueues(db, t, job.value);
    }
  }

  lemma RetryJobQueues(db: Db, t: nat, j: nat)
    requires t < |db.tasks| && j < |db.jobs| && db.jobs[j].task == t && RetryJob(db, t, j).Ok?
    ensures var db' := RetryJob(db, t, j).value;
            && |db'.jobs| == |db.jobs| && db'.jobs[j].task == t && db'.jobs[j].status.Waiting?
            && (Runnable(db', t, j) <==>
                  MayRun(db.tasks[t], db.jobs[j])
                  && (db.tasks[t].retryState.Some? ==>
                        db.tasks[t].retryState.value !in {Paused, Blocked, TaskState.Cancelled, Merged}))
  {
  }

  lemma RetryProposalQueues(db: Db, t: nat)
    requires t < |db.tasks| && RetryProposal(db, t).Ok?
    ensures var db', j := RetryProposal(db, t).value, NewestDraft(db.jobs, t).value;
            && |db'.jobs| == |db.jobs| && db'.jobs[j].task == t && db'.jobs[j].status.Waiting?
            && (Runnable(db', t, j) <==> MayRun(db.tasks[t], db.jobs[j]))
  {
  }

  /** A retry or a resumption puts a job of its task into the queue, and claim will accept that job exactly
      when RetrySound said so before. */
  lemma RetryQueuesIff(cfg: Settings, db: Db, t: nat, retry: bool)
    requires t < |db.tasks| && RetryOrResume(cfg, db, t, retry).Ok?
    ensures var db', j := RetryOrResume(cfg, db, t, retry).value, QueuedBy(cfg, db, t, retry);
            && j < |db'.jobs| && db'.jobs[j].task == t && db'.jobs[j].status.Waiting?
            && (Runnable(db', t, j) <==> RetrySound(cfg, db, t, retry))
  {
    var task := db.tasks[t];
    if RetriesProposal(task, retry) {
      RetryProposalQueues(db, t);
    } else {
      var job := Recoverable(cfg, db, t).value;
      if retry && job.Some? && task.v2 {
        RetryJobQueues(db, t, job.value);
        if task.reason == BUDGET {
          assert db.jobs[job.value].data.identity == IdentityOf(task);
        }
      } else {
        RestartedQueues(db, t, retry, job);
      }
    }
  }

  /** A v2 task that was paused while its requirements were drafted, before there was a pull request. */
  const PAUSED_DRAFT := BLANK.(v2 := true, state := Paused, authority := "h1")

  /** Resuming it leaves a job that names a specification, which claim will drop: nothing can run. */
  lemma ResumeWithoutWork(cfg: Settings)
    ensures var db := Db(0, [PAUSED_DRAFT], [], {}, map[0 := 0], [], [], map[], {}, 0);
            var outcome := RetryOrResume(cfg, db, 0, false);
            && outcome.Ok? && outcome.value.tasks[0].state == Clarifying && |outcome.value.jobs| == 1
            && forall j: nat :: !Runnable(outcome.value, 0, j)
  {
    var db := Db(0, [PAUSED_DRAFT], [], {}, map[0 := 0], [], [], map[], {}, 0);
    RetryQueuesIff(cfg, db, 0, false);
    assert QueuedBy(cfg, db, 0, false) == 0;
  }

  lemma ReviseLeavesWork(db: Db, t: nat, text: string)
    requires t < |db.tasks|
    ensures Runnable(if db.tasks[t].v2 then ReviseV2(db, t, text) else ReviseV1(db, t, text), t, |db.jobs|)
  {
  }

  lemma ExecutionLeavesWork(db: Db, t: nat, text: string)
    requires t < |db.tasks| && db.tasks[t].v2 && Newest(db.jobs, t).Some? && AnswerExecution(db, t, text).Ok?
    ensures Runnable(AnswerExecution(db, t, text).value, t, |db.jobs|)
  {
  }

  /** An answer or a revision always leaves a job that can run. */
  lemma AnswerLeavesWork(db: Db, t: nat, action: Action)
    requires t < |db.tasks| && (action.Answer? || action.Revise?) && AnswerOrRevise(db, t, action).Ok?
    ensures Runnable(AnswerOrRevise(db, t, action).value, t, |db.jobs|)
  {
    if AnswersExecution(db, t, action) {
      ExecutionLeavesWork(db, t, action.text);
    } else {
      ReviseLeavesWork(db, t, action.text);
    }
  }

  // ----- runs of commands, with other transactions in between -----

  /** How the rest of the system treats the tables: events stay, and jobs are handled with care. */
  ghost predicate Rely(db: Db, db': Db) { Grows(db, db') && CarefulJobs(db.jobs, db'.jobs) }

  /** The delegates keep to it. */
  ghost predicate Fair(cfg: Settings) {
    forall db, t, c :: cfg.delegate(db, t, c).Ok? ==> Rely(db, cfg.delegate(db, t, c).value)
  }

  lemma InvalidateIsCareful(db: Db, t: nat)
    requires t < |db.tasks|
    ensures CarefulJobs(db.jobs, InvalidateJobs(db.jobs, t))
  {
  }

  lemma ReviseIsCareful(db: Db, t: nat, action: Action)
    requires t < |db.tasks| && (action.Answer? || action.Revise?) && AnswerOrRevise(db, t, action).Ok?
    ensures Rely(db, AnswerOrRevise(db, t, action).value)
  {
    InvalidateIsCareful(db, t);
  }

  lemma StopIsCareful(db: Db, t: nat, cancel: bool, text: string)
    requires t < |db.tasks| && PauseOrCancel(db, t, cancel, text).Ok?
    ensures Rely(db, PauseOrCancel(db, t, cancel, text).value)
  {
    InvalidateIsCareful(db, t);
  }

  lemma RequeueIsCareful(db: Db, j: nat, job: Job)
    requires j < |db.jobs| && Careful(db.jobs[j], job)
    ensures CarefulJobs(db.jobs, db.jobs[j := job])
  {
  }

  lemma RestartIsCareful(db: Db, t: nat, retry: bool, job: Option<nat>)
    requires t < |db.tasks| && (job.Some? ==> job.value < |db.jobs|) && Restarted(db, t, retry, job).Ok?
    ensures Rely(db, Restarted(db, t, retry, job).value)
  {
    if job.Some? {
      RequeueIsCareful(db, job.value, db.jobs[job.value].(status := Waiting, attempt := 0));
    }
  }

  lemma RetryIsCareful(cfg: Settings, db: Db, t: nat, retry: bool)
    requires t < |db.tasks| && RetryOrResume(cfg, db, t, retry).Ok?
    ensures Rely(db, RetryOrResume(cfg, db, t, retry).value)
  {
    if RetriesProposal(db.tasks[t], retry) {
      var j := NewestDraft(db.jobs, t).value;
      RequeueIsCareful(db, j, db.jobs[j].(status := Waiting, attempt := 0, owner := 0));
    } else {
      var job := Recoverable(cfg, db, t).value;
      if retry && job.Some? && db.tasks[t].v2 {
        RequeueIsCareful(db, job.value, db.jobs[job.value].(status := Waiting, attempt := 0, owner := 0, lease := 0));
      } else {
        RestartIsCareful(db, t, retry, job);
      }
    }
  }

  lemma ExecuteIsCareful(cfg: Settings, db: Db, t: nat, c: Command)
    requires Fair(cfg) && t < |db.tasks| && ExecuteOn(cfg, db, t, c).Ok?
    ensures Rely(db, ExecuteOn(cfg, db, t, c).value)
  {
    if c.action.Answer? || c.action.Revise? {
      ReviseIsCareful(db, t, c.action);
    } else if c.action.Pause? || c.action.Cancel? {
      StopIsCareful(db, t, c.action.Cancel?, c.action.text);
    } else if (c.action.Retry? && !db.tasks[t].state.Merged?) || c.action.Resume? {
      RetryIsCareful(cfg, db, t, c.action.Retry?);
    }
  }

  /** So does every command. */
  lemma CommandIsCareful(cfg: Settings, db: Db, c: Command)
    requires Fair(cfg)
    ensures Rely(db, Run(cfg, db, c).0)
  {
    if c.task.Some? && c.task.value < |db.tasks| && ExecuteOn(cfg, db, c.task.value, c).Ok? {
      ExecuteIsCareful(cfg, db, c.task.value, c);
    }
  }

  /** A command, or whatever other transactions made of the database since. */
  datatype Move = Do(c: Command) | Else(db: Db)

  ghost function Moved(cfg: Settings, db: Db, move: Move): Db {
    match move
    case Do(c) => Run(cfg, db, c).0
    case Else(other) => if Rely(db, other) then other else db
  }

  ghost function After(cfg: Settings, db: Db, moves: seq<Move>): Db
    decreases |moves|
  {
    if moves == [] then db else After(cfg, Moved(cfg, db, moves[0]), moves[1..])
  }

  lemma MoveIsCareful(cfg: Settings, db: Db, move: Move)
    requires Fair(cfg)
    ensures Rely(db, Moved(cfg, db, move))
  {
    match move
    case Do(c) => CommandIsCareful(cfg, db, c);
    case Else(_) =>
  }

  /** Does this move carry out the action of event `e`? */
  predicate Acts(cfg: Settings, db: Db, move: Move, e: string) {
    move.Do? && move.c.event == e && e !in db.events && Run(cfg, db, move.c).1.Ok?
  }

  /** How often a run carries out the action of event `e`. */
  ghost function Effects(cfg: Settings, db: Db, moves: seq<Move>, e: string): nat
    decreases |moves|
  {
    if moves == [] then 0
    else (if Acts(cfg, db, moves[0], e) then 1 else 0) + Effects(cfg, Moved(cfg, db, moves[0]), moves[1..], e)
  }

  /** No command of event `e` returns early in this run. */
  ghost predicate NeverEarly(cfg: Settings, db: Db, moves: seq<Move>, e: string)
    decreases |moves|
  {
    moves == [] || (!(Acts(cfg, db, moves[0], e) && ReturnsEarly(db, moves[0].c))
                    && NeverEarly(cfg, Moved(cfg, db, moves[0]), moves[1..], e))
  }

  lemma {:induction false} RecordedNeverActs(cfg: Settings, db: Db, moves: seq<Move>, e: string)
    requires Fair(cfg) && e in db.events
    ensures Effects(cfg, db, moves, e) == 0
    decreases |moves|
  {
    if moves != [] {
      MoveIsCareful(cfg, db, moves[0]);
      RecordedNeverActs(cfg, Moved(cfg, db, moves[0]), moves[1..], e);
    }
  }

  /** Over any run, with anything else in between, the action of an event takes effect at most once unless
      it returned early. */
  lemma {:induction false} EffectOnce(cfg: Settings, db: Db, moves: seq<Move>, e: string)
    requires Fair(cfg) && NeverEarly(cfg, db, moves, e)
    ensures Effects(cfg, db, moves, e) <= 1
    decreases |moves|
  {
    if moves != [] {
      var next := Moved(cfg, db, moves[0]);
      if Acts(cfg, db, moves[0], e) {
        assert e in next.events;
        RecordedNeverActs(cfg, next, moves[1..], e);
      } else {
        EffectOnce(cfg, next, moves[1..], e);
      }
    }
  }

  /** The part of the fence that a job row decides: running, under this fence. */
  predicate Passes(jobs: seq<Job>, j: nat, fence: nat) {
    j < |jobs| && jobs[j].status.Running? && jobs[j].fence == fence
  }

  predicate Past(jobs: seq<Job>, j: nat, fence: nat) {
    j < |jobs| && fence <= jobs[j].fence && (fence == jobs[j].fence ==> !jobs[j].status.Running?)
  }

  lemma {:induction false} PastForGood(cfg: Settings, db: Db, moves: seq<Move>, j: nat, fence: nat)
    requires Fair(cfg) && Past(db.jobs, j, fence)
    ensures !Passes(After(cfg, db, moves).jobs, j, fence)
    decreases |moves|
  {
    if moves != [] {
      var next := Moved(cfg, db, moves[0]);
      MoveIsCareful(cfg, db, moves[0]);
      assert Careful(db.jobs[j], next.jobs[j]);
      PastForGood(cfg, next, moves[1..], j, fence);
    }
  }

  /** invalidate leaves every pair of the task in the past, and what follows it in a command keeps that. */
  lemma InvalidateFences(db: Db, t: nat, j: nat, jobs: seq<Job>)
    requires t < |db.tasks| && j < |db.jobs| && db.jobs[j].task == t
    requires InvalidateJobs(db.jobs, t) <= jobs
    ensures Past(jobs, j, db.jobs[j].fence)
  {
    assert jobs[j] == InvalidateJobs(db.jobs, t)[j];
  }

  predicate StopsWork(db: Db, c: Command) {
    && c.task.Some? && c.task.value < |db.tasks| && c.event !in db.events && !ReturnsEarly(db, c)
    && (c.action.Pause? || c.action.Cancel? || c.action.Answer? || c.action.Revise?)
  }

  lemma PauseStops(db: Db, t: nat, cancel: bool, text: string, j: nat)
    requires t < |db.tasks| && PauseOrCancel(db, t, cancel, text).Ok? && j < |db.jobs| && db.jobs[j].task == t
    ensures var db' := PauseOrCancel(db, t, cancel, text).value;
            !db'.tasks[t].review && db'.tasks[t].approval.None? && Past(db'.jobs, j, db.jobs[j].fence)
  {
    InvalidateFences(db, t, j, PauseOrCancel(db, t, cancel, text).value.jobs);
  }

  lemma RevisionStops(db: Db, t: nat, action: Action, j: nat)
    requires t < |db.tasks| && (action.Answer? || action.Revise?) && !AnswersExecution(db, t, action)
    requires AnswerOrRevise(db, t, action).Ok? && j < |db.jobs| && db.jobs[j].task == t
    ensures var db' := AnswerOrRevise(db, t, action).value;
            !db'.tasks[t].review && db'.tasks[t].approval.None? && Past(db'.jobs, j, db.jobs[j].fence)
  {
    InvalidateFences(db, t, j, AnswerOrRevise(db, t, action).value.jobs);
  }

  /** The command itself: earlier pairs are past, and neither a review nor a merge approval is left. */
  lemma StopsEverything(cfg: Settings, db: Db, c: Command, j: nat)
    requires StopsWork(db, c) && Run(cfg, db, c).1.Ok? && j < |db.jobs| && db.jobs[j].task == c.task.value
    ensures var db', t := Run(cfg, db, c).0, c.task.value;
            && t < |db'.tasks| && !db'.tasks[t].review && db'.tasks[t].approval.None?
            && Past(db'.jobs, j, db.jobs[j].fence)
  {
    if c.action.Pause? || c.action.Cancel? {
      PauseStops(db, c.task.value, c.action.Cancel?, c.action.text, j);
    } else {
      RevisionStops(db, c.task.value, c.action, j);
    }
  }

  /** Over any run that follows a pause, a cancel or a revision, no job of the task ever passes the fence
      under the pair it had before. */
  lemma StoppedForGood(cfg: Settings, db: Db, c: Command, j: nat, moves: seq<Move>)
    requires Fair(cfg) && StopsWork(db, c) && Run(cfg, db, c).1.Ok?
    requires j < |db.jobs| && db.jobs[j].task == c.task.value
    ensures !Passes(After(cfg, Run(cfg, db, c).0, moves).jobs, j, db.jobs[j].fence)
  {
    StopsEverything(cfg, db, c, j);
    PastForGood(cfg, Run(cfg, db, c).0, moves, j, db.jobs[j].fence);
  }
}
