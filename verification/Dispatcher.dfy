/** The job dispatcher (src/agent_team/engine.py with the parts of service.py and deployments.py that
    move jobs). Every transaction is one step on the database; a run is any sequence of steps. */
module Dispatcher {
  import opened Wrappers
  import opened Domain

  datatype ParallelClass = Coordinator | ReadOnly | RepositoryWrite | Privileged
  datatype Task = Task(v2: bool, repository: string, state: TaskState, stateVersion: nat, identity: Identity,
                       stalledAt: Option<nat>)

  datatype Lease = Lease(job: nat, owner: nat, fence: nat, expires: int)

  /** `owner` is the id of the running engine; a restart draws a new one. */
  datatype Db = Db(now: int, owner: nat, tasks: seq<Task>, jobs: seq<Job>, leases: map<string, Lease>,
                   budgets: map<nat, nat>, deployments: set<nat>)

  datatype Config = Config(classOf: string -> ParallelClass, fallback: map<string, string>, normal: nat,
                           privileged: nat, calls: nat, leaseSeconds: nat, chatgpt: bool)

  predicate WellFormed(db: Db) { Placed(db.jobs, |db.tasks|) }

  predicate Placed(jobs: seq<Job>, tasks: nat) {
    forall j | 0 <= j < |jobs| :: jobs[j].task < tasks
  }

  /** What no transaction changes: rows stay, and keep the columns that say what they are; a fence
      and a count of reservations never go back. */
  ghost predicate Extends(db: Db, db': Db) {
    && JobsExtend(db.jobs, db'.jobs) && TasksExtend(db.tasks, db'.tasks)
    && BudgetsExtend(db.budgets, db'.budgets) && (WellFormed(db) ==> WellFormed(db'))
  }

  ghost predicate JobsExtend(jobs: seq<Job>, jobs': seq<Job>) {
    |jobs| <= |jobs'| && forall j | 0 <= j < |jobs| :: SameJob(jobs[j], jobs'[j])
  }

  predicate SameJob(a: Job, b: Job) {
    b.task == a.task && b.v2 == a.v2 && b.role == a.role && b.kind == a.kind && b.fence >= a.fence
  }

  ghost predicate TasksExtend(tasks: seq<Task>, tasks': seq<Task>) {
    |tasks| <= |tasks'| && forall t | 0 <= t < |tasks| :: SameTask(tasks[t], tasks'[t])
  }

  ghost predicate BudgetsExtend(budgets: map<nat, nat>, budgets': map<nat, nat>) {
    forall t | t in budgets :: t in budgets' && budgets[t] <= budgets'[t]
  }

  /** Neither the clock, nor the engine, nor a deployment, nor the number of rows. */
  predicate Steady(db: Db, db': Db) {
    && db'.now == db.now && db'.owner == db.owner && db'.deployments == db.deployments
    && |db'.jobs| == |db.jobs| && |db'.tasks| == |db.tasks|
  }

  predicate SameTask(a: Task, b: Task) { b.v2 == a.v2 && b.repository == a.repository }

  function Repo(db: Db, j: nat): string
    requires j < |db.jobs| && db.jobs[j].task < |db.tasks|
  {
    db.tasks[db.jobs[j].task].repository
  }

  function Transition(db: Db, t: nat, state: TaskState): (r: Db)
    requires t < |db.tasks|
    ensures Extends(db, r) && Steady(db, r) && r.jobs == db.jobs && r.leases == db.leases && r.budgets == db.budgets
  {
    db.(tasks := db.tasks[t := db.tasks[t].(state := state, stateVersion := db.tasks[t].stateVersion + 1)])
  }

  function SetJob(db: Db, j: nat, job: Job): Db
    requires j < |db.jobs|
  {
    db.(jobs := db.jobs[j := job])
  }

  function AddJob(db: Db, t: nat, kind: Kind, role: string, data: Data): (r: Db)
    requires t < |db.tasks|
    ensures Extends(db, r)
  {
    db.(jobs := db.jobs + [NewJob(t, db.tasks[t].v2, role, kind, data)])
  }

  predicate IdentityCurrent(task: Task, job: Job) { Matches(task.v2, job.data.identity, task.identity) }

  function WithoutRow(leases: map<string, Lease>, r: string, j: nat, owner: nat): map<string, Lease> {
    if r in leases && leases[r].job == j && leases[r].owner == owner then leases - {r} else leases
  }

  /** release_repository_lease: only the row of this job, and only if this engine wrote it. */
  function Release(db: Db, j: nat): (r: Db)
    requires j < |db.jobs| && db.jobs[j].task < |db.tasks|
    ensures Extends(db, r) && Steady(db, r) && r.jobs == db.jobs && r.budgets == db.budgets
  {
    db.(leases := WithoutRow(db.leases, Repo(db, j), j, db.owner))
  }

  /** The job changes and gives its repository back. */
  function Stop(db: Db, j: nat, job: Job): (r: Db)
    requires j < |db.jobs| && db.jobs[j].task < |db.tasks| && SameJob(db.jobs[j], job)
    ensures Extends(db, r) && Steady(db, r) && r.jobs == db.jobs[j := job] && r.budgets == db.budgets
  {
    Release(SetJob(db, j, job), j)
  }

  /** current: the fence every result has to pass. */
  predicate Current(db: Db, j: nat, fence: nat) {
    && j < |db.jobs| && db.jobs[j].task < |db.tasks|
    && var job, task := db.jobs[j], db.tasks[db.jobs[j].task];
       job.status.Running? && job.fence == fence && job.owner == db.owner && job.lease > db.now
       && !Stopped(task.state) && IdentityCurrent(task, job)
  }

  // ----- claim -----

  function RequeueOne(now: int, job: Job): Job {
    if job.status.Running? && job.lease < now then job.(fence := job.fence + 1, status := Waiting) else job
  }

  function Requeue(db: Db): (r: Db)
    ensures Extends(db, r) && Steady(db, r)
  {
    db.(jobs := seq(|db.jobs|, j requires 0 <= j < |db.jobs| => RequeueOne(db.now, db.jobs[j])))
  }

  /** The kinds of running jobs that are counted. */
  function Normal(cfg: Config): Job -> bool {
    (job: Job) => job.status.Running? && job.v2 && !cfg.classOf(job.role).Privileged?
  }

  function PrivilegedAny(cfg: Config): Job -> bool {
    (job: Job) => job.status.Running? && job.v2 && cfg.classOf(job.role).Privileged?
  }

  function PrivilegedWork(cfg: Config): Job -> bool {
    (job: Job) => job.status.Running? && job.v2 && cfg.classOf(job.role).Privileged? && !job.kind.Consult?
  }

  function V1(): Job -> bool { (job: Job) => job.status.Running? && !job.v2 }

  function V1In(role: string): Job -> bool { (job: Job) => job.status.Running? && !job.v2 && job.role == role }

  function Count(p: Job -> bool, jobs: seq<Job>): nat {
    if jobs == [] then 0
    else Count(p, jobs[..|jobs| - 1]) + if p(jobs[|jobs| - 1]) then 1 else 0
  }

  /** What claim counts once, before it looks at the queue. */
  datatype Busy = Busy(roles: set<string>, normal: nat, privileged: nat)

  function BusyOf(cfg: Config, db: Db): Busy {
    Busy(set j | 0 <= j < |db.jobs| && db.jobs[j].status.Running? :: db.jobs[j].role,
         Count(Normal(cfg), db.jobs), Count(PrivilegedAny(cfg), db.jobs))
  }

  function AdmissionClass(cfg: Config, job: Job): ParallelClass {
    if job.kind.Consult? then ReadOnly else cfg.classOf(job.role)
  }

  /** No free slot for this job. */
  predicate NoSlot(cfg: Config, busy: Busy, job: Job) {
    if !job.v2 then job.role in busy.roles || (cfg.chatgpt && busy.roles != {})
    else if AdmissionClass(cfg, job).Privileged? then busy.privileged >= cfg.privileged
    else busy.normal >= cfg.normal
  }

  predicate NeedsLease(cfg: Config, job: Job) {
    job.v2 && AdmissionClass(cfg, job).RepositoryWrite?
  }

  predicate LeaseHeld(db: Db, j: nat)
    requires j < |db.jobs| && db.jobs[j].task < |db.tasks|
  {
    var r := Repo(db, j);
    r in db.leases && db.leases[r].expires >= db.now && db.leases[r].job != j
  }

  function TakeLease(cfg: Config, db: Db, j: nat): Db
    requires j < |db.jobs| && db.jobs[j].task < |db.tasks|
  {
    var r := Repo(db, j);
    var fence := if r in db.leases then db.leases[r].fence + 1 else 1;
    db.(leases := db.leases[r := Lease(j, db.owner, fence, db.now + cfg.leaseSeconds)])
  }

  /** The task stops and the job does not run. */
  function Refuse(db: Db, j: nat, status: JobStatus): (r: Db)
    requires j < |db.jobs| && db.jobs[j].task < |db.tasks|
    ensures Extends(db, r) && Steady(db, r) && r.jobs == db.jobs[j := db.jobs[j].(status := status)]
    ensures r.budgets == db.budgets
    ensures r.leases == Release(db, j).leases
  {
    Transition(Stop(db, j, db.jobs[j].(status := status)), db.jobs[j].task, Blocked)
  }

  function StartedJob(cfg: Config, db: Db, j: nat): Job
    requires j < |db.jobs|
  {
    var job := db.jobs[j];
    job.(status := Running, owner := db.owner, fence := job.fence + 1, attempt := job.attempt + 1,
         lease := db.now + cfg.leaseSeconds)
  }

  /** The job starts, or fails on its fourth attempt. */
  function Start(cfg: Config, db: Db, j: nat): (r: (Db, bool))
    requires j < |db.jobs| && db.jobs[j].task < |db.tasks|
    ensures Extends(db, r.0) && Steady(db, r.0) && r.0.budgets == db.budgets
  {
    var job := db.jobs[j];
    var started := StartedJob(cfg, db, j);
    if started.attempt > 3 then (Refuse(SetJob(db, j, started), j, Failed), false)
    else
      var running := SetJob(db, j, started);
      (match job.kind
       case Implement => Transition(running, job.task, Implementing)
       case Fix => Transition(running, job.task, Fixing)
       case _ => running,
       true)
  }

  /** What else decides an admission: rows locked by other transactions, and money (live mode). */
  datatype Outside = Outside(locked: set<nat>, overspent: set<nat>)

  function Charged(db: Db, j: nat): Db
    requires j < |db.jobs| && db.jobs[j].task in db.budgets
  {
    var t := db.jobs[j].task;
    db.(budgets := db.budgets[t := db.budgets[t] + 1])
  }

  /** The admitted job is charged and started, unless the limit of its task has been reached. */
  function Dispatch(cfg: Config, out: Outside, db: Db, j: nat): (r: (Db, bool))
    requires j < |db.jobs| && db.jobs[j].task < |db.tasks|
    ensures Extends(db, r.0) && Steady(db, r.0)
  {
    var job := db.jobs[j];
    if job.v2 && (job.task !in db.budgets || db.budgets[job.task] >= cfg.calls) then (Refuse(db, j, Dropped), false)
    else
      var charged := if job.v2 then Charged(db, j) else db;
      if j in out.overspent then (Refuse(charged, j, Dropped), false) else Start(cfg, charged, j)
  }

  /** The loop body of claim for the waiting job `j`. */
  function Admit(cfg: Config, out: Outside, busy: Busy, db: Db, j: nat): (r: (Db, bool))
    requires j < |db.jobs| && db.jobs[j].task < |db.tasks|
    ensures Extends(db, r.0) && Steady(db, r.0)
  {
    var job := db.jobs[j];
    if Stopped(db.tasks[job.task].state) then (db, false)
    else if !IdentityCurrent(db.tasks[job.task], job) then (SetJob(db, j, job.(status := Dropped)), false)
    else if NoSlot(cfg, busy, job) then (db, false)
    else if NeedsLease(cfg, job) && LeaseHeld(db, j) then (db, false)
    else Dispatch(cfg, out, if NeedsLease(cfg, job) then TakeLease(cfg, db, j) else db, j)
  }

  function Scan(cfg: Config, out: Outside, busy: Busy, db: Db, from: nat): (r: (Db, Option<(nat, nat)>))
    requires WellFormed(db)
    decreases |db.jobs| - from
    ensures Extends(db, r.0) && Steady(db, r.0) && (r.1.Some? ==> r.1.value.0 < |db.jobs|)
  {
    if from >= |db.jobs| then (db, None)
    else if !db.jobs[from].status.Waiting? || from in out.locked then Scan(cfg, out, busy, db, from + 1)
    else
      var (next, started) := Admit(cfg, out, busy, db, from);
      if started then (next, Some((from, next.jobs[from].fence))) else Scan(cfg, out, busy, next, from + 1)
  }

  function Claim(cfg: Config, out: Outside, db: Db): (r: (Db, Option<(nat, nat)>))
    requires WellFormed(db)
    ensures Extends(db, r.0) && Steady(db, r.0) && (r.1.Some? ==> r.1.value.0 < |db.jobs|)
  {
    if db.deployments != {} then (db, None)
    else Scan(cfg, out, BusyOf(cfg, Requeue(db)), Requeue(db), 0)
  }

  // ----- the other transactions -----

  /** The lease of a job, and of the row it holds, moves to `lease`. */
  function Beat(db: Db, j: nat, lease: int): (r: Db)
    requires j < |db.jobs| && db.jobs[j].task < |db.tasks|
    ensures Extends(db, r)
  {
    var r := Repo(db, j);
    db.(jobs := db.jobs[j := db.jobs[j].(lease := lease)],
        leases := if r in db.leases && db.leases[r].job == j && db.leases[r].owner == db.owner
                  then db.leases[r := db.leases[r].(expires := lease)] else db.leases)
  }

  function Heartbeat(cfg: Config, db: Db, j: nat, fence: nat): (r: Db)
    ensures Extends(db, r)
  {
    if Current(db, j, fence) then Beat(db, j, db.now + cfg.leaseSeconds) else db
  }

  datatype Failure = NoPatch | Guard | Other

  /** A job whose worker failed: one retry in another format, two more attempts, a fallback role, or
      the task stops. */
  function Settle(cfg: Config, db: Db, j: nat, error: Failure): (r: Db)
    requires j < |db.jobs| && db.jobs[j].task < |db.tasks|
    ensures Extends(db, r)
  {
    var job := db.jobs[j];
    if job.v2 && job.kind in {Implement, Fix} && error.NoPatch? && !job.data.patchRetry then
      Stop(db, j, job.(data := job.data.(patchRetry := true), status := Waiting))
    else if job.v2 && error.Other? && job.attempt < 3 then Stop(db, j, job.(status := Waiting))
    else if job.v2 && error.Other? && job.role in cfg.fallback && !cfg.classOf(job.role).Privileged? then
      AddJob(Stop(db, j, job.(status := Failed)), job.task, job.kind, cfg.fallback[job.role], job.data)
    else Transition(Stop(db, j, job.(status := Failed)), job.task, Blocked)
  }

  function Fail(cfg: Config, db: Db, j: nat, fence: nat, error: Failure): (r: Db)
    ensures Extends(db, r)
  {
    if !Current(db, j, fence) then db else Settle(cfg, db, j, error)
  }

  /** A task's own columns change, with or without a new state. */
  function Edit(db: Db, t: nat, move: Option<TaskState>, identity: Identity): (r: Db)
    requires t < |db.tasks|
    ensures Extends(db, r)
  {
    var edited := db.(tasks := db.tasks[t := db.tasks[t].(identity := identity)]);
    if move.None? then edited else Transition(edited, t, move.value)
  }

  /** A result is committed: the job is done, the task may move on and get a follow-up job. */
  function Finish(db: Db, j: nat, fence: nat, move: Option<TaskState>, identity: Identity,
                  followUp: Option<(Kind, string)>): (r: Db)
    ensures Extends(db, r)
  {
    if !Current(db, j, fence) then db
    else
      var t := db.jobs[j].task;
      var moved := Edit(Stop(db, j, db.jobs[j].(status := Finished)), t, move, identity);
      if followUp.None? then moved else AddJob(moved, t, followUp.value.0, followUp.value.1, NewData(identity))
  }

  /** invalidate, then a new state: pause, revision, and everything reconcile stops or sends back. */
  function Invalidate(db: Db, t: nat, state: TaskState): (r: Db)
    ensures Extends(db, r)
  {
    if t >= |db.tasks| then db else Transition(db.(jobs := InvalidateJobs(db.jobs, t)), t, state)
  }

  /** The lease rows that belong to no job of `t`. */
  function OthersLeases(jobs: seq<Job>, leases: map<string, Lease>, t: nat): map<string, Lease> {
    map r | r in leases && !(leases[r].job < |jobs| && jobs[leases[r].job].task == t) :: leases[r]
  }

  /** Cancelling a v2 task also deletes every lease row of its jobs, whoever wrote it. */
  function Cancel(db: Db, t: nat): (r: Db)
    requires WellFormed(db)
    ensures Extends(db, r)
  {
    if t >= |db.tasks| then db
    else
      var db' := Invalidate(db, t, TaskState.Cancelled);
      if !db.tasks[t].v2 then db'
      else db'.(leases := OthersLeases(db.jobs, db.leases, t))
  }

  /** An owner's retry, or connection recovery: a job that is over waits again. */
  function Retry(db: Db, j: nat, state: TaskState, clearLease: bool): (r: Db)
    ensures Extends(db, r)
  {
    if j >= |db.jobs| || db.jobs[j].task >= |db.tasks| || db.jobs[j].status in {Waiting, Running} then db
    else
      var job := db.jobs[j];
      Transition(SetJob(db, j, job.(status := Waiting, attempt := 0, owner := 0,
                                    lease := if clearLease then 0 else job.lease)), job.task, state)
  }

  /** The newest active job of a task. */
  function Newest(jobs: seq<Job>, t: nat): (r: Option<nat>)
    ensures r.Some? ==> r.value < |jobs| && Active(jobs[r.value], t)
    ensures r.Some? ==> forall j | r.value < j < |jobs| :: !Active(jobs[j], t)
    ensures r.None? ==> forall j | 0 <= j < |jobs| :: !Active(jobs[j], t)
  {
    if jobs == [] then None
    else if Active(jobs[|jobs| - 1], t) then Some(|jobs| - 1)
    else Newest(jobs[..|jobs| - 1], t)
  }

  predicate Recoverable(state: TaskState) {
    state in {DraftingRequirements, PlanningImplementation, ReviewingImplementationPlan, Queued, Implementing, Fixing,
              Reviewing}
  }

  /** The lease rows without those this engine wrote for the active jobs of `t` before job `i`. */
  function ReleasedBefore(db: Db, t: nat, i: nat): map<string, Lease>
    requires i <= |db.jobs|
  {
    map r | r in db.leases
            && !(db.leases[r].owner == db.owner && db.leases[r].job < i && Active(db.jobs[db.leases[r].job], t))
      :: db.leases[r]
  }

  /** Every active job of `t` is dropped and gives its repository back. */
  function DropActive(db: Db, t: nat): (r: Db)
    ensures Extends(db, r)
  {
    db.(jobs := InvalidateJobs(db.jobs, t), leases := ReleasedBefore(db, t, |db.jobs|))
  }

  /** recover_stalled_v2 for one task that has been silent long enough. */
  function RecoverStalled(db: Db, t: nat): (r: Db)
    requires WellFormed(db)
    ensures Extends(db, r)
  {
    if t >= |db.tasks| || !db.tasks[t].v2 || !Recoverable(db.tasks[t].state) || Newest(db.jobs, t).None? then db
    else
      var task, newest := db.tasks[t], db.jobs[Newest(db.jobs, t).value];
      var dropped := DropActive(db, t);
      if task.stalledAt == Some(task.stateVersion) then Transition(dropped, t, Blocked)
      else
        AddJob(dropped.(tasks := dropped.tasks[t := task.(stalledAt := Some(task.stateVersion))]),
               t, newest.kind, newest.role, NewData(task.identity))
  }

  /** A new task; a v2 task gets its budget row. */
  function Create(db: Db, v2: bool, repository: string, state: TaskState): (r: Db)
    ensures Extends(db, r)
  {
    var t := |db.tasks|;
    db.(tasks := db.tasks + [Task(v2, repository, state, 0, Identity(v2, "", 0, "", "", Some("")), None)],
        budgets := if v2 && t !in db.budgets then db.budgets[t := 0] else db.budgets)
  }

  /** reserve_model_call outside a dispatch. */
  function Reserve(cfg: Config, db: Db, t: nat): (r: Db)
    ensures Extends(db, r)
  {
    if t !in db.budgets || db.budgets[t] >= cfg.calls then db else db.(budgets := db.budgets[t := db.budgets[t] + 1])
  }

  /** The deployment bridge's claim of operation `op`: a running one is only resumed. */
  function DeployClaim(db: Db, op: nat): (r: Db)
    ensures Extends(db, r)
  {
    if (exists j :: 0 <= j < |db.jobs| && db.jobs[j].status.Running?) || db.deployments != {} then db
    else db.(deployments := {op})
  }

  datatype Step =
    | Advance(seconds: nat)
    | Restart
    | NewTask(v2: bool, repository: string, state: TaskState)
    | EditTask(t: nat, move: Option<TaskState>, identity: Identity)
    | Enqueue(t: nat, kind: Kind, role: string, identity: Identity)
    | ClaimStep(out: Outside)
    | HeartbeatStep(j: nat, fence: nat)
    | FailStep(j: nat, fence: nat, error: Failure)
    | FinishStep(j: nat, fence: nat, move: Option<TaskState>, identity: Identity, followUp: Option<(Kind, string)>)
    | InvalidateStep(t: nat, state: TaskState)
    | CancelStep(t: nat)
    | RetryStep(j: nat, state: TaskState, clearLease: bool)
    | StalledStep(t: nat)
    | ReserveStep(t: nat)
    | DeployClaimStep(op: nat)
    | DeployCompleteStep(op: nat)

  ghost function Apply(cfg: Config, db: Db, step: Step): (r: Db)
    requires WellFormed(db)
    ensures Extends(db, r)
  {
    match step
    case Advance(seconds) => db.(now := db.now + seconds)
    case Restart => db.(owner := db.owner + 1)
    case NewTask(v2, repository, state) => Create(db, v2, repository, state)
    case EditTask(t, move, identity) => if t < |db.tasks| then Edit(db, t, move, identity) else db
    case Enqueue(t, kind, role, identity) => if t < |db.tasks| then AddJob(db, t, kind, role, NewData(identity)) else db
    case ClaimStep(out) => Claim(cfg, out, db).0
    case HeartbeatStep(j, fence) => Heartbeat(cfg, db, j, fence)
    case FailStep(j, fence, error) => Fail(cfg, db, j, fence, error)
    case FinishStep(j, fence, move, identity, followUp) => Finish(db, j, fence, move, identity, followUp)
    case InvalidateStep(t, state) => Invalidate(db, t, state)
    case CancelStep(t) => Cancel(db, t)
    case RetryStep(j, state, clearLease) => Retry(db, j, state, clearLease)
    case StalledStep(t) => RecoverStalled(db, t)
    case ReserveStep(t) => Reserve(cfg, db, t)
    case DeployClaimStep(op) => DeployClaim(db, op)
    case DeployCompleteStep(op) => db.(deployments := db.deployments - {op})
  }
}
