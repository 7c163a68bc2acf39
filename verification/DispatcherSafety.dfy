/** What every transaction of the dispatcher keeps, whatever the order in which they come: the holder of
    a repository, the caps, the model-call budget, and the exclusion of jobs and deployments. */
module DispatcherSafety {
  import opened Wrappers
  import opened Domain
  import opened Dispatcher

  // ----- the invariant -----

  ghost predicate RowsMatch(tasks: seq<Task>, jobs: seq<Job>) {
    forall j | 0 <= j < |jobs| :: jobs[j].task < |tasks| && jobs[j].v2 == tasks[jobs[j].task].v2
  }

  predicate Writer(cfg: Config, job: Job) { job.status.Running? && NeedsLease(cfg, job) }

  /** A running writer owns its repository's lease row, which expires with the job. */
  ghost predicate WritersLeased(cfg: Config, tasks: seq<Task>, jobs: seq<Job>, leases: map<string, Lease>)
    requires Placed(jobs, |tasks|)
  {
    forall j | 0 <= j < |jobs| && Writer(cfg, jobs[j]) ::
      var r := tasks[jobs[j].task].repository;
      r in leases && leases[r].job == j && leases[r].owner == jobs[j].owner && leases[r].expires == jobs[j].lease
  }

  ghost predicate LeasesPlaced(cfg: Config, tasks: seq<Task>, jobs: seq<Job>, leases: map<string, Lease>)
    requires Placed(jobs, |tasks|)
  {
    forall r | r in leases ::
      leases[r].job < |jobs| && NeedsLease(cfg, jobs[leases[r].job])
      && tasks[jobs[leases[r].job].task].repository == r
  }

  ghost predicate Caps(cfg: Config, jobs: seq<Job>) {
    && Count(Normal(cfg), jobs) <= cfg.normal
    && Count(PrivilegedWork(cfg), jobs) <= cfg.privileged
    && (cfg.chatgpt ==> Count(V1(), jobs) <= 1)
    && forall role :: Count(V1In(role), jobs) <= 1
  }

  ghost predicate NoneRunning(jobs: seq<Job>) {
    forall j | 0 <= j < |jobs| :: !jobs[j].status.Running?
  }

  ghost predicate Exclusive(jobs: seq<Job>, deployments: set<nat>) {
    && (deployments == {} || exists op :: deployments == {op})
    && (deployments != {} ==> NoneRunning(jobs))
  }

  ghost predicate Owners(owner: nat, jobs: seq<Job>) {
    forall j | 0 <= j < |jobs| :: jobs[j].owner <= owner
  }

  /** A job that runs is in its first, second or third attempt. */
  ghost predicate Attempts(jobs: seq<Job>) {
    forall j | 0 <= j < |jobs| && jobs[j].status.Running? :: 1 <= jobs[j].attempt <= 3
  }

  ghost predicate Budgeted(cfg: Config, tasks: nat, budgets: map<nat, nat>) {
    forall t | t in budgets :: t < tasks && budgets[t] <= cfg.calls
  }

  ghost predicate Inv(cfg: Config, db: Db) {
    && RowsMatch(db.tasks, db.jobs) && Owners(db.owner, db.jobs) && Attempts(db.jobs)
    && WritersLeased(cfg, db.tasks, db.jobs, db.leases) && LeasesPlaced(cfg, db.tasks, db.jobs, db.leases)
    && Caps(cfg, db.jobs) && Exclusive(db.jobs, db.deployments) && Budgeted(cfg, |db.tasks|, db.budgets)
  }

  // ----- steps that start no job -----

  /** Whatever runs afterwards ran before, and has not been touched. */
  ghost predicate Quiet(jobs: seq<Job>, jobs': seq<Job>) {
    forall j | 0 <= j < |jobs'| && jobs'[j].status.Running? :: j < |jobs| && jobs'[j] == jobs[j]
  }

  /** Lease rows only go away, and only those of jobs that do not run. */
  ghost predicate Shrinks(jobs': seq<Job>, leases: map<string, Lease>, leases': map<string, Lease>) {
    && (forall r | r in leases' :: r in leases && leases'[r] == leases[r])
    && forall r | r in leases && leases[r].job < |jobs'| && jobs'[leases[r].job].status.Running? :: r in leases'
  }

  ghost predicate Calm(db: Db, db': Db) {
    && Extends(db, db') && Quiet(db.jobs, db'.jobs) && Shrinks(db'.jobs, db.leases, db'.leases)
    && (RowsMatch(db.tasks, db.jobs) ==> RowsMatch(db'.tasks, db'.jobs))
    && db.now <= db'.now && db.owner <= db'.owner && (Owners(db.owner, db.jobs) ==> Owners(db'.owner, db'.jobs))
    && db'.deployments <= db.deployments
  }

  ghost predicate OnlyRunning(p: Job -> bool) {
    forall job :: p(job) ==> job.status.Running?
  }

  lemma {:induction false} CountQuiet(p: Job -> bool, jobs: seq<Job>, jobs': seq<Job>)
    requires OnlyRunning(p) && Quiet(jobs, jobs')
    ensures Count(p, jobs') <= Count(p, jobs)
    decreases |jobs| + |jobs'|
  {
    if jobs' == [] {
    } else if |jobs| > |jobs'| {
      CountQuiet(p, jobs[..|jobs| - 1], jobs');
    } else {
      var n := |jobs'| - 1;
      if |jobs| <= n {
        CountQuiet(p, jobs, jobs'[..n]);
      } else {
        CountQuiet(p, jobs[..n], jobs'[..n]);
      }
    }
  }

  lemma CapsQuiet(cfg: Config, jobs: seq<Job>, jobs': seq<Job>)
    requires Caps(cfg, jobs) && Quiet(jobs, jobs')
    ensures Caps(cfg, jobs')
  {
    CountQuiet(Normal(cfg), jobs, jobs');
    CountQuiet(PrivilegedWork(cfg), jobs, jobs');
    CountQuiet(V1(), jobs, jobs');
    forall role ensures Count(V1In(role), jobs') <= 1 {
      CountQuiet(V1In(role), jobs, jobs');
    }
  }

  lemma WritersQuiet(cfg: Config, db: Db, db': Db)
    requires WellFormed(db) && Calm(db, db')
    requires WritersLeased(cfg, db.tasks, db.jobs, db.leases) && LeasesPlaced(cfg, db.tasks, db.jobs, db.leases)
    ensures WritersLeased(cfg, db'.tasks, db'.jobs, db'.leases) && LeasesPlaced(cfg, db'.tasks, db'.jobs, db'.leases)
  {
    forall j | 0 <= j < |db'.jobs| && Writer(cfg, db'.jobs[j])
      ensures var r := db'.tasks[db'.jobs[j].task].repository;
              r in db'.leases && db'.leases[r].job == j && db'.leases[r].owner == db'.jobs[j].owner
              && db'.leases[r].expires == db'.jobs[j].lease
    {
      assert SameTask(db.tasks[db.jobs[j].task], db'.tasks[db.jobs[j].task]);
    }
    forall r | r in db'.leases
      ensures db'.leases[r].job < |db'.jobs| && NeedsLease(cfg, db'.jobs[db'.leases[r].job])
              && db'.tasks[db'.jobs[db'.leases[r].job].task].repository == r
    {
      var j := db.leases[r].job;
      assert SameJob(db.jobs[j], db'.jobs[j]);
      assert SameTask(db.tasks[db.jobs[j].task], db'.tasks[db.jobs[j].task]);
    }
  }

  lemma CalmKeeps(cfg: Config, db: Db, db': Db)
    requires Inv(cfg, db) && Calm(db, db') && Budgeted(cfg, |db'.tasks|, db'.budgets)
    ensures Inv(cfg, db')
  {
    CapsQuiet(cfg, db.jobs, db'.jobs);
    WritersQuiet(cfg, db, db');
  }

  // ----- the calm steps -----

  lemma CalmSelf(db: Db)
    ensures Calm(db, db)
  {
  }

  lemma CalmThen(a: Db, b: Db, c: Db)
    requires Calm(a, b) && Calm(b, c)
    ensures Calm(a, c)
  {
    forall j | 0 <= j < |a.jobs| ensures SameJob(a.jobs[j], c.jobs[j]) {
      assert SameJob(a.jobs[j], b.jobs[j]) && SameJob(b.jobs[j], c.jobs[j]);
    }
    forall t | 0 <= t < |a.tasks| ensures SameTask(a.tasks[t], c.tasks[t]) {
      assert SameTask(a.tasks[t], b.tasks[t]) && SameTask(b.tasks[t], c.tasks[t]);
    }
  }

  lemma StopCalm(db: Db, j: nat, job: Job)
    requires WellFormed(db) && j < |db.jobs| && SameJob(db.jobs[j], job)
    requires !job.status.Running? && job.owner <= db.jobs[j].owner
    ensures Calm(db, Stop(db, j, job))
  {
  }

  lemma SetJobCalm(db: Db, j: nat, job: Job)
    requires j < |db.jobs| && SameJob(db.jobs[j], job) && !job.status.Running? && job.owner <= db.jobs[j].owner
    ensures Calm(db, SetJob(db, j, job))
  {
  }

  lemma TransitionCalm(db: Db, t: nat, state: TaskState)
    requires t < |db.tasks|
    ensures Calm(db, Transition(db, t, state))
  {
  }

  lemma EditCalm(db: Db, t: nat, move: Option<TaskState>, identity: Identity)
    requires t < |db.tasks|
    ensures Calm(db, Edit(db, t, move, identity))
  {
  }

  lemma AddJobCalm(db: Db, t: nat, kind: Kind, role: string, data: Data)
    requires t < |db.tasks|
    ensures Calm(db, AddJob(db, t, kind, role, data))
  {
  }

  lemma RequeueCalm(db: Db)
    ensures Calm(db, Requeue(db))
  {
  }

  lemma StopMoveCalm(db: Db, j: nat, job: Job, state: TaskState)
    requires WellFormed(db) && j < |db.jobs| && SameJob(db.jobs[j], job)
    requires !job.status.Running? && job.owner <= db.jobs[j].owner
    ensures Calm(db, Transition(Stop(db, j, job), job.task, state))
  {
    StopCalm(db, j, job);
    TransitionCalm(Stop(db, j, job), job.task, state);
    CalmThen(db, Stop(db, j, job), Transition(Stop(db, j, job), job.task, state));
  }

  lemma FallbackCalm(cfg: Config, db: Db, j: nat, job: Job, role: string)
    requires WellFormed(db) && j < |db.jobs| && SameJob(db.jobs[j], job)
    requires !job.status.Running? && job.owner <= db.jobs[j].owner
    ensures Calm(db, AddJob(Stop(db, j, job), job.task, job.kind, role, job.data))
  {
    StopCalm(db, j, job);
    AddJobCalm(Stop(db, j, job), job.task, job.kind, role, job.data);
    CalmThen(db, Stop(db, j, job), AddJob(Stop(db, j, job), job.task, job.kind, role, job.data));
  }

  lemma SettleCalm(cfg: Config, db: Db, j: nat, error: Failure)
    requires WellFormed(db) && j < |db.jobs|
    ensures Calm(db, Settle(cfg, db, j, error))
  {
    var job := db.jobs[j];
    if job.v2 && job.kind in {Implement, Fix} && error.NoPatch? && !job.data.patchRetry {
      StopCalm(db, j, job.(data := job.data.(patchRetry := true), status := Waiting));
    } else if job.v2 && error.Other? && job.attempt < 3 {
      StopCalm(db, j, job.(status := Waiting));
    } else if job.v2 && error.Other? && job.role in cfg.fallback && !cfg.classOf(job.role).Privileged? {
      FallbackCalm(cfg, db, j, job.(status := Failed), cfg.fallback[job.role]);
    } else {
      StopMoveCalm(db, j, job.(status := Failed), Blocked);
    }
  }

  lemma FailCalm(cfg: Config, db: Db, j: nat, fence: nat, error: Failure)
    requires WellFormed(db)
    ensures Calm(db, Fail(cfg, db, j, fence, error))
  {
    if Current(db, j, fence) {
      SettleCalm(cfg, db, j, error);
    } else {
      CalmSelf(db);
    }
  }

  lemma FinishCalm(db: Db, j: nat, fence: nat, move: Option<TaskState>, identity: Identity,
                   followUp: Option<(Kind, string)>)
    requires WellFormed(db)
    ensures Calm(db, Finish(db, j, fence, move, identity, followUp))
  {
    if Current(db, j, fence) {
      var t := db.jobs[j].task;
      var done := Stop(db, j, db.jobs[j].(status := Finished));
      var moved := Edit(done, t, move, identity);
      StopCalm(db, j, db.jobs[j].(status := Finished));
      EditCalm(done, t, move, identity);
      CalmThen(db, done, moved);
      if followUp.Some? {
        AddJobCalm(moved, t, followUp.value.0, followUp.value.1, NewData(identity));
        CalmThen(db, moved, AddJob(moved, t, followUp.value.0, followUp.value.1, NewData(identity)));
      }
    }
  }

  lemma DropCalm(db: Db, t: nat)
    ensures Calm(db, db.(jobs := InvalidateJobs(db.jobs, t)))
  {
  }

  lemma InvalidateCalm(db: Db, t: nat, state: TaskState)
    ensures Calm(db, Invalidate(db, t, state))
  {
    if t < |db.tasks| {
      var dropped := db.(jobs := InvalidateJobs(db.jobs, t));
      DropCalm(db, t);
      TransitionCalm(dropped, t, state);
      CalmThen(db, dropped, Transition(dropped, t, state));
    }
  }

  lemma CancelCalm(db: Db, t: nat)
    requires WellFormed(db)
    ensures Calm(db, Cancel(db, t))
  {
    InvalidateCalm(db, t, TaskState.Cancelled);
  }

  lemma RetryCalm(db: Db, j: nat, state: TaskState, clearLease: bool)
    ensures Calm(db, Retry(db, j, state, clearLease))
  {
    if j < |db.jobs| && db.jobs[j].task < |db.tasks| && !db.jobs[j].status.Waiting? && !db.jobs[j].status.Running? {
      var job := db.jobs[j].(status := Waiting, attempt := 0, owner := 0,
                             lease := if clearLease then 0 else db.jobs[j].lease);
      var waiting := SetJob(db, j, job);
      SetJobCalm(db, j, job);
      TransitionCalm(waiting, job.task, state);
      CalmThen(db, waiting, Transition(waiting, job.task, state));
    }
  }

  lemma DropActiveCalm(db: Db, t: nat)
    requires WellFormed(db)
    ensures Calm(db, DropActive(db, t))
  {
  }

  lemma MarkCalm(db: Db, t: nat, task: Task)
    requires t < |db.tasks| && SameTask(db.tasks[t], task)
    ensures Calm(db, db.(tasks := db.tasks[t := task]))
  {
  }

  lemma StalledCalm(db: Db, t: nat)
    requires WellFormed(db)
    ensures Calm(db, RecoverStalled(db, t))
  {
    if t >= |db.tasks| || !db.tasks[t].v2 || !Recoverable(db.tasks[t].state) || Newest(db.jobs, t).None? {
      CalmSelf(db);
    } else {
      var task, newest, dropped := db.tasks[t], db.jobs[Newest(db.jobs, t).value], DropActive(db, t);
      DropActiveCalm(db, t);
      if task.stalledAt == Some(task.stateVersion) {
        TransitionCalm(dropped, t, Blocked);
        CalmThen(db, dropped, Transition(dropped, t, Blocked));
      } else {
        var marked := dropped.(tasks := dropped.tasks[t := task.(stalledAt := Some(task.stateVersion))]);
        MarkCalm(dropped, t, task.(stalledAt := Some(task.stateVersion)));
        CalmThen(db, dropped, marked);
        AddJobCalm(marked, t, newest.kind, newest.role, NewData(task.identity));
        CalmThen(db, marked, AddJob(marked, t, newest.kind, newest.role, NewData(task.identity)));
      }
    }
  }

  // ----- claim -----

  /** Equal databases satisfy the invariant alike; naming the equality spares the solver its parts. */
  lemma Same(cfg: Config, a: Db, b: Db)
    requires Inv(cfg, a) && a == b
    ensures Inv(cfg, b)
  {
  }

  /** After the sweep, whatever still runs has not expired. */
  ghost predicate Fresh(now: int, jobs: seq<Job>) {
    forall j | 0 <= j < |jobs| && jobs[j].status.Running? :: jobs[j].lease >= now
  }

  /** What claim counted at the start is still at least what runs. */
  ghost predicate Covers(cfg: Config, busy: Busy, jobs: seq<Job>) {
    && Count(Normal(cfg), jobs) <= busy.normal && Count(PrivilegedAny(cfg), jobs) <= busy.privileged
    && forall j | 0 <= j < |jobs| && jobs[j].status.Running? :: jobs[j].role in busy.roles
  }

  lemma CoversQuiet(cfg: Config, busy: Busy, jobs: seq<Job>, jobs': seq<Job>)
    requires Covers(cfg, busy, jobs) && Quiet(jobs, jobs')
    ensures Covers(cfg, busy, jobs')
  {
    CountQuiet(Normal(cfg), jobs, jobs');
    CountQuiet(PrivilegedAny(cfg), jobs, jobs');
  }

  lemma {:induction false} CountUpdate(p: Job -> bool, jobs: seq<Job>, j: nat, job: Job)
    requires j < |jobs| && !p(jobs[j])
    ensures Count(p, jobs[j := job]) == Count(p, jobs) + if p(job) then 1 else 0
  {
    var n := |jobs| - 1;
    if j == n {
      assert jobs[j := job][..n] == jobs[..n];
    } else {
      assert jobs[j := job][..n] == jobs[..n][j := job];
      CountUpdate(p, jobs[..n], j, job);
    }
  }

  lemma {:induction false} CountNone(p: Job -> bool, jobs: seq<Job>)
    requires forall j | 0 <= j < |jobs| :: !p(jobs[j])
    ensures Count(p, jobs) == 0
  {
    if jobs != [] {
      CountNone(p, jobs[..|jobs| - 1]);
    }
  }

  lemma {:induction false} CountWithin(p: Job -> bool, q: Job -> bool, jobs: seq<Job>)
    requires forall job :: p(job) ==> q(job)
    ensures Count(p, jobs) <= Count(q, jobs)
  {
    if jobs != [] {
      CountWithin(p, q, jobs[..|jobs| - 1]);
    }
  }

  /** The caps hold after an admission, because what was counted covers what runs. */
  lemma CapsAdmit(cfg: Config, busy: Busy, jobs: seq<Job>, j: nat, job: Job)
    requires Caps(cfg, jobs) && Covers(cfg, busy, jobs) && j < |jobs| && !jobs[j].status.Running?
    requires SameJob(jobs[j], job) && !NoSlot(cfg, busy, jobs[j])
    ensures Caps(cfg, jobs[j := job])
  {
    CountUpdate(Normal(cfg), jobs, j, job);
    CountUpdate(PrivilegedWork(cfg), jobs, j, job);
    CountWithin(PrivilegedWork(cfg), PrivilegedAny(cfg), jobs);
    CountUpdate(V1(), jobs, j, job);
    if cfg.chatgpt && !job.v2 {
      CountNone(V1(), jobs);
    }
    forall role ensures Count(V1In(role), jobs[j := job]) <= 1 {
      CountUpdate(V1In(role), jobs, j, job);
      if !job.v2 && role == job.role {
        CountNone(V1In(role), jobs);
      }
    }
  }

  /** The holder of a row that is not held against `j` does not run, unless it is `j`. */
  lemma FreeRow(cfg: Config, db: Db, j: nat)
    requires Inv(cfg, db) && Fresh(db.now, db.jobs) && j < |db.jobs| && !LeaseHeld(db, j)
    ensures var r := Repo(db, j);
            r in db.leases ==> db.leases[r].job < |db.jobs|
                               && (db.leases[r].job != j ==> !db.jobs[db.leases[r].job].status.Running?)
  {
    var r := Repo(db, j);
    if r in db.leases && db.leases[r].job != j {
      var k := db.leases[r].job;
      if db.jobs[k].status.Running? {
        assert Writer(cfg, db.jobs[k]);
      }
    }
  }

  /** The database in the middle of an admission: the row may be taken, the budget raised. */
  ghost predicate Midway(cfg: Config, db: Db, j: nat, mid: Db)
    requires j < |db.jobs| && db.jobs[j].task < |db.tasks|
  {
    && mid == db.(leases := mid.leases, budgets := mid.budgets) && BudgetsExtend(db.budgets, mid.budgets)
    && mid.leases == (if NeedsLease(cfg, db.jobs[j]) then TakeLease(cfg, db, j).leases else db.leases)
    && (NeedsLease(cfg, db.jobs[j]) ==> !LeaseHeld(db, j))
  }

  /** A job that stops there leaves no row behind. */
  lemma MidwayShrinks(cfg: Config, db: Db, j: nat, mid: Db, job: Job)
    requires Inv(cfg, db) && Fresh(db.now, db.jobs) && j < |db.jobs| && Midway(cfg, db, j, mid)
    requires !db.jobs[j].status.Running? && SameJob(db.jobs[j], job) && !job.status.Running?
    ensures Shrinks(db.jobs[j := job], db.leases, Stop(mid, j, job).leases)
  {
    if NeedsLease(cfg, db.jobs[j]) {
      FreeRow(cfg, db, j);
    }
  }

  lemma MidwayStop(cfg: Config, db: Db, j: nat, mid: Db, job: Job)
    requires Inv(cfg, db) && Fresh(db.now, db.jobs) && j < |db.jobs| && Midway(cfg, db, j, mid)
    requires !db.jobs[j].status.Running? && SameJob(db.jobs[j], job) && job.owner <= db.owner && !job.status.Running?
    ensures Calm(db, Stop(mid, j, job))
  {
    MidwayShrinks(cfg, db, j, mid, job);
    assert Stop(mid, j, job).jobs == db.jobs[j := job];
  }

  lemma MidwayRefuse(cfg: Config, db: Db, j: nat, mid: Db, status: JobStatus)
    requires Inv(cfg, db) && Fresh(db.now, db.jobs) && j < |db.jobs| && Midway(cfg, db, j, mid)
    requires !db.jobs[j].status.Running? && !status.Running?
    ensures Calm(db, Refuse(mid, j, status))
  {
    var job := db.jobs[j].(status := status);
    MidwayStop(cfg, db, j, mid, job);
    TransitionCalm(Stop(mid, j, job), job.task, Blocked);
    CalmThen(db, Stop(mid, j, job), Transition(Stop(mid, j, job), job.task, Blocked));
  }

  /** The fourth attempt fails at once. */
  lemma MidwayStart(cfg: Config, db: Db, j: nat, mid: Db)
    requires Inv(cfg, db) && Fresh(db.now, db.jobs) && j < |db.jobs| && Midway(cfg, db, j, mid)
    requires !db.jobs[j].status.Running? && !Start(cfg, mid, j).1
    ensures Calm(db, Start(cfg, mid, j).0)
  {
    var started := StartedJob(cfg, mid, j);
    var job := started.(status := Failed);
    assert db.jobs[j := started][j := job] == db.jobs[j := job];
    MidwayStop(cfg, db, j, mid, job);
    TransitionCalm(Stop(mid, j, job), job.task, Blocked);
    CalmThen(db, Stop(mid, j, job), Transition(Stop(mid, j, job), job.task, Blocked));
  }

  lemma MidwayDispatch(cfg: Config, out: Outside, db: Db, j: nat, mid: Db)
    requires Inv(cfg, db) && Fresh(db.now, db.jobs) && j < |db.jobs| && Midway(cfg, db, j, mid)
    requires !db.jobs[j].status.Running? && !Dispatch(cfg, out, mid, j).1
    ensures Calm(db, Dispatch(cfg, out, mid, j).0)
  {
    var job := db.jobs[j];
    if job.v2 && (job.task !in mid.budgets || mid.budgets[job.task] >= cfg.calls) {
      MidwayRefuse(cfg, db, j, mid, Dropped);
    } else {
      var charged := if job.v2 then Charged(mid, j) else mid;
      if j in out.overspent {
        MidwayRefuse(cfg, db, j, charged, Dropped);
      } else {
        MidwayStart(cfg, db, j, charged);
      }
    }
  }

  /** A waiting job that is not admitted. */
  lemma AdmitCalm(cfg: Config, out: Outside, busy: Busy, db: Db, j: nat)
    requires Inv(cfg, db) && Fresh(db.now, db.jobs) && j < |db.jobs| && db.jobs[j].status.Waiting?
    requires !Admit(cfg, out, busy, db, j).1
    ensures Calm(db, Admit(cfg, out, busy, db, j).0)
  {
    var job := db.jobs[j];
    if Stopped(db.tasks[job.task].state) {
      CalmSelf(db);
    } else if !IdentityCurrent(db.tasks[job.task], job) {
      SetJobCalm(db, j, job.(status := Dropped));
    } else if NoSlot(cfg, busy, job) || (NeedsLease(cfg, job) && LeaseHeld(db, j)) {
      CalmSelf(db);
    } else {
      MidwayDispatch(cfg, out, db, j, if NeedsLease(cfg, job) then TakeLease(cfg, db, j) else db);
    }
  }

  lemma StartedRows(cfg: Config, out: Outside, mid: Db, j: nat)
    requires j < |mid.jobs| && mid.jobs[j].task < |mid.tasks| && Dispatch(cfg, out, mid, j).1
    ensures var r := Dispatch(cfg, out, mid, j).0;
            r == mid.(jobs := mid.jobs[j := StartedJob(cfg, mid, j)], tasks := r.tasks, budgets := r.budgets)
            && StartedJob(cfg, mid, j).attempt <= 3
  {
  }

  /** The started writer owns the row it took; every other running writer holds another repository. */
  lemma WritersStart(cfg: Config, db: Db, j: nat, mid: Db)
    requires Inv(cfg, db) && Fresh(db.now, db.jobs) && j < |db.jobs| && Midway(cfg, db, j, mid)
    requires !db.jobs[j].status.Running?
    ensures WritersLeased(cfg, db.tasks, db.jobs[j := StartedJob(cfg, mid, j)], mid.leases)
    ensures LeasesPlaced(cfg, db.tasks, db.jobs[j := StartedJob(cfg, mid, j)], mid.leases)
  {
    if NeedsLease(cfg, db.jobs[j]) {
      FreeRow(cfg, db, j);
    }
  }

  lemma WritersMoved(cfg: Config, tasks: seq<Task>, tasks': seq<Task>, jobs: seq<Job>, leases: map<string, Lease>)
    requires Placed(jobs, |tasks|) && TasksExtend(tasks, tasks')
    requires WritersLeased(cfg, tasks, jobs, leases) && LeasesPlaced(cfg, tasks, jobs, leases)
    ensures WritersLeased(cfg, tasks', jobs, leases) && LeasesPlaced(cfg, tasks', jobs, leases)
  {
    forall j | 0 <= j < |jobs| ensures tasks'[jobs[j].task].repository == tasks[jobs[j].task].repository {
      assert SameTask(tasks[jobs[j].task], tasks'[jobs[j].task]);
    }
  }

  lemma MidwayStarted(cfg: Config, out: Outside, busy: Busy, db: Db, j: nat, mid: Db)
    requires Inv(cfg, db) && Fresh(db.now, db.jobs) && Covers(cfg, busy, db.jobs) && db.deployments == {}
    requires j < |db.jobs| && Midway(cfg, db, j, mid) && db.jobs[j].status.Waiting? && !NoSlot(cfg, busy, db.jobs[j])
    requires Dispatch(cfg, out, mid, j).1 && Budgeted(cfg, |db.tasks|, Dispatch(cfg, out, mid, j).0.budgets)
    ensures Inv(cfg, Dispatch(cfg, out, mid, j).0)
  {
    var r, job := Dispatch(cfg, out, mid, j).0, StartedJob(cfg, mid, j);
    StartedRows(cfg, out, mid, j);
    CapsAdmit(cfg, busy, db.jobs, j, job);
    WritersStart(cfg, db, j, mid);
    WritersMoved(cfg, db.tasks, r.tasks, r.jobs, r.leases);
    assert SameTask(mid.tasks[job.task], r.tasks[job.task]);
    forall k | 0 <= k < |r.jobs| ensures r.jobs[k].task < |r.tasks| && r.jobs[k].v2 == r.tasks[r.jobs[k].task].v2 {
      assert SameTask(mid.tasks[db.jobs[k].task], r.tasks[db.jobs[k].task]);
    }
  }

  lemma DispatchBudgets(cfg: Config, out: Outside, mid: Db, j: nat)
    requires j < |mid.jobs| && mid.jobs[j].task < |mid.tasks| && Budgeted(cfg, |mid.tasks|, mid.budgets)
    ensures Budgeted(cfg, |mid.tasks|, Dispatch(cfg, out, mid, j).0.budgets)
  {
  }

  lemma AdmitBudgets(cfg: Config, out: Outside, busy: Busy, db: Db, j: nat)
    requires j < |db.jobs| && db.jobs[j].task < |db.tasks| && Budgeted(cfg, |db.tasks|, db.budgets)
    ensures Budgeted(cfg, |db.tasks|, Admit(cfg, out, busy, db, j).0.budgets)
  {
    DispatchBudgets(cfg, out, if NeedsLease(cfg, db.jobs[j]) then TakeLease(cfg, db, j) else db, j);
  }

  lemma AdmitKeeps(cfg: Config, out: Outside, busy: Busy, db: Db, j: nat)
    requires Inv(cfg, db) && Fresh(db.now, db.jobs) && Covers(cfg, busy, db.jobs) && db.deployments == {}
    requires j < |db.jobs| && db.jobs[j].status.Waiting?
    ensures Inv(cfg, Admit(cfg, out, busy, db, j).0)
  {
    AdmitBudgets(cfg, out, busy, db, j);
    if Admit(cfg, out, busy, db, j).1 {
      MidwayStarted(cfg, out, busy, db, j, if NeedsLease(cfg, db.jobs[j]) then TakeLease(cfg, db, j) else db);
    } else {
      AdmitCalm(cfg, out, busy, db, j);
      CalmKeeps(cfg, db, Admit(cfg, out, busy, db, j).0);
    }
  }

  lemma FreshQuiet(now: int, jobs: seq<Job>, jobs': seq<Job>)
    requires Fresh(now, jobs) && Quiet(jobs, jobs')
    ensures Fresh(now, jobs')
  {
  }

  /** A job that is passed leaves what the scan relies on. */
  lemma PassKeeps(cfg: Config, out: Outside, busy: Busy, db: Db, j: nat)
    requires Inv(cfg, db) && Fresh(db.now, db.jobs) && Covers(cfg, busy, db.jobs) && db.deployments == {}
    requires j < |db.jobs| && db.jobs[j].status.Waiting? && !Admit(cfg, out, busy, db, j).1
    ensures var next := Admit(cfg, out, busy, db, j).0;
            Inv(cfg, next) && Fresh(next.now, next.jobs) && Covers(cfg, busy, next.jobs) && next.deployments == {}
  {
    var next := Admit(cfg, out, busy, db, j).0;
    AdmitKeeps(cfg, out, busy, db, j);
    AdmitCalm(cfg, out, busy, db, j);
    FreshQuiet(db.now, db.jobs, next.jobs);
    CoversQuiet(cfg, busy, db.jobs, next.jobs);
  }

  lemma {:induction false} ScanKeeps(cfg: Config, out: Outside, busy: Busy, db: Db, from: nat)
    requires Inv(cfg, db) && Fresh(db.now, db.jobs) && Covers(cfg, busy, db.jobs) && db.deployments == {}
    ensures Inv(cfg, Scan(cfg, out, busy, db, from).0)
    decreases |db.jobs| - from
  {
    if from < |db.jobs| {
      if !db.jobs[from].status.Waiting? || from in out.locked {
        ScanKeeps(cfg, out, busy, db, from + 1);
        Same(cfg, Scan(cfg, out, busy, db, from + 1).0, Scan(cfg, out, busy, db, from).0);
      } else if Admit(cfg, out, busy, db, from).1 {
        AdmitKeeps(cfg, out, busy, db, from);
        Same(cfg, Admit(cfg, out, busy, db, from).0, Scan(cfg, out, busy, db, from).0);
      } else {
        var next := Admit(cfg, out, busy, db, from).0;
        PassKeeps(cfg, out, busy, db, from);
        ScanKeeps(cfg, out, busy, next, from + 1);
        Same(cfg, Scan(cfg, out, busy, next, from + 1).0, Scan(cfg, out, busy, db, from).0);
      }
    } else {
      Same(cfg, db, Scan(cfg, out, busy, db, from).0);
    }
  }

  lemma ClaimKeeps(cfg: Config, out: Outside, db: Db)
    requires Inv(cfg, db)
    ensures Inv(cfg, Claim(cfg, out, db).0)
  {
    var swept := Requeue(db);
    RequeueCalm(db);
    CalmKeeps(cfg, db, swept);
    if db.deployments == {} {
      ScanKeeps(cfg, out, BusyOf(cfg, swept), swept, 0);
    }
  }

  // ----- the other steps -----

  lemma {:induction false} CountBeat(p: Job -> bool, jobs: seq<Job>, j: nat, lease: int)
    requires j < |jobs| && p(jobs[j]) == p(jobs[j].(lease := lease))
    ensures Count(p, jobs[j := jobs[j].(lease := lease)]) == Count(p, jobs)
  {
    var n := |jobs| - 1;
    if j == n {
      assert jobs[j := jobs[j].(lease := lease)][..n] == jobs[..n];
    } else {
      assert jobs[j := jobs[j].(lease := lease)][..n] == jobs[..n][j := jobs[j].(lease := lease)];
      CountBeat(p, jobs[..n], j, lease);
    }
  }

  lemma CapsBeat(cfg: Config, jobs: seq<Job>, j: nat, lease: int)
    requires Caps(cfg, jobs) && j < |jobs|
    ensures Caps(cfg, jobs[j := jobs[j].(lease := lease)])
  {
    CountBeat(Normal(cfg), jobs, j, lease);
    CountBeat(PrivilegedWork(cfg), jobs, j, lease);
    CountBeat(V1(), jobs, j, lease);
    forall role ensures Count(V1In(role), jobs[j := jobs[j].(lease := lease)]) <= 1 {
      CountBeat(V1In(role), jobs, j, lease);
    }
  }

  /** A beat moves the lease of the job and of the row together. */
  lemma WritersBeat(cfg: Config, tasks: seq<Task>, jobs: seq<Job>, leases: map<string, Lease>, j: nat, lease: int)
    requires Placed(jobs, |tasks|) && j < |jobs| && jobs[j].status.Running?
    requires WritersLeased(cfg, tasks, jobs, leases) && LeasesPlaced(cfg, tasks, jobs, leases)
    ensures var jobs', r := jobs[j := jobs[j].(lease := lease)], tasks[jobs[j].task].repository;
            if r in leases && leases[r].job == j
            then WritersLeased(cfg, tasks, jobs', leases[r := leases[r].(expires := lease)])
                 && LeasesPlaced(cfg, tasks, jobs', leases[r := leases[r].(expires := lease)])
            else WritersLeased(cfg, tasks, jobs', leases) && LeasesPlaced(cfg, tasks, jobs', leases)
  {
    var jobs' := jobs[j := jobs[j].(lease := lease)];
    assert forall k | 0 <= k < |jobs| :: Writer(cfg, jobs'[k]) == Writer(cfg, jobs[k]);
  }

  lemma RowsBeat(cfg: Config, db: Db, j: nat, lease: int)
    requires Inv(cfg, db) && j < |db.jobs| && db.jobs[j].status.Running?
    ensures var jobs := db.jobs[j := db.jobs[j].(lease := lease)];
            RowsMatch(db.tasks, jobs) && Owners(db.owner, jobs) && Attempts(jobs) && Exclusive(jobs, db.deployments)
  {
  }

  lemma HolderIsOwner(cfg: Config, db: Db, j: nat)
    requires Inv(cfg, db) && j < |db.jobs| && db.jobs[j].status.Running? && db.jobs[j].owner == db.owner
    ensures Repo(db, j) in db.leases && db.leases[Repo(db, j)].job == j ==> db.leases[Repo(db, j)].owner == db.owner
  {
    if Repo(db, j) in db.leases && db.leases[Repo(db, j)].job == j {
      assert Writer(cfg, db.jobs[j]);
    }
  }

  lemma BeatKeeps(cfg: Config, db: Db, j: nat, lease: int)
    requires Inv(cfg, db) && j < |db.jobs| && db.jobs[j].status.Running? && db.jobs[j].owner == db.owner
    ensures Inv(cfg, Beat(db, j, lease))
  {
    RowsBeat(cfg, db, j, lease);
    CapsBeat(cfg, db.jobs, j, lease);
    HolderIsOwner(cfg, db, j);
    WritersBeat(cfg, db.tasks, db.jobs, db.leases, j, lease);
  }

  lemma HeartbeatKeeps(cfg: Config, db: Db, j: nat, fence: nat)
    requires Inv(cfg, db)
    ensures Inv(cfg, Heartbeat(cfg, db, j, fence))
  {
    if Current(db, j, fence) {
      BeatKeeps(cfg, db, j, db.now + cfg.leaseSeconds);
      Same(cfg, Beat(db, j, db.now + cfg.leaseSeconds), Heartbeat(cfg, db, j, fence));
    } else {
      Same(cfg, db, Heartbeat(cfg, db, j, fence));
    }
  }

  lemma FailKeeps(cfg: Config, db: Db, j: nat, fence: nat, error: Failure)
    requires Inv(cfg, db)
    ensures Inv(cfg, Fail(cfg, db, j, fence, error))
  {
    FailCalm(cfg, db, j, fence, error);
    CalmKeeps(cfg, db, Fail(cfg, db, j, fence, error));
  }

  lemma FinishKeeps(cfg: Config, db: Db, j: nat, fence: nat, move: Option<TaskState>, identity: Identity,
                    followUp: Option<(Kind, string)>)
    requires Inv(cfg, db)
    ensures Inv(cfg, Finish(db, j, fence, move, identity, followUp))
  {
    FinishCalm(db, j, fence, move, identity, followUp);
    CalmKeeps(cfg, db, Finish(db, j, fence, move, identity, followUp));
  }

  lemma CancelKeeps(cfg: Config, db: Db, t: nat)
    requires Inv(cfg, db)
    ensures Inv(cfg, Cancel(db, t))
  {
    CancelCalm(db, t);
    CalmKeeps(cfg, db, Cancel(db, t));
  }

  lemma StalledKeeps(cfg: Config, db: Db, t: nat)
    requires Inv(cfg, db)
    ensures Inv(cfg, RecoverStalled(db, t))
  {
    StalledCalm(db, t);
    CalmKeeps(cfg, db, RecoverStalled(db, t));
  }

  predicate StartsNothing(step: Step) {
    !step.ClaimStep? && !step.HeartbeatStep? && !step.DeployClaimStep?
  }

  lemma FailStepCalm(cfg: Config, db: Db, step: Step)
    requires WellFormed(db) && step.FailStep?
    ensures Calm(db, Apply(cfg, db, step))
  {
    FailCalm(cfg, db, step.j, step.fence, step.error);
  }

  lemma FinishStepCalm(cfg: Config, db: Db, step: Step)
    requires WellFormed(db) && step.FinishStep?
    ensures Calm(db, Apply(cfg, db, step))
  {
    FinishCalm(db, step.j, step.fence, step.move, step.identity, step.followUp);
  }

  lemma RetryStepCalm(cfg: Config, db: Db, step: Step)
    requires WellFormed(db) && step.RetryStep?
    ensures Calm(db, Apply(cfg, db, step))
  {
    RetryCalm(db, step.j, step.state, step.clearLease);
  }

  lemma InvalidateStepCalm(cfg: Config, db: Db, step: Step)
    requires WellFormed(db) && step.InvalidateStep?
    ensures Calm(db, Apply(cfg, db, step))
  {
    InvalidateCalm(db, step.t, step.state);
  }

  lemma CancelStepCalm(cfg: Config, db: Db, step: Step)
    requires WellFormed(db) && step.CancelStep?
    ensures Calm(db, Apply(cfg, db, step))
  {
    CancelCalm(db, step.t);
  }

  lemma StalledStepCalm(cfg: Config, db: Db, step: Step)
    requires WellFormed(db) && step.StalledStep?
    ensures Calm(db, Apply(cfg, db, step))
  {
    StalledCalm(db, step.t);
  }

  lemma EditStepCalm(cfg: Config, db: Db, step: Step)
    requires WellFormed(db) && step.EditTask?
    ensures Calm(db, Apply(cfg, db, step))
  {
    if step.t < |db.tasks| {
      EditCalm(db, step.t, step.move, step.identity);
    } else {
      CalmSelf(db);
    }
  }

  lemma EnqueueStepCalm(cfg: Config, db: Db, step: Step)
    requires WellFormed(db) && step.Enqueue?
    ensures Calm(db, Apply(cfg, db, step))
  {
    if step.t < |db.tasks| {
      AddJobCalm(db, step.t, step.kind, step.role, NewData(step.identity));
    } else {
      CalmSelf(db);
    }
  }

  lemma StepCalm(cfg: Config, db: Db, step: Step)
    requires WellFormed(db) && StartsNothing(step)
    ensures Calm(db, Apply(cfg, db, step))
  {
    match step {
      case FailStep(_, _, _) => FailStepCalm(cfg, db, step);
      case FinishStep(_, _, _, _, _) => FinishStepCalm(cfg, db, step);
      case RetryStep(_, _, _) => RetryStepCalm(cfg, db, step);
      case InvalidateStep(_, _) => InvalidateStepCalm(cfg, db, step);
      case CancelStep(_) => CancelStepCalm(cfg, db, step);
      case StalledStep(_) => StalledStepCalm(cfg, db, step);
      case EditTask(_, _, _) => EditStepCalm(cfg, db, step);
      case Enqueue(_, _, _, _) => EnqueueStepCalm(cfg, db, step);
      case _ => OtherCalm(cfg, db, step);
    }
  }

  lemma OtherCalm(cfg: Config, db: Db, step: Step)
    requires step.Advance? || step.Restart? || step.NewTask? || step.ReserveStep? || step.DeployCompleteStep?
    requires WellFormed(db)
    ensures Calm(db, Apply(cfg, db, step))
  {
    var r := Apply(cfg, db, step);
    assert r.jobs == db.jobs && r.leases == db.leases;
  }

  lemma StepBudgets(cfg: Config, db: Db, step: Step)
    requires WellFormed(db) && StartsNothing(step) && Budgeted(cfg, |db.tasks|, db.budgets)
    ensures var r := Apply(cfg, db, step); Budgeted(cfg, |r.tasks|, r.budgets)
  {
  }

  lemma DeployClaimKeeps(cfg: Config, db: Db, op: nat)
    requires Inv(cfg, db)
    ensures Inv(cfg, DeployClaim(db, op))
  {
  }

  lemma CalmStepKeeps(cfg: Config, db: Db, step: Step)
    requires Inv(cfg, db) && StartsNothing(step)
    ensures Inv(cfg, Apply(cfg, db, step))
  {
    StepCalm(cfg, db, step);
    StepBudgets(cfg, db, step);
    CalmKeeps(cfg, db, Apply(cfg, db, step));
  }

  lemma StepKeeps(cfg: Config, db: Db, step: Step)
    requires Inv(cfg, db)
    ensures Inv(cfg, Apply(cfg, db, step))
  {
    match step
    case ClaimStep(out) =>
      ClaimKeeps(cfg, out, db);
      Same(cfg, Claim(cfg, out, db).0, Apply(cfg, db, step));
    case HeartbeatStep(j, fence) =>
      HeartbeatKeeps(cfg, db, j, fence);
      Same(cfg, Heartbeat(cfg, db, j, fence), Apply(cfg, db, step));
    case DeployClaimStep(op) =>
      DeployClaimKeeps(cfg, db, op);
      Same(cfg, DeployClaim(db, op), Apply(cfg, db, step));
    case _ => CalmStepKeeps(cfg, db, step);
  }
}
