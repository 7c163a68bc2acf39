/** What a claim serves, and what becomes of the work it has handed out: in columns of the rows, for
    every state in which the dispatcher can be asked. */
module DispatcherServes {
  import opened Wrappers
  import opened Domain
  import opened Dispatcher
  import opened DispatcherSafety
  import opened DispatcherRuns

  // ----- what is counted -----

  /** The running v2 jobs of privileged roles, or of the other roles. */
  function InClass(cfg: Config, jobs: seq<Job>, privileged: bool): set<nat> {
    set j | 0 <= j < |jobs| && jobs[j].status == Running && jobs[j].v2
            && (cfg.classOf(jobs[j].role) == Privileged) == privileged
  }

  /** A slot in columns: one v1 job for each role, one job at all under chatgpt, and a limit for each class of
      roles in v2, where a consult counts as one of the others. */
  ghost predicate SlotFree(cfg: Config, jobs: seq<Job>, job: Job) {
    if !job.v2 then
      forall j | 0 <= j < |jobs| && jobs[j].status == Running :: jobs[j].role != job.role && !cfg.chatgpt
    else if job.kind != Consult && cfg.classOf(job.role) == Privileged then |InClass(cfg, jobs, true)| < cfg.privileged
    else |InClass(cfg, jobs, false)| < cfg.normal
  }

  predicate Writes(cfg: Config, job: Job) {
    job.v2 && job.kind != Consult && cfg.classOf(job.role) == RepositoryWrite
  }

  /** No row, an expired row, or the job's own row, whatever became of the engine that wrote it. */
  predicate RepoFree(db: Db, j: nat)
    requires j < |db.jobs| && db.jobs[j].task < |db.tasks|
  {
    var r := db.tasks[db.jobs[j].task].repository;
    r !in db.leases || db.leases[r].job == j || db.leases[r].expires < db.now
  }

  /** Whatever a job names is still what its task is about; a v1 job names its specification. */
  predicate NamesTask(task: Task, named: Identity) {
    && named.v2 == task.v2
    && (named.authority == task.identity.authority || (task.v2 && named.authority == ""))
    && (named.version == task.identity.version || (task.v2 && named.version == 0))
    && (task.v2 ==>
          && named.plan in {"", task.identity.plan} && named.base in {"", task.identity.base}
          && named.head in {None, Some(""), task.identity.head})
  }

  ghost function Those(p: Job -> bool, jobs: seq<Job>): set<nat> { set j | 0 <= j < |jobs| && p(jobs[j]) }

  /** Counting is counting. */
  lemma {:induction false} CountIsSize(p: Job -> bool, jobs: seq<Job>)
    ensures Count(p, jobs) == |Those(p, jobs)|
  {
    if jobs == [] {
      assert Those(p, jobs) == {};
    } else {
      var n := |jobs| - 1;
      CountIsSize(p, jobs[..n]);
      assert Those(p, jobs) == Those(p, jobs[..n]) + if p(jobs[n]) then {n} else {};
    }
  }

  /** The caps of the invariant are caps on rows. */
  lemma SlotIff(cfg: Config, db: Db, job: Job)
    ensures NoSlot(cfg, BusyOf(cfg, db), job) <==> !SlotFree(cfg, db.jobs, job)
  {
    var busy := BusyOf(cfg, db);
    CountIsSize(Normal(cfg), db.jobs);
    CountIsSize(PrivilegedAny(cfg), db.jobs);
    assert Those(Normal(cfg), db.jobs) == InClass(cfg, db.jobs, false);
    assert Those(PrivilegedAny(cfg), db.jobs) == InClass(cfg, db.jobs, true);
    if !job.v2 {
      assert forall j | 0 <= j < |db.jobs| && db.jobs[j].status == Running :: db.jobs[j].role in busy.roles;
      assert forall role | role in busy.roles ::
          exists j :: 0 <= j < |db.jobs| && db.jobs[j].status == Running && db.jobs[j].role == role;
    }
  }

  /** In every reachable state: at most `normal` v2 jobs of ordinary roles run, one v1 job for each role, and one
      v1 job at all under chatgpt. */
  lemma CapsHoldInRows(cfg: Config, db: Db, steps: seq<Step>, a: nat, b: nat)
    requires Init(db)
    ensures var jobs := After(cfg, db, steps).jobs;
            && |InClass(cfg, jobs, false)| <= cfg.normal
            && (a < b < |jobs| && !jobs[a].v2 && !jobs[b].v2 && jobs[a].status == jobs[b].status == Running ==>
                  jobs[a].role != jobs[b].role && !cfg.chatgpt)
  {
    var jobs := After(cfg, db, steps).jobs;
    CapsHold(cfg, db, steps, "");
    CountIsSize(Normal(cfg), jobs);
    assert Those(Normal(cfg), jobs) == InClass(cfg, jobs, false);
    if a < b < |jobs| && !jobs[a].v2 && !jobs[b].v2 && jobs[a].status == jobs[b].status == Running {
      CapsHold(cfg, db, steps, jobs[a].role);
      if jobs[a].role == jobs[b].role {
        TwoCounted(V1In(jobs[a].role), jobs, a, b);
      }
      TwoCounted(V1(), jobs, a, b);
    }
  }

  lemma TwoCounted(p: Job -> bool, jobs: seq<Job>, a: nat, b: nat)
    requires a < b < |jobs| && p(jobs[a]) && p(jobs[b])
    ensures Count(p, jobs) >= 2
  {
    CountIsSize(p, jobs);
    Larger({a, b}, Those(p, jobs));
  }

  lemma {:induction false} Larger<T>(a: set<T>, b: set<T>)
    requires a <= b
    ensures |a| <= |b|
  {
    if a != {} {
      var x :| x in a;
      Larger(a - {x}, b - {x});
    }
  }

  // ----- the loop body of claim, column by column -----

  /** Only row `j`, its task, the budget of its task and the lease of its repository may differ. */
  ghost predicate OnlyAbout(db: Db, r: Db, j: nat)
    requires j < |db.jobs| && db.jobs[j].task < |db.tasks|
  {
    var t := db.jobs[j].task;
    var repo := db.tasks[t].repository;
    && |r.jobs| == |db.jobs| && |r.tasks| == |db.tasks|
    && r.now == db.now && r.owner == db.owner && r.deployments == db.deployments
    && (forall k | 0 <= k < |db.jobs| && k != j :: r.jobs[k] == db.jobs[k])
    && (forall u | 0 <= u < |db.tasks| && u != t :: r.tasks[u] == db.tasks[u])
    && (forall u :: u != t ==> (u in r.budgets <==> u in db.budgets))
    && (forall u | u in db.budgets && u != t :: r.budgets[u] == db.budgets[u])
    && (forall x :: x != repo ==> (x in r.leases <==> x in db.leases))
    && (forall x | x in db.leases && x != repo :: r.leases[x] == db.leases[x])
  }

  /** The row of the job, and of its task, after a start: by this engine, under the next fence, in the next
      attempt, with a new lease; an implementation or a fix has moved its task. */
  ghost predicate RowStarted(cfg: Config, db: Db, r: Db, j: nat)
    requires j < |db.jobs| && db.jobs[j].task < |db.tasks|
  {
    var job, t := db.jobs[j], db.jobs[j].task;
    && OnlyAbout(db, r, j)
    && r.jobs[j] == job.(status := Running, owner := db.owner, fence := job.fence + 1, attempt := job.attempt + 1,
                         lease := db.now + cfg.leaseSeconds)
    && r.tasks[t] == if job.kind == Implement then Moved(db.tasks[t], Implementing)
                     else if job.kind == Fix then Moved(db.tasks[t], Fixing) else db.tasks[t]
  }

  function Moved(task: Task, state: TaskState): Task { task.(state := state, stateVersion := task.stateVersion + 1) }

  /** A v2 job is paid for. */
  ghost predicate Paid(db: Db, r: Db, j: nat)
    requires j < |db.jobs|
  {
    var t := db.jobs[j].task;
    if db.jobs[j].v2 then t in db.budgets && t in r.budgets && r.budgets[t] == db.budgets[t] + 1
    else r.budgets == db.budgets
  }

  /** A writer holds its repository, under the next lease fence. */
  ghost predicate Holds(cfg: Config, db: Db, r: Db, j: nat)
    requires j < |db.jobs| && db.jobs[j].task < |db.tasks|
  {
    var repo := db.tasks[db.jobs[j].task].repository;
    var fence := if repo in db.leases then db.leases[repo].fence + 1 else 1;
    if Writes(cfg, db.jobs[j]) then
      repo in r.leases && r.leases[repo] == Lease(j, db.owner, fence, db.now + cfg.leaseSeconds)
    else r.leases == db.leases
  }

  ghost predicate Served(cfg: Config, db: Db, r: Db, j: nat)
    requires j < |db.jobs| && db.jobs[j].task < |db.tasks|
  {
    RowStarted(cfg, db, r, j) && Paid(db, r, j) && Holds(cfg, db, r, j)
  }

  /** The job is over with this status, its task is blocked, and it holds no repository. */
  ghost predicate Over(db: Db, r: Db, j: nat, status: JobStatus)
    requires j < |db.jobs| && db.jobs[j].task < |db.tasks|
  {
    var t := db.jobs[j].task;
    var repo := db.tasks[t].repository;
    && OnlyAbout(db, r, j) && r.jobs[j].status == status && r.tasks[t] == Moved(db.tasks[t], Blocked)
    && (repo in r.leases ==>
          && repo in db.leases && r.leases[repo] == db.leases[repo]
          && !(db.leases[repo].job == j && db.leases[repo].owner == db.owner))
  }

  /** A v2 task must still have a model call left. */
  predicate CallLeft(cfg: Config, db: Db, j: nat)
    requires j < |db.jobs|
  {
    db.jobs[j].v2 ==> db.jobs[j].task in db.budgets && db.budgets[db.jobs[j].task] < cfg.calls
  }

  lemma RefuseTable(db: Db, j: nat, status: JobStatus)
    requires j < |db.jobs| && db.jobs[j].task < |db.tasks|
    ensures Over(db, Refuse(db, j, status), j, status)
  {
  }

  lemma AgedIsOver(cfg: Config, db: Db, j: nat)
    requires j < |db.jobs| && db.jobs[j].task < |db.tasks|
    ensures Over(db, Refuse(SetJob(db, j, StartedJob(cfg, db, j)), j, Failed), j, Failed)
  {
    RefuseTable(SetJob(db, j, StartedJob(cfg, db, j)), j, Failed);
  }

  lemma StartTable(cfg: Config, db: Db, j: nat)
    requires j < |db.jobs| && db.jobs[j].task < |db.tasks|
    ensures var (r, started) := Start(cfg, db, j);
            if db.jobs[j].attempt >= 3 then !started && Over(db, r, j, Failed)
            else started && RowStarted(cfg, db, r, j) && r.leases == db.leases && r.budgets == db.budgets
  {
    if db.jobs[j].attempt >= 3 {
      AgedIsOver(cfg, db, j);
    }
  }

  lemma ChargedStart(cfg: Config, db: Db, mid: Db, r: Db, j: nat)
    requires j < |db.jobs| && db.jobs[j].task < |db.tasks| && db.jobs[j].v2 && db.jobs[j].task in db.budgets
    requires mid == Charged(db, j)
    ensures RowStarted(cfg, mid, r, j) && r.budgets == mid.budgets ==> RowStarted(cfg, db, r, j) && Paid(db, r, j)
    ensures forall status :: Over(mid, r, j, status) ==> Over(db, r, j, status)
    ensures r.budgets == mid.budgets ==> Paid(db, r, j)
  {
  }

  lemma DispatchTable(cfg: Config, out: Outside, db: Db, j: nat)
    requires j < |db.jobs| && db.jobs[j].task < |db.tasks|
    ensures var (r, started) := Dispatch(cfg, out, db, j);
            if !CallLeft(cfg, db, j) then !started && Over(db, r, j, Dropped) && r.budgets == db.budgets
            else if j in out.overspent then !started && Over(db, r, j, Dropped) && Paid(db, r, j)
            else if db.jobs[j].attempt >= 3 then !started && Over(db, r, j, Failed) && Paid(db, r, j)
            else started && RowStarted(cfg, db, r, j) && Paid(db, r, j) && r.leases == db.leases
  {
    var job := db.jobs[j];
    if job.v2 && (job.task !in db.budgets || db.budgets[job.task] >= cfg.calls) {
      RefuseTable(db, j, Dropped);
    } else {
      var charged := if job.v2 then Charged(db, j) else db;
      RefuseTable(charged, j, Dropped);
      StartTable(cfg, charged, j);
      if job.v2 {
        ChargedStart(cfg, db, charged, Dispatch(cfg, out, db, j).0, j);
      }
    }
  }

  /** The lease that was taken before the dispatch does not show in anything else. */
  lemma LeasedTable(cfg: Config, db: Db, j: nat, r: Db)
    requires j < |db.jobs| && db.jobs[j].task < |db.tasks| && Writes(cfg, db.jobs[j])
    ensures var mid := TakeLease(cfg, db, j);
            && (RowStarted(cfg, mid, r, j) && Paid(mid, r, j) && r.leases == mid.leases ==> Served(cfg, db, r, j))
            && (Paid(mid, r, j) <==> Paid(db, r, j))
            && forall status :: Over(mid, r, j, status) ==> Over(db, r, j, status)
  {
  }

  lemma LeaseIff(cfg: Config, db: Db, j: nat)
    requires j < |db.jobs| && db.jobs[j].task < |db.tasks|
    ensures NeedsLease(cfg, db.jobs[j]) <==> Writes(cfg, db.jobs[j])
    ensures LeaseHeld(db, j) <==> !RepoFree(db, j)
  {
  }

  lemma NamesIff(task: Task, job: Job)
    ensures IdentityCurrent(task, job) <==> NamesTask(task, job.data.identity)
  {
  }

  /** What becomes of a job that has a slot and may take its repository. */
  ghost predicate Fate(cfg: Config, out: Outside, db: Db, j: nat, r: Db, started: bool)
    requires j < |db.jobs| && db.jobs[j].task < |db.tasks|
  {
    if !CallLeft(cfg, db, j) then !started && Over(db, r, j, Dropped) && r.budgets == db.budgets
    else if j in out.overspent then !started && Over(db, r, j, Dropped) && Paid(db, r, j)
    else if db.jobs[j].attempt >= 3 then !started && Over(db, r, j, Failed) && Paid(db, r, j)
    else started && Served(cfg, db, r, j)
  }

  lemma FateOfReader(cfg: Config, out: Outside, db: Db, j: nat)
    requires j < |db.jobs| && db.jobs[j].task < |db.tasks| && !Writes(cfg, db.jobs[j])
    ensures Fate(cfg, out, db, j, Dispatch(cfg, out, db, j).0, Dispatch(cfg, out, db, j).1)
  {
    DispatchTable(cfg, out, db, j);
  }

  lemma FateOfWriter(cfg: Config, out: Outside, db: Db, mid: Db, j: nat)
    requires j < |db.jobs| && db.jobs[j].task < |db.tasks| && Writes(cfg, db.jobs[j])
    requires mid == TakeLease(cfg, db, j)
    ensures Fate(cfg, out, db, j, Dispatch(cfg, out, mid, j).0, Dispatch(cfg, out, mid, j).1)
  {
    DispatchTable(cfg, out, mid, j);
    LeasedTable(cfg, db, j, Dispatch(cfg, out, mid, j).0);
  }

  /** The whole fate of the waiting job `j` when the scan looks at it; `counted` are the rows that claim counted. */
  lemma AdmitTable(cfg: Config, out: Outside, counted: Db, db: Db, j: nat)
    requires j < |db.jobs| && db.jobs[j].task < |db.tasks|
    ensures var (r, started) := Admit(cfg, out, BusyOf(cfg, counted), db, j);
            var job, task := db.jobs[j], db.tasks[db.jobs[j].task];
            if task.state in {Paused, Blocked, TaskState.Cancelled, Merged} then !started && r == db
            else if !NamesTask(task, job.data.identity) then
              !started && r == db.(jobs := db.jobs[j := job.(status := Dropped)])
            else if !SlotFree(cfg, counted.jobs, job) || (Writes(cfg, job) && !RepoFree(db, j)) then !started && r == db
            else Fate(cfg, out, db, j, r, started)
  {
    SlotIff(cfg, counted, db.jobs[j]);
    NamesIff(db.tasks[db.jobs[j].task], db.jobs[j]);
    LeaseIff(cfg, db, j);
    if Writes(cfg, db.jobs[j]) {
      FateOfWriter(cfg, out, db, TakeLease(cfg, db, j), j);
    } else {
      FateOfReader(cfg, out, db, j);
    }
  }

  // ----- a whole claim -----

  /** What the sweep makes of a row: a job whose lease has lapsed waits again, under the next fence. */
  function Swept(now: int, job: Job): Job {
    if job.status == Running && job.lease < now then job.(status := Waiting, fence := job.fence + 1) else job
  }

  function SweptJobs(now: int, jobs: seq<Job>): seq<Job> {
    seq(|jobs|, j requires 0 <= j < |jobs| => Swept(now, jobs[j]))
  }

  function SweptRows(db: Db): Db { db.(jobs := SweptJobs(db.now, db.jobs)) }

  lemma SweepTable(db: Db)
    ensures Requeue(db) == SweptRows(db)
  {
  }

  /** Does the scan pass this row without touching anything? It does not wait, it is locked by somebody else, its
      task is stopped, it has no slot, or another job holds its repository. */
  ghost predicate Passed(cfg: Config, out: Outside, db: Db, j: nat)
    requires j < |db.jobs| && db.jobs[j].task < |db.tasks|
  {
    var job, task := db.jobs[j], db.tasks[db.jobs[j].task];
    || job.status != Waiting || j in out.locked || task.state in {Paused, Blocked, TaskState.Cancelled, Merged}
    || (NamesTask(task, job.data.identity)
        && (!SlotFree(cfg, db.jobs, job) || (Writes(cfg, job) && !RepoFree(db, j))))
  }

  lemma PassedIsSkipped(cfg: Config, out: Outside, db: Db, j: nat)
    requires j < |db.jobs| && db.jobs[j].task < |db.tasks| && Passed(cfg, out, db, j)
    ensures db.jobs[j].status != Waiting || j in out.locked || Admit(cfg, out, BusyOf(cfg, db), db, j) == (db, false)
  {
    AdmitTable(cfg, out, db, db, j);
  }

  lemma ScanSkipsRow(cfg: Config, out: Outside, busy: Busy, db: Db, j: nat)
    requires WellFormed(db) && j < |db.jobs|
    requires db.jobs[j].status != Waiting || j in out.locked || Admit(cfg, out, busy, db, j) == (db, false)
    ensures Scan(cfg, out, busy, db, j) == Scan(cfg, out, busy, db, j + 1)
  {
  }

  lemma {:induction false} PassesOver(cfg: Config, out: Outside, busy: Busy, db: Db, from: nat, k: nat,
                                      r: (Db, Option<(nat, nat)>))
    requires WellFormed(db) && from <= k <= |db.jobs| && busy == BusyOf(cfg, db) && Scan(cfg, out, busy, db, k) == r
    requires forall j | from <= j < k :: Passed(cfg, out, db, j)
    ensures Scan(cfg, out, busy, db, from) == r
    decreases k - from
  {
    if from < k {
      PassesOver(cfg, out, busy, db, from + 1, k, r);
      PassedIsSkipped(cfg, out, db, from);
      ScanSkipsRow(cfg, out, busy, db, from);
    }
  }

  /** Can this row be started as the tables stand? */
  ghost predicate Startable(cfg: Config, out: Outside, db: Db, k: nat)
    requires k < |db.jobs| && db.jobs[k].task < |db.tasks|
  {
    var job, task := db.jobs[k], db.tasks[db.jobs[k].task];
    && job.status == Waiting && k !in out.locked && task.state !in {Paused, Blocked, TaskState.Cancelled, Merged}
    && NamesTask(task, job.data.identity) && SlotFree(cfg, db.jobs, job) && (Writes(cfg, job) ==> RepoFree(db, k))
    && CallLeft(cfg, db, k) && k !in out.overspent && job.attempt < 3
  }

  /** The answer of a scan that gets as far as row `k`. */
  ghost predicate Answers(cfg: Config, out: Outside, db: Db, k: nat, r: Db, claimed: Option<(nat, nat)>)
    requires k < |db.jobs| && db.jobs[k].task < |db.tasks|
  {
    if Startable(cfg, out, db, k) then claimed == Some((k, db.jobs[k].fence + 1)) && Served(cfg, db, r, k)
    else claimed.Some? ==> claimed.value.0 > k
  }

  lemma AdmitIff(cfg: Config, out: Outside, db: Db, k: nat)
    requires k < |db.jobs| && db.jobs[k].task < |db.tasks| && db.jobs[k].status == Waiting && k !in out.locked
    ensures Admit(cfg, out, BusyOf(cfg, db), db, k).1 <==> Startable(cfg, out, db, k)
    ensures Startable(cfg, out, db, k) ==> Served(cfg, db, Admit(cfg, out, BusyOf(cfg, db), db, k).0, k)
  {
    AdmitTable(cfg, out, db, db, k);
  }

  lemma ScanStarts(cfg: Config, out: Outside, busy: Busy, db: Db, k: nat)
    requires WellFormed(db) && k < |db.jobs| && db.jobs[k].status == Waiting && k !in out.locked
    requires Admit(cfg, out, busy, db, k).1
    ensures var r := Admit(cfg, out, busy, db, k).0;
            k < |r.jobs| && Scan(cfg, out, busy, db, k) == (r, Some((k, r.jobs[k].fence)))
  {
  }

  lemma ScanGoesOn(cfg: Config, out: Outside, busy: Busy, db: Db, k: nat)
    requires WellFormed(db) && k < |db.jobs|
    requires db.jobs[k].status != Waiting || k in out.locked || !Admit(cfg, out, busy, db, k).1
    ensures var claimed := Scan(cfg, out, busy, db, k).1; claimed.Some? ==> claimed.value.0 > k
  {
    if db.jobs[k].status != Waiting || k in out.locked {
      ScanReturns(cfg, out, busy, db, k + 1);
    } else {
      ScanReturns(cfg, out, busy, Admit(cfg, out, busy, db, k).0, k + 1);
    }
  }

  lemma ScanAt(cfg: Config, out: Outside, db: Db, k: nat)
    requires WellFormed(db) && k < |db.jobs|
    ensures var (r, claimed) := Scan(cfg, out, BusyOf(cfg, db), db, k); Answers(cfg, out, db, k, r, claimed)
  {
    if db.jobs[k].status == Waiting && k !in out.locked {
      AdmitIff(cfg, out, db, k);
    }
    if Startable(cfg, out, db, k) {
      ScanStarts(cfg, out, BusyOf(cfg, db), db, k);
    } else {
      ScanGoesOn(cfg, out, BusyOf(cfg, db), db, k);
    }
  }

  lemma ClaimIsScan(cfg: Config, out: Outside, db: Db)
    requires WellFormed(db) && db.deployments == {}
    ensures WellFormed(SweptRows(db))
    ensures Claim(cfg, out, db) == Scan(cfg, out, BusyOf(cfg, SweptRows(db)), SweptRows(db), 0)
  {
    SweepTable(db);
  }

  ghost predicate AllPassed(cfg: Config, out: Outside, db: Db, k: nat)
    requires WellFormed(db) && k <= |db.jobs|
  {
    forall j | 0 <= j < k :: Passed(cfg, out, db, j)
  }

  lemma ScanAnswers(cfg: Config, out: Outside, db: Db, k: nat)
    requires WellFormed(db) && k < |db.jobs| && AllPassed(cfg, out, db, k)
    ensures var (r, claimed) := Scan(cfg, out, BusyOf(cfg, db), db, 0); Answers(cfg, out, db, k, r, claimed)
  {
    ScanAt(cfg, out, db, k);
    PassesOver(cfg, out, BusyOf(cfg, db), db, 0, k, Scan(cfg, out, BusyOf(cfg, db), db, k));
  }

  /** If everything before row `k` is passed over, a claim returns row `k` exactly when, after the sweep, the row
      can be started, and then it has started it. */
  lemma ClaimServesIff(cfg: Config, out: Outside, db: Db, k: nat)
    requires WellFormed(db) && db.deployments == {} && k < |db.jobs|
    requires AllPassed(cfg, out, SweptRows(db), k)
    ensures Answers(cfg, out, SweptRows(db), k, Claim(cfg, out, db).0, Claim(cfg, out, db).1)
  {
    ClaimIsScan(cfg, out, db);
    ScanAnswers(cfg, out, SweptRows(db), k);
  }

  /** The row waits for a repository that another job holds under a lease that has not expired. */
  ghost predicate HeldBack(cfg: Config, db: Db, k: nat)
    requires k < |db.jobs| && db.jobs[k].task < |db.tasks|
  {
    && db.jobs[k].status == Waiting && Writes(cfg, db.jobs[k]) && !RepoFree(db, k)
    && NamesTask(db.tasks[db.jobs[k].task], db.jobs[k].data.identity)
  }

  lemma ScanHeld(cfg: Config, out: Outside, db: Db, k: nat)
    requires WellFormed(db) && k < |db.jobs| && HeldBack(cfg, db, k)
    ensures var r := Scan(cfg, out, BusyOf(cfg, db), db, k).0; k < |r.jobs| && r.jobs[k] == db.jobs[k]
  {
    AdmitTable(cfg, out, db, db, k);
    ScanSettled(cfg, out, BusyOf(cfg, db), db, k + 1, k, db.jobs[k].task);
  }

  /** Such a row waits unchanged, and nothing else holds it back for good: see ClaimServesIff. */
  lemma HeldWriterWaits(cfg: Config, out: Outside, db: Db, k: nat)
    requires WellFormed(db) && db.deployments == {} && k < |db.jobs|
    requires HeldBack(cfg, SweptRows(db), k) && AllPassed(cfg, out, SweptRows(db), k)
    ensures var r := Claim(cfg, out, db).0; k < |r.jobs| && r.jobs[k] == SweptRows(db).jobs[k]
  {
    var swept := SweptRows(db);
    ClaimIsScan(cfg, out, db);
    ScanHeld(cfg, out, swept, k);
    PassesOver(cfg, out, BusyOf(cfg, swept), swept, 0, k, Scan(cfg, out, BusyOf(cfg, swept), swept, k));
  }

  lemma DealtWith(cfg: Config, out: Outside, counted: Db, db: Db, k: nat)
    requires WellFormed(db) && k < |db.jobs| && db.jobs[k].status == Waiting
    requires SlotFree(cfg, counted.jobs, db.jobs[k]) && (Writes(cfg, db.jobs[k]) ==> RepoFree(db, k))
    ensures var (r, started) := Admit(cfg, out, BusyOf(cfg, counted), db, k);
            !started ==> r.jobs[k].status != Waiting || Stopped(r.tasks[db.jobs[k].task].state)
  {
    AdmitTable(cfg, out, counted, db, k);
  }

  /** Whatever comes before it in the queue: a claim that does not return an earlier job has dealt with every job
      that has a slot and whose repository is free, unless somebody locks it or its task is stopped. */
  lemma {:induction false} ServedInOrder(cfg: Config, out: Outside, counted: Db, db: Db, from: nat, k: nat)
    requires WellFormed(db) && from <= k < |db.jobs| && db.jobs[k].status == Waiting && k !in out.locked
    requires SlotFree(cfg, counted.jobs, db.jobs[k]) && (Writes(cfg, db.jobs[k]) ==> RepoFree(db, k))
    requires var claimed := Scan(cfg, out, BusyOf(cfg, counted), db, from).1; claimed.Some? ==> k < claimed.value.0
    ensures var r := Scan(cfg, out, BusyOf(cfg, counted), db, from).0;
            && k < |r.jobs| && db.jobs[k].task < |r.tasks|
            && (r.jobs[k].status != Waiting
                || r.tasks[db.jobs[k].task].state in {Paused, Blocked, TaskState.Cancelled, Merged})
    decreases |db.jobs| - from
  {
    var busy := BusyOf(cfg, counted);
    if !db.jobs[from].status.Waiting? || from in out.locked {
      ServedInOrder(cfg, out, counted, db, from + 1, k);
    } else {
      var next := Admit(cfg, out, busy, db, from).0;
      if k == from {
        DealtWith(cfg, out, counted, db, k);
        ScanSettled(cfg, out, busy, next, from + 1, k, db.jobs[k].task);
      } else {
        StillFree(cfg, out, busy, counted, db, from, k);
        ServedInOrder(cfg, out, counted, next, from + 1, k);
      }
    }
  }

  /** A job that is looked at and not started takes nothing from the jobs behind it. */
  lemma StillFree(cfg: Config, out: Outside, busy: Busy, counted: Db, db: Db, j: nat, k: nat)
    requires WellFormed(db) && j < k < |db.jobs| && busy == BusyOf(cfg, counted) && db.jobs[j].status == Waiting
    requires !Admit(cfg, out, busy, db, j).1
    ensures var next := Admit(cfg, out, busy, db, j).0;
            && |next.jobs| == |db.jobs| && next.jobs[k] == db.jobs[k] && WellFormed(next)
            && (RepoFree(db, k) ==> RepoFree(next, k))
  {
    AdmitTable(cfg, out, counted, db, j);
  }

  /** A job whose lease has not lapsed is not touched by any claim. */
  lemma RunningStays(cfg: Config, out: Outside, db: Db, j: nat)
    requires WellFormed(db) && j < |db.jobs| && db.jobs[j].status == Running && db.jobs[j].lease >= db.now
    ensures j < |Claim(cfg, out, db).0.jobs| && Claim(cfg, out, db).0.jobs[j] == db.jobs[j]
  {
    if db.deployments == {} {
      SweepTable(db);
      ClaimReturns(cfg, out, db);
      ScanKeepsRunning(cfg, out, BusyOf(cfg, SweptRows(db)), SweptRows(db), 0, j);
    }
  }

  lemma {:induction false} ScanKeepsRunning(cfg: Config, out: Outside, busy: Busy, db: Db, from: nat, j: nat)
    requires WellFormed(db) && j < |db.jobs| && db.jobs[j].status == Running
    ensures var r := Scan(cfg, out, busy, db, from).0; j < |r.jobs| && r.jobs[j] == db.jobs[j]
    decreases |db.jobs| - from
  {
    if from < |db.jobs| {
      if !db.jobs[from].status.Waiting? || from in out.locked {
        ScanKeepsRunning(cfg, out, busy, db, from + 1, j);
      } else {
        var (next, started) := Admit(cfg, out, busy, db, from);
        if started {
          AdmitStarts(cfg, out, busy, db, from);
        } else {
          AdmitSkips(cfg, out, busy, db, from);
          ScanKeepsRunning(cfg, out, busy, next, from + 1, j);
        }
      }
    }
  }

  // ----- a writer whose engine died -----

  ghost predicate Ended(status: JobStatus) { status in {Finished, Failed, Dropped} }

  /** When the sweep takes a running v2 job off the table there is room for it again. */
  lemma RoomAgain(cfg: Config, jobs: seq<Job>, now: int, k: nat)
    requires k < |jobs| && jobs[k].status == Running && jobs[k].v2 && jobs[k].lease < now
    requires cfg.classOf(jobs[k].role) != Privileged && |InClass(cfg, jobs, false)| <= cfg.normal
    ensures |InClass(cfg, SweptJobs(now, jobs), false)| < cfg.normal
  {
    var swept := SweptJobs(now, jobs);
    assert k in InClass(cfg, jobs, false);
    Larger(InClass(cfg, swept, false), InClass(cfg, jobs, false) - {k});
  }

  /** A running writer whose engine is about to die: no job before it is left, its task still wants it and can pay,
      and it has an attempt left. */
  ghost predicate Doomed(cfg: Config, out: Outside, db: Db, k: nat) {
    && k < |db.jobs| && db.jobs[k].task < |db.tasks| && db.jobs[k].status == Running && Writes(cfg, db.jobs[k])
    && db.jobs[k].attempt < 3 && k !in out.locked && k !in out.overspent
    && (forall j | 0 <= j < k :: Ended(db.jobs[j].status))
    && var task := db.tasks[db.jobs[k].task];
       task.state !in {Paused, Blocked, TaskState.Cancelled, Merged} && CallLeft(cfg, db, k)
       && NamesTask(task, db.jobs[k].data.identity)
  }

  ghost predicate WriterHolds(db: Db, k: nat) {
    && k < |db.jobs| && db.jobs[k].task < |db.tasks| && db.deployments == {}
    && var repo := db.tasks[db.jobs[k].task].repository;
       repo in db.leases && db.leases[repo].job == k
  }

  lemma DoomedIsStartable(cfg: Config, out: Outside, db: Db, later: Db, k: nat)
    requires WellFormed(db) && Doomed(cfg, out, db, k) && |InClass(cfg, db.jobs, false)| <= cfg.normal
    requires later == db.(now := later.now, owner := later.owner) && later.now > db.jobs[k].lease
    requires WriterHolds(db, k)
    ensures WellFormed(SweptRows(later)) && Startable(cfg, out, SweptRows(later), k)
    ensures AllPassed(cfg, out, SweptRows(later), k) && SweptRows(later).jobs[k].fence == db.jobs[k].fence + 1
  {
    RoomAgain(cfg, db.jobs, later.now, k);
  }

  lemma RunWriterHolds(cfg: Config, start: Db, steps: seq<Step>, k: nat)
    requires Init(start)
    requires var jobs := After(cfg, start, steps).jobs; k < |jobs| && jobs[k].status == Running && Writes(cfg, jobs[k])
    ensures WriterHolds(After(cfg, start, steps), k)
  {
    InitInv(cfg, start);
    RunInv(cfg, start, steps);
    LeaseIff(cfg, After(cfg, start, steps), k);
  }

  lemma ClaimServes(cfg: Config, out: Outside, db: Db, k: nat)
    requires WellFormed(db) && db.deployments == {} && k < |db.jobs|
    requires AllPassed(cfg, out, SweptRows(db), k) && Startable(cfg, out, SweptRows(db), k)
    ensures Claim(cfg, out, db).1 == Some((k, SweptRows(db).jobs[k].fence + 1))
    ensures Served(cfg, SweptRows(db), Claim(cfg, out, db).0, k)
  {
    ClaimServesIff(cfg, out, db, k);
  }

  /** In any run a writer is started, its engine dies and its lease lapses. The first claim of the next engine
      returns it, with its repository, whose row still names it, under the next lease fence. */
  lemma CrashedWriterReturns(cfg: Config, start: Db, steps: seq<Step>, db: Db, later: Db, k: nat, out: Outside)
    requires Init(start) && db == After(cfg, start, steps) && Doomed(cfg, out, db, k)
    requires later == db.(now := later.now, owner := db.owner + 1) && later.now > db.jobs[k].lease
    ensures WellFormed(later) && WellFormed(SweptRows(later))
    ensures Claim(cfg, out, later).1 == Some((k, db.jobs[k].fence + 2))
    ensures Served(cfg, SweptRows(later), Claim(cfg, out, later).0, k)
  {
    RunWriterHolds(cfg, start, steps, k);
    CapsHoldInRows(cfg, start, steps, 0, 0);
    DoomedIsStartable(cfg, out, db, later, k);
    ClaimServes(cfg, out, later, k);
  }

  /** The fence of every call about a job. */
  lemma CurrentIff(db: Db, j: nat, fence: nat)
    ensures Current(db, j, fence) <==>
            && j < |db.jobs| && db.jobs[j].task < |db.tasks|
            && var job, task := db.jobs[j], db.tasks[db.jobs[j].task];
               && job.status == Running && job.fence == fence && job.owner == db.owner && db.now < job.lease
               && task.state !in {Paused, Blocked, TaskState.Cancelled, Merged} && NamesTask(task, job.data.identity)
  {
    if j < |db.jobs| && db.jobs[j].task < |db.tasks| {
      NamesIff(db.tasks[db.jobs[j].task], db.jobs[j]);
    }
  }

  // ----- how the work ends -----

  /** No other job changes, and no budget. */
  predicate OtherJobsKept(db: Db, r: Db, j: nat) {
    |db.jobs| <= |r.jobs| && r.budgets == db.budgets
    && forall k | 0 <= k < |db.jobs| && k != j :: r.jobs[k] == db.jobs[k]
  }

  /** An accepted failure, column by column: one retry in another format for a missing patch, two more attempts after
      an ordinary error, then the fallback role with the same work, and a blocked task if there is none. */
  lemma FailureTable(cfg: Config, db: Db, j: nat, fence: nat, error: Failure)
    requires Current(db, j, fence)
    ensures var r, job, t := Fail(cfg, db, j, fence, error), db.jobs[j], db.jobs[j].task;
            && OtherJobsKept(db, r, j) && |r.tasks| == |db.tasks|
            && (forall u | 0 <= u < |db.tasks| && u != t :: r.tasks[u] == db.tasks[u])
            && if job.v2 && job.kind in {Implement, Fix} && error == NoPatch && !job.data.patchRetry then
                 && |r.jobs| == |db.jobs| && r.tasks[t] == db.tasks[t]
                 && r.jobs[j] == job.(status := Waiting, data := job.data.(patchRetry := true))
               else if job.v2 && error == Other && job.attempt < 3 then
                 |r.jobs| == |db.jobs| && r.tasks[t] == db.tasks[t] && r.jobs[j] == job.(status := Waiting)
               else if job.v2 && error == Other && job.role in cfg.fallback && cfg.classOf(job.role) != Privileged then
                 && |r.jobs| == |db.jobs| + 1 && r.tasks[t] == db.tasks[t] && r.jobs[j] == job.(status := Failed)
                 && r.jobs[|db.jobs|] == Job(t, db.tasks[t].v2, cfg.fallback[job.role], job.kind, Waiting, 0, 0, 0, 0,
                                             job.data)
               else
                 && |r.jobs| == |db.jobs| && r.tasks[t] == Moved(db.tasks[t], Blocked)
                 && r.jobs[j] == job.(status := Failed)
  {
  }

  /** A result that is accepted: the job is done and gives its repository back, and its task has the new columns and
      the follow-up job. */
  lemma FinishTable(db: Db, j: nat, fence: nat, move: Option<TaskState>, identity: Identity,
                    followUp: Option<(Kind, string)>)
    requires Current(db, j, fence)
    ensures var r, job, t := Finish(db, j, fence, move, identity, followUp), db.jobs[j], db.jobs[j].task;
            var repo := db.tasks[t].repository;
            && OtherJobsKept(db, r, j) && |r.tasks| == |db.tasks| && r.jobs[j] == job.(status := Finished)
            && (forall u | 0 <= u < |db.tasks| && u != t :: r.tasks[u] == db.tasks[u])
            && r.tasks[t].identity == identity && (move.Some? ==> r.tasks[t].state == move.value)
            && (move == None ==> r.tasks[t] == db.tasks[t].(identity := identity))
            && (repo in r.leases ==> !(r.leases[repo].job == j && r.leases[repo].owner == db.owner))
            && |r.jobs| == |db.jobs| + (if followUp == None then 0 else 1)
            && (followUp.Some? ==>
                  r.jobs[|db.jobs|] == Job(t, db.tasks[t].v2, followUp.value.1, followUp.value.0, Waiting, 0, 0, 0, 0,
                                           Data(identity, false, false, false)))
  {
  }

  /** An accepted beat moves the lease of the job, and of the row it holds, to the same time; nothing else. */
  lemma BeatTable(cfg: Config, db: Db, j: nat, fence: nat)
    requires Current(db, j, fence)
    ensures var r, until := Heartbeat(cfg, db, j, fence), db.now + cfg.leaseSeconds;
            var repo := db.tasks[db.jobs[j].task].repository;
            && r.jobs == db.jobs[j := db.jobs[j].(lease := until)] && r.tasks == db.tasks && r.budgets == db.budgets
            && (if repo in db.leases && db.leases[repo].job == j && db.leases[repo].owner == db.owner then
                  r.leases == db.leases[repo := db.leases[repo].(expires := until)]
                else r.leases == db.leases)
  {
  }

  /** The jobs of a task that were active are dropped and fenced, all others stay. */
  ghost predicate Cleared(jobs: seq<Job>, jobs': seq<Job>, t: nat) {
    |jobs| <= |jobs'|
    && forall j | 0 <= j < |jobs| ::
         jobs'[j] == if jobs[j].task == t && jobs[j].status in {Waiting, Running}
                     then jobs[j].(status := Dropped, fence := jobs[j].fence + 1) else jobs[j]
  }

  /** A task that reconcile or an owner stops or sends back. */
  lemma InvalidateTable(db: Db, t: nat, state: TaskState)
    requires t < |db.tasks|
    ensures var r := Invalidate(db, t, state);
            && Cleared(db.jobs, r.jobs, t) && |r.jobs| == |db.jobs| && r.leases == db.leases
            && r.tasks == db.tasks[t := Moved(db.tasks[t], state)]
  {
  }

  /** A cancelled task: besides, the rows of all its jobs are gone when it is a v2 task, and no others. */
  lemma CancelTable(db: Db, t: nat)
    requires WellFormed(db) && t < |db.tasks|
    ensures var r := Cancel(db, t);
            && Cleared(db.jobs, r.jobs, t) && |r.jobs| == |db.jobs|
            && r.tasks == db.tasks[t := Moved(db.tasks[t], TaskState.Cancelled)]
            && forall x :: x in r.leases <==>
                 x in db.leases
                 && !(db.tasks[t].v2 && db.leases[x].job < |db.jobs| && db.jobs[db.leases[x].job].task == t)
  {
  }

  /** A retry: a job that is over waits again as if it were new, under the fence it has. */
  lemma RetryTable(db: Db, j: nat, state: TaskState, clearLease: bool)
    requires j < |db.jobs| && db.jobs[j].task < |db.tasks| && Ended(db.jobs[j].status)
    ensures var r, job := Retry(db, j, state, clearLease), db.jobs[j];
            && OtherJobsKept(db, r, j) && |r.jobs| == |db.jobs|
            && r.jobs[j].status == Waiting && r.jobs[j].attempt == 0 && r.jobs[j].fence == job.fence
            && r.jobs[j].data == job.data && r.leases == db.leases && r.tasks == db.tasks[job.task := Moved(db.tasks[job.task], state)]
  {
  }

  /** A new task has the state it is created in and, under v2, a budget of its own with nothing spent. */
  lemma CreateTable(db: Db, v2: bool, repository: string, state: TaskState)
    ensures var r, t := Create(db, v2, repository, state), |db.tasks|;
            && |r.tasks| == t + 1 && r.tasks[..t] == db.tasks && r.jobs == db.jobs && r.leases == db.leases
            && r.tasks[t].v2 == v2 && r.tasks[t].repository == repository && r.tasks[t].state == state
            && r.tasks[t].stalledAt == None && (v2 && t !in db.budgets ==> t in r.budgets && r.budgets[t] == 0)
            && (forall u | u in db.budgets :: u in r.budgets && r.budgets[u] == db.budgets[u])
  {
  }

  ghost function Reservations(t: nat, n: nat): seq<Step> {
    if n == 0 then [] else [ReserveStep(t)] + Reservations(t, n - 1)
  }

  function Smaller(a: nat, b: nat): nat { if a < b then a else b }

  /** Reservations outside a dispatch add up, one by one, to the limit and no further. */
  lemma {:induction false} ReservationsAddUp(cfg: Config, db: Db, t: nat, n: nat)
    requires WellFormed(db) && t in db.budgets && db.budgets[t] <= cfg.calls
    ensures After(cfg, db, Reservations(t, n))
         == db.(budgets := db.budgets[t := Smaller(db.budgets[t] + n, cfg.calls)])
    decreases n
  {
    if n == 0 {
      assert db.budgets == db.budgets[t := db.budgets[t]];
    } else {
      var next := Apply(cfg, db, ReserveStep(t));
      var steps := Reservations(t, n);
      assert steps[0] == ReserveStep(t) && steps[1..] == Reservations(t, n - 1);
      assert next == db.(budgets := db.budgets[t := Smaller(db.budgets[t] + 1, cfg.calls)]) by {
        assert db.budgets == db.budgets[t := db.budgets[t]];
      }
      ReservationsAddUp(cfg, next, t, n - 1);
    }
  }

  /** A deployment starts exactly when neither a job nor a deployment runs. */
  lemma DeployStartsIff(db: Db, op: nat)
    ensures var r := DeployClaim(db, op);
            if db.deployments == {} && (forall j | 0 <= j < |db.jobs| :: db.jobs[j].status != Running)
            then r == db.(deployments := {op}) else r == db
  {
  }

  // ----- a silent task -----

  /** A silent task, column by column: what was active is dropped; unless it has been retried at this version, the
      version is noted and the newest work is enqueued once more, else the task is blocked. */
  lemma StallTable(db: Db, t: nat)
    requires WellFormed(db) && t < |db.tasks| && db.tasks[t].v2 && Recoverable(db.tasks[t].state)
    requires Newest(db.jobs, t).Some?
    ensures var r, task, newest := RecoverStalled(db, t), db.tasks[t], db.jobs[Newest(db.jobs, t).value];
            && Cleared(db.jobs, r.jobs, t) && |r.tasks| == |db.tasks| && r.budgets == db.budgets
            && (forall u | 0 <= u < |db.tasks| && u != t :: r.tasks[u] == db.tasks[u])
            && if task.stalledAt == Some(task.stateVersion) then
                 |r.jobs| == |db.jobs| && r.tasks[t] == Moved(task, Blocked)
               else
                 && |r.jobs| == |db.jobs| + 1 && r.tasks[t] == task.(stalledAt := Some(task.stateVersion))
                 && r.jobs[|db.jobs|] == Job(t, true, newest.role, newest.kind, Waiting, 0, 0, 0, 0,
                                             Data(task.identity, false, false, false))
  {
  }

  /** Silent twice with nothing in between: the second time the task is blocked. */
  lemma SilentTwice(db: Db, t: nat)
    requires WellFormed(db) && t < |db.tasks| && db.tasks[t].v2 && Recoverable(db.tasks[t].state)
    requires Newest(db.jobs, t).Some?
    ensures var r := RecoverStalled(RecoverStalled(db, t), t); t < |r.tasks| && r.tasks[t].state == Blocked
  {
    var once := RecoverStalled(db, t);
    StallTable(db, t);
    if once.tasks[t].state != Blocked {
      assert Active(once.jobs[|db.jobs|], t);
      StallTable(once, t);
    }
  }
}
