/** Theorems about whole runs of the dispatcher: any number of transactions, in any order. */
module DispatcherRuns {
  import opened Wrappers
  import opened Domain
  import opened Dispatcher
  import opened DispatcherSafety

  ghost predicate Init(db: Db) {
    db.tasks == [] && db.jobs == [] && db.leases == map[] && db.budgets == map[] && db.deployments == {}
  }

  ghost function After(cfg: Config, db: Db, steps: seq<Step>): (r: Db)
    requires WellFormed(db)
    ensures WellFormed(r)
    decreases |steps|
  {
    if steps == [] then db else After(cfg, Apply(cfg, db, steps[0]), steps[1..])
  }

  lemma {:induction false} RunInv(cfg: Config, db: Db, steps: seq<Step>)
    requires Inv(cfg, db)
    ensures Inv(cfg, After(cfg, db, steps))
    decreases |steps|
  {
    if steps != [] {
      StepKeeps(cfg, db, steps[0]);
      RunInv(cfg, Apply(cfg, db, steps[0]), steps[1..]);
    }
  }

  lemma InitInv(cfg: Config, db: Db)
    requires Init(db)
    ensures Inv(cfg, db)
  {
    CountNone(Normal(cfg), db.jobs);
    CountNone(PrivilegedWork(cfg), db.jobs);
    CountNone(V1(), db.jobs);
    forall role ensures Count(V1In(role), db.jobs) <= 1 {
      CountNone(V1In(role), db.jobs);
    }
  }

  /** At most one job writes to a repository, and it holds the lease row of that repository. */
  lemma OneWriter(cfg: Config, db: Db, steps: seq<Step>, j: nat, k: nat)
    requires Init(db)
    requires var s := After(cfg, db, steps);
             && j < |s.jobs| && k < |s.jobs| && Writer(cfg, s.jobs[j]) && Writer(cfg, s.jobs[k])
             && Repo(s, j) == Repo(s, k)
    ensures j == k
    ensures var s := After(cfg, db, steps);
            Repo(s, j) in s.leases && s.leases[Repo(s, j)].job == j && s.leases[Repo(s, j)].expires == s.jobs[j].lease
  {
    InitInv(cfg, db);
    RunInv(cfg, db, steps);
  }

  /** The caps, in every reachable state. */
  lemma CapsHold(cfg: Config, db: Db, steps: seq<Step>, role: string)
    requires Init(db)
    ensures var jobs := After(cfg, db, steps).jobs;
            && Count(Normal(cfg), jobs) <= cfg.normal && Count(PrivilegedWork(cfg), jobs) <= cfg.privileged
            && Count(V1In(role), jobs) <= 1 && (cfg.chatgpt ==> Count(V1(), jobs) <= 1)
  {
    InitInv(cfg, db);
    RunInv(cfg, db, steps);
  }

  /** A job that runs is in its first, second or third attempt, in every reachable state. */
  lemma ThreeAttempts(cfg: Config, db: Db, steps: seq<Step>, j: nat)
    requires Init(db) && j < |After(cfg, db, steps).jobs| && After(cfg, db, steps).jobs[j].status.Running?
    ensures 1 <= After(cfg, db, steps).jobs[j].attempt <= 3
  {
    InitInv(cfg, db);
    RunInv(cfg, db, steps);
  }

  /** Jobs and deployments exclude each other, and so do two deployments. */
  lemma JobsExcludeDeployments(cfg: Config, db: Db, steps: seq<Step>, op: nat, j: nat)
    requires Init(db)
    requires op in After(cfg, db, steps).deployments
    ensures After(cfg, db, steps).deployments == {op}
    ensures j < |After(cfg, db, steps).jobs| ==> !After(cfg, db, steps).jobs[j].status.Running?
  {
    InitInv(cfg, db);
    RunInv(cfg, db, steps);
  }

  // ----- what a claim returns -----

  /** How a task looks after one of its jobs was started. */
  predicate TaskStarted(kind: Kind, a: Task, b: Task) {
    && !Stopped(a.state) && !Stopped(b.state)
    && match kind
       case Implement => b == a.(state := Implementing, stateVersion := a.stateVersion + 1)
       case Fix => b == a.(state := Fixing, stateVersion := a.stateVersion + 1)
       case _ => b == a
  }

  /** A started job, and its task; nothing else has changed. */
  ghost predicate Starts(cfg: Config, db: Db, r: Db, j: nat)
    requires j < |db.jobs| && db.jobs[j].task < |db.tasks|
  {
    var t := db.jobs[j].task;
    && |r.tasks| == |db.tasks| && r.jobs == db.jobs[j := StartedJob(cfg, db, j)] && r.tasks == db.tasks[t := r.tasks[t]]
    && TaskStarted(db.jobs[j].kind, db.tasks[t], r.tasks[t])
    && IdentityCurrent(r.tasks[t], r.jobs[j])
  }

  ghost predicate Charges(db: Db, r: Db, j: nat)
    requires j < |db.jobs| && db.jobs[j].task < |db.tasks|
  {
    var t := db.jobs[j].task;
    db.jobs[j].v2 ==> t in db.budgets && r.budgets == db.budgets[t := db.budgets[t] + 1]
  }

  lemma StartStarts(cfg: Config, db: Db, j: nat)
    requires j < |db.jobs| && db.jobs[j].task < |db.tasks| && Start(cfg, db, j).1
    requires !Stopped(db.tasks[db.jobs[j].task].state) && IdentityCurrent(db.tasks[db.jobs[j].task], db.jobs[j])
    ensures Starts(cfg, db, Start(cfg, db, j).0, j)
  {
  }

  lemma DispatchStarts(cfg: Config, out: Outside, db: Db, j: nat)
    requires j < |db.jobs| && db.jobs[j].task < |db.tasks| && Dispatch(cfg, out, db, j).1
    requires !Stopped(db.tasks[db.jobs[j].task].state) && IdentityCurrent(db.tasks[db.jobs[j].task], db.jobs[j])
    ensures Starts(cfg, db, Dispatch(cfg, out, db, j).0, j) && Charges(db, Dispatch(cfg, out, db, j).0, j)
  {
    StartStarts(cfg, if db.jobs[j].v2 then Charged(db, j) else db, j);
  }

  lemma LeasedStarts(cfg: Config, db: Db, mid: Db, r: Db, j: nat)
    requires j < |db.jobs| && db.jobs[j].task < |db.tasks| && mid == db.(leases := mid.leases)
    requires Starts(cfg, mid, r, j) && Charges(mid, r, j)
    ensures Starts(cfg, db, r, j) && Charges(db, r, j)
  {
  }

  lemma AdmitStarts(cfg: Config, out: Outside, busy: Busy, db: Db, j: nat)
    requires j < |db.jobs| && db.jobs[j].task < |db.tasks| && Admit(cfg, out, busy, db, j).1
    ensures Starts(cfg, db, Admit(cfg, out, busy, db, j).0, j) && Charges(db, Admit(cfg, out, busy, db, j).0, j)
  {
    var leased := if NeedsLease(cfg, db.jobs[j]) then TakeLease(cfg, db, j) else db;
    DispatchStarts(cfg, out, leased, j);
    LeasedStarts(cfg, db, leased, Dispatch(cfg, out, leased, j).0, j);
  }

  /** The effect of a job that is looked at and not started. */
  ghost predicate Skips(db: Db, r: Db, j: nat) {
    JobSkipped(db.jobs, r.jobs, j) && TasksKeptOrStopped(db.tasks, r.tasks)
  }

  ghost predicate JobSkipped(jobs: seq<Job>, jobs': seq<Job>, j: nat) {
    && j < |jobs'| == |jobs| && !jobs'[j].status.Running?
    && forall k | 0 <= k < |jobs| && k != j :: jobs'[k] == jobs[k]
  }

  ghost predicate TasksKeptOrStopped(tasks: seq<Task>, tasks': seq<Task>) {
    |tasks'| == |tasks| && forall t | 0 <= t < |tasks| :: tasks'[t] == tasks[t] || Stopped(tasks'[t].state)
  }

  lemma RefuseSkips(db: Db, j: nat, status: JobStatus)
    requires j < |db.jobs| && db.jobs[j].task < |db.tasks| && !status.Running?
    ensures Skips(db, Refuse(db, j, status), j)
  {
  }

  lemma StartSkips(cfg: Config, db: Db, j: nat)
    requires j < |db.jobs| && db.jobs[j].task < |db.tasks| && !Start(cfg, db, j).1
    ensures Skips(db, Start(cfg, db, j).0, j)
  {
    RefuseSkips(SetJob(db, j, StartedJob(cfg, db, j)), j, Failed);
  }

  lemma DispatchSkips(cfg: Config, out: Outside, db: Db, j: nat)
    requires j < |db.jobs| && db.jobs[j].task < |db.tasks| && !Dispatch(cfg, out, db, j).1
    ensures Skips(db, Dispatch(cfg, out, db, j).0, j)
  {
    var job := db.jobs[j];
    if job.v2 && (job.task !in db.budgets || db.budgets[job.task] >= cfg.calls) {
      RefuseSkips(db, j, Dropped);
    } else {
      var charged := if job.v2 then Charged(db, j) else db;
      if j in out.overspent {
        RefuseSkips(charged, j, Dropped);
      } else {
        StartSkips(cfg, charged, j);
      }
    }
  }

  lemma AdmitSkips(cfg: Config, out: Outside, busy: Busy, db: Db, j: nat)
    requires j < |db.jobs| && db.jobs[j].task < |db.tasks| && !db.jobs[j].status.Running?
    requires !Admit(cfg, out, busy, db, j).1
    ensures Skips(db, Admit(cfg, out, busy, db, j).0, j)
  {
    var leased := if NeedsLease(cfg, db.jobs[j]) then TakeLease(cfg, db, j) else db;
    if !Dispatch(cfg, out, leased, j).1 {
      DispatchSkips(cfg, out, leased, j);
    }
  }

  /** Only the returned job has been started, with the next fence, by this engine. */
  ghost predicate Returned(cfg: Config, busy: Busy, db: Db, r: Db, from: nat, j: nat, fence: nat)
    requires WellFormed(db) && WellFormed(r)
  {
    && from <= j < |db.jobs| && |r.jobs| == |db.jobs| && |r.tasks| == |db.tasks|
    && db.jobs[j].status.Waiting? && !NoSlot(cfg, busy, db.jobs[j])
    && (forall k | 0 <= k < |db.jobs| && k != j :: Untouched(db.jobs[k], r.jobs[k]))
    && r.jobs[j] == StartedJob(cfg, db, j) && fence == r.jobs[j].fence
    && TaskStarted(db.jobs[j].kind, db.tasks[db.jobs[j].task], r.tasks[db.jobs[j].task])
    && IdentityCurrent(r.tasks[db.jobs[j].task], r.jobs[j])
    && (db.jobs[j].v2 ==> Spent(db.jobs[j].task, db.budgets, r.budgets))
  }

  predicate Untouched(a: Job, b: Job) { b == a || (!a.status.Running? && !b.status.Running?) }

  predicate Spent(t: nat, budgets: map<nat, nat>, budgets': map<nat, nat>) {
    t in budgets' && Reserved(budgets, t) < budgets'[t]
  }

  function Reserved(budgets: map<nat, nat>, t: nat): nat { if t in budgets then budgets[t] else 0 }

  lemma StartsReturned(cfg: Config, busy: Busy, db: Db, r: Db, j: nat)
    requires WellFormed(db) && j < |db.jobs| && db.jobs[j].status.Waiting? && Starts(cfg, db, r, j) && Charges(db, r, j)
    requires !NoSlot(cfg, busy, db.jobs[j])
    ensures WellFormed(r) && Returned(cfg, busy, db, r, j, j, r.jobs[j].fence)
  {
  }

  lemma SkipsReturned(cfg: Config, busy: Busy, db: Db, next: Db, r: Db, from: nat, j: nat, fence: nat)
    requires WellFormed(db) && WellFormed(next) && WellFormed(r) && from < |db.jobs|
    requires Skips(db, next, from) && !db.jobs[from].status.Running?
    requires next.now == db.now && next.owner == db.owner && Extends(db, next)
    requires Returned(cfg, busy, next, r, from + 1, j, fence)
    ensures Returned(cfg, busy, db, r, from, j, fence)
  {
    assert SameJob(db.jobs[j], next.jobs[j]);
  }

  lemma SkipsQuiet(db: Db, next: Db, jobs: seq<Job>, from: nat)
    requires from < |db.jobs| && Skips(db, next, from) && |jobs| == |next.jobs| && Quiet(next.jobs, jobs)
    ensures Quiet(db.jobs, jobs)
  {
  }

  /** What a scan, or a whole claim, has done when it returns. */
  ghost predicate Returns(cfg: Config, busy: Busy, db: Db, from: nat, r: Db, result: Option<(nat, nat)>)
    requires WellFormed(db) && WellFormed(r)
  {
    match result
    case None => |r.jobs| == |db.jobs| && Quiet(db.jobs, r.jobs)
    case Some((j, fence)) => Returned(cfg, busy, db, r, from, j, fence)
  }

  lemma SkipsReturns(cfg: Config, busy: Busy, db: Db, next: Db, r: Db, from: nat, result: Option<(nat, nat)>)
    requires WellFormed(db) && WellFormed(next) && WellFormed(r) && from < |db.jobs|
    requires Skips(db, next, from) && !db.jobs[from].status.Running?
    requires next.now == db.now && next.owner == db.owner && Extends(db, next)
    requires Returns(cfg, busy, next, from + 1, r, result)
    ensures Returns(cfg, busy, db, from, r, result)
  {
    match result
    case None => SkipsQuiet(db, next, r.jobs, from);
    case Some((j, fence)) => SkipsReturned(cfg, busy, db, next, r, from, j, fence);
  }

  lemma PassReturns(cfg: Config, busy: Busy, db: Db, r: Db, from: nat, result: Option<(nat, nat)>)
    requires WellFormed(db) && WellFormed(r) && Returns(cfg, busy, db, from + 1, r, result)
    ensures Returns(cfg, busy, db, from, r, result)
  {
  }

  lemma {:induction false} ScanReturns(cfg: Config, out: Outside, busy: Busy, db: Db, from: nat)
    requires WellFormed(db)
    ensures Returns(cfg, busy, db, from, Scan(cfg, out, busy, db, from).0, Scan(cfg, out, busy, db, from).1)
    decreases |db.jobs| - from
  {
    if from < |db.jobs| {
      if !db.jobs[from].status.Waiting? || from in out.locked {
        ScanReturns(cfg, out, busy, db, from + 1);
        var (r, result) := Scan(cfg, out, busy, db, from + 1);
        PassReturns(cfg, busy, db, r, from, result);
      } else {
        var (next, started) := Admit(cfg, out, busy, db, from);
        if started {
          AdmitStarts(cfg, out, busy, db, from);
          StartsReturned(cfg, busy, db, next, from);
        } else {
          AdmitSkips(cfg, out, busy, db, from);
          ScanReturns(cfg, out, busy, next, from + 1);
          var (r, result) := Scan(cfg, out, busy, next, from + 1);
          SkipsReturns(cfg, busy, db, next, r, from, result);
        }
      }
    }
  }

  /** A claim without a deployment in progress: the sweep, then the scan. */
  lemma ClaimReturns(cfg: Config, out: Outside, db: Db)
    requires WellFormed(db) && db.deployments == {}
    ensures Returns(cfg, BusyOf(cfg, Requeue(db)), Requeue(db), 0, Claim(cfg, out, db).0, Claim(cfg, out, db).1)
  {
    ScanReturns(cfg, out, BusyOf(cfg, Requeue(db)), Requeue(db), 0);
  }

  /** What the scan has passed it does not touch again, and a stopped task stays stopped. */
  lemma {:induction false} ScanSettled(cfg: Config, out: Outside, busy: Busy, db: Db, from: nat, k: nat, t: nat)
    requires WellFormed(db) && k < from && k < |db.jobs| && t < |db.tasks|
    ensures var r := Scan(cfg, out, busy, db, from).0;
            k < |r.jobs| && r.jobs[k] == db.jobs[k] && t < |r.tasks|
            && (Stopped(db.tasks[t].state) ==> Stopped(r.tasks[t].state))
    decreases |db.jobs| - from
  {
    if from < |db.jobs| {
      if !db.jobs[from].status.Waiting? || from in out.locked {
        ScanSettled(cfg, out, busy, db, from + 1, k, t);
      } else {
        var (next, started) := Admit(cfg, out, busy, db, from);
        AdmitSettled(cfg, out, busy, db, from, k, t);
        if !started {
          ScanSettled(cfg, out, busy, next, from + 1, k, t);
        }
      }
    }
  }

  lemma AdmitSettled(cfg: Config, out: Outside, busy: Busy, db: Db, from: nat, k: nat, t: nat)
    requires WellFormed(db) && k < from < |db.jobs| && t < |db.tasks| && db.jobs[from].status.Waiting?
    ensures var next := Admit(cfg, out, busy, db, from).0;
            && k < |next.jobs| && next.jobs[k] == db.jobs[k] && t < |next.tasks|
            && (Stopped(db.tasks[t].state) ==> Stopped(next.tasks[t].state))
  {
    if Admit(cfg, out, busy, db, from).1 {
      AdmitStarts(cfg, out, busy, db, from);
    } else {
      AdmitSkips(cfg, out, busy, db, from);
    }
  }

  ghost function Claimed(cfg: Config, db: Db, step: Step): Option<(nat, nat)>
    requires WellFormed(db)
  {
    if step.ClaimStep? then Claim(cfg, step.out, db).1 else None
  }

  /** A claimed pair, and no other pair of its job, passes the fence that guards every later call. */
  lemma ClaimIsCurrent(cfg: Config, db: Db, step: Step)
    requires WellFormed(db) && cfg.leaseSeconds > 0 && Claimed(cfg, db, step).Some?
    ensures var (j, fence) := Claimed(cfg, db, step).value;
            && Current(Apply(cfg, db, step), j, fence)
            && forall f: nat | f != fence :: !Current(Apply(cfg, db, step), j, f)
  {
    ClaimReturns(cfg, step.out, db);
  }

  // ----- fencing -----

  /** The job of this pair has left `running`, was fenced again, belongs to an engine that is gone, or
      let its lease lapse. */
  predicate Dead(db: Db, j: nat, fence: nat) {
    j < |db.jobs| && db.jobs[j].fence >= fence
    && (db.jobs[j].fence == fence ==>
          !db.jobs[j].status.Running? || db.jobs[j].owner < db.owner || db.jobs[j].lease <= db.now)
  }

  lemma DeadClaim(cfg: Config, out: Outside, db: Db, j: nat, fence: nat)
    requires WellFormed(db) && Dead(db, j, fence)
    ensures Dead(Claim(cfg, out, db).0, j, fence)
  {
    if db.deployments == {} {
      ClaimReturns(cfg, out, db);
      assert SameJob(db.jobs[j], Requeue(db).jobs[j]);
      assert SameJob(Requeue(db).jobs[j], Claim(cfg, out, db).0.jobs[j]);
    }
  }

  lemma DeadStep(cfg: Config, db: Db, step: Step, j: nat, fence: nat)
    requires WellFormed(db) && Dead(db, j, fence)
    ensures Dead(Apply(cfg, db, step), j, fence)
  {
    match step
    case ClaimStep(out) => DeadClaim(cfg, out, db, j, fence);
    case HeartbeatStep(k, f) =>
    case DeployClaimStep(op) =>
    case _ =>
      StepCalm(cfg, db, step);
      assert SameJob(db.jobs[j], Apply(cfg, db, step).jobs[j]);
  }

  /** Such a pair never passes the fence again, whatever happens later. */
  lemma {:induction false} DeadForGood(cfg: Config, db: Db, steps: seq<Step>, j: nat, fence: nat)
    requires WellFormed(db) && Dead(db, j, fence)
    ensures Dead(After(cfg, db, steps), j, fence) && !Current(After(cfg, db, steps), j, fence)
    decreases |steps|
  {
    if steps != [] {
      DeadStep(cfg, db, steps[0], j, fence);
      DeadForGood(cfg, Apply(cfg, db, steps[0]), steps[1..], j, fence);
    }
  }

  /** `running` is entered only through a claim, which returns the job with a larger fence. */
  lemma OnlyClaimStarts(cfg: Config, db: Db, step: Step, j: nat)
    requires WellFormed(db)
    requires var jobs := Apply(cfg, db, step).jobs;
             j < |jobs| && jobs[j].status.Running?
             && (j < |db.jobs| ==> !db.jobs[j].status.Running? || db.jobs[j].fence != jobs[j].fence)
    ensures Claimed(cfg, db, step) == Some((j, Apply(cfg, db, step).jobs[j].fence))
    ensures j < |db.jobs| && Apply(cfg, db, step).jobs[j].fence > db.jobs[j].fence
  {
    match step
    case ClaimStep(out) =>
      if db.deployments == {} {
        ClaimReturns(cfg, out, db);
      }
      assert j < |db.jobs| && SameJob(db.jobs[j], Requeue(db).jobs[j]);
    case HeartbeatStep(k, f) =>
    case DeployClaimStep(op) =>
    case _ => StepCalm(cfg, db, step);
  }

  /** Every transaction of the dispatcher handles jobs with care. */
  lemma StepIsCareful(cfg: Config, db: Db, step: Step)
    requires WellFormed(db)
    ensures CarefulJobs(db.jobs, Apply(cfg, db, step).jobs)
  {
    var jobs := Apply(cfg, db, step).jobs;
    forall j | 0 <= j < |db.jobs| ensures Careful(db.jobs[j], jobs[j]) {
      assert SameJob(db.jobs[j], jobs[j]);
      if jobs[j].status.Running? && jobs[j].fence == db.jobs[j].fence && !db.jobs[j].status.Running? {
        OnlyClaimStarts(cfg, db, step, j);
      }
    }
  }

  /** How often a run hands out this pair. */
  ghost function Issued(cfg: Config, db: Db, steps: seq<Step>, j: nat, fence: nat): nat
    requires WellFormed(db)
    decreases |steps|
  {
    if steps == [] then 0
    else (if Claimed(cfg, db, steps[0]) == Some((j, fence)) then 1 else 0)
         + Issued(cfg, Apply(cfg, db, steps[0]), steps[1..], j, fence)
  }

  lemma ClaimRaises(cfg: Config, db: Db, step: Step)
    requires WellFormed(db) && Claimed(cfg, db, step).Some?
    ensures var (j, fence) := Claimed(cfg, db, step).value;
            j < |db.jobs| && db.jobs[j].fence < fence && j < |Apply(cfg, db, step).jobs|
            && Apply(cfg, db, step).jobs[j].fence == fence
  {
    ClaimReturns(cfg, step.out, db);
    var (j, fence) := Claimed(cfg, db, step).value;
    assert SameJob(db.jobs[j], Requeue(db).jobs[j]);
  }

  lemma {:induction false} PastFence(cfg: Config, db: Db, steps: seq<Step>, j: nat, fence: nat)
    requires WellFormed(db) && j < |db.jobs| && fence <= db.jobs[j].fence
    ensures Issued(cfg, db, steps, j, fence) == 0
    decreases |steps|
  {
    if steps != [] {
      if Claimed(cfg, db, steps[0]) == Some((j, fence)) {
        ClaimRaises(cfg, db, steps[0]);
      }
      assert SameJob(db.jobs[j], Apply(cfg, db, steps[0]).jobs[j]);
      PastFence(cfg, Apply(cfg, db, steps[0]), steps[1..], j, fence);
    }
  }

  /** No pair is handed out twice. */
  lemma {:induction false} IssuedOnce(cfg: Config, db: Db, steps: seq<Step>, j: nat, fence: nat)
    requires WellFormed(db)
    ensures Issued(cfg, db, steps, j, fence) <= 1
    decreases |steps|
  {
    if steps != [] {
      if Claimed(cfg, db, steps[0]) == Some((j, fence)) {
        ClaimRaises(cfg, db, steps[0]);
        PastFence(cfg, Apply(cfg, db, steps[0]), steps[1..], j, fence);
      } else {
        IssuedOnce(cfg, Apply(cfg, db, steps[0]), steps[1..], j, fence);
      }
    }
  }

  // ----- the model-call budget -----

  lemma {:induction false} RunExtends(cfg: Config, db: Db, steps: seq<Step>)
    requires WellFormed(db)
    ensures TasksExtend(db.tasks, After(cfg, db, steps).tasks)
    decreases |steps|
  {
    if steps != [] {
      var next := Apply(cfg, db, steps[0]);
      RunExtends(cfg, next, steps[1..]);
      forall t | 0 <= t < |db.tasks| ensures SameTask(db.tasks[t], After(cfg, db, steps).tasks[t]) {
        assert SameTask(db.tasks[t], next.tasks[t]);
      }
    }
  }

  predicate ClaimsTask(db: Db, claimed: Option<(nat, nat)>, t: nat) {
    claimed.Some? && claimed.value.0 < |db.jobs| && db.jobs[claimed.value.0].task == t
  }

  /** How often a run dispatches a job of this task. */
  ghost function Dispatches(cfg: Config, db: Db, steps: seq<Step>, t: nat): nat
    requires WellFormed(db)
    decreases |steps|
  {
    if steps == [] then 0
    else (if ClaimsTask(db, Claimed(cfg, db, steps[0]), t) then 1 else 0)
         + Dispatches(cfg, Apply(cfg, db, steps[0]), steps[1..], t)
  }

  /** A claim that returns a v2 job has raised the reservations of its task. */
  lemma ClaimReserves(cfg: Config, out: Outside, db: Db)
    requires WellFormed(db) && db.deployments == {} && Claim(cfg, out, db).1.Some?
    requires db.jobs[Claim(cfg, out, db).1.value.0].v2
    ensures var (r, result) := Claim(cfg, out, db);
            Spent(db.jobs[result.value.0].task, db.budgets, r.budgets)
  {
    ClaimReturns(cfg, out, db);
    var j := Claim(cfg, out, db).1.value.0;
    assert SameJob(db.jobs[j], Requeue(db).jobs[j]);
  }

  /** Every dispatch of a v2 task is paid for, so there are at most as many as the limit allows. */
  lemma {:induction false} DispatchBudget(cfg: Config, db: Db, steps: seq<Step>, t: nat)
    requires Inv(cfg, db) && t < |After(cfg, db, steps).tasks| && After(cfg, db, steps).tasks[t].v2
    ensures Dispatches(cfg, db, steps, t) + Reserved(db.budgets, t) <= Reserved(After(cfg, db, steps).budgets, t)
    ensures Reserved(After(cfg, db, steps).budgets, t) <= cfg.calls
    decreases |steps|
  {
    if steps != [] {
      var next := Apply(cfg, db, steps[0]);
      StepKeeps(cfg, db, steps[0]);
      DispatchBudget(cfg, next, steps[1..], t);
      if ClaimsTask(db, Claimed(cfg, db, steps[0]), t) {
        RunExtends(cfg, db, steps);
        assert SameTask(db.tasks[t], After(cfg, db, steps).tasks[t]);
        ClaimReserves(cfg, steps[0].out, db);
      }
    }
  }

  /** From the empty database: at most `model_calls_per_task` dispatches for every v2 task. */
  lemma DispatchesAreBounded(cfg: Config, db: Db, steps: seq<Step>, t: nat)
    requires Init(db) && t < |After(cfg, db, steps).tasks| && After(cfg, db, steps).tasks[t].v2
    ensures Dispatches(cfg, db, steps, t) <= cfg.calls
  {
    InitInv(cfg, db);
    DispatchBudget(cfg, db, steps, t);
  }

  // ----- where the obvious claim is false -----

  predicate PrivilegedConsult(cfg: Config, job: Job) {
    job.v2 && job.kind.Consult? && cfg.classOf(job.role).Privileged?
  }

  /** Admitting the waiting job `j` takes the jobs of privileged roles past their cap exactly when `j` is a
      consult of such a role and the count stands at the cap. */
  lemma PrivilegedOverCap(cfg: Config, out: Outside, busy: Busy, db: Db, j: nat)
    requires j < |db.jobs| && db.jobs[j].task < |db.tasks| && db.jobs[j].status.Waiting?
    requires Admit(cfg, out, busy, db, j).1
    requires Count(PrivilegedAny(cfg), db.jobs) <= busy.privileged
    requires Count(PrivilegedAny(cfg), db.jobs) <= cfg.privileged
    ensures Count(PrivilegedAny(cfg), Admit(cfg, out, busy, db, j).0.jobs) > cfg.privileged <==>
            PrivilegedConsult(cfg, db.jobs[j]) && Count(PrivilegedAny(cfg), db.jobs) == cfg.privileged
  {
    AdmitStarts(cfg, out, busy, db, j);
    CountUpdate(PrivilegedAny(cfg), db.jobs, j, StartedJob(cfg, db, j));
  }

  ghost predicate NoPrivilegedConsult(cfg: Config, jobs: seq<Job>) {
    forall j | 0 <= j < |jobs| :: !PrivilegedConsult(cfg, jobs[j])
  }

  lemma {:induction false} CountPrivileged(cfg: Config, jobs: seq<Job>)
    requires NoPrivilegedConsult(cfg, jobs)
    ensures Count(PrivilegedAny(cfg), jobs) == Count(PrivilegedWork(cfg), jobs)
  {
    if jobs != [] {
      assert !PrivilegedConsult(cfg, jobs[|jobs| - 1]);
      CountPrivileged(cfg, jobs[..|jobs| - 1]);
    }
  }

  lemma {:induction false} RunKeepsJobs(cfg: Config, db: Db, steps: seq<Step>)
    requires WellFormed(db)
    ensures JobsExtend(db.jobs, After(cfg, db, steps).jobs)
    decreases |steps|
  {
    if steps != [] {
      var next := Apply(cfg, db, steps[0]);
      RunKeepsJobs(cfg, next, steps[1..]);
      forall j | 0 <= j < |db.jobs| ensures SameJob(db.jobs[j], After(cfg, db, steps).jobs[j]) {
        assert SameJob(db.jobs[j], next.jobs[j]) && SameJob(next.jobs[j], After(cfg, db, steps).jobs[j]);
      }
    }
  }

  lemma {:induction false} AfterPrefix(cfg: Config, db: Db, steps: seq<Step>, k: nat)
    requires WellFormed(db) && k <= |steps|
    ensures After(cfg, db, steps) == After(cfg, After(cfg, db, steps[..k]), steps[k..])
    decreases k
  {
    if k == 0 {
      assert steps[..0] == [] && steps[0..] == steps;
    } else {
      AfterPrefix(cfg, Apply(cfg, db, steps[0]), steps[1..], k - 1);
      assert steps[..k][0] == steps[0] && steps[..k][1..] == steps[1..][..k - 1];
      assert steps[1..][k - 1..] == steps[k..];
    }
  }

  /** If nobody ever enqueues a consult of a privileged role, the jobs of privileged roles stay within
      their cap in every state of the run. */
  lemma CappedWithoutConsults(cfg: Config, db: Db, steps: seq<Step>, k: nat)
    requires Init(db) && k <= |steps| && NoPrivilegedConsult(cfg, After(cfg, db, steps).jobs)
    ensures Count(PrivilegedAny(cfg), After(cfg, db, steps[..k]).jobs) <= cfg.privileged
  {
    var mid := After(cfg, db, steps[..k]);
    AfterPrefix(cfg, db, steps, k);
    RunKeepsJobs(cfg, mid, steps[k..]);
    forall j | 0 <= j < |mid.jobs| ensures !PrivilegedConsult(cfg, mid.jobs[j]) {
      assert SameJob(mid.jobs[j], After(cfg, db, steps).jobs[j]);
    }
    CountPrivileged(cfg, mid.jobs);
    CapsHold(cfg, db, steps[..k], "");
  }

  /** A writer that fails gives its row back, and whoever takes the repository next starts at fence 1
      again; only a row that is still there counts on. */
  lemma LeaseFenceRestarts(cfg: Config, db: Db, j: nat, fence: nat, error: Failure, k: nat)
    requires Inv(cfg, db) && Current(db, j, fence) && Writer(cfg, db.jobs[j])
    requires k < |Fail(cfg, db, j, fence, error).jobs| && Repo(Fail(cfg, db, j, fence, error), k) == Repo(db, j)
    ensures TakeLease(cfg, Fail(cfg, db, j, fence, error), k).leases[Repo(db, j)].fence == 1
  {
  }

  /** A job that takes over a row gets the next fence; a row that is gone starts again at 1. */
  lemma AdmitRow(cfg: Config, out: Outside, busy: Busy, db: Db, j: nat, r: string)
    requires j < |db.jobs| && db.jobs[j].task < |db.tasks| && r in Admit(cfg, out, busy, db, j).0.leases
    ensures var next := Admit(cfg, out, busy, db, j).0;
            if r !in db.leases then next.leases[r].fence == 1
            else next.leases[r] == db.leases[r] || next.leases[r].fence == db.leases[r].fence + 1
  {
    var leased := if NeedsLease(cfg, db.jobs[j]) then TakeLease(cfg, db, j) else db;
    DispatchRows(cfg, out, leased, j, r);
  }

  lemma DispatchRows(cfg: Config, out: Outside, db: Db, j: nat, r: string)
    requires j < |db.jobs| && db.jobs[j].task < |db.tasks|
    ensures var next := Dispatch(cfg, out, db, j).0;
            r in next.leases ==> r in db.leases && next.leases[r] == db.leases[r]
  {
    var charged := if db.jobs[j].v2 && db.jobs[j].task in db.budgets then Charged(db, j) else db;
    RefuseRows(db, j, r);
    RefuseRows(charged, j, r);
    StartRows(cfg, charged, j, r);
  }

  lemma RefuseRows(db: Db, j: nat, r: string)
    requires j < |db.jobs| && db.jobs[j].task < |db.tasks|
    ensures var next := Refuse(db, j, Dropped);
            r in next.leases ==> r in db.leases && next.leases[r] == db.leases[r]
  {
  }

  lemma StartRows(cfg: Config, db: Db, j: nat, r: string)
    requires j < |db.jobs| && db.jobs[j].task < |db.tasks|
    ensures var next := Start(cfg, db, j).0;
            r in next.leases ==> r in db.leases && next.leases[r] == db.leases[r]
  {
  }

  /** Does the scan delete the row of `r` on its way, even if it takes the repository again later? */
  ghost predicate ScanDrops(cfg: Config, out: Outside, busy: Busy, db: Db, from: nat, r: string)
    requires WellFormed(db)
    decreases |db.jobs| - from
  {
    from < |db.jobs|
    && if !db.jobs[from].status.Waiting? || from in out.locked then ScanDrops(cfg, out, busy, db, from + 1, r)
       else
         var (next, started) := Admit(cfg, out, busy, db, from);
         (r in db.leases && r !in next.leases) || (!started && ScanDrops(cfg, out, busy, next, from + 1, r))
  }

  lemma {:induction false} ScanRow(cfg: Config, out: Outside, busy: Busy, db: Db, from: nat, r: string)
    requires WellFormed(db) && r in db.leases && !ScanDrops(cfg, out, busy, db, from, r)
    ensures var leases := Scan(cfg, out, busy, db, from).0.leases;
            r in leases && leases[r].fence >= db.leases[r].fence
    decreases |db.jobs| - from
  {
    if from < |db.jobs| {
      if !db.jobs[from].status.Waiting? || from in out.locked {
        ScanRow(cfg, out, busy, db, from + 1, r);
      } else {
        var (next, started) := Admit(cfg, out, busy, db, from);
        AdmitRow(cfg, out, busy, db, from, r);
        if !started {
          ScanRow(cfg, out, busy, next, from + 1, r);
        }
      }
    }
  }

  /** Does this step delete the row of `r`? */
  ghost predicate Deletes(cfg: Config, db: Db, step: Step, r: string)
    requires WellFormed(db)
  {
    if step.ClaimStep? then
      db.deployments == {} && ScanDrops(cfg, step.out, BusyOf(cfg, Requeue(db)), Requeue(db), 0, r)
    else r in db.leases && r !in Apply(cfg, db, step).leases
  }

  ghost predicate EverDeletes(cfg: Config, db: Db, steps: seq<Step>, r: string)
    requires WellFormed(db)
    decreases |steps|
  {
    steps != [] && (Deletes(cfg, db, steps[0], r) || EverDeletes(cfg, Apply(cfg, db, steps[0]), steps[1..], r))
  }

  lemma StepRow(cfg: Config, db: Db, step: Step, r: string)
    requires WellFormed(db) && r in db.leases && !Deletes(cfg, db, step, r)
    ensures var leases := Apply(cfg, db, step).leases; r in leases && leases[r].fence >= db.leases[r].fence
  {
    if step.ClaimStep? {
      if db.deployments == {} {
        ScanRow(cfg, step.out, BusyOf(cfg, Requeue(db)), Requeue(db), 0, r);
      }
    } else if StartsNothing(step) {
      StepCalm(cfg, db, step);
    }
  }

  /** Over any run the fence of a repository's lease falls only if the row was deleted in between. */
  lemma {:induction false} LeaseFenceKept(cfg: Config, db: Db, steps: seq<Step>, r: string)
    requires WellFormed(db) && r in db.leases && !EverDeletes(cfg, db, steps, r)
    ensures var leases := After(cfg, db, steps).leases; r in leases && leases[r].fence >= db.leases[r].fence
    decreases |steps|
  {
    if steps != [] {
      StepRow(cfg, db, steps[0], r);
      LeaseFenceKept(cfg, Apply(cfg, db, steps[0]), steps[1..], r);
    }
  }

  /** A scan that finds no row, or deletes it on its way, can only leave one that starts at 1. */
  lemma {:induction false} ScanFresh(cfg: Config, out: Outside, busy: Busy, db: Db, from: nat, r: string)
    requires WellFormed(db) && (r !in db.leases || ScanDrops(cfg, out, busy, db, from, r))
    ensures var leases := Scan(cfg, out, busy, db, from).0.leases; r in leases ==> leases[r].fence == 1
    decreases |db.jobs| - from
  {
    if from < |db.jobs| {
      if !db.jobs[from].status.Waiting? || from in out.locked {
        ScanFresh(cfg, out, busy, db, from + 1, r);
      } else {
        var (next, started) := Admit(cfg, out, busy, db, from);
        if r in next.leases {
          AdmitRow(cfg, out, busy, db, from, r);
        }
        if !started {
          AdmitStops(cfg, out, busy, db, from, r);
          ScanFresh(cfg, out, busy, next, from + 1, r);
        }
      }
    }
  }

  /** A job that is not started leaves no new row. */
  lemma AdmitStops(cfg: Config, out: Outside, busy: Busy, db: Db, j: nat, r: string)
    requires j < |db.jobs| && db.jobs[j].task < |db.tasks| && !Admit(cfg, out, busy, db, j).1
    ensures r !in db.leases ==> r !in Admit(cfg, out, busy, db, j).0.leases
  {
    var leased := if NeedsLease(cfg, db.jobs[j]) then TakeLease(cfg, db, j) else db;
    var (next, started) := Dispatch(cfg, out, leased, j);
    if !started && r in next.leases {
      DispatchStops(cfg, out, leased, j, r);
    }
  }

  lemma DispatchStops(cfg: Config, out: Outside, db: Db, j: nat, r: string)
    requires j < |db.jobs| && db.jobs[j].task < |db.tasks| && !Dispatch(cfg, out, db, j).1
    requires r in Dispatch(cfg, out, db, j).0.leases
    ensures r in db.leases && !(r == Repo(db, j) && db.leases[r].job == j && db.leases[r].owner == db.owner)
  {
  }

  lemma StepFresh(cfg: Config, db: Db, step: Step, r: string)
    requires WellFormed(db) && (r !in db.leases || Deletes(cfg, db, step, r)) && r in Apply(cfg, db, step).leases
    ensures Apply(cfg, db, step).leases[r].fence == 1
  {
    if step.ClaimStep? {
      if db.deployments == {} {
        ScanFresh(cfg, step.out, BusyOf(cfg, Requeue(db)), Requeue(db), 0, r);
      }
    } else if StartsNothing(step) {
      StepCalm(cfg, db, step);
    }
  }

  /** Does this step take the repository: a new row, or the next fence in the old one? */
  ghost predicate Takes(cfg: Config, db: Db, step: Step, r: string)
    requires WellFormed(db)
  {
    var leases := Apply(cfg, db, step).leases;
    r in leases && (r !in db.leases || Deletes(cfg, db, step, r) || leases[r].fence != db.leases[r].fence)
  }

  ghost predicate NeverTakes(cfg: Config, db: Db, steps: seq<Step>, r: string)
    requires WellFormed(db)
    decreases |steps|
  {
    steps == [] || (!Takes(cfg, db, steps[0], r) && NeverTakes(cfg, Apply(cfg, db, steps[0]), steps[1..], r))
  }

  lemma {:induction false} NextTakeOfNone(cfg: Config, db: Db, steps: seq<Step>, last: Step, r: string)
    requires WellFormed(db) && r !in db.leases && NeverTakes(cfg, db, steps, r)
    requires Takes(cfg, After(cfg, db, steps), last, r)
    ensures Apply(cfg, After(cfg, db, steps), last).leases[r].fence == 1
    decreases |steps|
  {
    if steps == [] {
      StepFresh(cfg, db, last, r);
    } else {
      NextTakeOfNone(cfg, Apply(cfg, db, steps[0]), steps[1..], last, r);
    }
  }

  lemma TakeIff(cfg: Config, db: Db, step: Step, r: string)
    requires WellFormed(db) && r in db.leases && db.leases[r].fence >= 1 && Takes(cfg, db, step, r)
    ensures Apply(cfg, db, step).leases[r].fence > db.leases[r].fence <==> !Deletes(cfg, db, step, r)
  {
    if Deletes(cfg, db, step, r) {
      StepFresh(cfg, db, step, r);
    } else {
      StepRow(cfg, db, step, r);
    }
  }

  /** Between one take of a repository and the next, the fence of its lease grows exactly when no step
      deleted the row. */
  lemma {:induction false} NextTakeIff(cfg: Config, db: Db, steps: seq<Step>, last: Step, r: string)
    requires WellFormed(db) && r in db.leases && db.leases[r].fence >= 1 && NeverTakes(cfg, db, steps, r)
    requires Takes(cfg, After(cfg, db, steps), last, r)
    ensures Apply(cfg, After(cfg, db, steps), last).leases[r].fence > db.leases[r].fence <==>
            !EverDeletes(cfg, db, steps + [last], r)
    decreases |steps|
  {
    if steps == [] {
      assert [] + [last] == [last] && [last][1..] == [];
      TakeIff(cfg, db, last, r);
    } else {
      var next := Apply(cfg, db, steps[0]);
      assert (steps + [last])[1..] == steps[1..] + [last];
      if r in next.leases {
        NextTakeIff(cfg, next, steps[1..], last, r);
      } else {
        assert Deletes(cfg, db, steps[0], r) by {
          if !Deletes(cfg, db, steps[0], r) {
            StepRow(cfg, db, steps[0], r);
          }
        }
        NextTakeOfNone(cfg, next, steps[1..], last, r);
      }
    }
  }

  lemma StallStops(db: Db, t: nat)
    requires WellFormed(db) && t < |db.tasks| && db.tasks[t].v2 && Recoverable(db.tasks[t].state)
    requires Newest(db.jobs, t).Some?
    ensures RecoverStalled(db, t).tasks[t].state == Blocked <==> db.tasks[t].stalledAt == Some(db.tasks[t].stateVersion)
  {
  }

  /** The claim that starts the only active job of a task: it counts a move of the task exactly when the job
      is an implementation or a fix. */
  lemma OnlyJobStarts(cfg: Config, db: Db, out: Outside, t: nat, k: nat)
    requires WellFormed(db) && db.deployments == {} && t < |db.tasks| && Recoverable(db.tasks[t].state)
    requires k < |db.jobs| && Active(db.jobs[k], t) && forall j | 0 <= j < |db.jobs| && j != k :: !Active(db.jobs[j], t)
    requires ClaimsTask(db, Claim(cfg, out, db).1, t)
    ensures var r := Claim(cfg, out, db).0;
            && t < |r.tasks| && r.tasks[t].v2 == db.tasks[t].v2 && r.tasks[t].stalledAt == db.tasks[t].stalledAt
            && Recoverable(r.tasks[t].state) && Newest(r.jobs, t).Some?
            && (r.tasks[t].stateVersion == db.tasks[t].stateVersion <==> db.jobs[k].kind !in {Implement, Fix})
  {
    ClaimReturns(cfg, out, db);
    assert Active(Claim(cfg, out, db).0.jobs[k], t);
  }

  /** A task that was silent once has been retried, `k` is its only active job, and a claim has started it.
      If it is silent again, the task stops exactly when `k` is neither an implementation nor a fix:
      starting those moves the version that recorded the retry, and only the budget ends their retries. */
  lemma SecondStall(cfg: Config, db: Db, out: Outside, t: nat, k: nat)
    requires WellFormed(db) && db.deployments == {} && t < |db.tasks| && db.tasks[t].v2
    requires Recoverable(db.tasks[t].state) && db.tasks[t].stalledAt == Some(db.tasks[t].stateVersion)
    requires k < |db.jobs| && Active(db.jobs[k], t) && forall j | 0 <= j < |db.jobs| && j != k :: !Active(db.jobs[j], t)
    requires ClaimsTask(db, Claim(cfg, out, db).1, t)
    ensures RecoverStalled(Claim(cfg, out, db).0, t).tasks[t].state == Blocked <==>
            db.jobs[k].kind !in {Implement, Fix}
  {
    OnlyJobStarts(cfg, db, out, t, k);
    StallStops(Claim(cfg, out, db).0, t);
  }

  const NOTHING := Identity(true, "", 0, "", "", Some(""))

  function RunningConsult(cfg: Config, role: string): Job {
    Job(0, true, role, Consult, Running, 1, 1, cfg.leaseSeconds, 1, NewData(NOTHING))
  }

  /** One v2 task, and `n` consults of one role that have been started at time 0. */
  function Consulting(cfg: Config, role: string, n: nat): Db {
    Db(0, 1, [Task(true, "repo", PlanningImplementation, 0, NOTHING, None)], seq(n, _ => RunningConsult(cfg, role)),
       map[], map[0 := n], {})
  }

  lemma ScanSkips(cfg: Config, out: Outside, busy: Busy, db: Db, from: nat)
    requires WellFormed(db) && from < |db.jobs| && !db.jobs[from].status.Waiting?
    ensures Scan(cfg, out, busy, db, from) == Scan(cfg, out, busy, db, from + 1)
  {
  }

  /** A scan passes over running jobs: it returns what it returns from behind them. */
  lemma {:induction false} SkipRunning(cfg: Config, out: Outside, busy: Busy, db: Db, from: nat, to: nat,
                                       r: (Db, Option<(nat, nat)>))
    requires WellFormed(db) && from <= to <= |db.jobs| && Scan(cfg, out, busy, db, to) == r
    requires forall j | from <= j < to :: db.jobs[j].status.Running?
    ensures Scan(cfg, out, busy, db, from) == r
    decreases |db.jobs| - from
  {
    if from < to {
      SkipRunning(cfg, out, busy, db, from + 1, to, r);
      ScanSkips(cfg, out, busy, db, from);
    }
  }

  /** The same, with one more consult in the queue. */
  ghost function Asking(cfg: Config, role: string, n: nat): Db {
    Apply(cfg, Consulting(cfg, role, n), Enqueue(0, Consult, role, NOTHING))
  }

  lemma AdmitConsult(cfg: Config, out: Outside, busy: Busy, role: string, n: nat)
    requires cfg.classOf(role).Privileged? && busy.normal < cfg.normal && n < cfg.calls && n !in out.overspent
    ensures Admit(cfg, out, busy, Asking(cfg, role, n), n) == (Consulting(cfg, role, n + 1), true)
  {
    var db := Asking(cfg, role, n);
    assert db.jobs[n := StartedJob(cfg, db, n)] == Consulting(cfg, role, n + 1).jobs;
    assert db.budgets[0 := n + 1] == Consulting(cfg, role, n + 1).budgets;
    assert Dispatch(cfg, out, db, n) == Start(cfg, Charged(db, n), n);
  }

  lemma AskingIsSwept(cfg: Config, role: string, n: nat)
    requires cfg.classOf(role).Privileged?
    ensures var db := Asking(cfg, role, n); Requeue(db) == db && BusyOf(cfg, db).normal == 0
  {
    var db := Asking(cfg, role, n);
    assert Requeue(db).jobs == db.jobs;
    CountNone(Normal(cfg), db.jobs);
  }

  /** One more consult is claimed, however many privileged jobs run already. */
  lemma OneMoreConsult(cfg: Config, role: string, n: nat)
    requires cfg.classOf(role).Privileged? && cfg.normal > 0 && n < cfg.calls
    ensures Apply(cfg, Asking(cfg, role, n), ClaimStep(Outside({}, {}))) == Consulting(cfg, role, n + 1)
  {
    AskingIsSwept(cfg, role, n);
    ScanConsult(cfg, Outside({}, {}), BusyOf(cfg, Asking(cfg, role, n)), role, n);
  }

  lemma ScanConsult(cfg: Config, out: Outside, busy: Busy, role: string, n: nat)
    requires cfg.classOf(role).Privileged? && busy.normal < cfg.normal && n < cfg.calls
    requires out.locked == out.overspent == {}
    ensures Scan(cfg, out, busy, Asking(cfg, role, n), 0).0 == Consulting(cfg, role, n + 1)
  {
    SkipRunning(cfg, out, busy, Asking(cfg, role, n), 0, n, Scan(cfg, out, busy, Asking(cfg, role, n), n));
    AdmitConsult(cfg, out, busy, role, n);
  }

  lemma {:induction false} AfterOneMore(cfg: Config, db: Db, steps: seq<Step>, last: Step)
    requires WellFormed(db)
    ensures After(cfg, db, steps + [last]) == Apply(cfg, After(cfg, db, steps), last)
    decreases |steps|
  {
    if steps == [] {
      assert [last][1..] == [];
    } else {
      assert (steps + [last])[1..] == steps[1..] + [last];
      AfterOneMore(cfg, Apply(cfg, db, steps[0]), steps[1..], last);
    }
  }

  lemma {:induction false} CountConsults(cfg: Config, role: string, n: nat)
    requires cfg.classOf(role).Privileged?
    ensures Count(PrivilegedAny(cfg), Consulting(cfg, role, n).jobs) == n
  {
    if n > 0 {
      assert Consulting(cfg, role, n).jobs[..n - 1] == Consulting(cfg, role, n - 1).jobs;
      CountConsults(cfg, role, n - 1);
    }
  }

  /** No cap holds for consults of a privileged role: the budget of one task is the only limit. */
  lemma {:induction false} ConsultsUncapped(cfg: Config, role: string, n: nat) returns (steps: seq<Step>)
    requires cfg.classOf(role).Privileged? && cfg.normal > 0 && n <= cfg.calls
    ensures var db := After(cfg, Db(0, 1, [], [], map[], map[], {}), steps);
            db == Consulting(cfg, role, n) && Count(PrivilegedAny(cfg), db.jobs) == n
  {
    var empty := Db(0, 1, [], [], map[], map[], {});
    CountConsults(cfg, role, n);
    if n == 0 {
      steps := [NewTask(true, "repo", PlanningImplementation)];
      AfterOneMore(cfg, empty, [], steps[0]);
      assert [] + steps == steps;
    } else {
      steps := ConsultsUncapped(cfg, role, n - 1);
      AfterOneMore(cfg, empty, steps, Enqueue(0, Consult, role, NOTHING));
      AfterOneMore(cfg, empty, steps + [Enqueue(0, Consult, role, NOTHING)], ClaimStep(Outside({}, {})));
      steps := steps + [Enqueue(0, Consult, role, NOTHING)] + [ClaimStep(Outside({}, {}))];
      OneMoreConsult(cfg, role, n - 1);
    }
  }

  // ----- no work is lost in silence -----

  /** A job of this task, kind and identity that waits in the queue. */
  predicate Waits(job: Job, t: nat, kind: Kind, identity: Identity) {
    job.task == t && job.kind == kind && job.data.identity == identity && job.status.Waiting?
  }

  ghost predicate GoesOn(db: Db, t: nat, kind: Kind, identity: Identity) {
    (t < |db.tasks| && db.tasks[t].state == Blocked)
    || exists j :: 0 <= j < |db.jobs| && Waits(db.jobs[j], t, kind, identity)
  }

  lemma SettleGoesOn(cfg: Config, db: Db, j: nat, error: Failure)
    requires j < |db.jobs| && db.jobs[j].task < |db.tasks|
    ensures GoesOn(Settle(cfg, db, j, error), db.jobs[j].task, db.jobs[j].kind, db.jobs[j].data.identity)
  {
    var r, job := Settle(cfg, db, j, error), db.jobs[j];
    if r.tasks[job.task].state != Blocked {
      var k := if r.jobs[j].status.Waiting? then j else |db.jobs|;
      assert Waits(r.jobs[k], job.task, job.kind, job.data.identity);
    }
  }

  lemma SettleFrees(cfg: Config, db: Db, j: nat, fence: nat, error: Failure)
    requires Inv(cfg, db) && Current(db, j, fence)
    ensures var r := Settle(cfg, db, j, error);
            Dead(r, j, fence) && (Repo(db, j) in r.leases ==> r.leases[Repo(db, j)].job != j)
  {
    HolderIsOwner(cfg, db, j);
  }

  /** After an accepted failure the work waits again, with this role or with its fallback, or its task is
      stopped; the failed pair is dead in any case, and its repository is free. */
  lemma FailureGoesOn(cfg: Config, db: Db, j: nat, fence: nat, error: Failure)
    requires Inv(cfg, db) && Current(db, j, fence)
    ensures var r := Fail(cfg, db, j, fence, error);
            && GoesOn(r, db.jobs[j].task, db.jobs[j].kind, db.jobs[j].data.identity) && Dead(r, j, fence)
            && (Repo(db, j) in r.leases ==> r.leases[Repo(db, j)].job != j)
  {
    SettleGoesOn(cfg, db, j, error);
    SettleFrees(cfg, db, j, fence, error);
  }

  /** After a stalled recovery the task is stopped or has exactly one active job: the newest one's work,
      waiting under the task's present identity. */
  lemma RecoveryGoesOn(db: Db, t: nat)
    requires WellFormed(db) && t < |db.tasks| && db.tasks[t].v2 && Recoverable(db.tasks[t].state)
    requires Newest(db.jobs, t).Some?
    ensures var r, newest := RecoverStalled(db, t), db.jobs[Newest(db.jobs, t).value];
            if r.tasks[t].state == Blocked then forall j | 0 <= j < |r.jobs| :: !Active(r.jobs[j], t)
            else |r.jobs| == |db.jobs| + 1 && Waits(r.jobs[|db.jobs|], t, newest.kind, db.tasks[t].identity)
                 && r.jobs[|db.jobs|].role == newest.role
                 && forall j | 0 <= j < |db.jobs| :: !Active(r.jobs[j], t)
  {
  }

  /** A worker that keeps beating keeps its pair, with a fresh lease. */
  lemma BeatStays(cfg: Config, db: Db, j: nat, fence: nat)
    requires Current(db, j, fence) && cfg.leaseSeconds > 0
    ensures var r := Heartbeat(cfg, db, j, fence);
            Current(r, j, fence) && r.jobs[j].lease == db.now + cfg.leaseSeconds
  {
  }
}
