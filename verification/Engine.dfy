/** The transactions of src/agent_team/engine.py (and of service.py) that move jobs, as methods over the
    tables they write. Each is proved to do the step of the dispatcher that specifies it. */
module Engine {
  import opened Wrappers
  import opened Domain
  import opened Dispatcher
  import opened DispatcherSafety
  import opened DispatcherServes

  /** What a loop that rewrites a table row by row has done before it reaches row `i`. */
  function Before<T>(after: seq<T>, was: seq<T>, i: nat): (now: seq<T>)
    requires |after| == |was| && i <= |was|
    ensures |now| == |was| && (i < |was| ==> now[i] == was[i])
  {
    after[..i] + was[i..]
  }

  lemma NextRow<T>(after: seq<T>, was: seq<T>, i: nat)
    requires |after| == |was| && i < |was|
    ensures Before(after, was, i + 1) == Before(after, was, i)[i := after[i]]
    ensures after[i] == was[i] ==> Before(after, was, i + 1) == Before(after, was, i)
  {
  }

  lemma AllRows<T>(after: seq<T>, was: seq<T>)
    requires |after| == |was|
    ensures Before(after, was, 0) == was && Before(after, was, |was|) == after
  {
  }

  lemma StopIsRelease(db: Db, j: nat, job: Job)
    requires j < |db.jobs| && db.jobs[j].task < |db.tasks| && SameJob(db.jobs[j], job)
    ensures Stop(db, j, job) == SetJob(Release(db, j), j, job)
  {
  }

  lemma OthersStay(jobs: seq<Job>, leases: map<string, Lease>, t: nat)
    ensures OthersLeases(InvalidateJobs(jobs, t), leases, t) == OthersLeases(jobs, leases, t)
  {
  }

  /** Releasing row by row reaches the rows that recover_stalled_v2 deletes. */
  lemma ReleaseNext(cfg: Config, db: Db, t: nat, i: nat)
    requires WellFormed(db) && LeasesPlaced(cfg, db.tasks, db.jobs, db.leases) && i < |db.jobs|
    ensures ReleasedBefore(db, t, i + 1) == if Active(db.jobs[i], t)
              then WithoutRow(ReleasedBefore(db, t, i), Repo(db, i), i, db.owner) else ReleasedBefore(db, t, i)
  {
    assert forall r | r in db.leases && db.leases[r].job == i :: r == Repo(db, i);
  }

  /** One turn of that loop. */
  function Drop(db: Db, t: nat, i: nat): Db
    requires i < |db.jobs| && db.jobs[i].task < |db.tasks|
  {
    if !Active(db.jobs[i], t) then db
    else Stop(db, i, db.jobs[i].(status := Dropped, fence := db.jobs[i].fence + 1))
  }

  function DropBefore(db: Db, t: nat, i: nat): Db
    requires i <= |db.jobs|
  {
    db.(jobs := Before(InvalidateJobs(db.jobs, t), db.jobs, i), leases := ReleasedBefore(db, t, i))
  }

  lemma DropBeforeEnds(db: Db, t: nat)
    ensures DropBefore(db, t, 0) == db && DropBefore(db, t, |db.jobs|) == DropActive(db, t)
  {
    AllRows(InvalidateJobs(db.jobs, t), db.jobs);
    assert ReleasedBefore(db, t, 0) == db.leases;
  }

  lemma DropOneMore(cfg: Config, db: Db, t: nat, i: nat)
    requires WellFormed(db) && LeasesPlaced(cfg, db.tasks, db.jobs, db.leases) && i < |db.jobs|
    ensures var mid := DropBefore(db, t, i);
            i < |mid.jobs| == |db.jobs| && mid.jobs[i] == db.jobs[i] && Drop(mid, t, i) == DropBefore(db, t, i + 1)
  {
    NextRow(InvalidateJobs(db.jobs, t), db.jobs, i);
    ReleaseNext(cfg, db, t, i);
    var mid := DropBefore(db, t, i);
    if Active(db.jobs[i], t) {
      assert Drop(mid, t, i).leases == WithoutRow(mid.leases, Repo(db, i), i, db.owner);
    }
  }

  class Engine {
    const cfg: Config
    var now: int
    var owner: nat
    var tasks: seq<Task>
    var jobs: seq<Job>
    var leases: map<string, Lease>
    var budgets: map<nat, nat>
    var deployments: set<nat>

    ghost function View(): Db
      reads this
    {
      Db(now, owner, tasks, jobs, leases, budgets, deployments)
    }

    ghost predicate Valid()
      reads this
    {
      Inv(cfg, View())
    }

    constructor (cfg: Config, now: int)
      ensures Valid() && this.cfg == cfg
      ensures View() == Db(now, 1, [], [], map[], map[], {})
    {
      this.cfg, this.now, this.owner := cfg, now, 1;
      tasks, jobs, leases, budgets, deployments := [], [], map[], map[], {};
      new;
      CountNone(Normal(cfg), jobs);
      CountNone(PrivilegedWork(cfg), jobs);
      CountNone(V1(), jobs);
      forall role ensures Count(V1In(role), jobs) <= 1 {
        CountNone(V1In(role), jobs);
      }
    }

    method Move(t: nat, state: TaskState)
      requires t < |tasks|
      modifies `tasks
      ensures View() == Transition(old(View()), t, state)
    {
      tasks := tasks[t := tasks[t].(state := state, stateVersion := tasks[t].stateVersion + 1)];
    }

    method ReleaseLease(j: nat)
      requires j < |jobs| && jobs[j].task < |tasks|
      modifies `leases
      ensures View() == Release(old(View()), j)
    {
      var r := tasks[jobs[j].task].repository;
      if r in leases {
        var lease := leases[r];
        if lease.job == j && lease.owner == owner {
          leases := leases - {r};
        }
      }
    }

    method Acquire(j: nat) returns (free: bool)
      requires j < |jobs| && jobs[j].task < |tasks|
      modifies `leases
      ensures free == (Repo(View(), j) !in old(leases) || old(leases)[Repo(View(), j)].job == j
                       || old(leases)[Repo(View(), j)].expires < now)
      ensures View() == if free then TakeLease(cfg, old(View()), j) else old(View())
    {
      var r, until := tasks[jobs[j].task].repository, now + cfg.leaseSeconds;
      if r in leases {
        var lease := leases[r];
        if lease.expires >= now && lease.job != j {
          return false;
        }
        leases := leases[r := Lease(j, owner, lease.fence + 1, until)];
      } else {
        leases := leases[r := Lease(j, owner, 1, until)];
      }
      return true;
    }

    method StopTask(j: nat, status: JobStatus)
      requires j < |jobs| && jobs[j].task < |tasks|
      modifies `jobs, `leases, `tasks
      ensures View() == Refuse(old(View()), j, status)
    {
      jobs := jobs[j := jobs[j].(status := status)];
      ReleaseLease(j);
      Move(jobs[j].task, Blocked);
    }

    /** The last part of an admission. */
    method StartJob(j: nat) returns (started: bool)
      requires j < |jobs| && jobs[j].task < |tasks|
      modifies `jobs, `leases, `tasks
      ensures (View(), started) == Start(cfg, old(View()), j)
    {
      var job := jobs[j];
      jobs := jobs[j := job.(status := Running, owner := owner, fence := job.fence + 1, attempt := job.attempt + 1,
                             lease := now + cfg.leaseSeconds)];
      if jobs[j].attempt > 3 {
        StopTask(j, Failed);
        return false;
      }
      if job.kind == Implement {
        Move(job.task, Implementing);
      } else if job.kind == Fix {
        Move(job.task, Fixing);
      }
      return true;
    }

    method DispatchJob(out: Outside, j: nat) returns (started: bool)
      requires j < |jobs| && jobs[j].task < |tasks|
      modifies `jobs, `leases, `tasks, `budgets
      ensures (View(), started) == Dispatch(cfg, out, old(View()), j)
    {
      var job := jobs[j];
      if job.v2 {
        if job.task !in budgets || budgets[job.task] >= cfg.calls {
          StopTask(j, Dropped);
          return false;
        }
        budgets := budgets[job.task := budgets[job.task] + 1];
      }
      if j in out.overspent {
        StopTask(j, Dropped);
        return false;
      }
      started := StartJob(j);
    }

    method AdmitJob(out: Outside, busy: Busy, j: nat) returns (started: bool)
      requires j < |jobs| && jobs[j].task < |tasks|
      modifies `jobs, `leases, `tasks, `budgets
      ensures (View(), started) == Admit(cfg, out, busy, old(View()), j)
    {
      var job := jobs[j];
      if Stopped(tasks[job.task].state) {
        return false;
      }
      if !IdentityCurrent(tasks[job.task], job) {
        jobs := jobs[j := job.(status := Dropped)];
        return false;
      }
      if !job.v2 {
        if job.role in busy.roles || (cfg.chatgpt && busy.roles != {}) {
          return false;
        }
      } else {
        var parallel := if job.kind == Consult then ReadOnly else cfg.classOf(job.role);
        if parallel == Privileged {
          if busy.privileged >= cfg.privileged {
            return false;
          }
        } else if busy.normal >= cfg.normal {
          return false;
        }
        if parallel == RepositoryWrite {
          var free := Acquire(j);
          if !free {
            return false;
          }
        }
      }
      started := DispatchJob(out, j);
    }

    method Sweep()
      modifies `jobs
      ensures View() == Requeue(old(View()))
    {
      ghost var was, after := jobs, Requeue(View()).jobs;
      var i := 0;
      while i < |jobs|
        invariant i <= |jobs| == |was|
        invariant forall k | 0 <= k < i :: jobs[k] == after[k]
        invariant forall k | i <= k < |jobs| :: jobs[k] == was[k]
      {
        if jobs[i].status == Running && jobs[i].lease < now {
          jobs := jobs[i := jobs[i].(fence := jobs[i].fence + 1, status := Waiting)];
        }
        i := i + 1;
      }
      assert jobs == after;
    }

    /** The loop over the queue, in order of creation. */
    method ScanQueue(out: Outside, busy: Busy) returns (claimed: Option<(nat, nat)>)
      requires WellFormed(View())
      modifies `jobs, `leases, `tasks, `budgets
      ensures (View(), claimed) == Scan(cfg, out, busy, old(View()), 0)
    {
      ghost var result := Scan(cfg, out, busy, View(), 0);
      var j := 0;
      while j < |jobs|
        invariant j <= |jobs| && WellFormed(View())
        invariant Scan(cfg, out, busy, View(), j) == result
      {
        if jobs[j].status == Waiting && j !in out.locked {
          var started := AdmitJob(out, busy, j);
          if started {
            return Some((j, jobs[j].fence));
          }
        }
        j := j + 1;
      }
      return None;
    }

    lemma ServesInOrder(out: Outside, db: Db)
      requires Inv(cfg, db)
      ensures db.deployments == {} ==>
                forall k: nat | k < |db.jobs| && AllPassed(cfg, out, SweptRows(db), k) ::
                  Answers(cfg, out, SweptRows(db), k, Dispatcher.Claim(cfg, out, db).0,
                          Dispatcher.Claim(cfg, out, db).1)
    {
      if db.deployments == {} {
        forall k: nat | k < |db.jobs| && AllPassed(cfg, out, SweptRows(db), k)
          ensures Answers(cfg, out, SweptRows(db), k, Dispatcher.Claim(cfg, out, db).0,
                          Dispatcher.Claim(cfg, out, db).1)
        {
          ClaimServesIff(cfg, out, db, k);
        }
      }
    }

    method Claim(out: Outside) returns (claimed: Option<(nat, nat)>)
      requires Valid()
      modifies `jobs, `leases, `tasks, `budgets
      ensures (View(), claimed) == Dispatcher.Claim(cfg, out, old(View()))
      ensures old(deployments) == {} ==>
                forall k: nat | k < |old(jobs)| && AllPassed(cfg, out, SweptRows(old(View())), k) ::
                  Answers(cfg, out, SweptRows(old(View())), k, View(), claimed)
      ensures Valid()
    {
      ClaimKeeps(cfg, out, View());
      ServesInOrder(out, View());
      if deployments != {} {
        return None;
      }
      Sweep();
      var busy := BusyOf(cfg, Db(now, owner, tasks, jobs, leases, budgets, deployments));
      claimed := ScanQueue(out, busy);
    }

    /** current, with its error as false. */
    predicate IsCurrent(j: nat, fence: nat)
      reads this
    {
      Current(Db(now, owner, tasks, jobs, leases, budgets, deployments), j, fence)
    }

    method Beat(j: nat, fence: nat) returns (accepted: bool)
      requires Valid()
      modifies `jobs, `leases
      ensures accepted == Current(old(View()), j, fence)
      ensures View() == Heartbeat(cfg, old(View()), j, fence) && Valid()
    {
      ghost var after := Heartbeat(cfg, View(), j, fence);
      HeartbeatKeeps(cfg, View(), j, fence);
      accepted := IsCurrent(j, fence);
      if accepted {
        MoveLease(j, now + cfg.leaseSeconds);
      }
      Same(cfg, after, View());
    }

    method MoveLease(j: nat, until: int)
      requires j < |jobs| && jobs[j].task < |tasks|
      modifies `jobs, `leases
      ensures View() == Dispatcher.Beat(old(View()), j, until)
    {
      var r := tasks[jobs[j].task].repository;
      jobs := jobs[j := jobs[j].(lease := until)];
      if r in leases && leases[r].job == j && leases[r].owner == owner {
        leases := leases[r := leases[r].(expires := until)];
      }
    }

    method SettleJob(j: nat, error: Failure)
      requires j < |jobs| && jobs[j].task < |tasks|
      modifies `jobs, `leases, `tasks
      ensures View() == Settle(cfg, old(View()), j, error)
    {
      ghost var before := View();
      var job := jobs[j];
      ReleaseLease(j);
      StopIsRelease(before, j, job.(data := job.data.(patchRetry := true), status := Waiting));
      StopIsRelease(before, j, job.(status := Waiting));
      StopIsRelease(before, j, job.(status := Failed));
      if job.v2 && job.kind in {Implement, Fix} && error == NoPatch && !job.data.patchRetry {
        jobs := jobs[j := job.(data := job.data.(patchRetry := true), status := Waiting)];
        return;
      }
      if job.v2 && error == Other {
        if job.attempt < 3 {
          jobs := jobs[j := job.(status := Waiting)];
          return;
        }
        if job.role in cfg.fallback && cfg.classOf(job.role) != Privileged {
          jobs := jobs[j := job.(status := Failed)];
          jobs := jobs + [NewJob(job.task, tasks[job.task].v2, cfg.fallback[job.role], job.kind, job.data)];
          return;
        }
      }
      jobs := jobs[j := job.(status := Failed)];
      Move(job.task, Blocked);
    }

    method FailJob(j: nat, fence: nat, error: Failure)
      requires Valid()
      modifies `jobs, `leases, `tasks
      ensures View() == Fail(cfg, old(View()), j, fence, error) && Valid()
    {
      FailKeeps(cfg, View(), j, fence, error);
      if IsCurrent(j, fence) {
        SettleJob(j, error);
      }
    }

    method InvalidateTask(t: nat)
      requires t < |tasks|
      modifies `jobs
      ensures View() == old(View()).(jobs := InvalidateJobs(old(jobs), t))
    {
      jobs := DropActiveJobs(jobs, t);
    }

    method FinishJob(j: nat, fence: nat, move: Option<TaskState>, identity: Identity, followUp: Option<(Kind, string)>)
      requires Valid()
      modifies `jobs, `leases, `tasks
      ensures View() == Finish(old(View()), j, fence, move, identity, followUp) && Valid()
    {
      FinishKeeps(cfg, View(), j, fence, move, identity, followUp);
      if !IsCurrent(j, fence) {
        return;
      }
      var t := jobs[j].task;
      jobs := jobs[j := jobs[j].(status := Finished)];
      ReleaseLease(j);
      tasks := tasks[t := tasks[t].(identity := identity)];
      if move.Some? {
        Move(t, move.value);
      }
      if followUp.Some? {
        jobs := jobs + [NewJob(t, tasks[t].v2, followUp.value.1, followUp.value.0, NewData(identity))];
      }
    }

    method CancelTask(t: nat)
      requires Valid() && t < |tasks|
      modifies `jobs, `leases, `tasks
      ensures View() == Cancel(old(View()), t) && Valid()
    {
      CancelKeeps(cfg, View(), t);
      OthersStay(jobs, leases, t);
      InvalidateTask(t);
      if tasks[t].v2 {
        leases := OthersLeases(jobs, leases, t);
      }
      Move(t, TaskState.Cancelled);
    }

    method DropOne(t: nat, i: nat)
      requires i < |jobs| && jobs[i].task < |tasks|
      modifies `jobs, `leases
      ensures View() == Drop(old(View()), t, i)
    {
      if Active(jobs[i], t) {
        jobs := jobs[i := jobs[i].(status := Dropped, fence := jobs[i].fence + 1)];
        ReleaseLease(i);
      }
    }

    /** The loop of recover_stalled_v2 over the active jobs of one task. */
    method DropStalled(t: nat)
      requires Placed(jobs, |tasks|) && LeasesPlaced(cfg, tasks, jobs, leases) && t < |tasks|
      modifies `jobs, `leases
      ensures View() == DropActive(old(View()), t)
    {
      ghost var before := View();
      DropBeforeEnds(before, t);
      var i, n := 0, |jobs|;
      while i < n
        invariant i <= n == |before.jobs| && View() == DropBefore(before, t, i)
      {
        DropOneMore(cfg, before, t, i);
        DropOne(t, i);
        i := i + 1;
      }
    }

    method RecoverTask(t: nat)
      requires Valid()
      modifies `jobs, `leases, `tasks
      ensures View() == RecoverStalled(old(View()), t) && Valid()
    {
      StalledKeeps(cfg, View(), t);
      if t >= |tasks| || !tasks[t].v2 || !Recoverable(tasks[t].state) {
        return;
      }
      var newest := Newest(jobs, t);
      if newest == None {
        return;
      }
      var kind, role := jobs[newest.value].kind, jobs[newest.value].role;
      DropStalled(t);
      var task := tasks[t];
      if task.stalledAt == Some(task.stateVersion) {
        Move(t, Blocked);
        return;
      }
      tasks := tasks[t := task.(stalledAt := Some(task.stateVersion))];
      jobs := jobs + [NewJob(t, true, role, kind, NewData(task.identity))];
    }
  }
}
