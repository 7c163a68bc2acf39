/** The release protocol between the controller (src/agent_team/deployments.py) and the host
    supervisor (scripts/deploy_supervisor.py): the controller keeps one row for each operation, the
    host keeps a journal, a baseline and a last result on disk. Every call may fail with or without
    its effect, and the host may crash between any two durable writes. */
module Release {
  import opened Wrappers

  datatype Status = Succeeded | RolledBack | Failed | RollbackFailed
  datatype OpStatus = AwaitingApproval | Queued | Running | Done(outcome: Status)

  /** An image is labelled with the commit it was built from. */
  datatype Image = Image(revision: string, build: nat)
  datatype Images = Images(orchestrator: Image, gateway: Image, renderer: Image)

  function Uniform(image: Image): Images { Images(image, image, image) }

  /** `compose up` replaces services one by one and may stop half way. */
  predicate Between(from: Images, to: Images, now: Images) {
    && (now.orchestrator == from.orchestrator || now.orchestrator == to.orchestrator)
    && (now.gateway == from.gateway || now.gateway == to.gateway)
    && (now.renderer == from.renderer || now.renderer == to.renderer)
  }

  // ----- the controller's side -----

  datatype Op = Op(task: nat, sha: string, hash: string, expires: int, actor: string, status: OpStatus)

  /** A merged task of the released repository. */
  datatype Task = Task(mergeSha: string, deployment: Option<nat>)

  /** An operation's id is its position. */
  datatype Controller = Controller(ops: seq<Op>, tasks: map<nat, Task>)

  datatype Request = Request(id: nat, sha: string, actor: string, expires: int, resumed: bool)

  datatype Settings = Settings(enabled: bool, owners: set<string>)

  function SetStatus(c: Controller, id: nat, status: OpStatus): Controller
    requires id < |c.ops|
  {
    c.(ops := c.ops[id := c.ops[id].(status := status)])
  }

  /** May the operation a task points to be replaced by a new proposal? */
  predicate Replaceable(c: Controller, t: nat, now: int)
    requires t in c.tasks
  {
    match c.tasks[t].deployment
    case None => true
    case Some(id) =>
      id < |c.ops| ==>
        !(c.ops[id].status in {Queued, Running, Done(Succeeded)}
          || (c.ops[id].status == AwaitingApproval && c.ops[id].expires > now))
  }

  function Propose(c: Controller, t: nat, hash: string, now: int, expires: int): Controller
    requires t in c.tasks
  {
    if !Replaceable(c, t, now) then c
    else
      Controller(c.ops + [Op(t, c.tasks[t].mergeSha, hash, expires, "", AwaitingApproval)],
                 c.tasks[t := c.tasks[t].(deployment := Some(|c.ops|))])
  }

  function Approve(c: Controller, cfg: Settings, t: nat, actor: string, id: nat, hash: string, sha: string, now: int)
    : Result<Controller, string>
  {
    if !cfg.enabled || t !in c.tasks || id >= |c.ops| || c.ops[id].task != t
       || c.ops[id].status != AwaitingApproval || c.ops[id].expires <= now || actor !in cfg.owners
       || c.ops[id].hash != hash || c.ops[id].sha != sha
       || c.tasks[t].mergeSha != sha || c.tasks[t].deployment != Some(id)
    then Err("Stale or used deployment approval")
    else Ok(c.(ops := c.ops[id := c.ops[id].(status := Queued, actor := actor)]))
  }

  function RequestOf(c: Controller, id: nat, resumed: bool): Request
    requires id < |c.ops|
  {
    Request(id, c.ops[id].sha, c.ops[id].actor, c.ops[id].expires, resumed)
  }

  /** The first operation, in order of creation, with this status. */
  function First(ops: seq<Op>, status: OpStatus, from: nat): (r: Option<nat>)
    requires from <= |ops|
    ensures r.Some? ==> from <= r.value < |ops| && ops[r.value].status == status
    ensures r.Some? ==> forall i | from <= i < r.value :: ops[i].status != status
    ensures r.None? ==> forall i | from <= i < |ops| :: ops[i].status != status
    decreases |ops| - from
  {
    if from == |ops| then None
    else if ops[from].status == status then Some(from)
    else First(ops, status, from + 1)
  }

  /** bridge claim. `busy` says that some job is running. */
  function Claim(c: Controller, cfg: Settings, now: int, busy: bool): (Controller, Option<Request>) {
    if !cfg.enabled || busy then (c, None)
    else
      var running := First(c.ops, Running, 0);
      var queued := First(c.ops, Queued, 0);
      if running.Some? then (c, Some(RequestOf(c, running.value, true)))
      else if queued.None? then (c, None)
      else
        var op := c.ops[queued.value];
        if op.expires <= now || op.actor !in cfg.owners || op.task !in c.tasks || c.tasks[op.task].mergeSha != op.sha
        then (SetStatus(c, queued.value, Done(Failed)), None)
        else (SetStatus(c, queued.value, Running), Some(RequestOf(c, queued.value, false)))
  }

  /** bridge complete. */
  function Complete(c: Controller, id: nat, status: Status): Result<Controller, string> {
    if id >= |c.ops| then Err("Unknown deployment")
    else if c.ops[id].status.Done? then
      if c.ops[id].status.outcome != status then Err("Conflicting deployment outcome") else Ok(c)
    else if c.ops[id].status != Running then Err("Deployment was not claimed")
    else Ok(SetStatus(c, id, Done(status)))
  }

  // ----- the host's side -----

  datatype Phase = Preflight | Switching | Completed(status: Status)

  datatype Record = Record(id: nat, phase: Phase, oldImages: Option<Images>, oldSha: Option<string>)

  /** What the running tick does next; everything here is lost in a crash. The name of a state is the
      next durable call, and `record` is the record in memory. */
  datatype Pc =
    | Idle
    | Claimed(request: Request)
    | Checking(request: Request, record: Record)
    | Built(request: Request, record: Record, image: Image)
    | Arming(request: Request, record: Record, image: Image)
    | Ready(request: Request, record: Record, image: Image)
    | Verified(request: Request, record: Record, image: Image)
    | Recovering(record: Record)
    | Restored(record: Record)
    | Closing(record: Record, inTry: bool)
    | Reporting(record: Record)
    | Filing(record: Record)
    | Unlinking(record: Record)

  datatype Snapshot = Snapshot(images: Images, sha: string)

  /** `start` and `forwards` are history: the world when the host last had no journal, and the
      operations for which the candidate was started, in order. */
  datatype Sys = Sys(
    c: Controller, now: int,
    journal: Option<Record>, baseline: string, lastResult: Option<Record>, images: Images,
    pc: Pc, start: Snapshot, forwards: seq<nat>)

  /** The fate of one durable write: it may take effect and still raise. */
  datatype Io = Io(effect: bool, ok: bool)

  datatype Step =
    | Advance(time: int)
    | TaskMerged(t: nat, sha: string)
    | ProposeStep(t: nat, hash: string, expires: int)
    | ApproveStep(t: nat, actor: string, id: nat, hash: string, sha: string)
    | Crash
    | ReadJournal
    | ClaimStep(busy: bool, lost: bool)
    | SaveClaim(io: Io)
    | Capture(image: Image)
    | Reject(captured: bool)
    | Arm
    | SaveArmed(io: Io)
    | Forward(after: Images, ok: bool)
    | SaveBaseline(io: Io)
    | RollBack(after: Images, ok: bool)
    | RestoreBaseline(io: Io)
    | GiveUp
    | SaveOutcome(io: Io)
    | Report(delivered: bool, ok: bool)
    | File(io: Io)
    | Unlink(io: Io)

  ghost function World(s: Sys): Snapshot { Snapshot(s.images, s.baseline) }

  ghost predicate GaveUp(r: Option<Record>) {
    r.Some? && r.value.phase == Completed(RollbackFailed)
  }

  ghost predicate Init(s: Sys) {
    && s.c.ops == [] && s.c.tasks == map[] && s.journal == None && s.lastResult == None
    && s.pc == Idle && s.start == World(s) && s.forwards == []
  }

  ghost predicate Next(cfg: Settings, s: Sys, step: Step, s': Sys) {
    match step
    case Advance(time) => time >= s.now && s' == s.(now := time)
    case TaskMerged(t, sha) => t !in s.c.tasks && s' == s.(c := s.c.(tasks := s.c.tasks[t := Task(sha, None)]))
    case ProposeStep(t, hash, expires) => t in s.c.tasks && s' == s.(c := Propose(s.c, t, hash, s.now, expires))
    case ApproveStep(t, actor, id, hash, sha) =>
      var r := Approve(s.c, cfg, t, actor, id, hash, sha, s.now);
      r.Ok? && s' == s.(c := r.value)
    case Crash => s' == s.(pc := Idle)
    case ReadJournal => s.pc.Idle? && s.journal.Some? && s' == s.(pc := Recovering(s.journal.value))
    case ClaimStep(busy, lost) =>
      && s.pc.Idle? && s.journal.None? && !GaveUp(s.lastResult)
      && var (c, request) := Claim(s.c, cfg, s.now, busy);
         s' == s.(c := c, pc := if lost || request.None? then Idle else Claimed(request.value))
    case SaveClaim(io) =>
      && s.pc.Claimed? && (io.ok ==> io.effect)
      && var record := Record(s.pc.request.id, Preflight, None, None);
         s' == s.(journal := if io.effect then Some(record) else s.journal,
                  pc := if io.ok then Checking(s.pc.request, record) else Idle)
    case Capture(image) =>
      && s.pc.Checking? && !s.pc.request.resumed && s.pc.request.expires > s.now && s.pc.request.actor in cfg.owners
      && image.revision == s.pc.request.sha
      && var captured := s.pc.record.(oldImages := Some(s.images), oldSha := Some(s.baseline));
         s' == s.(pc := Built(s.pc.request, captured, image))
    case Reject(captured) =>
      && (s.pc.Checking? || s.pc.Built? || s.pc.Ready? || s.pc.Verified?)
      && var record := if captured && s.pc.Checking? then s.pc.record.(oldImages := Some(s.images)) else s.pc.record;
         s' == s.(pc := Recovering(record))
    case Arm =>
      && s.pc.Built? && s.pc.request.expires > s.now && Some(s.images) == s.pc.record.oldImages
      && s' == s.(pc := Arming(s.pc.request, s.pc.record.(phase := Switching), s.pc.image))
    case SaveArmed(io) =>
      && s.pc.Arming? && (io.ok ==> io.effect)
      && s' == s.(journal := if io.effect then Some(s.pc.record) else s.journal,
                  pc := if io.ok then Ready(s.pc.request, s.pc.record, s.pc.image) else Recovering(s.pc.record))
    case Forward(after, ok) =>
      && s.pc.Ready? && Between(s.images, Uniform(s.pc.image), after) && (ok ==> after == Uniform(s.pc.image))
      && s' == s.(images := after, forwards := s.forwards + [s.pc.record.id],
                  pc := if ok then Verified(s.pc.request, s.pc.record, s.pc.image) else Recovering(s.pc.record))
    case SaveBaseline(io) =>
      && s.pc.Verified? && (io.ok ==> io.effect)
      && s' == s.(baseline := if io.effect then s.pc.request.sha else s.baseline,
                  pc := if io.ok then Closing(s.pc.record.(phase := Completed(Succeeded)), true)
                        else Recovering(s.pc.record))
    case RollBack(after, ok) =>
      && s.pc.Recovering? && s.pc.record.phase.Switching? && s.pc.record.oldImages.Some?
      && Between(s.images, s.pc.record.oldImages.value, after) && (ok ==> after == s.pc.record.oldImages.value)
      && s' == s.(images := after,
                  pc := if ok then Restored(s.pc.record)
                        else Closing(s.pc.record.(phase := Completed(RollbackFailed)), false))
    case RestoreBaseline(io) =>
      && s.pc.Restored? && s.pc.record.oldSha.Some? && (io.ok ==> io.effect)
      && s' == s.(baseline := if io.effect then s.pc.record.oldSha.value else s.baseline,
                  pc := Closing(s.pc.record.(phase := Completed(if io.ok then RolledBack else RollbackFailed)), false))
    case GiveUp =>
      && s.pc.Recovering? && !s.pc.record.phase.Switching?
      && var record := if s.pc.record.phase.Preflight? then s.pc.record.(phase := Completed(Failed)) else s.pc.record;
         s' == s.(pc := Closing(record, false))
    case SaveOutcome(io) =>
      && s.pc.Closing? && (io.ok ==> io.effect)
      && s' == s.(journal := if io.effect then Some(s.pc.record) else s.journal,
                  pc := if io.ok then Reporting(s.pc.record)
                        else if s.pc.inTry then Closing(s.pc.record, false) else Idle)
    case Report(delivered, ok) =>
      && s.pc.Reporting? && s.pc.record.phase.Completed? && (ok ==> delivered)
      && var r := Complete(s.c, s.pc.record.id, s.pc.record.phase.status);
         if delivered && r.Ok? then s' == s.(c := r.value, pc := if ok then Filing(s.pc.record) else Idle)
         else s' == s.(pc := Idle)
    case File(io) =>
      && s.pc.Filing? && (io.ok ==> io.effect)
      && s' == s.(lastResult := if io.effect then Some(s.pc.record) else s.lastResult,
                  pc := if io.ok then Unlinking(s.pc.record) else Idle)
    case Unlink(io) =>
      && s.pc.Unlinking? && (io.ok ==> io.effect)
      && s' == if io.effect then s.(journal := None, start := World(s), pc := Idle) else s.(pc := Idle)
  }

  ghost predicate IsRun(cfg: Settings, run: seq<Sys>, steps: seq<Step>) {
    && |run| == |steps| + 1 && Init(run[0])
    && forall i | 0 <= i < |steps| :: StepAt(cfg, run, steps, i)
  }

  ghost predicate StepAt(cfg: Settings, run: seq<Sys>, steps: seq<Step>, i: nat)
    requires i < |steps| && |run| == |steps| + 1
  {
    Next(cfg, run[i], steps[i], run[i + 1])
  }

  // ----- the inductive invariant -----

  ghost predicate Current(c: Controller, id: nat) {
    id < |c.ops| && c.ops[id].task in c.tasks && c.tasks[c.ops[id].task].deployment == Some(id)
  }

  ghost predicate OpOk(c: Controller, now: int, forwards: seq<nat>, id: nat)
    requires id < |c.ops|
  {
    var op := c.ops[id];
    && op.task in c.tasks && c.tasks[op.task].mergeSha == op.sha
    && (!Current(c, id) ==>
          (op.status.Done? && op.status != Done(Succeeded)) || (op.status.AwaitingApproval? && op.expires <= now))
    && (op.status in {AwaitingApproval, Queued} ==> id !in forwards)
  }

  ghost predicate ControllerInv(c: Controller, now: int, forwards: seq<nat>) {
    && (forall id | 0 <= id < |c.ops| :: OpOk(c, now, forwards, id))
    && (forall i, j | 0 <= i < j < |c.ops| :: !(c.ops[i].status.Running? && c.ops[j].status.Running?))
    && (forall t | t in c.tasks && c.tasks[t].deployment.Some? ::
          c.tasks[t].deployment.value < |c.ops| && c.ops[c.tasks[t].deployment.value].task == t)
    && (forall id | id in forwards :: id < |c.ops|)
    && (forall i, j | 0 <= i < j < |forwards| :: forwards[i] != forwards[j])
  }

  /** Is the outcome true of the world? */
  ghost predicate Truth(s: Sys, id: nat, status: Status) {
    id < |s.c.ops| &&
    match status
    case Succeeded => s.baseline == s.c.ops[id].sha && exists b :: s.images == Uniform(Image(s.c.ops[id].sha, b))
    case RolledBack => World(s) == s.start
    case Failed => World(s) == s.start
    case RollbackFailed => true
  }

  ghost predicate HoldsOld(s: Sys, r: Record) {
    r.oldImages == Some(s.start.images) && r.oldSha == Some(s.start.sha)
  }

  ghost predicate IsRunning(c: Controller, id: nat) {
    id < |c.ops| && c.ops[id].status.Running?
  }

  /** What a record on disk guarantees. */
  ghost predicate DiskOk(s: Sys, r: Record) {
    match r.phase
    case Preflight => IsRunning(s.c, r.id) && World(s) == s.start
    case Switching => IsRunning(s.c, r.id) && HoldsOld(s, r)
    case Completed(st) => Truth(s, r.id, st) && (IsRunning(s.c, r.id) || s.c.ops[r.id].status == Done(st))
  }

  ghost predicate HostInv(s: Sys) {
    && (s.journal.None? ==> World(s) == s.start)
    && (s.journal.Some? ==> DiskOk(s, s.journal.value))
    && (forall id: nat | IsRunning(s.c, id) :: s.journal.None? || s.journal.value.id == id)
    && (GaveUp(s.lastResult) ==> GaveUp(s.journal) || (s.journal.None? && s.pc.Idle?))
    && PcInv(s)
  }

  ghost predicate Fresh(s: Sys, request: Request) {
    && IsRunning(s.c, request.id) && request.sha == s.c.ops[request.id].sha
    && (!request.resumed ==> request.id !in s.forwards)
  }

  ghost predicate OnDisk(s: Sys, id: nat, phase: Phase) {
    s.journal.Some? && s.journal.value.id == id && s.journal.value.phase == phase
  }

  ghost predicate PcInv(s: Sys) {
    match s.pc
    case Idle => true
    case Claimed(q) => s.journal.None? && Fresh(s, q)
    case Checking(q, r) => Fresh(s, q) && r.id == q.id && r.phase.Preflight? && OnDisk(s, r.id, Preflight)
    case Built(q, r, image) =>
      && Fresh(s, q) && !q.resumed && r.id == q.id && r.phase.Preflight? && OnDisk(s, r.id, Preflight)
      && HoldsOld(s, r) && image.revision == q.sha
    case Arming(q, r, image) =>
      && Fresh(s, q) && !q.resumed && r.id == q.id && r.phase.Switching? && OnDisk(s, r.id, Preflight)
      && HoldsOld(s, r) && image.revision == q.sha
    case Ready(q, r, image) =>
      && Fresh(s, q) && !q.resumed && r.id == q.id && r.phase.Switching? && s.journal == Some(r)
      && HoldsOld(s, r) && image.revision == q.sha
    case Verified(q, r, image) =>
      && IsRunning(s.c, q.id) && q.sha == s.c.ops[q.id].sha
      && r.id == q.id && r.phase.Switching? && s.journal == Some(r)
      && HoldsOld(s, r) && image.revision == q.sha && s.images == Uniform(image)
    case Recovering(r) =>
      match r.phase {
        case Preflight => OnDisk(s, r.id, Preflight)
        case Switching => HoldsOld(s, r) && (s.journal == Some(r) || OnDisk(s, r.id, Preflight))
        case Completed(_) => s.journal == Some(r)
      }
    case Restored(r) =>
      && r.phase.Switching? && HoldsOld(s, r) && s.images == s.start.images
      && (s.journal == Some(r) || OnDisk(s, r.id, Preflight))
    case Closing(r, inTry) =>
      && r.phase.Completed? && Truth(s, r.id, r.phase.status)
      && s.journal.Some? && s.journal.value.id == r.id
      && (s.journal.value.phase.Completed? ==> s.journal == Some(r))
      && (inTry ==> r.phase == Completed(Succeeded))
    case Reporting(r) => r.phase.Completed? && s.journal == Some(r)
    case Filing(r) =>
      && r.phase.Completed? && s.journal == Some(r)
      && r.id < |s.c.ops| && s.c.ops[r.id].status == Done(r.phase.status)
    case Unlinking(r) =>
      && r.phase.Completed? && s.journal == Some(r) == s.lastResult
      && r.id < |s.c.ops| && s.c.ops[r.id].status == Done(r.phase.status)
  }

  ghost predicate Inv(s: Sys) {
    ControllerInv(s.c, s.now, s.forwards) && HostInv(s)
  }

  lemma StepKeeps(cfg: Settings, s: Sys, step: Step, s': Sys)
    requires Inv(s) && Next(cfg, s, step, s')
    ensures Inv(s')
  {
    if IsPreparing(step) {
      PreparingKeeps(cfg, s, step, s');
    } else if IsRestoring(step) {
      RestoringKeeps(cfg, s, step, s');
    } else if IsFiling(step) {
      FilingKeeps(cfg, s, step, s');
    } else {
      match step
      case Advance(time) => AdvanceKeeps(cfg, s, time, s');
      case TaskMerged(t, sha) => TaskMergedKeeps(cfg, s, t, sha, s');
      case ProposeStep(t, hash, expires) => ProposeKeeps(cfg, s, t, hash, expires, s');
      case ApproveStep(t, actor, id, hash, sha) => ApproveKeeps(cfg, s, t, actor, id, hash, sha, s');
      case ClaimStep(busy, lost) => ClaimKeeps(cfg, s, busy, lost, s');
      case Forward(after, ok) => ForwardKeeps(cfg, s, after, ok, s');
      case Report(delivered, ok) => ReportKeeps(cfg, s, delivered, ok, s');
    }
  }

  lemma AdvanceKeeps(cfg: Settings, s: Sys, time: int, s': Sys)
    requires Inv(s) && Next(cfg, s, Advance(time), s')
    ensures Inv(s')
  {
    forall id | 0 <= id < |s'.c.ops| ensures OpOk(s'.c, s'.now, s'.forwards, id) {
      assert OpOk(s.c, s.now, s.forwards, id);
    }
  }

  /** The host's own steps: up to the switch, after it, and those that record how it ended. */
  predicate IsPreparing(step: Step) {
    step.Crash? || step.ReadJournal? || step.SaveClaim? || step.Capture? || step.Reject? || step.Arm? || step.SaveArmed?
  }

  predicate IsRestoring(step: Step) {
    step.SaveBaseline? || step.RollBack? || step.RestoreBaseline?
  }

  predicate IsFiling(step: Step) {
    step.GiveUp? || step.SaveOutcome? || step.File? || step.Unlink?
  }

  lemma PreparingKeeps(cfg: Settings, s: Sys, step: Step, s': Sys)
    requires Inv(s) && IsPreparing(step) && Next(cfg, s, step, s')
    ensures Inv(s')
  {
    assert s'.c == s.c && s'.forwards == s.forwards && s'.now == s.now && World(s') == World(s);
  }

  lemma RestoringKeeps(cfg: Settings, s: Sys, step: Step, s': Sys)
    requires Inv(s) && IsRestoring(step) && Next(cfg, s, step, s')
    ensures Inv(s')
  {
    assert s'.c == s.c && s'.forwards == s.forwards && s'.now == s.now;
  }

  lemma FilingKeeps(cfg: Settings, s: Sys, step: Step, s': Sys)
    requires Inv(s) && IsFiling(step) && Next(cfg, s, step, s')
    ensures Inv(s')
  {
    assert s'.c == s.c && s'.forwards == s.forwards && s'.now == s.now;
  }

  lemma ForwardKeeps(cfg: Settings, s: Sys, after: Images, ok: bool, s': Sys)
    requires Inv(s) && Next(cfg, s, Forward(after, ok), s')
    ensures Inv(s')
  {
    var id := s.pc.record.id;
    assert id !in s.forwards && s.c.ops[id].status.Running?;
    forall k | 0 <= k < |s.c.ops| ensures OpOk(s'.c, s'.now, s'.forwards, k) {
      assert OpOk(s.c, s.now, s.forwards, k);
    }
  }

  lemma TaskMergedKeeps(cfg: Settings, s: Sys, t: nat, sha: string, s': Sys)
    requires Inv(s) && Next(cfg, s, TaskMerged(t, sha), s')
    ensures Inv(s')
  {
    forall id | 0 <= id < |s'.c.ops| ensures OpOk(s'.c, s'.now, s'.forwards, id) {
      assert OpOk(s.c, s.now, s.forwards, id);
    }
    assert forall id: nat :: IsRunning(s'.c, id) <==> IsRunning(s.c, id);
  }

  lemma ProposeKeeps(cfg: Settings, s: Sys, t: nat, hash: string, expires: int, s': Sys)
    requires Inv(s) && Next(cfg, s, ProposeStep(t, hash, expires), s')
    ensures Inv(s')
  {
    forall id | 0 <= id < |s'.c.ops| ensures OpOk(s'.c, s'.now, s'.forwards, id) {
      assert id < |s.c.ops| ==> OpOk(s.c, s.now, s.forwards, id);
      assert id < |s.c.ops| && Current(s.c, id) && !Current(s'.c, id) ==> s.c.ops[id].task == t;
    }
    assert forall id: nat :: IsRunning(s'.c, id) <==> IsRunning(s.c, id);
  }

  lemma ApproveKeeps(cfg: Settings, s: Sys, t: nat, actor: string, id: nat, hash: string, sha: string, s': Sys)
    requires Inv(s) && Next(cfg, s, ApproveStep(t, actor, id, hash, sha), s')
    ensures Inv(s')
  {
    forall k | 0 <= k < |s'.c.ops| ensures OpOk(s'.c, s'.now, s'.forwards, k) {
      assert OpOk(s.c, s.now, s.forwards, k);
      assert Current(s'.c, k) == Current(s.c, k);
    }
    assert forall k: nat :: IsRunning(s'.c, k) <==> IsRunning(s.c, k);
  }

  lemma ClaimKeeps(cfg: Settings, s: Sys, busy: bool, lost: bool, s': Sys)
    requires Inv(s) && Next(cfg, s, ClaimStep(busy, lost), s')
    ensures Inv(s')
  {
    var queued := First(s.c.ops, Queued, 0);
    assert queued.Some? ==> OpOk(s.c, s.now, s.forwards, queued.value);
    forall k | 0 <= k < |s'.c.ops| ensures OpOk(s'.c, s'.now, s'.forwards, k) {
      assert OpOk(s.c, s.now, s.forwards, k);
      assert Current(s'.c, k) == Current(s.c, k);
    }
  }

  lemma ReportKeeps(cfg: Settings, s: Sys, delivered: bool, ok: bool, s': Sys)
    requires Inv(s) && Next(cfg, s, Report(delivered, ok), s')
    ensures Inv(s')
  {
    forall k | 0 <= k < |s'.c.ops| ensures OpOk(s'.c, s'.now, s'.forwards, k) {
      assert OpOk(s.c, s.now, s.forwards, k);
      assert Current(s'.c, k) == Current(s.c, k);
    }
  }

  lemma {:induction false} RunInv(cfg: Settings, run: seq<Sys>, steps: seq<Step>, i: nat)
    requires IsRun(cfg, run, steps) && i < |run|
    ensures Inv(run[i])
  {
    if i > 0 {
      RunInv(cfg, run, steps, i - 1);
      assert StepAt(cfg, run, steps, i - 1);
      StepKeeps(cfg, run[i - 1], steps[i - 1], run[i]);
    }
  }

  // ----- the theorems -----

  /** Whenever an operation reaches an outcome, the outcome is true of the world at that moment. */
  lemma OutcomeIsTrue(cfg: Settings, run: seq<Sys>, steps: seq<Step>, i: nat, id: nat, status: Status)
    requires IsRun(cfg, run, steps) && i < |steps|
    requires id < |run[i].c.ops| && !run[i].c.ops[id].status.Done?
    requires id < |run[i + 1].c.ops| && run[i + 1].c.ops[id].status == Done(status)
    ensures Truth(run[i + 1], id, status)
  {
    RunInv(cfg, run, steps, i);
    RunInv(cfg, run, steps, i + 1);
    assert StepAt(cfg, run, steps, i);
  }

  /** The controller never has to refuse an outcome the supervisor sends: not as conflicting, not as
      unclaimed, not as unknown. */
  lemma ReportIsAccepted(cfg: Settings, run: seq<Sys>, steps: seq<Step>, i: nat)
    requires IsRun(cfg, run, steps) && i < |run| && run[i].pc.Reporting?
    ensures run[i].pc.record.phase.Completed?
            && Complete(run[i].c, run[i].pc.record.id, run[i].pc.record.phase.status).Ok?
  {
    RunInv(cfg, run, steps, i);
  }

  lemma {:induction false} ForwardsGrow(cfg: Settings, run: seq<Sys>, steps: seq<Step>, i: nat, j: nat)
    requires IsRun(cfg, run, steps) && i <= j < |run|
    ensures run[i].forwards <= run[j].forwards
    decreases j - i
  {
    if i < j {
      ForwardsGrow(cfg, run, steps, i, j - 1);
      assert StepAt(cfg, run, steps, j - 1);
    }
  }

  /** Over all crashes an operation's candidate is started at most once, and never by a claim that
      resumes an earlier one. */
  lemma OneForwardSwitch(cfg: Settings, run: seq<Sys>, steps: seq<Step>, i: nat, j: nat)
    requires IsRun(cfg, run, steps) && i < j < |steps| && steps[i].Forward? && steps[j].Forward?
    ensures run[i].pc.Ready? && run[j].pc.Ready? && run[i].pc.record.id != run[j].pc.record.id
    ensures !run[i].pc.request.resumed && !run[j].pc.request.resumed
  {
    RunInv(cfg, run, steps, i);
    RunInv(cfg, run, steps, j);
    assert StepAt(cfg, run, steps, i) && StepAt(cfg, run, steps, j);
    ForwardsGrow(cfg, run, steps, i + 1, j);
    assert run[i + 1].forwards[|run[i].forwards|] == run[i].pc.record.id;
  }

  /** The host has durably recorded a failed rollback. */
  ghost predicate Halted(s: Sys) {
    GaveUp(s.journal) || GaveUp(s.lastResult)
  }

  lemma HaltedStep(cfg: Settings, s: Sys, step: Step, s': Sys)
    requires Inv(s) && Halted(s) && Next(cfg, s, step, s')
    ensures Halted(s') && !step.ClaimStep? && !step.Forward? && !step.RollBack?
  {
    if IsPreparing(step) {
    } else if IsRestoring(step) {
    } else if IsFiling(step) {
    } else {
    }
  }

  /** After a failed rollback no tick claims or touches the images again. */
  lemma {:induction false} HaltedForGood(cfg: Settings, run: seq<Sys>, steps: seq<Step>, i: nat, j: nat)
    requires IsRun(cfg, run, steps) && i <= j < |run| && Halted(run[i])
    ensures Halted(run[j])
    ensures j < |steps| ==> !steps[j].ClaimStep? && !steps[j].Forward? && !steps[j].RollBack?
    decreases j - i
  {
    if i < j {
      HaltedForGood(cfg, run, steps, i, j - 1);
      RunInv(cfg, run, steps, j - 1);
      assert StepAt(cfg, run, steps, j - 1);
      HaltedStep(cfg, run[j - 1], steps[j - 1], run[j]);
    }
    if j < |steps| {
      RunInv(cfg, run, steps, j);
      assert StepAt(cfg, run, steps, j);
      HaltedStep(cfg, run[j], steps[j], run[j + 1]);
    }
  }

  /** Images change only while the journal on disk says `switching` and holds the old set. */
  lemma ImagesChangeUnderJournal(cfg: Settings, run: seq<Sys>, steps: seq<Step>, i: nat)
    requires IsRun(cfg, run, steps) && i < |steps| && run[i + 1].images != run[i].images
    ensures run[i].journal.Some? && run[i].journal.value.phase.Switching? && HoldsOld(run[i], run[i].journal.value)
  {
    RunInv(cfg, run, steps, i);
    assert StepAt(cfg, run, steps, i);
  }

  /** `compose up` itself can run under a journal that still says `preflight`: exactly when the write
      that should have said `switching` was lost, and then it rolls back to the running images. */
  lemma UpWithoutSwitchingJournal(cfg: Settings, run: seq<Sys>, steps: seq<Step>, i: nat)
    requires IsRun(cfg, run, steps) && i < |steps| && (steps[i].Forward? || steps[i].RollBack?)
    ensures run[i].journal.Some?
    ensures !run[i].journal.value.phase.Switching?
            <==> steps[i].RollBack? && run[i].pc.Recovering? && run[i].journal != Some(run[i].pc.record)
    ensures !run[i].journal.value.phase.Switching? ==> run[i + 1].images == run[i].images
  {
    RunInv(cfg, run, steps, i);
    assert StepAt(cfg, run, steps, i);
  }

  // ----- nothing moves without an owner -----

  /** An owner's approval of operation `id`, accepted at step `k`. */
  ghost predicate ApprovedAt(cfg: Settings, run: seq<Sys>, steps: seq<Step>, k: nat, id: nat)
    requires |run| == |steps| + 1
  {
    && k < |steps| && steps[k].ApproveStep? && steps[k].id == id && steps[k].actor in cfg.owners
    && Current(run[k].c, id) && run[k].c.ops[id].expires > run[k].now && run[k].c.ops[id].sha == steps[k].sha
    && run[k].c.ops[id].hash == steps[k].hash
  }

  /** The operation is about to be executed, or its candidate has been started. */
  predicate UnderWay(s: Sys, id: nat) {
    id < |s.c.ops| && (s.c.ops[id].status in {Queued, Running} || id in s.forwards)
  }

  /** Only an approval sets an operation under way. */
  lemma OnlyApprovalStarts(cfg: Settings, s: Sys, step: Step, s': Sys, id: nat)
    requires Inv(s) && Next(cfg, s, step, s') && UnderWay(s', id) && !UnderWay(s, id)
    ensures step.ApproveStep? && step.id == id && step.actor in cfg.owners
    ensures Current(s.c, id) && s.c.ops[id].expires > s.now
    ensures s.c.ops[id].sha == step.sha && s.c.ops[id].hash == step.hash
  {
  }

  /** In any run, an operation that is queued or running, or whose candidate was ever started, was approved
      before: by an owner, in time, with its own hash and commit, while its task pointed to it. */
  lemma {:induction false} ForwardIsApproved(cfg: Settings, run: seq<Sys>, steps: seq<Step>, i: nat, id: nat)
    requires IsRun(cfg, run, steps) && i < |run| && UnderWay(run[i], id)
    ensures exists k: nat :: k < i && ApprovedAt(cfg, run, steps, k, id)
  {
    if i > 0 {
      if UnderWay(run[i - 1], id) {
        ForwardIsApproved(cfg, run, steps, i - 1, id);
      } else {
        RunInv(cfg, run, steps, i - 1);
        assert StepAt(cfg, run, steps, i - 1);
        OnlyApprovalStarts(cfg, run[i - 1], steps[i - 1], run[i], id);
        assert ApprovedAt(cfg, run, steps, i - 1, id);
      }
    }
  }

  // ----- lineage of the operations of one task -----

  lemma SupersededStep(cfg: Settings, s: Sys, step: Step, s': Sys, id: nat)
    requires Inv(s) && Next(cfg, s, step, s') && id < |s.c.ops| && !Current(s.c, id)
    ensures id < |s'.c.ops| && !Current(s'.c, id) && s'.c.ops[id] == s.c.ops[id]
  {
    assert OpOk(s.c, s.now, s.forwards, id);
    if step.ClaimStep? {
      var queued := First(s.c.ops, Queued, 0);
      assert queued.Some? ==> OpOk(s.c, s.now, s.forwards, queued.value);
    }
  }

  /** An operation that a later proposal replaced never changes again. */
  lemma {:induction false} SupersededIsFrozen(cfg: Settings, run: seq<Sys>, steps: seq<Step>, i: nat, j: nat, id: nat)
    requires IsRun(cfg, run, steps) && i <= j < |run|
    requires id < |run[i].c.ops| && !Current(run[i].c, id)
    ensures id < |run[j].c.ops| && !Current(run[j].c, id) && run[j].c.ops[id] == run[i].c.ops[id]
    decreases j - i
  {
    if i < j {
      var k := j - 1;
      SupersededIsFrozen(cfg, run, steps, i, k, id);
      RunInv(cfg, run, steps, k);
      assert StepAt(cfg, run, steps, k);
      SupersededStep(cfg, run[k], steps[k], run[k + 1], id);
    }
  }

  /** Of all operations proposed for one task at most one ever succeeds. */
  lemma {:induction false} OneSuccessPerTask(cfg: Settings, run: seq<Sys>, steps: seq<Step>, i: nat, j: nat, a: nat,
                                             b: nat)
    requires IsRun(cfg, run, steps) && i <= j < |run|
    requires a < |run[i].c.ops| && run[i].c.ops[a].status == Done(Succeeded)
    requires b < |run[j].c.ops| && run[j].c.ops[b].status == Done(Succeeded)
    requires run[i].c.ops[a].task == run[j].c.ops[b].task
    ensures a == b
  {
    SuccessStays(cfg, run, steps, i, j, a);
    RunInv(cfg, run, steps, j);
    assert OpOk(run[j].c, run[j].now, run[j].forwards, a) && OpOk(run[j].c, run[j].now, run[j].forwards, b);
  }

  lemma {:induction false} SuccessStays(cfg: Settings, run: seq<Sys>, steps: seq<Step>, i: nat, j: nat, id: nat)
    requires IsRun(cfg, run, steps) && i <= j < |run|
    requires id < |run[i].c.ops| && run[i].c.ops[id].status.Done?
    ensures id < |run[j].c.ops| && run[j].c.ops[id] == run[i].c.ops[id]
    decreases j - i
  {
    if i < j {
      SuccessStays(cfg, run, steps, i, j - 1, id);
      assert StepAt(cfg, run, steps, j - 1);
    }
  }
}
