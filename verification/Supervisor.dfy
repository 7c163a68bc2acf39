/** The supervisor's code: tick, recover and the release attempt of scripts/deploy_supervisor.py.
    Its durable calls are steps of the release protocol, and `trace` records the run they form. */
module Supervisor {
  import opened Wrappers
  import opened Release
  import opened ReleaseOutcomes

  datatype Attempt = Finished(record: Record) | Raised(record: Record) | Died

  /** In calm weather nobody else acts, every check passes and every call arrives; in rough weather anything may
      happen between the calls, and each of them may fail; in deadly weather the process may die. */
  datatype Weather = Calm | Rough | Deadly

  /** A call that did not arrive, or a claim: what can end a tick before it has concluded. */
  predicate Excuse(step: Step, mortal: bool) {
    match step
    case ClaimStep(_, _) => true
    case SaveClaim(io) => !io.ok
    case SaveOutcome(io) => !io.ok
    case Report(_, ok) => !ok
    case File(io) => !io.ok
    case Unlink(io) => !io.effect
    case Crash => mortal
    case _ => false
  }

  /** What a tick concludes in calm weather from the record that it finds. */
  function CalmOutcome(phase: Phase): Status {
    match phase
    case Preflight => Failed
    case Switching => RolledBack
    case Completed(status) => status
  }

  /** The first waiting operation, if there is one, has succeeded, and its row has this status. */
  ghost predicate Decided(cfg: Settings, s: Sys, c: Controller, r: Option<Record>, status: OpStatus) {
    forall id: nat | Waiting(cfg, s, id) ::
      r.Some? && r.value.id == id && r.value.phase == Completed(Succeeded) && c == SetStatus(s.c, id, status)
  }

  lemma FirstIsClaimed(cfg: Settings, s: Sys)
    ensures forall id: nat | Waiting(cfg, s, id) ::
              Claim(s.c, cfg, s.now, false)
              == (SetStatus(s.c, id, Running),
                  Some(Request(id, s.c.ops[id].sha, s.c.ops[id].actor, s.c.ops[id].expires, false)))
  {
    forall id: nat | Waiting(cfg, s, id)
      ensures Claim(s.c, cfg, s.now, false)
           == (SetStatus(s.c, id, Running),
               Some(Request(id, s.c.ops[id].sha, s.c.ops[id].actor, s.c.ops[id].expires, false)))
    {
      ClaimTable(s.c, cfg, s.now, false, id);
    }
  }

  lemma ReportIsKept(cfg: Settings, s: Sys, claimed: Controller, c: Controller, r: Option<Record>)
    requires Decided(cfg, s, claimed, r, Running) && r.Some? && r.value.phase.Completed?
    requires Ok(c) == Complete(claimed, r.value.id, r.value.phase.status)
    ensures Decided(cfg, s, c, r, Done(Succeeded))
  {
  }

  class Supervisor {
    const cfg: Settings
    var c: Controller
    var now: int
    var journal: Option<Record>
    var baseline: string
    var lastResult: Option<Record>
    var images: Images
    ghost var pc: Pc
    ghost var start: Snapshot
    ghost var forwards: seq<nat>
    ghost var trace: seq<Sys>
    ghost var steps: seq<Step>

    ghost function View(): Sys
      reads this
    {
      Sys(c, now, journal, baseline, lastResult, images, pc, start, forwards)
    }

    ghost predicate Valid()
      reads this
    {
      IsRun(cfg, trace, steps) && trace[|steps|] == View()
    }

    /** The controller holds the outcome, and it is true: the approved commit runs and is the baseline,
        or everything is as it was when the host last had no journal (`before`). */
    ghost predicate Concluded(record: Record, before: Snapshot)
      reads this
    {
      && record.phase.Completed? && journal == None && record.id < |c.ops|
      && c.ops[record.id].status == Done(record.phase.status)
      && match record.phase.status
         case Succeeded => baseline == c.ops[record.id].sha && images.orchestrator.revision == baseline
                           && images == Uniform(images.orchestrator)
         case RollbackFailed => lastResult == Some(record)
         case _ => Snapshot(images, baseline) == before
    }

    /** The last call explains why there is no outcome. */
    ghost predicate Excused(mortal: bool)
      reads this
    {
      steps != [] && Excuse(steps[|steps| - 1], mortal)
    }

    constructor (cfg: Settings, now: int, sha: string, images: Images)
      ensures Valid() && pc == Idle && journal == None
    {
      this.cfg := cfg;
      c, this.now, journal, baseline, lastResult := Controller([], map[]), now, None, sha, None;
      this.images, pc, start, forwards, steps := images, Idle, Snapshot(images, sha), [], [];
      trace := [Sys(Controller([], map[]), now, None, sha, None, images, Idle, Snapshot(images, sha), [])];
    }

    ghost method Log(step: Step)
      requires IsRun(cfg, trace, steps) && Next(cfg, trace[|steps|], step, View())
      modifies this`trace, this`steps
      ensures Valid() && steps == old(steps) + [step] && trace == old(trace) + [View()]
    {
      ghost var was, done := trace, steps;
      trace, steps := trace + [View()], steps + [step];
      forall i | 0 <= i < |steps| ensures StepAt(cfg, trace, steps, i) {
        assert i < |done| ==> StepAt(cfg, was, done, i);
      }
    }

    ghost method Die()
      requires Valid()
      modifies this`pc, this`trace, this`steps
      ensures Valid() && pc == Idle && old(steps) <= steps && steps != [] && steps[|steps| - 1] == Crash
    {
      pc := Idle;
      Log(Crash);
    }

    /** What owners and the controller do between two calls, any number of times. */
    method Meanwhile(weather: Weather)
      requires Valid()
      modifies `c, `now, `trace, `steps
      ensures Valid() && old(steps) <= steps
      ensures weather.Calm? ==> c == old(c) && now == old(now)
    {
      var left: int := *;
      while left > 0 && !weather.Calm?
        invariant Valid() && old(steps) <= steps
        invariant weather.Calm? ==> c == old(c) && now == old(now)
      {
        Elsewhere();
        left := left - 1;
      }
    }

    /** Time passes, a task is merged, or a release is proposed or approved. */
    method Elsewhere()
      requires Valid()
      modifies `c, `now, `trace, `steps
      ensures Valid() && old(steps) <= steps
    {
      var what: nat := *;
      var t: nat, id: nat, later: int := *, *, *;
      var actor: string, hash: string, sha: string := *, *, *;
      if what == 1 && later >= now {
        now := later;
        Log(Advance(later));
      } else if what == 2 && t !in c.tasks {
        c := c.(tasks := c.tasks[t := Task(sha, None)]);
        Log(TaskMerged(t, sha));
      } else if what == 3 && t in c.tasks {
        c := Propose(c, t, hash, now, later);
        Log(ProposeStep(t, hash, later));
      } else if what == 4 {
        var approved := Approve(c, cfg, t, actor, id, hash, sha, now);
        if approved.Ok? {
          c := approved.value;
          Log(ApproveStep(t, actor, id, hash, sha));
        }
      }
    }

    /** How a durable write ends; others may act before it. */
    method AnyIo(weather: Weather) returns (io: Io)
      requires Valid()
      modifies `c, `now, `trace, `steps
      ensures Valid() && old(steps) <= steps
      ensures io.ok ==> io.effect
      ensures weather.Calm? ==> c == old(c) && now == old(now)
      ensures weather.Calm? ==> io == FINE
    {
      Meanwhile(weather);
      var effect: bool, ok: bool :| (weather.Calm? ==> ok) && (ok ==> effect);
      io := Io(effect, ok);
    }

    /** How far `compose up` gets; others may act before it. */
    method AnyMix(target: Images, weather: Weather) returns (after: Images)
      requires Valid()
      modifies `c, `now, `trace, `steps
      ensures Valid() && old(steps) <= steps
      ensures Between(images, target, after)
      ensures weather.Calm? ==> c == old(c) && now == old(now)
      ensures weather.Calm? ==> after == target
    {
      Meanwhile(weather);
      var a: bool, b: bool, d: bool :| weather.Calm? ==> a && b && d;
      after := Images(if a then target.orchestrator else images.orchestrator,
                      if b then target.gateway else images.gateway,
                      if d then target.renderer else images.renderer);
    }

    /** switch(old_images): replace, wait for health, compare. */
    method RestoreImages(record: Record, weather: Weather) returns (verified: bool)
      requires Valid() && pc == Recovering(record) && record.phase.Switching? && record.oldImages.Some?
      modifies `c, `now, `images, `pc, `trace, `steps
      ensures Valid() && old(steps) <= steps
      ensures weather.Calm? ==> verified && c == old(c)
      ensures pc == if verified then Restored(record) else Closing(record.(phase := Completed(RollbackFailed)), false)
    {
      var after := AnyMix(record.oldImages.value, weather);
      verified :| weather.Calm? ==> verified;
      verified := verified && after == record.oldImages.value;
      images := after;
      pc := if verified then Restored(record) else Closing(record.(phase := Completed(RollbackFailed)), false);
      Log(RollBack(after, verified));
    }

    method WriteOldBaseline(record: Record, weather: Weather) returns (closing: Record)
      requires Valid() && pc == Restored(record) && record.oldSha.Some?
      modifies `c, `now, `baseline, `pc, `trace, `steps
      ensures Valid() && old(steps) <= steps
      ensures pc == Closing(closing, false) && closing.phase in {Completed(RolledBack), Completed(RollbackFailed)}
      ensures weather.Calm? ==> closing == record.(phase := Completed(RolledBack)) && c == old(c)
    {
      var io := AnyIo(weather);
      if io.effect {
        baseline := record.oldSha.value;
      }
      closing := record.(phase := Completed(if io.ok then RolledBack else RollbackFailed));
      pc := Closing(closing, false);
      Log(RestoreBaseline(io));
    }

    /** recover: back to the captured images if the switch may have begun, and never forward. `None`
        when the outcome could not be saved or the process died. */
    method Recover(record: Record, weather: Weather) returns (r: Option<Record>)
      requires Valid() && pc == Recovering(record)
      modifies `c, `now, `journal, `baseline, `images, `pc, `trace, `steps
      ensures Valid() && old(steps) <= steps
      ensures r.None? ==> pc == Idle && Excused(false)
      ensures r.Some? ==> pc == Reporting(r.value) && Says(r.value, LastWord(trace, steps, |steps|))
      ensures r.Some? && record.phase.Switching? ==>
                r.value.phase in {Completed(RolledBack), Completed(RollbackFailed)}
      ensures r.Some? && record.phase.Preflight? ==> r.value.phase == Completed(Failed)
      ensures r.Some? && record.phase.Completed? ==> r.value == record
      ensures weather.Calm? ==> r == Some(record.(phase := Completed(CalmOutcome(record.phase)))) && c == old(c)
    {
      var closing := record;
      if record.phase.Switching? {
        closing := ReturnToOld(record, weather);
      } else {
        closing := StayWithOld(record);
      }
      r := WriteOutcome(closing, false, weather);
      RunIsHonest(cfg, trace, steps, |steps|);
    }

    /** The branch when the switch has not begun, or everything is settled. */
    method StayWithOld(record: Record) returns (closing: Record)
      requires Valid() && pc == Recovering(record) && !record.phase.Switching?
      modifies `pc, `trace, `steps
      ensures Valid() && old(steps) <= steps
      ensures pc == Closing(closing, false)
      ensures closing == record.(phase := Completed(CalmOutcome(record.phase)))
    {
      closing := if record.phase.Preflight? then record.(phase := Completed(Failed)) else record;
      pc := Closing(closing, false);
      Log(GiveUp);
    }

    /** The branch after a possible switch: the captured images, then the old baseline. */
    method ReturnToOld(record: Record, weather: Weather) returns (closing: Record)
      requires Valid() && pc == Recovering(record) && record.phase.Switching?
      modifies `c, `now, `images, `baseline, `pc, `trace, `steps
      ensures Valid() && old(steps) <= steps
      ensures pc == Closing(closing, false) && closing.phase in {Completed(RolledBack), Completed(RollbackFailed)}
      ensures weather.Calm? ==> closing == record.(phase := Completed(RolledBack)) && c == old(c)
    {
      RunInv(cfg, trace, steps, |steps|);
      var verified := RestoreImages(record, weather);
      if verified {
        closing := WriteOldBaseline(record, weather);
      } else {
        closing := record.(phase := Completed(RollbackFailed));
      }
    }

    method WriteOutcome(record: Record, inTry: bool, weather: Weather) returns (r: Option<Record>)
      requires Valid() && pc == Closing(record, inTry)
      modifies `c, `now, `journal, `pc, `trace, `steps
      ensures Valid() && old(steps) <= steps
      ensures weather.Calm? ==> r.Some? && c == old(c)
      ensures r.None? ==> Excused(false) && pc == if inTry then Closing(record, false) else Idle
      ensures r.Some? ==> r.value == record && pc == Reporting(record)
    {
      var io := AnyIo(weather);
      if io.effect {
        journal := Some(record);
      }
      if io.ok {
        pc, r := Reporting(record), Some(record);
      } else {
        pc, r := if inTry then Closing(record, false) else Idle, None;
      }
      Log(SaveOutcome(io));
    }

    ghost method Raise(captured: bool)
      requires Valid() && (pc.Checking? || pc.Built? || pc.Ready? || pc.Verified?)
      modifies this`pc, this`trace, this`steps
      ensures Valid() && pc.Recovering? && old(steps) <= steps
      ensures pc.record == if captured && old(pc).Checking? then old(pc).record.(oldImages := Some(images))
                           else old(pc).record
    {
      var record := if captured && pc.Checking? then pc.record.(oldImages := Some(images)) else pc.record;
      pc := Recovering(record);
      Log(Reject(captured));
    }

    /** The part of the try block that ends with the durable `switching` record. */
    method Prepare(request: Request, record: Record, weather: Weather) returns (r: Attempt, image: Image)
      requires Valid() && pc == Checking(request, record)
      modifies `c, `now, `journal, `pc, `trace, `steps
      ensures Valid() && old(steps) <= steps
      ensures r.Finished? ==> pc == Ready(request, r.record, image)
      ensures r.Raised? ==> pc == Recovering(r.record)
      ensures r.Died? ==> pc == Idle && Excused(weather.Deadly?)
      ensures weather.Calm? ==>
                c == old(c) && now == old(now) && image.revision == request.sha
                && r == if Refusable(request) then Raised(record)
                        else Finished(record.(phase := Switching, oldImages := Some(images), oldSha := Some(baseline)))
    {
      r, image := CheckAndCapture(request, record, weather);
      if r.Finished? {
        r := ArmSwitch(request, r.record, image, weather);
      }
    }

    /** The approval, the running images, the baseline and the candidate. */
    method CheckAndCapture(request: Request, record: Record, weather: Weather) returns (r: Attempt, image: Image)
      requires Valid() && pc == Checking(request, record)
      modifies `c, `now, `pc, `trace, `steps
      ensures Valid() && old(steps) <= steps
      ensures r.Finished? ==> pc == Built(request, r.record, image) && !Refusable(request)
      ensures r.Finished? ==> r.record == record.(oldImages := Some(images), oldSha := Some(baseline))
      ensures r.Raised? ==> pc == Recovering(r.record)
      ensures !r.Died? && image.revision == request.sha
      ensures weather.Calm? ==> c == old(c) && now == old(now) && (r == Raised(record) || !Refusable(request))
      ensures weather.Calm? && !Refusable(request) ==> r.Finished?
    {
      Meanwhile(weather);
      image := Image(request.sha, 0);
      var checksPass: bool, captured: bool :| weather.Calm? ==> checksPass;
      if request.resumed || request.expires <= now || request.actor !in cfg.owners {
        Raise(false);
        return Raised(record), image;
      }
      if !checksPass {
        Raise(captured);
        return Raised(if captured then record.(oldImages := Some(images)) else record), image;
      }
      var build: nat := *;
      image := Image(request.sha, build);
      var full := record.(oldImages := Some(images), oldSha := Some(baseline));
      pc := Built(request, full, image);
      Log(Capture(image));
      r := Finished(full);
    }

    /** What the supervisor refuses on its own account. */
    ghost predicate Refusable(request: Request)
      reads this
    {
      request.resumed || request.expires <= now || request.actor !in cfg.owners
    }

    /** The second look at the approval and the runtime, and the backup. */
    method SecondLook(request: Request, record: Record, image: Image, weather: Weather) returns (passed: bool)
      requires Valid() && pc == Built(request, record, image)
      modifies `c, `now, `pc, `trace, `steps
      ensures Valid() && old(steps) <= steps
      ensures weather.Calm? ==> c == old(c) && now == old(now)
      ensures weather.Calm? ==> (passed <==> request.expires > now && record.oldImages == Some(images))
      ensures pc == if passed then Arming(request, record.(phase := Switching), image) else Recovering(record)
    {
      Meanwhile(weather);
      var stillIdle: bool :| weather.Calm? ==> stillIdle;
      passed := request.expires > now && stillIdle && record.oldImages == Some(images);
      if passed {
        pc := Arming(request, record.(phase := Switching), image);
        Log(Arm);
      } else {
        Raise(false);
      }
    }

    /** The second look, then the record that is written. */
    method ArmSwitch(request: Request, record: Record, image: Image, weather: Weather) returns (r: Attempt)
      requires Valid() && pc == Built(request, record, image)
      modifies `c, `now, `journal, `pc, `trace, `steps
      ensures Valid() && old(steps) <= steps
      ensures weather.Calm? ==> c == old(c) && now == old(now)
      ensures weather.Calm? && request.expires > now && record.oldImages == Some(images) ==>
                r == Finished(record.(phase := Switching))
      ensures r.Finished? ==> pc == Ready(request, r.record, image)
      ensures r.Raised? ==> pc == Recovering(r.record)
      ensures r.Died? ==> pc == Idle && Excused(weather.Deadly?)
    {
      var passed := SecondLook(request, record, image, weather);
      if !passed {
        return Raised(record);
      }
      var died: bool := *;
      if died && weather.Deadly? {
        Die();
        return Died;
      }
      r := WriteArmed(request, record.(phase := Switching), image, weather);
    }

    /** The write ahead of the switch. */
    method WriteArmed(request: Request, record: Record, image: Image, weather: Weather) returns (r: Attempt)
      requires Valid() && pc == Arming(request, record, image)
      modifies `c, `now, `journal, `pc, `trace, `steps
      ensures Valid() && old(steps) <= steps
      ensures weather.Calm? ==> c == old(c) && now == old(now)
      ensures weather.Calm? ==> r.Finished?
      ensures r == Finished(record) || r == Raised(record)
      ensures pc == if r.Finished? then Ready(request, record, image) else Recovering(record)
    {
      var io := AnyIo(weather);
      if io.effect {
        journal := Some(record);
      }
      if io.ok {
        pc, r := Ready(request, record, image), Finished(record);
      } else {
        pc, r := Recovering(record), Raised(record);
      }
      Log(SaveArmed(io));
    }

    /** The rest of the try block: start the candidate, look twice, then commit to it. */
    method SwitchForward(request: Request, record: Record, image: Image, weather: Weather) returns (r: Attempt)
      requires Valid() && pc == Ready(request, record, image)
      modifies `c, `now, `baseline, `images, `forwards, `pc, `trace, `steps
      ensures Valid() && old(steps) <= steps
      ensures weather.Calm? ==> c == old(c) && r == Finished(record.(phase := Completed(Succeeded)))
      ensures r.Finished? ==> pc == Closing(r.record, true)
      ensures r.Raised? ==> pc == Recovering(r.record)
      ensures r.Died? ==> pc == Idle && Excused(weather.Deadly?)
    {
      var overrideSaved: bool :| weather.Calm? ==> overrideSaved;
      if !overrideSaved {
        Raise(false);
        return Raised(record);
      }
      var started := StartCandidate(request, record, image, weather);
      if !started {
        return Raised(record);
      }
      r := LookAndCommit(request, record, image, weather);
    }

    /** Both observations of the candidate, then its baseline. */
    method LookAndCommit(request: Request, record: Record, image: Image, weather: Weather) returns (r: Attempt)
      requires Valid() && pc == Verified(request, record, image)
      modifies `c, `now, `baseline, `pc, `trace, `steps
      ensures Valid() && old(steps) <= steps
      ensures weather.Calm? ==> c == old(c) && r == Finished(record.(phase := Completed(Succeeded)))
      ensures r.Finished? ==> pc == Closing(r.record, true)
      ensures r.Raised? ==> pc == Recovering(r.record)
      ensures r.Died? ==> pc == Idle && Excused(weather.Deadly?)
    {
      var verified: bool, healthy: bool, died: bool :| weather.Calm? ==> verified && healthy;
      if verified && died && weather.Deadly? {
        Die();
        return Died;
      }
      if !verified || !healthy {
        Raise(false);
        return Raised(record);
      }
      r := CommitBaseline(request, record, image, weather);
    }

    /** `compose up` with the candidate; true when every service runs it. */
    method StartCandidate(request: Request, record: Record, image: Image, weather: Weather) returns (started: bool)
      requires Valid() && pc == Ready(request, record, image)
      modifies `c, `now, `images, `forwards, `pc, `trace, `steps
      ensures Valid() && old(steps) <= steps
      ensures weather.Calm? ==> started && c == old(c)
      ensures pc == if started then Verified(request, record, image) else Recovering(record)
    {
      var after := AnyMix(Uniform(image), weather);
      started := after == Uniform(image);
      images := after;
      forwards := forwards + [record.id];
      pc := if started then Verified(request, record, image) else Recovering(record);
      Log(Forward(after, started));
    }

    method CommitBaseline(request: Request, record: Record, image: Image, weather: Weather) returns (r: Attempt)
      requires Valid() && pc == Verified(request, record, image)
      modifies `c, `now, `baseline, `pc, `trace, `steps
      ensures Valid() && old(steps) <= steps
      ensures weather.Calm? ==> r.Finished? && c == old(c)
      ensures r == Finished(record.(phase := Completed(Succeeded))) || r == Raised(record)
      ensures pc == if r.Finished? then Closing(r.record, true) else Recovering(record)
    {
      var io := AnyIo(weather);
      if io.effect {
        baseline := request.sha;
      }
      var closing := record.(phase := Completed(Succeeded));
      if io.ok {
        pc, r := Closing(closing, true), Finished(closing);
      } else {
        pc, r := Recovering(record), Raised(record);
      }
      Log(SaveBaseline(io));
    }

    /** The try block and its handler: `None` when the tick ends without a durable outcome. */
    method TryRelease(request: Request, record: Record, weather: Weather) returns (r: Option<Record>)
      requires Valid() && pc == Checking(request, record) && record.phase.Preflight?
      modifies `c, `now, `journal, `baseline, `images, `forwards, `pc, `trace, `steps
      ensures Valid() && old(steps) <= steps
      ensures r.None? ==> pc == Idle && Excused(weather.Deadly?)
      ensures weather.Calm? ==>
                && c == old(c) && r.Some? && r.value.id == record.id
                && r.value.phase == Completed(if old(Refusable(request)) then Failed else Succeeded)
      ensures r.Some? ==> pc == Reporting(r.value)
    {
      var attempt := TryBlock(request, record, weather);
      match attempt
      case Died => r := None;
      case Raised(current) => r := Recover(current, weather);
      case Finished(closing) => r := WriteSuccess(closing, weather);
    }

    method TryBlock(request: Request, record: Record, weather: Weather) returns (r: Attempt)
      requires Valid() && pc == Checking(request, record) && record.phase.Preflight?
      modifies `c, `now, `journal, `baseline, `images, `forwards, `pc, `trace, `steps
      ensures Valid() && old(steps) <= steps
      ensures r.Finished? ==> pc == Closing(r.record, true)
      ensures r.Raised? ==> pc == Recovering(r.record)
      ensures r.Died? ==> pc == Idle && Excused(weather.Deadly?)
      ensures weather.Calm? && old(Refusable(request)) ==> c == old(c) && r == Raised(record)
      ensures weather.Calm? && !old(Refusable(request)) ==>
                c == old(c) && r.Finished? && r.record.id == record.id && r.record.phase == Completed(Succeeded)
    {
      var image;
      r, image := Prepare(request, record, weather);
      if r.Finished? {
        r := SwitchForward(request, r.record, image, weather);
      }
    }

    /** The last write of the try block, and what its handler does when it fails: recover only writes again. */
    method WriteSuccess(record: Record, weather: Weather) returns (r: Option<Record>)
      requires Valid() && pc == Closing(record, true)
      modifies `c, `now, `journal, `pc, `trace, `steps
      ensures Valid() && old(steps) <= steps
      ensures r.None? ==> pc == Idle && Excused(false)
      ensures r.Some? ==> r.value == record && pc == Reporting(record)
      ensures weather.Calm? ==> r.Some? && c == old(c)
    {
      r := WriteOutcome(record, true, weather);
      if r.None? {
        r := WriteOutcome(record, false, weather);
      }
    }

    /** Ask the controller for work and save the claim. */
    method ClaimWork(weather: Weather) returns (r: Option<Record>)
      requires Valid() && pc == Idle && journal == None
      modifies `c, `now, `journal, `baseline, `images, `forwards, `pc, `trace, `steps
      ensures Valid() && old(steps) <= steps
      ensures weather.Calm? ==> Decided(cfg, old(View()), c, r, Running)
      ensures r.None? ==> pc == Idle && (Excused(weather.Deadly?) || (GaveUp(lastResult) && steps == old(steps)))
      ensures r.Some? ==> pc == Reporting(r.value)
    {
      if lastResult.Some? && lastResult.value.phase == Completed(RollbackFailed) {
        return None;
      }
      FirstIsClaimed(cfg, View());
      var request := AskController(weather);
      if request.None? {
        return None;
      }
      r := WorkOn(request.value, weather);
    }

    /** The claim is saved, and then tried. */
    method WorkOn(request: Request, weather: Weather) returns (r: Option<Record>)
      requires Valid() && pc == Claimed(request)
      modifies `c, `now, `journal, `baseline, `images, `forwards, `pc, `trace, `steps
      ensures Valid() && old(steps) <= steps
      ensures weather.Calm? ==>
                && c == old(c) && r.Some? && r.value.id == request.id
                && r.value.phase == Completed(if old(Refusable(request)) then Failed else Succeeded)
      ensures r.None? ==> pc == Idle && Excused(weather.Deadly?)
      ensures r.Some? ==> pc == Reporting(r.value)
    {
      var saved := WriteClaim(request, weather);
      if !saved {
        return None;
      }
      r := TryRelease(request, Record(request.id, Preflight, None, None), weather);
    }

    /** bridge claim; the answer may be lost on the way back. */
    method AskController(weather: Weather) returns (r: Option<Request>)
      requires Valid() && pc == Idle && journal == None
      requires !(lastResult.Some? && lastResult.value.phase == Completed(RollbackFailed))
      modifies `c, `now, `pc, `trace, `steps
      ensures Valid() && old(steps) <= steps && journal == None
      ensures weather.Calm? ==> (c, r) == Claim(old(c), cfg, old(now), false) && now == old(now)
      ensures pc == if r.None? then Idle else Claimed(r.value)
      ensures Excused(false)
    {
      Meanwhile(weather);
      var busy: bool, lost: bool :| weather.Calm? ==> !busy && !lost;
      var (c', request) := Claim(c, cfg, now, busy);
      c := c';
      r := if lost then None else request;
      pc := if r.None? then Idle else Claimed(r.value);
      Log(ClaimStep(busy, lost));
    }

    method WriteClaim(request: Request, weather: Weather) returns (saved: bool)
      requires Valid() && pc == Claimed(request)
      modifies `c, `now, `journal, `pc, `trace, `steps
      ensures Valid() && old(steps) <= steps
      ensures weather.Calm? ==> c == old(c) && now == old(now)
      ensures weather.Calm? ==> saved
      ensures !saved ==> Excused(false)
      ensures pc == if saved then Checking(request, Record(request.id, Preflight, None, None)) else Idle
    {
      var record := Record(request.id, Preflight, None, None);
      var io := AnyIo(weather);
      if io.effect {
        journal := Some(record);
      }
      saved := io.ok;
      pc := if io.ok then Checking(request, record) else Idle;
      Log(SaveClaim(io));
    }

    /** Tell the controller, file the result, drop the journal. */
    method Conclude(record: Record, weather: Weather) returns (concluded: bool)
      requires Valid() && pc == Reporting(record)
      modifies `c, `now, `journal, `lastResult, `start, `pc, `trace, `steps
      ensures Valid() && old(steps) <= steps && pc == Idle
      ensures concluded ==> Concluded(record, old(start)) && Says(record, LastWord(trace, steps, |steps|))
      ensures !concluded ==> Excused(false)
      ensures weather.Calm? ==> concluded && Ok(c) == Complete(old(c), record.id, record.phase.status)
    {
      var received := SendReport(record, weather);
      if !received {
        return false;
      }
      var filed := FileResult(record, weather);
      if !filed {
        return false;
      }
      concluded := DropJournal(record, weather);
    }

    /** bridge complete. Both the call and its answer may be lost. */
    method SendReport(record: Record, weather: Weather) returns (received: bool)
      requires Valid() && pc == Reporting(record)
      modifies `c, `now, `pc, `trace, `steps
      ensures Valid() && old(steps) <= steps
      ensures weather.Calm? ==>
                received && record.phase.Completed? && Ok(c) == Complete(old(c), record.id, record.phase.status)
      ensures !received ==> Excused(false)
      ensures pc == if received then Filing(record) else Idle
    {
      Meanwhile(weather);
      ReportIsAccepted(cfg, trace, steps, |steps|);
      var delivered: bool;
      delivered, received :| (weather.Calm? ==> received) && (received ==> delivered);
      if delivered {
        c := Complete(c, record.id, record.phase.status).value;
      }
      pc := if received then Filing(record) else Idle;
      Log(Report(delivered, received));
    }

    method FileResult(record: Record, weather: Weather) returns (filed: bool)
      requires Valid() && pc == Filing(record)
      modifies `c, `now, `lastResult, `pc, `trace, `steps
      ensures Valid() && old(steps) <= steps
      ensures weather.Calm? ==> filed && c == old(c)
      ensures !filed ==> Excused(false)
      ensures pc == if filed then Unlinking(record) else Idle
    {
      var io := AnyIo(weather);
      if io.effect {
        lastResult := Some(record);
      }
      filed := io.ok;
      pc := if io.ok then Unlinking(record) else Idle;
      Log(File(io));
    }

    method DropJournal(record: Record, weather: Weather) returns (unlinked: bool)
      requires Valid() && pc == Unlinking(record)
      modifies `c, `now, `journal, `start, `pc, `trace, `steps
      ensures Valid() && old(steps) <= steps && pc == Idle
      ensures unlinked ==> Concluded(record, old(start)) && Says(record, LastWord(trace, steps, |steps|))
      ensures !unlinked ==> Excused(false)
      ensures weather.Calm? ==> unlinked && c == old(c)
    {
      var io := AnyIo(weather);
      FiledIsTrue(cfg, trace, steps, record);
      if io.effect {
        journal := None;
        start := Snapshot(images, baseline);
      }
      pc := Idle;
      LogUnlink(io, record);
      unlinked := io.effect;
    }

    ghost method LogUnlink(io: Io, record: Record)
      requires IsRun(cfg, trace, steps) && Next(cfg, trace[|steps|], Unlink(io), View())
      requires trace[|steps|].pc == Unlinking(record)
      modifies this`trace, this`steps
      ensures Valid() && steps == old(steps) + [Unlink(io)] && Says(record, LastWord(trace, steps, |steps|))
    {
      RunIsHonest(cfg, trace, steps, |steps|);
      ghost var run, done := trace, steps;
      Log(Unlink(io));
      LastWordOf(run, done, trace, steps, |done|);
    }

    /** Recover from the journal, or ask for work. */
    method Decide(weather: Weather) returns (r: Option<Record>)
      requires Valid() && pc == Idle
      modifies `c, `now, `journal, `baseline, `images, `forwards, `pc, `trace, `steps
      ensures Valid() && old(steps) <= steps
      ensures r.None? ==>
                pc == Idle
                && (Excused(weather.Deadly?) || (old(journal) == None && GaveUp(lastResult) && steps == old(steps)))
      ensures r.Some? ==> pc == Reporting(r.value)
      ensures weather.Calm? && old(journal).Some? ==>
                r == Some(old(journal).value.(phase := Completed(CalmOutcome(old(journal).value.phase))))
      ensures weather.Calm? ==> Decided(cfg, old(View()), c, r, Running)
    {
      if journal.Some? {
        pc := Recovering(journal.value);
        Log(ReadJournal);
        r := Recover(journal.value, weather);
      } else {
        r := ClaimWork(weather);
      }
    }

    /** tick. A concluded one has told the controller the truth, and the last word about its operation. Any other
        has made a claim that brought nothing or a call that did not arrive, or had to wait for an owner. */
    method Tick(weather: Weather) returns (concluded: Option<Record>)
      requires Valid() && pc == Idle
      modifies this
      ensures Valid() && old(steps) <= steps && pc == Idle
      ensures concluded.Some? ==> Concluded(concluded.value, old(start))
                                  && Says(concluded.value, LastWord(trace, steps, |steps|))
      ensures concluded.None? ==>
                Excused(weather.Deadly?) || (old(journal) == None && GaveUp(lastResult) && steps == old(steps))
      ensures weather.Calm? && old(journal).Some? ==>
                concluded == Some(old(journal).value.(phase := Completed(CalmOutcome(old(journal).value.phase))))
      ensures weather.Calm? ==> Decided(cfg, old(View()), c, concluded, Done(Succeeded))
    {
      var decided := Decide(weather);
      if decided.None? {
        return None;
      }
      ghost var claimed := c;
      var done := Conclude(decided.value, weather);
      if weather.Calm? {
        ReportIsKept(cfg, old(View()), claimed, c, decided);
      }
      concluded := if done then decided else None;
    }
  }
}
