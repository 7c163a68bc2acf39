/** Which outcome of a release is recorded, and when: in terms of the calls that were made for it. */
module ReleaseOutcomes {
  import opened Wrappers
  import opened Release

  // ----- the last word -----

  /** What a call settles about the operation it is made for: the new baseline is on disk; the old images could not
      be restored; they were, and the old baseline is on disk or not; or the record never said `switching`. */
  ghost function Word(s: Sys, step: Step): Option<(nat, Status)> {
    match step
    case SaveBaseline(io) => if s.pc.Verified? && io.ok then Some((s.pc.record.id, Succeeded)) else None
    case RollBack(_, ok) => if s.pc.Recovering? && !ok then Some((s.pc.record.id, RollbackFailed)) else None
    case RestoreBaseline(io) =>
      if s.pc.Restored? then Some((s.pc.record.id, if io.ok then RolledBack else RollbackFailed)) else None
    case GiveUp => if s.pc.Recovering? && s.pc.record.phase.Preflight? then Some((s.pc.record.id, Failed)) else None
    case _ => None
  }

  /** The last call before step `i` that settled anything. */
  ghost function LastWord(run: seq<Sys>, steps: seq<Step>, i: nat): Option<(nat, Status)>
    requires |run| == |steps| + 1 && i <= |steps|
  {
    if i == 0 then None
    else if Word(run[i - 1], steps[i - 1]).Some? then Word(run[i - 1], steps[i - 1])
    else LastWord(run, steps, i - 1)
  }

  /** It depends on the calls before only. */
  lemma {:induction false} LastWordOf(run: seq<Sys>, steps: seq<Step>, run': seq<Sys>, steps': seq<Step>, i: nat)
    requires |run| == |steps| + 1 && |run'| == |steps'| + 1 && run <= run' && steps <= steps' && i <= |steps|
    ensures LastWord(run, steps, i) == LastWord(run', steps', i)
  {
    if i > 0 {
      LastWordOf(run, steps, run', steps', i - 1);
    }
  }

  ghost predicate Says(r: Record, word: Option<(nat, Status)>) {
    r.phase.Completed? && word == Some((r.id, r.phase.status))
  }

  /** A record that calls itself complete, in memory or on disk, says the last word. */
  ghost predicate Honest(s: Sys, word: Option<(nat, Status)>) {
    && (s.journal.Some? && s.journal.value.phase.Completed? ==> Says(s.journal.value, word))
    && match s.pc
       case Closing(r, _) => Says(r, word)
       case Reporting(r) => Says(r, word)
       case Filing(r) => Says(r, word)
       case Unlinking(r) => Says(r, word)
       case _ => true
  }

  predicate OnHost(step: Step) { IsPreparing(step) || IsRestoring(step) || IsFiling(step) }

  lemma HonestPreparing(cfg: Settings, s: Sys, step: Step, s': Sys, word: Option<(nat, Status)>)
    requires Inv(s) && Honest(s, word) && Next(cfg, s, step, s') && IsPreparing(step)
    ensures Honest(s', if Word(s, step).Some? then Word(s, step) else word)
  {
  }

  lemma HonestRestoring(cfg: Settings, s: Sys, step: Step, s': Sys, word: Option<(nat, Status)>)
    requires Inv(s) && Honest(s, word) && Next(cfg, s, step, s') && IsRestoring(step)
    ensures Honest(s', if Word(s, step).Some? then Word(s, step) else word)
  {
  }

  lemma HonestFiling(cfg: Settings, s: Sys, step: Step, s': Sys, word: Option<(nat, Status)>)
    requires Inv(s) && Honest(s, word) && Next(cfg, s, step, s') && IsFiling(step)
    ensures Honest(s', if Word(s, step).Some? then Word(s, step) else word)
  {
  }

  lemma HonestElsewhere(cfg: Settings, s: Sys, step: Step, s': Sys, word: Option<(nat, Status)>)
    requires Inv(s) && Honest(s, word) && Next(cfg, s, step, s') && !OnHost(step)
    ensures Honest(s', if Word(s, step).Some? then Word(s, step) else word)
  {
  }

  lemma HonestStep(cfg: Settings, s: Sys, step: Step, s': Sys, word: Option<(nat, Status)>)
    requires Inv(s) && Honest(s, word) && Next(cfg, s, step, s')
    ensures Honest(s', if Word(s, step).Some? then Word(s, step) else word)
  {
    if IsPreparing(step) {
      HonestPreparing(cfg, s, step, s', word);
    } else if IsRestoring(step) {
      HonestRestoring(cfg, s, step, s', word);
    } else if IsFiling(step) {
      HonestFiling(cfg, s, step, s', word);
    } else {
      HonestElsewhere(cfg, s, step, s', word);
    }
  }

  lemma {:induction false} RunIsHonest(cfg: Settings, run: seq<Sys>, steps: seq<Step>, i: nat)
    requires IsRun(cfg, run, steps) && i < |run|
    ensures Honest(run[i], LastWord(run, steps, i))
  {
    if i > 0 {
      RunIsHonest(cfg, run, steps, i - 1);
      RunInv(cfg, run, steps, i - 1);
      assert StepAt(cfg, run, steps, i - 1);
      HonestStep(cfg, run[i - 1], steps[i - 1], run[i], LastWord(run, steps, i - 1));
    }
  }

  /** Why an operation has the outcome it has. Without a report it failed, because its approval was stale when it
      was claimed. With a report it has exactly the outcome of the last word that was spoken about it: succeeded if
      the new baseline was saved, rolled back if the old images were verified and the old baseline was saved,
      rollback failed if one of these two failed, and failed if recovery found that the record had never said
      `switching`. */
  lemma OutcomeIsLastWord(cfg: Settings, run: seq<Sys>, steps: seq<Step>, i: nat, id: nat, status: Status)
    requires IsRun(cfg, run, steps) && i < |steps|
    requires id < |run[i].c.ops| && !run[i].c.ops[id].status.Done?
    requires id < |run[i + 1].c.ops| && run[i + 1].c.ops[id].status == Done(status)
    ensures steps[i].ClaimStep? || steps[i].Report?
    ensures steps[i].Report? ==> LastWord(run, steps, i) == Some((id, status))
    ensures steps[i].ClaimStep? ==>
              var op := run[i].c.ops[id];
              && status == Failed && op.status == Queued
              && (op.expires <= run[i].now || op.actor !in cfg.owners || op.task !in run[i].c.tasks
                  || run[i].c.tasks[op.task].mergeSha != op.sha)
  {
    RunIsHonest(cfg, run, steps, i);
    assert StepAt(cfg, run, steps, i);
  }

  /** When the journal is about to go, the controller holds the outcome, and it is true. */
  lemma FiledIsTrue(cfg: Settings, run: seq<Sys>, steps: seq<Step>, r: Record)
    requires IsRun(cfg, run, steps) && run[|steps|].pc == Unlinking(r)
    ensures var s := run[|steps|];
            && r.phase.Completed? && r.id < |s.c.ops| && s.c.ops[r.id].status == Done(r.phase.status)
            && Truth(s, r.id, r.phase.status) && s.lastResult == Some(r)
  {
    RunInv(cfg, run, steps, |steps|);
  }

  // ----- an operation that failed was never switched -----

  /** The record of the operation said `switching` on disk before step `i`. */
  ghost predicate Armed(run: seq<Sys>, steps: seq<Step>, i: nat, id: nat)
    requires |run| == |steps| + 1 && i <= |steps|
  {
    i > 0 && (ArmsNow(run[i - 1], steps[i - 1], id) || Armed(run, steps, i - 1, id))
  }

  predicate ArmsNow(s: Sys, step: Step, id: nat) {
    step.SaveArmed? && step.io.effect && s.pc.Arming? && s.pc.record.id == id
  }

  ghost predicate StillArmed(s: Sys, id: nat) {
    id < |s.c.ops| &&
    (s.c.ops[id].status.Done? || (s.journal.Some? && s.journal.value.id == id && !s.journal.value.phase.Preflight?))
  }

  lemma ArmedOnHost(cfg: Settings, s: Sys, step: Step, s': Sys, id: nat)
    requires Inv(s) && Next(cfg, s, step, s') && OnHost(step) && (StillArmed(s, id) || ArmsNow(s, step, id))
    ensures StillArmed(s', id)
  {
  }

  lemma ArmedElsewhere(cfg: Settings, s: Sys, step: Step, s': Sys, id: nat)
    requires Inv(s) && Next(cfg, s, step, s') && !OnHost(step) && StillArmed(s, id)
    ensures StillArmed(s', id)
  {
  }

  lemma ArmedStep(cfg: Settings, s: Sys, step: Step, s': Sys, id: nat)
    requires Inv(s) && Next(cfg, s, step, s') && (StillArmed(s, id) || ArmsNow(s, step, id))
    ensures StillArmed(s', id)
  {
    if OnHost(step) {
      ArmedOnHost(cfg, s, step, s', id);
    } else {
      ArmedElsewhere(cfg, s, step, s', id);
    }
  }

  lemma {:induction false} ArmedStays(cfg: Settings, run: seq<Sys>, steps: seq<Step>, i: nat, id: nat)
    requires IsRun(cfg, run, steps) && i < |run| && Armed(run, steps, i, id)
    ensures StillArmed(run[i], id)
  {
    RunInv(cfg, run, steps, i - 1);
    assert StepAt(cfg, run, steps, i - 1);
    if !ArmsNow(run[i - 1], steps[i - 1], id) {
      ArmedStays(cfg, run, steps, i - 1, id);
    }
    ArmedStep(cfg, run[i - 1], steps[i - 1], run[i], id);
  }

  /** `failed` is spoken of an operation only if its record has never said `switching` on disk. */
  lemma FailedWasNeverArmed(cfg: Settings, run: seq<Sys>, steps: seq<Step>, i: nat, id: nat)
    requires IsRun(cfg, run, steps) && i < |steps| && Word(run[i], steps[i]) == Some((id, Failed))
    ensures !Armed(run, steps, i, id)
  {
    RunInv(cfg, run, steps, i);
    if Armed(run, steps, i, id) {
      ArmedStays(cfg, run, steps, i, id);
    }
  }

  // ----- the second look -----

  /** Step `k` armed the switch of this request: the approval had not run out, and the images were the captured. */
  ghost predicate ArmedInTime(run: seq<Sys>, steps: seq<Step>, k: nat, q: Request, r: Record)
    requires |run| == |steps| + 1
  {
    k < |steps| && steps[k].Arm? && run[k].pc.Built? && run[k].pc.request == q && q.expires > run[k].now
    && r.oldImages == Some(run[k].images)
  }

  ghost predicate AboutToSwitch(s: Sys, q: Request, r: Record) {
    (s.pc.Arming? && s.pc.request == q && s.pc.record == r) || (s.pc.Ready? && s.pc.request == q && s.pc.record == r)
  }

  lemma {:induction false} ReadyWasArmed(cfg: Settings, run: seq<Sys>, steps: seq<Step>, i: nat, q: Request, r: Record)
    requires IsRun(cfg, run, steps) && i < |run| && AboutToSwitch(run[i], q, r)
    ensures exists k: nat :: k < i && ArmedInTime(run, steps, k, q, r)
  {
    if i > 0 {
      assert StepAt(cfg, run, steps, i - 1);
      if AboutToSwitch(run[i - 1], q, r) {
        ReadyWasArmed(cfg, run, steps, i - 1, q, r);
      } else {
        assert ArmedInTime(run, steps, i - 1, q, r);
      }
    }
  }

  /** Before a candidate is started, somebody has looked a second time: the approval had not run out, and the images
      were still the captured ones. */
  lemma ForwardWasArmedInTime(cfg: Settings, run: seq<Sys>, steps: seq<Step>, i: nat)
    requires IsRun(cfg, run, steps) && i < |steps| && steps[i].Forward?
    ensures run[i].pc.Ready?
    ensures exists k: nat :: k < i && ArmedInTime(run, steps, k, run[i].pc.request, run[i].pc.record)
  {
    assert StepAt(cfg, run, steps, i);
    ReadyWasArmed(cfg, run, steps, i, run[i].pc.request, run[i].pc.record);
  }

  // ----- what the controller decides, column by column -----

  lemma ApproveIff(c: Controller, cfg: Settings, t: nat, actor: string, id: nat, hash: string, sha: string, now: int)
    ensures Approve(c, cfg, t, actor, id, hash, sha, now).Ok? <==>
            && cfg.enabled && actor in cfg.owners && t in c.tasks && id < |c.ops|
            && c.tasks[t].deployment == Some(id) && c.tasks[t].mergeSha == sha
            && var op := c.ops[id];
               op.task == t && op.status == AwaitingApproval && op.expires > now && op.hash == hash && op.sha == sha
    ensures var r := Approve(c, cfg, t, actor, id, hash, sha, now);
            r.Ok? ==> r.value == c.(ops := c.ops[id := c.ops[id].(status := Queued, actor := actor)])
  {
  }

  /** The claim of a queued operation, when nothing runs and nothing earlier is queued. */
  lemma ClaimTable(c: Controller, cfg: Settings, now: int, busy: bool, id: nat)
    requires id < |c.ops| && c.ops[id].status == Queued
    requires forall k | 0 <= k < |c.ops| :: c.ops[k].status != Running
    requires forall k | 0 <= k < id :: c.ops[k].status != Queued
    ensures var (r, request), op := Claim(c, cfg, now, busy), c.ops[id];
            if !cfg.enabled || busy then r == c && request == None
            else if op.expires > now && op.actor in cfg.owners && op.task in c.tasks
                    && c.tasks[op.task].mergeSha == op.sha
            then r == c.(ops := c.ops[id := op.(status := Running)])
                 && request == Some(Request(id, op.sha, op.actor, op.expires, false))
            else r == c.(ops := c.ops[id := op.(status := Done(Failed))]) && request == None
  {
  }

  /** A running operation is only handed out again, marked as resumed. */
  lemma ResumeTable(c: Controller, cfg: Settings, now: int, busy: bool, id: nat)
    requires id < |c.ops| && c.ops[id].status == Running
    requires forall k | 0 <= k < id :: c.ops[k].status != Running
    ensures var (r, request), op := Claim(c, cfg, now, busy), c.ops[id];
            r == c
            && request == if cfg.enabled && !busy then Some(Request(id, op.sha, op.actor, op.expires, true)) else None
  {
  }

  /** The row a proposal adds, exactly when the operation the task points to may be replaced. */
  lemma ProposeTable(c: Controller, t: nat, hash: string, now: int, expires: int)
    requires t in c.tasks
    ensures var r := Propose(c, t, hash, now, expires);
            var current := c.tasks[t].deployment;
            if current == None || current.value >= |c.ops|
               || (c.ops[current.value].status !in {Queued, Running, Done(Succeeded)}
                   && (c.ops[current.value].status == AwaitingApproval ==> c.ops[current.value].expires <= now))
            then r.ops == c.ops + [Op(t, c.tasks[t].mergeSha, hash, expires, "", AwaitingApproval)]
                 && r.tasks == c.tasks[t := Task(c.tasks[t].mergeSha, Some(|c.ops|))]
            else r == c
  {
  }

  // ----- a release goes through, and so does a recovery -----

  /** These steps lead from `s` to `s'`. */
  ghost predicate Leads(cfg: Settings, s: Sys, steps: seq<Step>, s': Sys)
    decreases |steps|
  {
    if steps == [] then s == s' else exists m :: Next(cfg, s, steps[0], m) && Leads(cfg, m, steps[1..], s')
  }

  lemma OneStep(cfg: Settings, s: Sys, step: Step, s': Sys)
    requires Next(cfg, s, step, s')
    ensures Leads(cfg, s, [step], s')
  {
    assert [step][1..] == [] && Leads(cfg, s', [step][1..], s');
  }

  lemma {:induction false} LeadsOn(cfg: Settings, s: Sys, a: seq<Step>, m: Sys, b: seq<Step>, s': Sys)
    requires Leads(cfg, s, a, m) && Leads(cfg, m, b, s')
    ensures Leads(cfg, s, a + b, s')
    decreases |a|
  {
    if a == [] {
      assert a + b == b;
    } else {
      var n :| Next(cfg, s, a[0], n) && Leads(cfg, n, a[1..], m);
      LeadsOn(cfg, n, a[1..], m, b, s');
      assert (a + b)[1..] == a[1..] + b;
    }
  }

  lemma Then(cfg: Settings, s: Sys, a: seq<Step>, m: Sys, step: Step, s': Sys)
    requires Leads(cfg, s, a, m) && Next(cfg, m, step, s')
    ensures Leads(cfg, s, a + [step], s')
  {
    OneStep(cfg, m, step, s');
    LeadsOn(cfg, s, a, m, [step], s');
  }

  const FINE := Io(true, true)

  const CLOSING := [SaveOutcome(FINE), Report(true, true), File(FINE), Unlink(FINE)]

  /** The closing calls, when all of them arrive. */
  lemma Closes(cfg: Settings, s: Sys, r: Record, inTry: bool)
    requires s.pc == Closing(r, inTry) && r.phase.Completed? && r.id < |s.c.ops| && s.c.ops[r.id].status == Running
    ensures var s' := s.(c := SetStatus(s.c, r.id, Done(r.phase.status)), journal := None, lastResult := Some(r),
                         start := World(s), pc := Idle);
            Leads(cfg, s, CLOSING, s')
  {
    var s1 := s.(journal := Some(r), pc := Reporting(r));
    var s2 := s1.(c := SetStatus(s.c, r.id, Done(r.phase.status)), pc := Filing(r));
    var s3 := s2.(lastResult := Some(r), pc := Unlinking(r));
    var s4 := s3.(journal := None, start := World(s3), pc := Idle);
    FourSteps(cfg, s, SaveOutcome(FINE), s1, Report(true, true), s2, File(FINE), s3, Unlink(FINE), s4);
  }

  lemma FourSteps(cfg: Settings, s: Sys, a: Step, s1: Sys, b: Step, s2: Sys, c: Step, s3: Sys, d: Step, s4: Sys)
    requires Next(cfg, s, a, s1) && Next(cfg, s1, b, s2) && Next(cfg, s2, c, s3) && Next(cfg, s3, d, s4)
    ensures Leads(cfg, s, [a, b, c, d], s4)
  {
    OneStep(cfg, s, a, s1);
    Then(cfg, s, [a], s1, b, s2);
    Then(cfg, s, [a] + [b], s2, c, s3);
    Then(cfg, s, [a] + [b] + [c], s3, d, s4);
    assert [a] + [b] + [c] + [d] == [a, b, c, d];
  }

  /** After a crash in the switch window: if every call arrives, the host is back where it was, and says so. */
  lemma CrashIsRolledBack(cfg: Settings, s: Sys, r: Record)
    requires s.pc == Idle && s.journal == Some(r) && r.phase == Switching && HoldsOld(s, r)
    requires Between(s.images, s.start.images, s.start.images) && IsRunning(s.c, r.id)
    ensures var said := r.(phase := Completed(RolledBack));
            Leads(cfg, s, [ReadJournal, RollBack(s.start.images, true), RestoreBaseline(FINE)] + CLOSING,
                  s.(c := SetStatus(s.c, r.id, Done(RolledBack)), images := s.start.images, baseline := s.start.sha,
                     journal := None, lastResult := Some(said)))
  {
    var said := r.(phase := Completed(RolledBack));
    var s1 := s.(pc := Recovering(r));
    var s2 := s1.(images := s.start.images, pc := Restored(r));
    var s3 := s2.(baseline := s.start.sha, pc := Closing(said, false));
    OneStep(cfg, s, ReadJournal, s1);
    Then(cfg, s, [ReadJournal], s1, RollBack(s.start.images, true), s2);
    Then(cfg, s, [ReadJournal] + [RollBack(s.start.images, true)], s2, RestoreBaseline(FINE), s3);
    Closes(cfg, s3, said, false);
    assert [ReadJournal] + [RollBack(s.start.images, true)] + [RestoreBaseline(FINE)]
        == [ReadJournal, RollBack(s.start.images, true), RestoreBaseline(FINE)];
    LeadsOn(cfg, s, [ReadJournal, RollBack(s.start.images, true), RestoreBaseline(FINE)], s3, CLOSING,
            s.(c := SetStatus(s.c, r.id, Done(RolledBack)), images := s.start.images, baseline := s.start.sha,
               journal := None, lastResult := Some(said)));
  }

  /** The first queued operation of a host that is at rest, when nothing runs and the approval still stands. */
  ghost predicate Waiting(cfg: Settings, s: Sys, id: nat) {
    && s.pc == Idle && s.journal == None && !GaveUp(s.lastResult) && cfg.enabled
    && id < |s.c.ops| && s.c.ops[id].status == Queued
    && (forall k | 0 <= k < |s.c.ops| :: s.c.ops[k].status != Running)
    && (forall k | 0 <= k < id :: s.c.ops[k].status != Queued)
    && var op := s.c.ops[id];
       op.expires > s.now && op.actor in cfg.owners && op.task in s.c.tasks && s.c.tasks[op.task].mergeSha == op.sha
  }

  /** Claimed and on disk. */
  function ClaimedSys(s: Sys, id: nat): Sys
    requires id < |s.c.ops|
  {
    var op := s.c.ops[id];
    var q := Request(id, op.sha, op.actor, op.expires, false);
    var r := Record(id, Preflight, None, None);
    s.(c := SetStatus(s.c, id, Running), journal := Some(r), pc := Checking(q, r))
  }

  lemma ClaimLeads(cfg: Settings, s: Sys, id: nat)
    requires Waiting(cfg, s, id)
    ensures Leads(cfg, s, [ClaimStep(false, false), SaveClaim(FINE)], ClaimedSys(s, id))
  {
    ClaimTable(s.c, cfg, s.now, false, id);
    var op := s.c.ops[id];
    var s1 := s.(c := SetStatus(s.c, id, Running), pc := Claimed(Request(id, op.sha, op.actor, op.expires, false)));
    OneStep(cfg, s, ClaimStep(false, false), s1);
    Then(cfg, s, [ClaimStep(false, false)], s1, SaveClaim(FINE), ClaimedSys(s, id));
    assert [ClaimStep(false, false)] + [SaveClaim(FINE)] == [ClaimStep(false, false), SaveClaim(FINE)];
  }

  /** Captured, armed, switched and committed to. */
  function SwitchedSys(s: Sys, id: nat, image: Image): Sys
    requires id < |s.c.ops|
  {
    var r := Record(id, Switching, Some(s.images), Some(s.baseline));
    ClaimedSys(s, id).(journal := Some(r), images := Uniform(image), forwards := s.forwards + [id],
                       baseline := s.c.ops[id].sha, pc := Closing(r.(phase := Completed(Succeeded)), true))
  }

  lemma ArmLeads(cfg: Settings, s: Sys, id: nat, image: Image)
    requires Waiting(cfg, s, id) && image.revision == s.c.ops[id].sha
    ensures var q := ClaimedSys(s, id).pc.request;
            var r := Record(id, Switching, Some(s.images), Some(s.baseline));
            Leads(cfg, ClaimedSys(s, id), [Capture(image), Arm, SaveArmed(FINE)],
                  ClaimedSys(s, id).(journal := Some(r), pc := Ready(q, r, image)))
  {
    var s0 := ClaimedSys(s, id);
    var q := s0.pc.request;
    var captured := Record(id, Preflight, Some(s.images), Some(s.baseline));
    var r := captured.(phase := Switching);
    var s1 := s0.(pc := Built(q, captured, image));
    var s2 := s0.(pc := Arming(q, r, image));
    OneStep(cfg, s0, Capture(image), s1);
    Then(cfg, s0, [Capture(image)], s1, Arm, s2);
    Then(cfg, s0, [Capture(image)] + [Arm], s2, SaveArmed(FINE), s0.(journal := Some(r), pc := Ready(q, r, image)));
    assert [Capture(image)] + [Arm] + [SaveArmed(FINE)] == [Capture(image), Arm, SaveArmed(FINE)];
  }

  lemma SwitchLeads(cfg: Settings, s: Sys, id: nat, image: Image)
    requires Waiting(cfg, s, id) && image.revision == s.c.ops[id].sha
    ensures var q := ClaimedSys(s, id).pc.request;
            var r := Record(id, Switching, Some(s.images), Some(s.baseline));
            Leads(cfg, ClaimedSys(s, id).(journal := Some(r), pc := Ready(q, r, image)),
                  [Forward(Uniform(image), true), SaveBaseline(FINE)], SwitchedSys(s, id, image))
  {
    var q := ClaimedSys(s, id).pc.request;
    var r := Record(id, Switching, Some(s.images), Some(s.baseline));
    var s0 := ClaimedSys(s, id).(journal := Some(r), pc := Ready(q, r, image));
    var s1 := s0.(images := Uniform(image), forwards := s.forwards + [id], pc := Verified(q, r, image));
    OneStep(cfg, s0, Forward(Uniform(image), true), s1);
    Then(cfg, s0, [Forward(Uniform(image), true)], s1, SaveBaseline(FINE), SwitchedSys(s, id, image));
    assert [Forward(Uniform(image), true)] + [SaveBaseline(FINE)]
        == [Forward(Uniform(image), true), SaveBaseline(FINE)];
  }

  /** An approved operation goes through if every call arrives: it has succeeded, its commit is the baseline and runs
      in every service, and the host is at rest again. */
  lemma ReleaseGoesThrough(cfg: Settings, s: Sys, id: nat, image: Image)
    requires Waiting(cfg, s, id) && image.revision == s.c.ops[id].sha
    ensures exists s' ::
              && Leads(cfg, s, [ClaimStep(false, false), SaveClaim(FINE)] + [Capture(image), Arm, SaveArmed(FINE)]
                               + [Forward(Uniform(image), true), SaveBaseline(FINE)] + CLOSING, s')
              && s'.c.ops == s.c.ops[id := s.c.ops[id].(status := Done(Succeeded))] && s'.baseline == s.c.ops[id].sha
              && s'.images == Uniform(image) && s'.journal == None && s'.pc == Idle && s'.now == s.now
  {
    var r := Record(id, Switching, Some(s.images), Some(s.baseline));
    var q := ClaimedSys(s, id).pc.request;
    var s1, s3 := ClaimedSys(s, id), SwitchedSys(s, id, image);
    var s2 := s1.(journal := Some(r), pc := Ready(q, r, image));
    var done := r.(phase := Completed(Succeeded));
    var s4 := s3.(c := SetStatus(s3.c, id, Done(Succeeded)), journal := None, lastResult := Some(done),
                  start := World(s3), pc := Idle);
    ClaimLeads(cfg, s, id);
    ArmLeads(cfg, s, id, image);
    SwitchLeads(cfg, s, id, image);
    Closes(cfg, s3, done, true);
    var a, b, c := [ClaimStep(false, false), SaveClaim(FINE)], [Capture(image), Arm, SaveArmed(FINE)],
                   [Forward(Uniform(image), true), SaveBaseline(FINE)];
    LeadsOn(cfg, s, a, s1, b, s2);
    LeadsOn(cfg, s, a + b, s2, c, s3);
    LeadsOn(cfg, s, a + b + c, s3, CLOSING, s4);
    assert s4.c.ops == s.c.ops[id := s.c.ops[id].(status := Done(Succeeded))];
  }
}
