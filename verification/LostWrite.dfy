/** A run of the release protocol in which `compose up` finds a journal that says `preflight`. */
module LostWrite {
  import opened Wrappers
  import opened Release

  const CFG := Settings(true, {"owner"})
  const OLD_IMAGE := Image("old", 0)
  const CLAIM_RECORD := Record(0, Preflight, None, None)
  const ARMED_RECORD := Record(0, Switching, Some(Uniform(OLD_IMAGE)), Some("old"))
  const REQUEST := Request(0, "new", "owner", 10, false)
  const PROPOSED := Controller([Op(0, "new", "plan", 10, "", AwaitingApproval)], map[0 := Task("new", Some(0))])

  const S0 := Sys(Controller([], map[]), 0, None, "old", None, Uniform(OLD_IMAGE), Idle,
                  Snapshot(Uniform(OLD_IMAGE), "old"), [])
  const S1 := S0.(c := Controller([], map[0 := Task("new", None)]))
  const S2 := S0.(c := PROPOSED)
  const S3 := S0.(c := PROPOSED.(ops := [Op(0, "new", "plan", 10, "owner", Queued)]))
  const S4 := S0.(c := PROPOSED.(ops := [Op(0, "new", "plan", 10, "owner", Running)]), pc := Claimed(REQUEST))
  const S5 := S4.(journal := Some(CLAIM_RECORD), pc := Checking(REQUEST, CLAIM_RECORD))
  const S6 := S5.(pc := Built(REQUEST, ARMED_RECORD.(phase := Preflight), Image("new", 0)))
  const S7 := S5.(pc := Arming(REQUEST, ARMED_RECORD, Image("new", 0)))
  const S8 := S5.(pc := Recovering(ARMED_RECORD))
  const S9 := S8.(pc := Restored(ARMED_RECORD))

  const RUN := [S0, S1, S2, S3, S4, S5, S6, S7, S8, S9]
  const STEPS := [TaskMerged(0, "new"), ProposeStep(0, "plan", 10), ApproveStep(0, "owner", 0, "plan", "new"),
                  ClaimStep(false, false), SaveClaim(Io(true, true)), Capture(Image("new", 0)), Arm,
                  SaveArmed(Io(false, false)), RollBack(Uniform(OLD_IMAGE), true)]

  /** A task is merged, its release proposed, approved and claimed ... */
  lemma Begins()
    ensures Init(S0) && StepAt(CFG, RUN, STEPS, 0) && StepAt(CFG, RUN, STEPS, 1)
    ensures StepAt(CFG, RUN, STEPS, 2) && StepAt(CFG, RUN, STEPS, 3)
  {
    assert First(S3.c.ops, Running, 0) == None && First(S3.c.ops, Queued, 0) == Some(0);
    assert S2.c == Propose(S1.c, 0, "plan", 0, 10);
    assert Claim(S3.c, CFG, 0, false).0 == S4.c;
  }

  /** ... saved, checked and armed ... */
  lemma GoesOn()
    ensures StepAt(CFG, RUN, STEPS, 4) && StepAt(CFG, RUN, STEPS, 5) && StepAt(CFG, RUN, STEPS, 6)
  {
  }

  /** ... and the write that says `switching` is lost, so that the rollback runs under `preflight`. */
  lemma Ends()
    ensures StepAt(CFG, RUN, STEPS, 7) && StepAt(CFG, RUN, STEPS, 8)
  {
  }

  /** The run exists, and its last step is a rollback under a journal that says `preflight`. */
  lemma RollBackUnderPreflight()
    ensures IsRun(CFG, RUN, STEPS) && STEPS[8].RollBack?
    ensures RUN[8].journal.Some? && RUN[8].journal.value.phase.Preflight?
  {
    Begins();
    GoesOn();
    Ends();
  }
}
