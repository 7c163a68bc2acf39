/** What a review, an approval and the two transactions of reconcile record, column by column, and the run in
    which a pull request is merged. */
module MergeRuns {
  import opened Wrappers
  import opened Domain
  import opened MergeGate

  // ----- one transaction -----

  /** What a review stands for. */
  function Named(task: Task, head: string, base: string, spec: string): Commits {
    Commits(head, base, if task.v2 then task.authority else spec, if task.v2 then Some(task.plan) else None)
  }

  /** An accepted review, for each decision: an approval is recorded and the checks are awaited; a request for
      changes sends the work back, or stops the task at the limit; anything else waits for a human. */
  lemma ReviewTable(cfg: Settings, w: World, decision: Decision, valid: bool, current: bool, head: string, base: string,
                    spec: string, snap: Snapshot)
    ensures var r, task := CommitReview(cfg, w, decision, valid, current, head, base, spec, snap), w.task;
            && (r.Ok? <==> valid && current && snap.head == head && snap.baseSha == base
                           && task.state !in {Paused, Blocked, TaskState.Cancelled, Merged})
            && (r.Ok? ==>
                  var task' := r.value.task;
                  && r.value == w.(task := task',
                                   reviews := w.reviews + [Judgment(Named(task, head, base, spec), decision)])
                  && match decision
                     case Approves =>
                       task' == task.(state := AwaitingChecks, review := Some(Named(task, head, base, spec)))
                     case RequestsChanges =>
                       if task.rounds < cfg.fixLimit then task' == task.(state := Fixing, rounds := task.rounds + 1)
                       else task' == task.(state := Blocked, rounds := task.rounds + if task.v2 then 0 else 1)
                     case LeavesToHuman => task' == task.(state := Blocked))
  {
  }

  /** So an approving review of what the task is about, and no other decision, is the approval the gate asks for. */
  lemma ApprovalIsRecorded(cfg: Settings, w: World, decision: Decision, head: string, base: string, spec: string,
                           snap: Snapshot)
    requires CommitReview(cfg, w, decision, true, true, head, base, spec, snap).Ok?
    requires head == w.task.head && base == w.task.base && (w.task.v2 || spec == w.task.authority)
    ensures var task' := CommitReview(cfg, w, decision, true, true, head, base, spec, snap).value.task;
            task'.review == if decision.Approves? then Some(CommitsOf(task')) else w.task.review
  {
    ReviewTable(cfg, w, decision, true, true, head, base, spec, snap);
  }

  /** The merge approval of an owner. */
  lemma ApproveTable(cfg: Settings, w: World, actor: string, head: string, base: string, hash: string, now: int)
    ensures var r, task := ApproveMerge(cfg, w, actor, head, base, hash, now), w.task;
            && (r.Ok? <==> actor in cfg.owners && task.state == AwaitingMergeApproval
                           && head == task.head && base == task.base && hash == task.authority)
            && (r.Ok? ==>
                  var approval := Approval(CommitsOf(task), actor, now + cfg.approvalSeconds);
                  r.value == w.(approvals := w.approvals + [approval],
                                task := task.(state := ReadyToMerge, approval := Some(approval))))
  {
  }

  function Without(task: Task, state: TaskState): Task { task.(review := None, approval := None, state := state) }

  /** The first transaction of reconcile, observation by observation. */
  lemma ReconcileTable(cfg: Settings, repo: Repo, task: Task, snap: Snapshot, issueSame: bool, planSame: bool, now: int)
    ensures var r := Decide(cfg, repo, task, snap, issueSame, planSame, now);
            if !task.pr || task.state in {Merged, Paused, TaskState.Cancelled} then r == (task, false)
            else if task.v2 && (task.state in {DraftingRequirements, AwaitingRequirementsConfirmation}
                                || (task.state == Blocked && task.requirementsApproval == "")) then r == (task, false)
            else if task.v2 && !issueSame then
              r == (Without(task, DraftingRequirements).(requirementsApproval := "", planApproval := ""), false)
            else if task.v2 && !planSame then r == (Without(task, PlanningImplementation).(planApproval := ""), false)
            else if snap.merged && snap.mergeSha != "" then
              r == (Without(task, Merged).(mergeSha := snap.mergeSha), false)
            else if task.state == Blocked then r == (task, false)
            else if !snap.open || snap.baseSha != task.base then r == (Without(task, Blocked), false)
            else if snap.head != task.head then r == (Without(task, Reviewing).(head := snap.head), false)
            else if task.state !in {AwaitingChecks, AwaitingMergeApproval, ReadyToMerge, Merging} then
              r == (task, false)
            else
              match MergeGate.MergeGate(cfg, repo, task, snap, now)
              case Err(_) => r == (Without(task, Blocked), false)
              case Ok(FailedChecks) => r == (Without(task, Blocked), false)
              case Ok(NeedsHuman) => r == (task.(state := AwaitingMergeApproval), false)
              case Ok(Ready) => r == (task.(state := Merging, mergeStarted := true), true)
              case Ok(_) => r == (task, false)
  {
  }

  /** The second transaction merges exactly when the merge is intended, nobody was faster and the pull request
      still passes; otherwise it merges nothing, and stops a task whose pull request the gate refuses. */
  lemma ExecuteTable(cfg: Settings, repo: Repo, w: World, snap: Snapshot, confirmed: string, now: int)
    ensures var r := Execute(cfg, repo, w, snap, confirmed, now);
            var gate := MergeGate.MergeGate(cfg, repo, w.task, snap, now);
            && !r.intent && r.reviews == w.reviews && r.approvals == w.approvals
            && if w.intent && !snap.merged && Reviewed(cfg, repo, w.task, snap)
                  && Admitted(cfg, repo, w.task, snap, now) then
                 && |r.merges| == |w.merges| + 1 && r.merges[..|w.merges|] == w.merges
                 && r.merges[|w.merges|].commits == CommitsOf(w.task) && r.merges[|w.merges|].at == now
                 && r.task == (if confirmed == "" then w.task else w.task.(state := Merged, mergeSha := confirmed))
               else
                 && r.merges == w.merges
                 && r.task == if w.intent && !snap.merged && gate.Err?
                                 && w.task.state !in {Paused, Blocked, TaskState.Cancelled, Merged}
                              then Without(w.task, Blocked) else w.task
  {
    ReadyIff(cfg, repo, w.task, snap, now);
  }

  /** The first required check that is not green decides: the gate reports a failure exactly when that one failed. */
  lemma {:induction false} FailedIff(checks: seq<Check>, required: seq<(string, nat)>, head: string)
    ensures ChecksVerdict(checks, required, head) == Some(FailedChecks) <==>
            exists i :: 0 <= i < |required| && FirstBroken(checks, required, head, i)
  {
    if required != [] {
      FailedIff(checks, required[1..], head);
      if Broken(checks, required[0], head) {
        assert FirstBroken(checks, required, head, 0);
      } else if Green(checks, required[0], head) {
        assert forall i | 0 <= i < |required| - 1 ::
            FirstBroken(checks, required, head, i + 1) <==> FirstBroken(checks, required[1..], head, i) by {
          forall i | 0 <= i < |required| - 1
            ensures FirstBroken(checks, required, head, i + 1) <==> FirstBroken(checks, required[1..], head, i)
          {
            BrokenBehind(checks, required, head, i);
          }
        }
        if i :| 0 <= i < |required| && FirstBroken(checks, required, head, i) {
          assert FirstBroken(checks, required[1..], head, i - 1);
        }
      }
    }
  }

  ghost predicate FirstBroken(checks: seq<Check>, required: seq<(string, nat)>, head: string, i: nat)
    requires i < |required|
  {
    Broken(checks, required[i], head) && forall j | 0 <= j < i :: Green(checks, required[j], head)
  }

  lemma BrokenBehind(checks: seq<Check>, required: seq<(string, nat)>, head: string, i: nat)
    requires i + 1 < |required| && Green(checks, required[0], head)
    ensures FirstBroken(checks, required, head, i + 1) <==> FirstBroken(checks, required[1..], head, i)
  {
    var rest := required[1..];
    assert forall j | 0 <= j < |rest| :: rest[j] == required[j + 1];
    if FirstBroken(checks, rest, head, i) {
      assert forall j | 0 < j < i + 1 :: required[j] == rest[j - 1];
    }
  }

  // ----- a pull request is merged -----

  /** The pull request of a task under review, which nothing is wrong with. */
  ghost predicate Sound(cfg: Settings, repo: Repo, task: Task, snap: Snapshot) {
    && task.pr && task.state == Reviewing && !snap.merged
    && Reviewed(cfg, repo, task.(state := AwaitingChecks, review := Some(CommitsOf(task))), snap)
  }

  /** The approving review of exactly this pull request. */
  function Approving(task: Task, snap: Snapshot): Step {
    ReviewStep(Approves, true, true, task.head, task.base, task.authority, snap)
  }

  lemma AfterReview(cfg: Settings, repo: Repo, w: World, snap: Snapshot)
    requires Sound(cfg, repo, w.task, snap)
    ensures Apply(cfg, repo, w, Approving(w.task, snap))
         == w.(task := w.task.(state := AwaitingChecks, review := Some(CommitsOf(w.task))),
               reviews := w.reviews + [Judgment(CommitsOf(w.task), Approves)])
  {
    ReviewTable(cfg, w, Approves, true, true, w.task.head, w.task.base, w.task.authority, snap);
  }

  lemma {:induction false} AfterThen(cfg: Settings, repo: Repo, w: World, steps: seq<Step>, last: Step)
    ensures After(cfg, repo, w, steps + [last]) == Apply(cfg, repo, After(cfg, repo, w, steps), last)
    decreases |steps|
  {
    if steps == [] {
      assert [] + [last] == [last] && [last][1..] == [];
    } else {
      assert (steps + [last])[1..] == steps[1..] + [last];
      AfterThen(cfg, repo, Apply(cfg, repo, w, steps[0]), steps[1..], last);
    }
  }

  /** Every other part of a gate decision stays when only the state moves on, within the merge states. */
  lemma StillReviewed(cfg: Settings, repo: Repo, task: Task, snap: Snapshot, task': Task)
    requires Reviewed(cfg, repo, task, snap) && MergeState(task'.state)
    requires task' == task.(state := task'.state, approval := task'.approval, mergeStarted := task'.mergeStarted)
    ensures Reviewed(cfg, repo, task', snap)
  {
  }

  /** A step of reconcile that finds a sound, unmerged pull request asks a human, or intends the merge. */
  lemma AskedOrIntended(cfg: Settings, repo: Repo, w: World, snap: Snapshot, now: int)
    requires w.task.pr && !snap.merged && Reviewed(cfg, repo, w.task, snap)
    ensures Apply(cfg, repo, w, ReconcileStep(snap, true, true, now))
         == if Admitted(cfg, repo, w.task, snap, now)
            then w.(task := w.task.(state := Merging, mergeStarted := true), intent := true)
            else w.(task := w.task.(state := AwaitingMergeApproval), intent := false)
  {
    ReconcileTable(cfg, repo, w.task, snap, true, true, now);
    ReadyIff(cfg, repo, w.task, snap, now);
    AsksHumanIff(cfg, repo, w.task, snap, now);
  }

  /** Reviewed, and a human is asked; then approved, and the merge is intended. */
  function Asking(w: World): World {
    w.(task := w.task.(state := AwaitingMergeApproval, review := Some(CommitsOf(w.task))), intent := false,
       reviews := w.reviews + [Judgment(CommitsOf(w.task), Approves)])
  }

  function Intending(cfg: Settings, w: World, actor: string, now: int): World {
    var approval := Approval(CommitsOf(w.task), actor, now + cfg.approvalSeconds);
    var asking := Asking(w);
    asking.(task := asking.task.(state := Merging, mergeStarted := true, approval := Some(approval)), intent := true,
            approvals := w.approvals + [approval])
  }

  lemma ReviewLeadsToHuman(cfg: Settings, repo: Repo, w: World, snap: Snapshot, now: int)
    requires Sound(cfg, repo, w.task, snap) && cfg.mode == HumanGate && w.task.approval == None
    ensures Apply(cfg, repo, Apply(cfg, repo, w, Approving(w.task, snap)), ReconcileStep(snap, true, true, now))
         == Asking(w)
  {
    AfterReview(cfg, repo, w, snap);
    AskedOrIntended(cfg, repo, Apply(cfg, repo, w, Approving(w.task, snap)), snap, now);
  }

  lemma ApprovalLeadsToMerge(cfg: Settings, repo: Repo, w: World, snap: Snapshot, actor: string, now: int)
    requires Sound(cfg, repo, w.task, snap) && cfg.mode == HumanGate && cfg.approvalSeconds > 0 && actor in cfg.owners
    ensures var approve := ApproveStep(actor, w.task.head, w.task.base, w.task.authority, now);
            Apply(cfg, repo, Apply(cfg, repo, Asking(w), approve), ReconcileStep(snap, true, true, now))
            == Intending(cfg, w, actor, now)
    ensures Reviewed(cfg, repo, Intending(cfg, w, actor, now).task, snap)
  {
    var asking := Asking(w);
    var approve := ApproveStep(actor, w.task.head, w.task.base, w.task.authority, now);
    ApproveTable(cfg, asking, actor, w.task.head, w.task.base, w.task.authority, now);
    var reviewed := w.task.(state := AwaitingChecks, review := Some(CommitsOf(w.task)));
    StillReviewed(cfg, repo, reviewed, snap, Apply(cfg, repo, asking, approve).task);
    AskedOrIntended(cfg, repo, Apply(cfg, repo, asking, approve), snap, now);
    StillReviewed(cfg, repo, reviewed, snap, Intending(cfg, w, actor, now).task);
  }

  /** With a human gate: an approving review, a reconciliation that asks, an owner's approval, a reconciliation that
      intends, and the merge. The pull request is merged once, as reviewed and approved. */
  lemma HumanMerge(cfg: Settings, repo: Repo, w: World, snap: Snapshot, actor: string, now: int, confirmed: string)
    requires Init(w) && Sound(cfg, repo, w.task, snap) && cfg.mode == HumanGate && cfg.approvalSeconds > 0
    requires actor in cfg.owners && confirmed != ""
    ensures var steps := [Approving(w.task, snap), ReconcileStep(snap, true, true, now),
                          ApproveStep(actor, w.task.head, w.task.base, w.task.authority, now),
                          ReconcileStep(snap, true, true, now), ExecuteStep(snap, confirmed, now)];
            var w' := After(cfg, repo, w, steps);
            && |w'.merges| == 1 && w'.merges[0].commits == CommitsOf(w.task) && w'.task.state == Merged
            && w'.task.mergeSha == confirmed
  {
    ReviewLeadsToHuman(cfg, repo, w, snap, now);
    ApprovalLeadsToMerge(cfg, repo, w, snap, actor, now);
    ExecuteTable(cfg, repo, Intending(cfg, w, actor, now), snap, confirmed, now);
    Five(cfg, repo, w, Approving(w.task, snap), ReconcileStep(snap, true, true, now),
         ApproveStep(actor, w.task.head, w.task.base, w.task.authority, now),
         ReconcileStep(snap, true, true, now), ExecuteStep(snap, confirmed, now));
  }

  lemma Five(cfg: Settings, repo: Repo, w: World, a: Step, b: Step, c: Step, d: Step, e: Step)
    ensures After(cfg, repo, w, [a, b, c, d, e])
         == Apply(cfg, repo, Apply(cfg, repo, Apply(cfg, repo, Apply(cfg, repo, Apply(cfg, repo, w, a), b), c), d), e)
  {
    AfterThen(cfg, repo, w, [a, b, c, d], e);
    AfterThen(cfg, repo, w, [a, b, c], d);
    AfterThen(cfg, repo, w, [a, b], c);
    AfterThen(cfg, repo, w, [a], b);
    AfterThen(cfg, repo, w, [], a);
    assert [a, b, c, d] + [e] == [a, b, c, d, e] && [a, b, c] + [d] == [a, b, c, d] && [a, b] + [c] == [a, b, c];
    assert [a] + [b] == [a, b] && [] + [a] == [a];
  }

  /** Where low risk is enough nobody is asked: a review, a reconciliation and the merge. */
  lemma LowRiskMerge(cfg: Settings, repo: Repo, w: World, snap: Snapshot, now: int, confirmed: string)
    requires Init(w) && Sound(cfg, repo, w.task, snap) && cfg.mode == AutoLowRisk && LowRisk(cfg, repo, snap)
    ensures var w1 := Apply(cfg, repo, w, Approving(w.task, snap));
            var w2 := Apply(cfg, repo, w1, ReconcileStep(snap, true, true, now));
            var w3 := Apply(cfg, repo, w2, ExecuteStep(snap, confirmed, now));
            && |w3.merges| == 1 && w3.merges[0].commits == CommitsOf(w.task) && w3.approvals == []
  {
    var w1 := Apply(cfg, repo, w, Approving(w.task, snap));
    var w2 := w1.(task := w1.task.(state := Merging, mergeStarted := true), intent := true);
    AfterReview(cfg, repo, w, snap);
    AskedOrIntended(cfg, repo, w1, snap, now);
    StillReviewed(cfg, repo, w1.task, snap, w2.task);
    ExecuteTable(cfg, repo, w2, snap, confirmed, now);
  }
}
