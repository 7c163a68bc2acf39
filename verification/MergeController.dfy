/** The transactions around the merge gate, as methods over the row and the records they write. */
module MergeController {
  import opened Wrappers
  import opened Domain
  import opened MergeGate

  class Controller {
    const cfg: Settings
    const repo: Repo
    var task: Task
    var intent: bool
    var reviews: seq<Judgment>
    var approvals: seq<Approval>
    var merges: seq<Merge>

    ghost function View(): World
      reads this
    {
      World(task, intent, reviews, approvals, merges)
    }

    ghost predicate Valid()
      reads this
    {
      Inv(cfg, View())
    }

    constructor (cfg: Settings, repo: Repo, task: Task)
      ensures Valid() && this.cfg == cfg && this.repo == repo
      ensures View() == World(task.(review := None, approval := None), false, [], [], [])
    {
      this.cfg, this.repo := cfg, repo;
      this.task, intent := task.(review := None, approval := None), false;
      reviews, approvals, merges := [], [], [];
    }

    method DropApprovals()
      modifies `task
      ensures task == Invalidated(old(task))
    {
      task := task.(review := None);
      task := task.(approval := None);
    }

    /** The end of a review job, after the last read of the pull request. */
    method FinishReview(decision: Decision, valid: bool, current: bool, head: string, base: string, spec: string,
                        snap: Snapshot)
      returns (reply: Result<(), string>)
      requires Valid()
      modifies `task, `reviews
      ensures var outcome := CommitReview(cfg, old(View()), decision, valid, current, head, base, spec, snap);
              if outcome.Ok? then View() == outcome.value && reply == Ok(())
              else View() == old(View()) && reply == Err(outcome.error)
      ensures Valid()
    {
      if !valid {
        return Err("Invalid review");
      }
      if snap.head != head || snap.baseSha != base {
        return Err("PR changed during review");
      }
      if !current || Stopped(task.state) {
        return Err("Expired lease, stopped task or stale result");
      }
      ReviewKeeps(cfg, View(), decision, valid, current, head, base, spec, snap);
      var commits := ReviewedCommits(task, head, base, spec);
      reviews := reviews + [Judgment(commits, decision)];
      match decision {
        case Approves =>
          task := task.(review := Some(commits));
          task := task.(state := AwaitingChecks);
        case RequestsChanges =>
          AnotherRound();
        case LeavesToHuman =>
          task := task.(state := Blocked);
      }
      return Ok(());
    }

    method AnotherRound()
      modifies `task
      ensures task == SentBack(cfg, old(task))
    {
      if !task.v2 {
        task := task.(rounds := task.rounds + 1);
        task := task.(state := if task.rounds > cfg.fixLimit then Blocked else Fixing);
      } else if task.rounds >= cfg.fixLimit {
        task := task.(state := Blocked);
      } else {
        task := task.(rounds := task.rounds + 1);
        task := task.(state := Fixing);
      }
    }

    method Approve(actor: string, head: string, base: string, hash: string, now: int)
      returns (reply: Result<(), string>)
      requires Valid()
      modifies `task, `approvals
      ensures var outcome := ApproveMerge(cfg, old(View()), actor, head, base, hash, now);
              if outcome.Ok? then View() == outcome.value && reply == Ok(())
              else View() == old(View()) && reply == Err(outcome.error)
      ensures Valid()
    {
      if actor !in cfg.owners {
        return Err("Unauthorized actor or guild");
      }
      if task.state != AwaitingMergeApproval || head != task.head || base != task.base || hash != task.authority {
        return Err("Stale merge approval");
      }
      ApproveKeeps(cfg, View(), actor, head, base, hash, now);
      var commits := Commits(head, base, hash, if task.v2 then Some(task.plan) else None);
      var approval := Approval(commits, actor, now + cfg.approvalSeconds);
      task := task.(approval := Some(approval));
      approvals := approvals + [approval];
      task := task.(state := ReadyToMerge);
      return Ok(());
    }

    /** The first transaction of reconcile for this task. */
    method Reconcile(snap: Snapshot, issueSame: bool, planSame: bool, now: int)
      requires Valid()
      modifies `task, `intent
      ensures View() == Apply(cfg, repo, old(View()), ReconcileStep(snap, issueSame, planSame, now)) && Valid()
    {
      StepKeeps(cfg, repo, View(), ReconcileStep(snap, issueSame, planSame, now));
      intent := false;
      if task.state in {Merged, Paused, TaskState.Cancelled} || !task.pr {
        return;
      }
      if task.v2 {
        if task.state in {DraftingRequirements, AwaitingRequirementsConfirmation}
           || (task.state == Blocked && task.requirementsApproval == "") {
          return;
        }
        if !issueSame {
          DropApprovals();
          task := task.(requirementsApproval := "", planApproval := "");
          task := task.(state := DraftingRequirements);
          return;
        }
        if !planSame {
          DropApprovals();
          task := task.(planApproval := "");
          task := task.(state := PlanningImplementation);
          return;
        }
      }
      ReconcileOpen(snap, now);
    }

    method ReconcileOpen(snap: Snapshot, now: int)
      requires !intent
      modifies `task, `intent
      ensures (task, intent) == DecideOpen(cfg, repo, old(task), snap, now)
    {
      if snap.merged && snap.mergeSha != "" {
        task := task.(mergeSha := snap.mergeSha);
        DropApprovals();
        task := task.(state := Merged);
        return;
      }
      if Stopped(task.state) {
        return;
      }
      if !snap.open || snap.baseSha != task.base {
        DropApprovals();
        task := task.(state := Blocked);
        return;
      }
      if snap.head != task.head {
        DropApprovals();
        task := task.(head := snap.head);
        task := task.(state := Reviewing);
        return;
      }
      if MergeState(task.state) {
        PassGate(snap, now);
      }
    }

    /** The rest of that transaction: what the gate says. */
    method PassGate(snap: Snapshot, now: int)
      requires MergeState(task.state) && !intent
      modifies `task, `intent
      ensures (task, intent) == AfterGate(old(task), MergeGate.MergeGate(cfg, repo, old(task), snap, now))
    {
      match MergeGate.MergeGate(cfg, repo, task, snap, now)
      case Err(_) =>
        DropApprovals();
        task := task.(state := Blocked);
      case Ok(FailedChecks) =>
        DropApprovals();
        task := task.(state := Blocked);
      case Ok(NeedsHuman) =>
        if task.state != AwaitingMergeApproval {
          task := task.(state := AwaitingMergeApproval);
        }
      case Ok(Ready) =>
        task := task.(state := Merging);
        task := task.(mergeStarted := true);
        intent := true;
      case Ok(_) =>
    }

    /** The second transaction. */
    method ExecuteMerge(snap: Snapshot, confirmed: string, now: int)
      requires Valid()
      modifies `task, `intent, `merges
      ensures View() == Execute(cfg, repo, old(View()), snap, confirmed, now) && Valid()
    {
      ExecuteKeeps(cfg, repo, View(), snap, confirmed, now);
      var intended := intent;
      intent := false;
      if !intended || snap.merged {
        return;
      }
      match MergeGate.MergeGate(cfg, repo, task, snap, now)
      case Err(_) =>
        if !Stopped(task.state) {
          DropApprovals();
          task := task.(state := Blocked);
        }
      case Ok(Ready) =>
        merges := merges + [Merge(CommitsOf(task), now, cfg.mode.AutoLowRisk? && LowRisk(cfg, repo, snap),
                                  |reviews|, |approvals|)];
        if confirmed != "" {
          task := task.(mergeSha := confirmed);
          task := task.(state := Merged);
        }
      case Ok(_) =>
    }
  }
}
