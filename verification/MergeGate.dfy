/** The merge gate (src/agent_team/policy.py), the reviews and approvals that feed it, and the part of
    reconcile (src/agent_team/engine.py) that acts on it. */
module MergeGate {
  import opened Wrappers
  import opened Domain

  datatype Mode = Disabled | HumanGate | AutoLowRisk

  /** What a review or an approval names: v1 has no plan. */
  datatype Commits = Commits(head: string, base: string, authority: string, plan: Option<string>)

  datatype Approval = Approval(commits: Commits, actor: string, expires: int)

  /** `authority` is the requirements hash of a v2 task, the specification hash of a v1 task. */
  datatype Task = Task(
    id: string, v2: bool, state: TaskState, pr: bool, branch: string, head: string, base: string,
    authority: string, plan: string, requirementsApproval: string, planApproval: string, specApproval: string,
    review: Option<Commits>, approval: Option<Approval>, rounds: nat, mergeStarted: bool, mergeSha: string)

  datatype Check = Check(name: string, app: nat, head: string, conclusion: string)

  datatype File = File(path: string, content: Option<string>, bytes: nat)

  datatype Snapshot = Snapshot(
    repository: string, base: string, branch: string, author: string, marker: string, open: bool, draft: bool,
    mergeable: bool, head: string, baseSha: string, protectionOk: bool, reviewOk: bool, checks: seq<Check>,
    files: seq<File>, authority: string, changedLines: nat, merged: bool, mergeSha: string)

  /** The patterns and the digest of policy.py are given, and so is the place of a specification. */
  datatype Rules = Rules(safe: string -> bool, forbidden: string -> bool, secret: string -> bool,
                         highRisk: string -> bool, digest: string -> string, specPath: string -> string)

  datatype Settings = Settings(mode: Mode, owners: set<string>, maxFiles: nat, maxBytes: nat, autoMaxLines: nat,
                               approvalSeconds: nat, fixLimit: nat, rules: Rules)

  datatype Repo = Repo(repository: string, base: string, publisher: string, checks: seq<(string, nat)>,
                       allowed: string -> bool)

  datatype Gate = Ready | NeedsHuman | WaitingChecks | FailedChecks | Off

  predicate MergeState(state: TaskState) {
    state in {AwaitingChecks, AwaitingMergeApproval, ReadyToMerge, Merging}
  }

  function CommitsOf(task: Task): Commits {
    Commits(task.head, task.base, task.authority, if task.v2 then Some(task.plan) else None)
  }

  // ----- validate_files -----

  function Bytes(files: seq<File>): nat {
    if files == [] then 0 else Bytes(files[..|files| - 1]) + files[|files| - 1].bytes
  }

  /** The first problem with a file, in order. */
  function FileProblem(rules: Rules, files: seq<File>, exempt: set<string>): Option<string> {
    if files == [] then None
    else
      var f := files[0];
      if !rules.safe(f.path) then Some("Unsafe path")
      else if f.path !in exempt && rules.forbidden(f.path) then Some("Protected path")
      else if f.content.Some? && rules.secret(f.content.value) then Some("Potential secret in artifact")
      else FileProblem(rules, files[1..], exempt)
  }

  predicate SpecIntact(rules: Rules, files: seq<File>, task: string, hash: string) {
    forall i | 0 <= i < |files| && files[i].path == rules.specPath(task) ::
      files[i].content.Some? && rules.digest(files[i].content.value) == hash
  }

  function ValidateFiles(cfg: Settings, files: seq<File>, task: string, hash: string, exempt: set<string>)
    : Result<(), string>
  {
    if files == [] || |files| > cfg.maxFiles then Err("Empty or oversized change")
    else if Bytes(files) > cfg.maxBytes then Err("Artifact too large")
    else
      match FileProblem(cfg.rules, files, exempt)
      case Some(problem) => Err(problem)
      case None =>
        if SpecIntact(cfg.rules, files, task, hash) then Ok(()) else Err("Approved specification was modified")
  }

  predicate FileOk(rules: Rules, f: File, exempt: set<string>) {
    && rules.safe(f.path) && (f.path in exempt || !rules.forbidden(f.path))
    && (f.content.Some? ==> !rules.secret(f.content.value))
  }

  lemma {:induction false} NoProblemIff(rules: Rules, files: seq<File>, exempt: set<string>)
    ensures FileProblem(rules, files, exempt).None? <==>
            forall i | 0 <= i < |files| :: FileOk(rules, files[i], exempt)
  {
    if files != [] {
      NoProblemIff(rules, files[1..], exempt);
      assert forall i | 1 <= i < |files| :: files[i] == files[1..][i - 1];
      assert FileOk(rules, files[0], exempt) && FileProblem(rules, files[1..], exempt).None? ==>
          forall i | 0 <= i < |files| :: FileOk(rules, files[i], exempt);
      if forall i | 0 <= i < |files| :: FileOk(rules, files[i], exempt) {
        assert FileOk(rules, files[0], exempt);
        assert forall i | 0 <= i < |files[1..]| :: files[1..][i] == files[i + 1];
      }
    }
  }

  /** A change is accepted exactly when it is neither empty nor oversized, every file is in order, and the
      approved specification, if it is among them, has kept its digest. */
  lemma AcceptedIff(cfg: Settings, files: seq<File>, task: string, hash: string, exempt: set<string>)
    ensures ValidateFiles(cfg, files, task, hash, exempt).Ok? <==>
            && 0 < |files| <= cfg.maxFiles && Bytes(files) <= cfg.maxBytes
            && (forall i | 0 <= i < |files| :: FileOk(cfg.rules, files[i], exempt))
            && SpecIntact(cfg.rules, files, task, hash)
  {
    NoProblemIff(cfg.rules, files, exempt);
  }

  // ----- required checks -----

  const FAILURES: set<string> := {"failure", "cancelled", "timed_out", "action_required", "startup_failure"}

  predicate Matching(c: Check, required: (string, nat)) { c.name == required.0 && c.app == required.1 }

  /** A matching check of this head failed. */
  predicate Broken(checks: seq<Check>, required: (string, nat), head: string) {
    exists i :: 0 <= i < |checks| && Matching(checks[i], required)
                && checks[i].head == head && checks[i].conclusion in FAILURES
  }

  /** There is a matching check, and all of them are of this head and succeeded. */
  predicate Green(checks: seq<Check>, required: (string, nat), head: string) {
    && (exists i :: 0 <= i < |checks| && Matching(checks[i], required))
    && forall i | 0 <= i < |checks| && Matching(checks[i], required) ::
         checks[i].head == head && checks[i].conclusion == "success"
  }

  /** The loop over the trusted checks returns at the first that is not green. */
  function ChecksVerdict(checks: seq<Check>, required: seq<(string, nat)>, head: string): Option<Gate> {
    if required == [] then None
    else if Broken(checks, required[0], head) then Some(FailedChecks)
    else if !Green(checks, required[0], head) then Some(WaitingChecks)
    else ChecksVerdict(checks, required[1..], head)
  }

  lemma BrokenIsNotGreen(checks: seq<Check>, required: (string, nat), head: string)
    requires Broken(checks, required, head)
    ensures !Green(checks, required, head)
  {
    var i :| 0 <= i < |checks| && Matching(checks[i], required) && checks[i].conclusion in FAILURES;
    assert checks[i].conclusion != "success";
  }

  lemma {:induction false} AllGreenIff(checks: seq<Check>, required: seq<(string, nat)>, head: string)
    ensures ChecksVerdict(checks, required, head).None? <==>
            forall i | 0 <= i < |required| :: Green(checks, required[i], head)
  {
    if required != [] {
      AllGreenIff(checks, required[1..], head);
      if Broken(checks, required[0], head) {
        BrokenIsNotGreen(checks, required[0], head);
      }
      assert forall i | 1 <= i < |required| :: required[i] == required[1..][i - 1];
      if forall i | 0 <= i < |required| :: Green(checks, required[i], head) {
        assert Green(checks, required[0], head);
        assert forall i | 0 <= i < |required[1..]| :: required[1..][i] == required[i + 1];
      }
    }
  }

  // ----- merge_gate -----

  predicate Identified(repo: Repo, task: Task, snap: Snapshot) {
    && snap.repository == repo.repository && snap.base == repo.base && snap.branch == task.branch
    && snap.author == repo.publisher && snap.marker == task.id
  }

  predicate AuthorityApproved(task: Task) {
    if task.v2 then task.requirementsApproval != "" && task.planApproval != "" else task.specApproval == task.authority
  }

  predicate LowRisk(cfg: Settings, repo: Repo, snap: Snapshot) {
    && (forall i | 0 <= i < |snap.files| ::
          repo.allowed(snap.files[i].path) && !cfg.rules.highRisk(snap.files[i].path))
    && snap.changedLines <= cfg.autoMaxLines
  }

  predicate HumanApproved(task: Task, now: int) {
    task.approval.Some? && task.approval.value.commits == CommitsOf(task) && task.approval.value.expires > now
  }

  function MergeGate(cfg: Settings, repo: Repo, task: Task, snap: Snapshot, now: int): Result<Gate, string> {
    if !MergeState(task.state) then Err("Task is not mergeable")
    else if cfg.mode.Disabled? then Ok(Off)
    else if !Identified(repo, task, snap) then Err("PR identity mismatch")
    else if !snap.open || snap.draft || !snap.mergeable then
      Err("PR is closed, draft, conflicting, or mergeability unknown")
    else if snap.head != task.head || snap.baseSha != task.base then
      Err("Commit changed; approvals must be invalidated")
    else if !AuthorityApproved(task) then Err("Requirements, plan or specification is unapproved")
    else if task.review != Some(CommitsOf(task)) then Err("Current commits have no review approval")
    else if !snap.protectionOk || !snap.reviewOk then Err("Strict base protection / independent review unverified")
    else if repo.checks == [] then Err("No trusted CI configured")
    else
      match ChecksVerdict(snap.checks, repo.checks, task.head)
      case Some(gate) => Ok(gate)
      case None =>
        if ValidateFiles(cfg, snap.files, task.id, task.authority, {}).Err? then Err("Invalid files")
        else if snap.authority != task.authority then Err("PR specification hash mismatch")
        else if cfg.mode.AutoLowRisk? && LowRisk(cfg, repo, snap) then Ok(Ready)
        else if !HumanApproved(task, now) then Ok(NeedsHuman)
        else Ok(Ready)
  }

  /** What has to be true of the pull request before anyone may merge it. */
  ghost predicate Reviewed(cfg: Settings, repo: Repo, task: Task, snap: Snapshot) {
    && MergeState(task.state) && !cfg.mode.Disabled?
    && Identified(repo, task, snap) && snap.open && !snap.draft && snap.mergeable
    && AuthorityApproved(task) && task.review == Some(CommitsOf(task))
    && CommitsOf(task).head == snap.head && CommitsOf(task).base == snap.baseSha && task.authority == snap.authority
    && snap.protectionOk && snap.reviewOk
    && repo.checks != [] && (forall i | 0 <= i < |repo.checks| :: Green(snap.checks, repo.checks[i], snap.head))
    && 0 < |snap.files| <= cfg.maxFiles && Bytes(snap.files) <= cfg.maxBytes
    && (forall i | 0 <= i < |snap.files| :: FileOk(cfg.rules, snap.files[i], {}))
    && SpecIntact(cfg.rules, snap.files, task.id, task.authority)
  }

  predicate Admitted(cfg: Settings, repo: Repo, task: Task, snap: Snapshot, now: int) {
    (cfg.mode.AutoLowRisk? && LowRisk(cfg, repo, snap)) || HumanApproved(task, now)
  }

  /** The gate opens exactly for a reviewed pull request that is of low risk where that is enough, or
      that an unexpired approval of exactly these commits admits. */
  lemma ReadyIff(cfg: Settings, repo: Repo, task: Task, snap: Snapshot, now: int)
    ensures MergeGate(cfg, repo, task, snap, now) == Ok(Ready) <==>
            Reviewed(cfg, repo, task, snap) && Admitted(cfg, repo, task, snap, now)
  {
    AllGreenIff(snap.checks, repo.checks, task.head);
    AcceptedIff(cfg, snap.files, task.id, task.authority, {});
    ChecksNeverOpen(snap.checks, repo.checks, task.head);
  }

  /** A human is asked exactly for a reviewed pull request that nothing admits. */
  lemma AsksHumanIff(cfg: Settings, repo: Repo, task: Task, snap: Snapshot, now: int)
    ensures MergeGate(cfg, repo, task, snap, now) == Ok(NeedsHuman) <==>
            Reviewed(cfg, repo, task, snap) && !Admitted(cfg, repo, task, snap, now)
  {
    AllGreenIff(snap.checks, repo.checks, task.head);
    AcceptedIff(cfg, snap.files, task.id, task.authority, {});
    ChecksNeverOpen(snap.checks, repo.checks, task.head);
  }

  lemma {:induction false} ChecksNeverOpen(checks: seq<Check>, required: seq<(string, nat)>, head: string)
    ensures ChecksVerdict(checks, required, head) in {None, Some(FailedChecks), Some(WaitingChecks)}
  {
    if required != [] {
      ChecksNeverOpen(checks, required[1..], head);
    }
  }

  // ----- the commands and transactions around the gate -----

  datatype Decision = Approves | RequestsChanges | LeavesToHuman

  datatype Judgment = Judgment(commits: Commits, decision: Decision)

  /** What an accepted step leaves in the records of reviews, approvals and merges. */
  datatype World = World(task: Task, intent: bool, reviews: seq<Judgment>, approvals: seq<Approval>, merges: seq<Merge>)

  /** A merge call, with how many reviews and approvals had been recorded before it. */
  datatype Merge = Merge(commits: Commits, at: int, lowRisk: bool, reviews: nat, approvals: nat)

  function Invalidated(task: Task): Task { task.(review := None, approval := None) }

  /** What a review names. A v1 review brings its own `spec`; a v2 review stands for the requirements and
      the plan of the task. */
  function ReviewedCommits(task: Task, head: string, base: string, spec: string): Commits {
    if task.v2 then Commits(head, base, task.authority, Some(task.plan)) else Commits(head, base, spec, None)
  }

  /** Changes were requested: one more round, unless the limit stops the task. v1 counts before it
      compares and v2 after. */
  function SentBack(cfg: Settings, task: Task): Task {
    if task.rounds >= cfg.fixLimit then
      task.(state := Blocked, rounds := if task.v2 then task.rounds else task.rounds + 1)
    else task.(state := Fixing, rounds := task.rounds + 1)
  }

  /** The end of a review job. `valid`: its findings, and for a v2 approval its tests, are in order.
      `current`: the job still runs under its fence, lease and identity. */
  function CommitReview(cfg: Settings, w: World, decision: Decision, valid: bool, current: bool, head: string,
                        base: string, spec: string, snap: Snapshot): Result<World, string>
  {
    if !valid then Err("Invalid review")
    else if snap.head != head || snap.baseSha != base then Err("PR changed during review")
    else if !current || Stopped(w.task.state) then Err("Expired lease, stopped task or stale result")
    else
      var commits := ReviewedCommits(w.task, head, base, spec);
      Ok(w.(reviews := w.reviews + [Judgment(commits, decision)],
            task := match decision
                    case Approves => w.task.(review := Some(commits), state := AwaitingChecks)
                    case RequestsChanges => SentBack(cfg, w.task)
                    case LeavesToHuman => w.task.(state := Blocked)))
  }

  /** The approve_merge command, after authorize. */
  function ApproveMerge(cfg: Settings, w: World, actor: string, head: string, base: string, hash: string, now: int)
    : Result<World, string>
  {
    if actor !in cfg.owners then Err("Unauthorized actor or guild")
    else if !w.task.state.AwaitingMergeApproval? || head != w.task.head || base != w.task.base
            || hash != w.task.authority then Err("Stale merge approval")
    else
      var approval := Approval(Commits(head, base, hash, if w.task.v2 then Some(w.task.plan) else None), actor,
                               now + cfg.approvalSeconds);
      Ok(w.(task := w.task.(approval := Some(approval), state := ReadyToMerge), approvals := w.approvals + [approval]))
  }

  /** A guard error in reconcile stops the task and takes its approvals back. */
  function Rejected(task: Task): Task {
    if Stopped(task.state) then task else Invalidated(task).(state := Blocked)
  }

  /** The first transaction of reconcile for a task with a pull request: the new task, and whether the
      merge is now intended. `issueSame` and `planSame` compare a v2 task with GitHub. */
  function Decide(cfg: Settings, repo: Repo, task: Task, snap: Snapshot, issueSame: bool, planSame: bool, now: int)
    : (Task, bool)
  {
    if task.state in {Merged, Paused, TaskState.Cancelled} || !task.pr then (task, false)
    else if task.v2 && (task.state in {DraftingRequirements, AwaitingRequirementsConfirmation}
                        || (task.state.Blocked? && task.requirementsApproval == "")) then (task, false)
    else if task.v2 && !issueSame then
      (Invalidated(task).(requirementsApproval := "", planApproval := "", state := DraftingRequirements), false)
    else if task.v2 && !planSame then (Invalidated(task).(planApproval := "", state := PlanningImplementation), false)
    else DecideOpen(cfg, repo, task, snap, now)
  }

  /** What each answer of the gate does to the task, and whether the merge is now intended. */
  function AfterGate(task: Task, gate: Result<Gate, string>): (Task, bool) {
    match gate
    case Err(_) => (Rejected(task), false)
    case Ok(FailedChecks) => (Invalidated(task).(state := Blocked), false)
    case Ok(NeedsHuman) => (task.(state := AwaitingMergeApproval), false)
    case Ok(Ready) => (task.(state := Merging, mergeStarted := true), true)
    case Ok(_) => (task, false)
  }

  /** The part that compares the commits and passes the gate. */
  function DecideOpen(cfg: Settings, repo: Repo, task: Task, snap: Snapshot, now: int): (Task, bool) {
    if snap.merged && snap.mergeSha != "" then
      (Invalidated(task).(mergeSha := snap.mergeSha, state := Merged), false)
    else if Stopped(task.state) then (task, false)
    else if !snap.open || snap.baseSha != task.base then (Invalidated(task).(state := Blocked), false)
    else if snap.head != task.head then (Invalidated(task).(head := snap.head, state := Reviewing), false)
    else if !MergeState(task.state) then (task, false)
    else AfterGate(task, MergeGate(cfg, repo, task, snap, now))
  }

  /** The second transaction: fetch again, pass the gate again, merge. `confirmed` is the merge commit
      GitHub reports afterwards, if any. */
  function Execute(cfg: Settings, repo: Repo, w: World, snap: Snapshot, confirmed: string, now: int): World {
    var done := w.(intent := false);
    if !w.intent || snap.merged then done
    else
      match MergeGate(cfg, repo, w.task, snap, now)
      case Ok(Ready) =>
        var merged := done.(merges := w.merges + [Merge(CommitsOf(w.task), now,
                              cfg.mode.AutoLowRisk? && LowRisk(cfg, repo, snap), |w.reviews|, |w.approvals|)]);
        if confirmed == "" then merged else merged.(task := w.task.(mergeSha := confirmed, state := Merged))
      case Ok(_) => done
      case Err(_) => done.(task := Rejected(w.task))
  }

  datatype Step =
    | ReviewStep(decision: Decision, valid: bool, isCurrent: bool, head: string, base: string, spec: string,
                 snap: Snapshot)
    | ApproveStep(actor: string, head: string, base: string, hash: string, now: int)
    | ReconcileStep(snap: Snapshot, issueSame: bool, planSame: bool, now: int)
    | ExecuteStep(snap: Snapshot, confirmed: string, now: int)
    | OtherStep(task: Task)
    | CrashStep

  /** Any other transaction may write the task as it likes, but reviews and approvals it can only drop. */
  predicate Allowed(task: Task, task': Task) {
    (task'.review == task.review || task'.review.None?) && (task'.approval == task.approval || task'.approval.None?)
  }

  function Apply(cfg: Settings, repo: Repo, w: World, step: Step): World {
    match step
    case ReviewStep(decision, valid, isCurrent, head, base, spec, snap) =>
      (match CommitReview(cfg, w, decision, valid, isCurrent, head, base, spec, snap)
       case Ok(w') => w' case Err(_) => w)
    case ApproveStep(actor, head, base, hash, now) =>
      (match ApproveMerge(cfg, w, actor, head, base, hash, now) case Ok(w') => w' case Err(_) => w)
    case ReconcileStep(snap, issueSame, planSame, now) =>
      var (task, intent) := Decide(cfg, repo, w.task, snap, issueSame, planSame, now);
      w.(task := task, intent := intent)
    case ExecuteStep(snap, confirmed, now) => Execute(cfg, repo, w, snap, confirmed, now)
    case OtherStep(task) => if Allowed(w.task, task) then w.(task := task) else w
    case CrashStep => w.(intent := false)
  }

  ghost function After(cfg: Settings, repo: Repo, w: World, steps: seq<Step>): World
    decreases |steps|
  {
    if steps == [] then w else After(cfg, repo, Apply(cfg, repo, w, steps[0]), steps[1..])
  }

  // ----- what every merge rests on -----

  /** A merge of commits that an earlier review approved and, unless low risk was enough, an owner's
      earlier and unexpired approval. */
  ghost predicate Founded(cfg: Settings, reviews: seq<Judgment>, approvals: seq<Approval>, m: Merge) {
    && !cfg.mode.Disabled?
    && m.reviews <= |reviews| && m.approvals <= |approvals|
    && Judgment(m.commits, Approves) in reviews[..m.reviews]
    && (m.lowRisk ==> cfg.mode.AutoLowRisk?)
    && (m.lowRisk || exists i :: 0 <= i < m.approvals && Admits(cfg, approvals[i], m))
  }

  predicate Admits(cfg: Settings, a: Approval, m: Merge) {
    a.commits == m.commits && a.expires > m.at && a.actor in cfg.owners
  }

  ghost predicate Inv(cfg: Settings, w: World) {
    && (w.task.review.Some? ==> Judgment(w.task.review.value, Approves) in w.reviews)
    && (w.task.approval.Some? ==> w.task.approval.value in w.approvals)
    && (forall i | 0 <= i < |w.approvals| :: w.approvals[i].actor in cfg.owners)
    && forall i | 0 <= i < |w.merges| :: Founded(cfg, w.reviews, w.approvals, w.merges[i])
  }

  lemma FoundedLater(cfg: Settings, reviews: seq<Judgment>, approvals: seq<Approval>, m: Merge,
                     reviews': seq<Judgment>, approvals': seq<Approval>)
    requires Founded(cfg, reviews, approvals, m) && reviews <= reviews' && approvals <= approvals'
    ensures Founded(cfg, reviews', approvals', m)
  {
    assert reviews'[..m.reviews] == reviews[..m.reviews];
    if !m.lowRisk {
      var i :| 0 <= i < m.approvals && Admits(cfg, approvals[i], m);
      assert Admits(cfg, approvals'[i], m);
    }
  }

  lemma RecordsKeep(cfg: Settings, w: World, w': World)
    requires Inv(cfg, w) && w.reviews <= w'.reviews && w.approvals <= w'.approvals && w'.merges == w.merges
    ensures forall i | 0 <= i < |w'.merges| :: Founded(cfg, w'.reviews, w'.approvals, w'.merges[i])
  {
    forall i | 0 <= i < |w'.merges| ensures Founded(cfg, w'.reviews, w'.approvals, w'.merges[i]) {
      FoundedLater(cfg, w.reviews, w.approvals, w.merges[i], w'.reviews, w'.approvals);
    }
  }

  lemma ExecuteKeeps(cfg: Settings, repo: Repo, w: World, snap: Snapshot, confirmed: string, now: int)
    requires Inv(cfg, w)
    ensures Inv(cfg, Execute(cfg, repo, w, snap, confirmed, now))
  {
    if w.intent && !snap.merged && MergeGate(cfg, repo, w.task, snap, now) == Ok(Ready) {
      ReadyIff(cfg, repo, w.task, snap, now);
      var lowRisk := cfg.mode.AutoLowRisk? && LowRisk(cfg, repo, snap);
      var m := Merge(CommitsOf(w.task), now, lowRisk, |w.reviews|, |w.approvals|);
      assert w.reviews[..m.reviews] == w.reviews;
      if !m.lowRisk {
        var i :| 0 <= i < |w.approvals| && w.approvals[i] == w.task.approval.value;
        assert Admits(cfg, w.approvals[i], m);
      }
      assert Founded(cfg, w.reviews, w.approvals, m);
    }
  }

  lemma ReviewKeeps(cfg: Settings, w: World, decision: Decision, valid: bool, current: bool, head: string,
                    base: string, spec: string, snap: Snapshot)
    requires Inv(cfg, w) && CommitReview(cfg, w, decision, valid, current, head, base, spec, snap).Ok?
    ensures Inv(cfg, CommitReview(cfg, w, decision, valid, current, head, base, spec, snap).value)
  {
    var w' := CommitReview(cfg, w, decision, valid, current, head, base, spec, snap).value;
    RecordsKeep(cfg, w, w');
    assert w'.reviews[|w.reviews|] == Judgment(ReviewedCommits(w.task, head, base, spec), decision);
    assert forall r | r in w.reviews :: r in w'.reviews;
  }

  lemma ApproveKeeps(cfg: Settings, w: World, actor: string, head: string, base: string, hash: string, now: int)
    requires Inv(cfg, w) && ApproveMerge(cfg, w, actor, head, base, hash, now).Ok?
    ensures Inv(cfg, ApproveMerge(cfg, w, actor, head, base, hash, now).value)
  {
    var w' := ApproveMerge(cfg, w, actor, head, base, hash, now).value;
    RecordsKeep(cfg, w, w');
    assert w'.approvals[|w.approvals|] == w'.task.approval.value;
  }

  lemma GateDrops(task: Task, gate: Result<Gate, string>)
    ensures Allowed(task, AfterGate(task, gate).0)
  {
  }

  lemma OpenDrops(cfg: Settings, repo: Repo, task: Task, snap: Snapshot, now: int)
    ensures Allowed(task, DecideOpen(cfg, repo, task, snap, now).0)
  {
    GateDrops(task, MergeGate(cfg, repo, task, snap, now));
  }

  lemma DecideDrops(cfg: Settings, repo: Repo, task: Task, snap: Snapshot, issueSame: bool, planSame: bool, now: int)
    ensures Allowed(task, Decide(cfg, repo, task, snap, issueSame, planSame, now).0)
  {
    OpenDrops(cfg, repo, task, snap, now);
  }

  lemma StepKeeps(cfg: Settings, repo: Repo, w: World, step: Step)
    requires Inv(cfg, w)
    ensures Inv(cfg, Apply(cfg, repo, w, step))
  {
    match step
    case ExecuteStep(snap, confirmed, now) => ExecuteKeeps(cfg, repo, w, snap, confirmed, now);
    case ReviewStep(decision, valid, isCurrent, head, base, spec, snap) =>
      if CommitReview(cfg, w, decision, valid, isCurrent, head, base, spec, snap).Ok? {
        ReviewKeeps(cfg, w, decision, valid, isCurrent, head, base, spec, snap);
      }
    case ApproveStep(actor, head, base, hash, now) =>
      if ApproveMerge(cfg, w, actor, head, base, hash, now).Ok? {
        ApproveKeeps(cfg, w, actor, head, base, hash, now);
      }
    case ReconcileStep(snap, issueSame, planSame, now) =>
      DecideDrops(cfg, repo, w.task, snap, issueSame, planSame, now);
    case _ =>
  }

  lemma {:induction false} RunInv(cfg: Settings, repo: Repo, w: World, steps: seq<Step>)
    requires Inv(cfg, w)
    ensures Inv(cfg, After(cfg, repo, w, steps))
    decreases |steps|
  {
    if steps != [] {
      StepKeeps(cfg, repo, w, steps[0]);
      RunInv(cfg, repo, Apply(cfg, repo, w, steps[0]), steps[1..]);
    }
  }

  ghost predicate Init(w: World) {
    w.task.review.None? && w.task.approval.None? && w.reviews == [] && w.approvals == [] && w.merges == []
  }

  /** Every merge of every run is of exactly the commits, authority and plan that an approving review
      committed before it named; without low risk an owner's unexpired approval named them too. */
  lemma MergesAreApproved(cfg: Settings, repo: Repo, w: World, steps: seq<Step>, k: nat)
    requires Init(w) && k < |After(cfg, repo, w, steps).merges|
    ensures var w' := After(cfg, repo, w, steps);
            Founded(cfg, w'.reviews, w'.approvals, w'.merges[k])
  {
    RunInv(cfg, repo, w, steps);
  }

  lemma DisabledNeverMerges(cfg: Settings, repo: Repo, w: World, steps: seq<Step>)
    requires Init(w) && cfg.mode.Disabled?
    ensures After(cfg, repo, w, steps).merges == []
  {
    if After(cfg, repo, w, steps).merges != [] {
      MergesAreApproved(cfg, repo, w, steps, 0);
    }
  }

  /** Whatever the first transaction finds changed, closed or merged: no approval outlives it, and no merge
      is intended. */
  lemma ChangeInvalidates(cfg: Settings, repo: Repo, task: Task, snap: Snapshot, issueSame: bool, planSame: bool,
                          now: int)
    requires task.pr && !Stopped(task.state) && task.state !in {DraftingRequirements, AwaitingRequirementsConfirmation}
    requires (task.v2 && !(issueSame && planSame)) || (snap.merged && snap.mergeSha != "") || !snap.open
             || snap.head != task.head || snap.baseSha != task.base
    ensures var (task', intent) := Decide(cfg, repo, task, snap, issueSame, planSame, now);
            && task'.review.None? && task'.approval.None? && !intent && !MergeState(task'.state)
            && MergeGate(cfg, repo, task', snap, now).Err?
  {
  }

  /** A merge is intended exactly for an open pull request that nothing changed and that passes the gate. */
  lemma IntendsIff(cfg: Settings, repo: Repo, task: Task, snap: Snapshot, issueSame: bool, planSame: bool, now: int)
    ensures Decide(cfg, repo, task, snap, issueSame, planSame, now).1 <==>
            && task.pr && (task.v2 ==> issueSame && planSame) && !(snap.merged && snap.mergeSha != "")
            && Reviewed(cfg, repo, task, snap) && Admitted(cfg, repo, task, snap, now)
  {
    ReadyIff(cfg, repo, task, snap, now);
  }
}
