/** The idempotent publisher: Engine.external (src/agent_team/engine.py) around GitHub.publish
    (src/agent_team/adapters/github.py), against a store of commits, one branch and its pull requests.
    Every call may be refused, or take effect and lose its response, which ends the attempt, and the
    process may die between two calls. */
module Publishing {
  import opened Wrappers

  type Tree = map<string, string>

  datatype Commit = Commit(message: string, tree: Tree, parents: seq<nat>)

  /** A commit's id is its position. A pull request of the branch is open or closed. */
  datatype Store = Store(commits: seq<Commit>, branch: Option<nat>, pulls: seq<bool>)

  /** A tree entry; without content it deletes the path. */
  datatype Entry = Entry(path: string, content: Option<string>)

  /** One publication: the operation key, the recorded parent, the files. */
  datatype Job = Job(key: string, parent: nat, files: seq<Entry>)

  datatype Published = Published(pull: nat, head: nat)

  datatype Op = Absent | Pending | Done(result: Published)

  /** The next call of the running attempt. `ref` is the branch as it was read, `pull` the listed pull
      request. */
  datatype Pc =
    | Idle
    | Listing
    | Reading(pull: Option<nat>)
    | Inspecting(pull: Option<nat>, at: nat)
    | Parenting(pull: Option<nat>, ref: Option<nat>)
    | Treeing(pull: Option<nat>, ref: Option<nat>, base: Tree)
    | Committing(pull: Option<nat>, ref: Option<nat>, tree: Tree)
    | Moving(pull: Option<nat>, ref: Option<nat>, head: nat)
    | Opening(pull: Option<nat>, head: nat)
    | Confirming(number: nat, head: nat, attempt: nat)
    | Rechecking(number: nat, head: nat, attempt: nat)
    | Recording(result: Published)

  /** `advances` and `calls` are history: how often the publisher moved the branch, and how many calls
      it has made. */
  datatype Sys = Sys(store: Store, op: Op, pc: Pc, advances: nat, calls: nat)

  /** GitHub lays the entries over the base tree. */
  function Overlay(base: Tree, entries: seq<Entry>): Tree {
    if entries == [] then base
    else
      var last, rest := entries[|entries| - 1], Overlay(base, entries[..|entries| - 1]);
      if last.content.Some? then rest[last.path := last.content.value] else rest - {last.path}
  }

  predicate Ancestor(commits: seq<Commit>, a: nat, c: nat)
    decreases c
  {
    a == c || (c < |commits| && exists i :: 0 <= i < |commits[c].parents| && commits[c].parents[i] < c
                                            && Ancestor(commits, a, commits[c].parents[i]))
  }

  /** What the next call does when it succeeds, and where the attempt goes. `seen` is the head a pull
      request reports, which may lag behind its branch. */
  ghost function Respond(job: Job, s: Sys, seen: nat): Sys {
    var store := s.store;
    match s.pc
    case Idle => s
    case Listing =>
      if |store.pulls| > 1 || (|store.pulls| == 1 && !store.pulls[0]) then s.(pc := Idle)
      else s.(pc := Reading(if |store.pulls| == 1 then Some(0) else None))
    case Reading(pull) =>
      (match store.branch
       case None => s.(pc := Parenting(pull, None))
       case Some(at) => s.(pc := Inspecting(pull, at)))
    case Inspecting(pull, at) =>
      if at < |store.commits| && store.commits[at].message == job.key then s.(pc := Opening(pull, at))
      else if at != job.parent then s.(pc := Idle)
      else s.(pc := Parenting(pull, Some(at)))
    case Parenting(pull, ref) =>
      if job.parent >= |store.commits| then s.(pc := Idle)
      else s.(pc := Treeing(pull, ref, store.commits[job.parent].tree))
    case Treeing(pull, ref, base) => s.(pc := Committing(pull, ref, Overlay(base, job.files)))
    case Committing(pull, ref, tree) =>
      s.(store := store.(commits := store.commits + [Commit(job.key, tree, [job.parent])]),
         pc := Moving(pull, ref, |store.commits|))
    case Moving(pull, ref, head) =>
      if MayMove(store, ref, head)
      then s.(store := store.(branch := Some(head)), advances := s.advances + 1, pc := Opening(pull, head))
      else s.(pc := Idle)
    case Opening(pull, head) =>
      (match pull
       case Some(number) => s.(pc := Confirming(number, head, 0))
       case None =>
         if true in store.pulls then s.(pc := Idle)
         else s.(store := store.(pulls := store.pulls + [true]), pc := Confirming(|store.pulls|, head, 0)))
    case Confirming(number, head, attempt) =>
      if seen == head then s.(pc := Recording(Published(number, head))) else s.(pc := Rechecking(number, head, attempt))
    case Rechecking(number, head, attempt) =>
      if store.branch != Some(head) || attempt >= 2 then s.(pc := Idle)
      else s.(pc := Confirming(number, head, attempt + 1))
    case Recording(result) => s.(op := Done(result), pc := Idle)
  }

  /** An existing branch moves only forward, and a branch is created only where there is none. */
  predicate MayMove(store: Store, ref: Option<nat>, head: nat) {
    if ref.Some? then store.branch.Some? && Ancestor(store.commits, store.branch.value, head) else store.branch.None?
  }

  predicate Api(pc: Pc) { !pc.Idle? && !pc.Recording? && !(pc.Opening? && pc.pull.Some?) }

  datatype Step =
    | Begin
    | Call(seen: nat)
    | LostCall
    | FailedCall
    | Abort
    | Push(commit: Commit)
    | DeleteBranch
    | ClosePull(number: nat)

  predicate Outside(step: Step) { step.Push? || step.DeleteBranch? || step.ClosePull? }

  function Counted(s: Sys): Sys { if Api(s.pc) then s.(calls := s.calls + 1) else s }

  function Cut(s: Sys): Sys { s.(pc := Idle) }

  ghost function Apply(job: Job, s: Sys, step: Step): Sys {
    match step
    case Begin => if s.pc.Idle? && !s.op.Done? then s.(op := Pending, pc := Listing) else s
    case Call(seen) => Respond(job, Counted(s), seen)
    case LostCall => Cut(Respond(job, Counted(s), 0))
    case FailedCall => Cut(Counted(s))
    case Abort => Cut(s)
    case Push(commit) =>
      s.(store := s.store.(commits := s.store.commits + [commit], branch := Some(|s.store.commits|)))
    case DeleteBranch => s.(store := s.store.(branch := None))
    case ClosePull(number) =>
      if number < |s.store.pulls| then s.(store := s.store.(pulls := s.store.pulls[number := false])) else s
  }

  ghost function After(job: Job, s: Sys, steps: seq<Step>): Sys
    decreases |steps|
  {
    if steps == [] then s else After(job, Apply(job, s, steps[0]), steps[1..])
  }

  // ----- without outside actors: one advance, one pull request -----

  /** The commit this publication stands for. */
  ghost predicate Made(job: Job, base: Tree, commits: seq<Commit>, head: nat) {
    job.parent < head < |commits| && commits[head] == Commit(job.key, Overlay(base, job.files), [job.parent])
  }

  /** Where the branch starts: nowhere, or at the recorded parent, which no publication of this key made. */
  ghost predicate Init(job: Job, s: Sys) {
    && s.op.Absent? && s.pc.Idle? && s.advances == 0
    && job.parent < |s.store.commits| && s.store.commits[job.parent].message != job.key
    && (s.store.branch.None? || s.store.branch == Some(job.parent))
    && (s.store.pulls == [] || s.store.pulls == [true])
  }

  ghost predicate PullOk(pulls: seq<bool>, pull: Option<nat>) {
    if pull.Some? then pulls == [true] && pull.value == 0 else pulls == []
  }

  ghost predicate BranchOk(job: Job, start: Sys, base: Tree, s: Sys) {
    if s.advances == 0 then s.store.branch == start.store.branch
    else s.advances == 1 && s.store.branch.Some? && Made(job, base, s.store.commits, s.store.branch.value)
  }

  ghost predicate PcOk(job: Job, base: Tree, s: Sys) {
    match s.pc
    case Idle => true
    case Listing => true
    case Reading(pull) => PullOk(s.store.pulls, pull)
    case Inspecting(pull, at) => PullOk(s.store.pulls, pull) && s.store.branch == Some(at)
    case Parenting(pull, ref) => PullOk(s.store.pulls, pull) && s.store.branch == ref && s.advances == 0
    case Treeing(pull, ref, tree) =>
      PullOk(s.store.pulls, pull) && s.store.branch == ref && s.advances == 0 && tree == base
    case Committing(pull, ref, tree) =>
      PullOk(s.store.pulls, pull) && s.store.branch == ref && s.advances == 0 && tree == Overlay(base, job.files)
    case Moving(pull, ref, head) =>
      PullOk(s.store.pulls, pull) && s.store.branch == ref && s.advances == 0 && Made(job, base, s.store.commits, head)
    case Opening(pull, head) => PullOk(s.store.pulls, pull) && s.store.branch == Some(head) && s.advances == 1
    case Confirming(number, head, _) =>
      s.store.pulls == [true] && number == 0 && s.store.branch == Some(head) && s.advances == 1
    case Rechecking(number, head, _) =>
      s.store.pulls == [true] && number == 0 && s.store.branch == Some(head) && s.advances == 1
    case Recording(result) =>
      s.store.pulls == [true] && result.pull == 0 && s.store.branch == Some(result.head) && s.advances == 1
  }

  ghost predicate Inv(job: Job, start: Sys, s: Sys) {
    && Init(job, start)
    && start.store.commits <= s.store.commits
    && (s.store.pulls == [] || s.store.pulls == [true])
    && var base := start.store.commits[job.parent].tree;
       BranchOk(job, start, base, s) && PcOk(job, base, s)
       && (s.op.Done? ==> s.pc.Idle? && s.store.pulls == [true] && s.op.result.pull == 0
                          && s.store.branch == Some(s.op.result.head) && s.advances == 1)
  }

  lemma ReadKeeps(job: Job, start: Sys, s: Sys, seen: nat)
    requires Inv(job, start, s)
    requires !s.pc.Committing? && !s.pc.Moving? && !s.pc.Opening? && !s.pc.Recording?
    ensures Inv(job, start, Respond(job, s, seen))
  {
  }

  lemma WriteKeeps(job: Job, start: Sys, s: Sys, seen: nat)
    requires Inv(job, start, s) && (s.pc.Committing? || s.pc.Moving? || s.pc.Opening? || s.pc.Recording?)
    ensures Inv(job, start, Respond(job, s, seen))
  {
  }

  lemma RespondKeeps(job: Job, start: Sys, s: Sys, seen: nat)
    requires Inv(job, start, s)
    ensures Inv(job, start, Respond(job, s, seen))
  {
    if s.pc.Committing? || s.pc.Moving? || s.pc.Opening? || s.pc.Recording? {
      WriteKeeps(job, start, s, seen);
    } else {
      ReadKeeps(job, start, s, seen);
    }
  }

  lemma CutKeeps(job: Job, start: Sys, s: Sys)
    requires Inv(job, start, s)
    ensures Inv(job, start, Cut(s))
  {
  }

  lemma CountedKeeps(job: Job, start: Sys, s: Sys)
    requires Inv(job, start, s)
    ensures Inv(job, start, Counted(s))
  {
  }

  lemma BeginKeeps(job: Job, start: Sys, s: Sys)
    requires Inv(job, start, s)
    ensures Inv(job, start, Apply(job, s, Begin))
  {
  }

  lemma StepKeeps(job: Job, start: Sys, s: Sys, step: Step)
    requires Inv(job, start, s) && !Outside(step)
    ensures Inv(job, start, Apply(job, s, step))
  {
    CountedKeeps(job, start, s);
    match step
    case Begin => BeginKeeps(job, start, s);
    case Call(seen) => RespondKeeps(job, start, Counted(s), seen);
    case LostCall =>
      RespondKeeps(job, start, Counted(s), 0);
      CutKeeps(job, start, Respond(job, Counted(s), 0));
    case FailedCall => CutKeeps(job, start, Counted(s));
    case Abort => CutKeeps(job, start, s);
  }

  lemma {:induction false} RunInv(job: Job, start: Sys, s: Sys, steps: seq<Step>)
    requires Inv(job, start, s) && forall i | 0 <= i < |steps| :: !Outside(steps[i])
    ensures Inv(job, start, After(job, s, steps))
    decreases |steps|
  {
    if steps != [] {
      StepKeeps(job, start, s, steps[0]);
      RunInv(job, start, Apply(job, s, steps[0]), steps[1..]);
    }
  }

  /** After any number of cut attempts and one that completes: the branch stands exactly one commit
      further, on a commit with this key, this parent and the parent's tree under the files, and exactly
      one pull request is open. */
  lemma PublishedOnce(job: Job, start: Sys, steps: seq<Step>)
    requires Init(job, start) && forall i | 0 <= i < |steps| :: !Outside(steps[i])
    requires After(job, start, steps).op.Done?
    ensures var s := After(job, start, steps);
            && s.advances == 1 && s.store.branch == Some(s.op.result.head)
            && s.store.pulls == [true] && s.op.result.pull == 0
            && s.op.result.head < |s.store.commits|
            && s.store.commits[s.op.result.head]
               == Commit(job.key, Overlay(start.store.commits[job.parent].tree, job.files), [job.parent])
  {
    RunInv(job, start, start, steps);
  }

  /** However the attempts are cut, the branch is where it was or at a finished publication, which it
      reached in one move. */
  lemma NeverHalfPublished(job: Job, start: Sys, steps: seq<Step>)
    requires Init(job, start) && forall i | 0 <= i < |steps| :: !Outside(steps[i])
    ensures var s := After(job, start, steps);
            && |s.store.pulls| <= 1
            && (s.store.branch == start.store.branch
                || (s.advances == 1 && s.store.branch.Some?
                    && Made(job, start.store.commits[job.parent].tree, s.store.commits, s.store.branch.value)))
  {
    RunInv(job, start, start, steps);
  }

  // ----- an attempt that is left alone completes -----

  /** How far an attempt is from its record. */
  function Remaining(pc: Pc): nat {
    match pc
    case Idle => 0
    case Listing => 14
    case Reading(_) => 13
    case Inspecting(_, _) => 12
    case Parenting(_, _) => 11
    case Treeing(_, _, _) => 10
    case Committing(_, _, _) => 9
    case Moving(_, _, _) => 8
    case Opening(_, _) => 7
    case Confirming(_, _, attempt) => if attempt < 3 then 6 - 2 * attempt else 2
    case Rechecking(_, _, attempt) => if attempt < 3 then 5 - 2 * attempt else 1
    case Recording(_) => 1
  }

  /** The head the running attempt is about to confirm. */
  function Expected(s: Sys): nat { if s.pc.Confirming? then s.pc.head else 0 }

  ghost function LeftAlone(job: Job, s: Sys, n: nat): Sys
    decreases n
  {
    if n == 0 then s else LeftAlone(job, Apply(job, s, Call(Expected(s))), n - 1)
  }

  lemma OneCallCloser(job: Job, start: Sys, s: Sys)
    requires Inv(job, start, s) && !s.pc.Idle? && !s.pc.Rechecking?
    ensures var s' := Apply(job, s, Call(Expected(s)));
            !s'.pc.Rechecking? && (s'.op.Done? || (!s'.pc.Idle? && Remaining(s'.pc) < Remaining(s.pc)))
  {
    if s.pc.Moving? && s.pc.ref.Some? && s.store.branch.Some? {
      ParentIsAncestor(job, start, s);
    }
  }

  lemma ParentIsAncestor(job: Job, start: Sys, s: Sys)
    requires Inv(job, start, s) && s.pc.Moving? && s.pc.ref.Some?
    ensures Ancestor(s.store.commits, job.parent, s.pc.head)
  {
    var commits := s.store.commits;
    assert commits[s.pc.head].parents[0] == job.parent;
    assert Ancestor(commits, job.parent, commits[s.pc.head].parents[0]);
  }

  /** Whatever earlier attempts left behind, the next one publishes if nothing disturbs it. */
  lemma {:induction false} RetryCompletes(job: Job, start: Sys, s: Sys, n: nat)
    requires Inv(job, start, s) && !s.pc.Idle? && !s.pc.Rechecking? && Remaining(s.pc) <= n
    ensures exists k :: 0 < k <= n && LeftAlone(job, s, k).op.Done?
    decreases n
  {
    var next := Apply(job, s, Call(Expected(s)));
    StepKeeps(job, start, s, Call(Expected(s)));
    OneCallCloser(job, start, s);
    if next.op.Done? {
      assert LeftAlone(job, s, 1) == LeftAlone(job, next, 0);
    } else {
      RetryCompletes(job, start, next, n - 1);
      var k :| 0 < k <= n - 1 && LeftAlone(job, next, k).op.Done?;
      assert LeftAlone(job, s, k + 1) == LeftAlone(job, next, k);
    }
  }

  /** An operation that is not done is tried again, whatever earlier attempts left behind, pending or not: `Begin`
      starts an attempt, and if nothing disturbs it at most 14 calls complete it. */
  lemma PendingIsRetried(job: Job, start: Sys, s: Sys)
    requires Inv(job, start, s) && s.pc.Idle? && !s.op.Done?
    ensures exists k :: 0 < k <= 14 && LeftAlone(job, Apply(job, s, Begin), k).op.Done?
  {
    StepKeeps(job, start, s, Begin);
    RetryCompletes(job, start, Apply(job, s, Begin), 14);
  }

  // ----- with outside actors -----

  ghost predicate Keyed(job: Job, commits: seq<Commit>, head: nat) {
    head < |commits| && commits[head].message == job.key
  }

  /** What holds of every attempt, whoever else works on the repository. */
  ghost predicate Sound(job: Job, s: Sys) {
    var commits := s.store.commits;
    && job.parent < |commits| && (s.store.branch.Some? ==> s.store.branch.value < |commits|)
    && (s.op.Done? ==> Keyed(job, commits, s.op.result.head))
    && match s.pc
       case Inspecting(_, at) => at < |commits|
       case Moving(_, _, head) => Keyed(job, commits, head) && commits[head].parents == [job.parent]
       case Opening(_, head) => Keyed(job, commits, head)
       case Confirming(_, head, _) => Keyed(job, commits, head)
       case Rechecking(_, head, _) => Keyed(job, commits, head)
       case Recording(result) => Keyed(job, commits, result.head)
       case _ => true
  }

  lemma SoundCall(job: Job, s: Sys, seen: nat)
    requires Sound(job, s)
    ensures Sound(job, Respond(job, Counted(s), seen)) && Sound(job, Cut(Respond(job, Counted(s), seen)))
  {
  }

  lemma SoundOutside(job: Job, s: Sys, step: Step)
    requires Sound(job, s) && Outside(step)
    ensures Sound(job, Apply(job, s, step))
  {
  }

  lemma SoundStep(job: Job, s: Sys, step: Step)
    requires Sound(job, s)
    ensures Sound(job, Apply(job, s, step))
  {
    if Outside(step) {
      SoundOutside(job, s, step);
    } else if step.Call? {
      SoundCall(job, s, step.seen);
    } else if step.LostCall? {
      SoundCall(job, s, 0);
    }
  }

  lemma {:induction false} SoundRun(job: Job, s: Sys, steps: seq<Step>)
    requires Sound(job, s)
    ensures Sound(job, After(job, s, steps))
    decreases |steps|
  {
    if steps != [] {
      SoundStep(job, s, steps[0]);
      SoundRun(job, Apply(job, s, steps[0]), steps[1..]);
    }
  }

  /** Whoever else pushes, deletes or closes in between: the publisher moves the branch only to a commit
      of its own on the recorded parent, and a head that was there, its own or a stranger's, stays in the
      history of the branch. */
  lemma NothingOverwritten(job: Job, start: Sys, steps: seq<Step>, step: Step)
    requires Init(job, start) && !Outside(step)
    ensures var s := After(job, start, steps);
            var s' := Apply(job, s, step);
            s'.store.branch != s.store.branch ==>
              && s'.store.branch.Some? && s'.store.branch.value < |s'.store.commits|
              && s'.store.commits[s'.store.branch.value].message == job.key
              && s'.store.commits[s'.store.branch.value].parents == [job.parent]
              && (s.store.branch.Some? ==> Ancestor(s'.store.commits, s.store.branch.value, s'.store.branch.value))
  {
    SoundRun(job, start, steps);
  }

  /** The branch stands on a stranger's commit, and no attempt has got past reading it. */
  ghost predicate Held(job: Job, s: Sys, head: nat) {
    && s.store.branch == Some(head) && head < |s.store.commits|
    && s.store.commits[head].message != job.key && head != job.parent && !s.op.Done?
    && match s.pc
       case Idle => true
       case Listing => true
       case Reading(_) => true
       case Inspecting(_, at) => at == head
       case _ => false
  }

  lemma HeldStep(job: Job, s: Sys, step: Step, head: nat)
    requires Held(job, s, head) && !Outside(step)
    ensures Held(job, Apply(job, s, step), head) && Apply(job, s, step).store == s.store
  {
  }

  /** While a stranger's commit is the head, no number of attempts publishes or changes anything. */
  lemma {:induction false} StrangerIsLeftAlone(job: Job, s: Sys, steps: seq<Step>, head: nat)
    requires Held(job, s, head) && forall i | 0 <= i < |steps| :: !Outside(steps[i])
    ensures After(job, s, steps).store == s.store && !After(job, s, steps).op.Done?
    decreases |steps|
  {
    if steps != [] {
      HeldStep(job, s, steps[0], head);
      StrangerIsLeftAlone(job, Apply(job, s, steps[0]), steps[1..], head);
    }
  }

  /** An operation that is recorded as done is never called again. */
  lemma {:induction false} DoneForGood(job: Job, s: Sys, steps: seq<Step>)
    requires s.op.Done? && s.pc.Idle?
    ensures var s' := After(job, s, steps);
            s'.op == s.op && s'.pc.Idle? && s'.calls == s.calls && s'.advances == s.advances
    decreases |steps|
  {
    if steps != [] {
      DoneForGood(job, Apply(job, s, steps[0]), steps[1..]);
    }
  }

  lemma {:induction false} AfterOneMore(job: Job, s: Sys, steps: seq<Step>, last: Step)
    ensures After(job, s, steps + [last]) == Apply(job, After(job, s, steps), last)
    decreases |steps|
  {
    if steps == [] {
      assert [last][1..] == [];
    } else {
      assert (steps + [last])[1..] == steps[1..] + [last];
      AfterOneMore(job, Apply(job, s, steps[0]), steps[1..], last);
    }
  }
}
