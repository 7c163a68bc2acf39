/** The code of Engine.external and GitHub.publish. Its calls are steps of the publishing protocol, and
    `steps` records the run they form. */
module Publisher {
  import opened Wrappers
  import opened Publishing

  datatype Fault = Fine | Lost | Refused

  function EntriesOf(files: seq<(string, Option<string>)>): seq<Entry> {
    seq(|files|, i requires 0 <= i < |files| => Entry(files[i].0, files[i].1))
  }

  class Publisher {
    const key: string
    const parent: nat
    const files: seq<(string, Option<string>)>
    const safe: string -> bool
    var store: Store
    var op: Op
    ghost var pc: Pc
    ghost var advances: nat
    ghost var calls: nat
    ghost var start: Sys
    ghost var steps: seq<Step>

    ghost function TheJob(): Job { Job(key, parent, EntriesOf(files)) }

    ghost function View(): Sys
      reads this
    {
      Sys(store, op, pc, advances, calls)
    }

    ghost predicate Valid()
      reads this
    {
      Init(TheJob(), start) && View() == After(TheJob(), start, steps)
    }

    /** Nobody else has touched the repository. */
    ghost predicate Undisturbed()
      reads this
    {
      forall i | 0 <= i < |steps| :: !Outside(steps[i])
    }

    constructor (key: string, parent: nat, files: seq<(string, Option<string>)>, safe: string -> bool, store: Store)
      requires parent < |store.commits| && store.commits[parent].message != key
      requires (store.branch.None? || store.branch == Some(parent)) && (store.pulls == [] || store.pulls == [true])
      ensures Valid() && pc == Idle && op == Absent && this.store == store && start.store == store
      ensures this.key == key && this.parent == parent && this.files == files
    {
      this.key, this.parent, this.files, this.safe := key, parent, files, safe;
      this.store, op, pc, advances, calls := store, Absent, Idle, 0, 0;
      start, steps := Sys(store, Absent, Idle, 0, 0), [];
    }

    /** The last step explains why the attempt is over: a call that failed, lost its response or was answered with
        a refusal, or a file with an unsafe path. */
    ghost predicate Excused()
      reads this
    {
      && steps != []
      && match steps[|steps| - 1]
         case FailedCall => true
         case LostCall => true
         case Call(_) => true
         case Abort => exists i :: 0 <= i < |files| && !safe(files[i].0)
         case _ => false
    }

    ghost method Log(step: Step)
      requires Init(TheJob(), start)
      requires View() == Apply(TheJob(), After(TheJob(), start, steps), step)
      modifies `steps
      ensures Valid() && steps == old(steps) + [step]
    {
      AfterOneMore(TheJob(), start, steps, step);
      steps := steps + [step];
    }

    ghost method Stop()
      requires Valid()
      modifies `pc, `steps
      ensures Valid() && pc == Idle
      ensures steps == old(steps) + [Abort]
    {
      pc := Idle;
      Log(Abort);
    }

    /** How the next call ends. Somebody else may touch the repository first. */
    method AnyFault() returns (fault: Fault)
      requires Valid()
      modifies `store, `steps
      ensures Valid() && Sound(TheJob(), View())
    {
      var disturbance: nat := *;
      if disturbance == 1 {
        var commit: Commit := *;
        store := store.(commits := store.commits + [commit], branch := Some(|store.commits|));
        Log(Push(commit));
      } else if disturbance == 2 {
        store := store.(branch := None);
        Log(DeleteBranch);
      } else if disturbance >= 3 && disturbance - 3 < |store.pulls| {
        store := store.(pulls := store.pulls[disturbance - 3 := false]);
        Log(ClosePull(disturbance - 3));
      }
      SoundRun(TheJob(), start, steps);
      var a: bool, b: bool := *, *;
      fault := if a then Fine else if b then Lost else Refused;
    }

    /** A call without effect that fails. */
    ghost method Fail()
      requires Valid() && Api(pc)
      modifies `pc, `calls, `steps
      ensures Valid() && pc == Idle
      ensures calls == old(calls) + 1 && steps == old(steps) + [FailedCall]
    {
      calls, pc := calls + 1, Idle;
      Log(FailedCall);
    }

    method ListPulls() returns (r: Option<Option<nat>>)
      requires Valid() && pc == Listing
      modifies `store, `pc, `calls, `steps
      ensures Valid() && if r.None? then pc == Idle else pc == Reading(r.value)
      ensures calls > old(calls)
      ensures r.None? ==> Excused()
    {
      var fault := AnyFault();
      if fault != Fine {
        Fail();
        return None;
      }
      calls := calls + 1;
      if |store.pulls| > 1 || (|store.pulls| == 1 && !store.pulls[0]) {
        pc, r := Idle, None;
      } else {
        r := Some(if |store.pulls| == 1 then Some(0) else None);
        pc := Reading(r.value);
      }
      Log(Call(0));
    }

    method ReadRef(pull: Option<nat>) returns (r: Option<Option<nat>>)
      requires Valid() && pc == Reading(pull)
      modifies `store, `pc, `calls, `steps
      ensures Valid() && r.None? ==> pc == Idle
      ensures r.Some? ==> pc == if r.value.Some? then Inspecting(pull, r.value.value) else Parenting(pull, None)
      ensures Valid()
      ensures calls >= old(calls)
      ensures r.None? ==> Excused()
    {
      var fault := AnyFault();
      if fault != Fine {
        Fail();
        return None;
      }
      calls, r := calls + 1, Some(store.branch);
      pc := if store.branch.Some? then Inspecting(pull, store.branch.value) else Parenting(pull, None);
      Log(Call(0));
    }

    /** Is the head of the branch already this publication? Anything else but the parent is refused. */
    method InspectRef(pull: Option<nat>, at: nat) returns (r: Option<bool>)
      requires Valid() && pc == Inspecting(pull, at)
      modifies `store, `pc, `calls, `steps
      ensures Valid() && r.None? ==> pc == Idle
      ensures r == Some(true) ==> pc == Opening(pull, at)
      ensures r == Some(false) ==> pc == Parenting(pull, Some(at))
      ensures Valid()
      ensures calls >= old(calls)
      ensures r.None? ==> Excused()
    {
      var fault := AnyFault();
      if fault != Fine {
        Fail();
        return None;
      }
      calls := calls + 1;
      if store.commits[at].message == key {
        pc, r := Opening(pull, at), Some(true);
      } else if at != parent {
        pc, r := Idle, None;
      } else {
        pc, r := Parenting(pull, Some(at)), Some(false);
      }
      Log(Call(0));
    }

    method GetBaseTree(pull: Option<nat>, ref: Option<nat>) returns (r: Option<Tree>)
      requires Valid() && pc == Parenting(pull, ref)
      modifies `store, `pc, `calls, `steps
      ensures Valid() && if r.None? then pc == Idle else pc == Treeing(pull, ref, r.value)
      ensures calls >= old(calls)
      ensures r.None? ==> Excused()
    {
      var fault := AnyFault();
      if fault != Fine {
        Fail();
        return None;
      }
      calls, r := calls + 1, Some(store.commits[parent].tree);
      pc := Treeing(pull, ref, r.value);
      Log(Call(0));
    }

    /** The loop over the files; an unsafe path ends the attempt. */
    method BuildEntries() returns (r: Option<seq<Entry>>)
      ensures r.Some? <==> forall i | 0 <= i < |files| :: safe(files[i].0)
      ensures r.Some? ==> r.value == EntriesOf(files)
    {
      var entries := [];
      for i := 0 to |files|
        invariant entries == EntriesOf(files)[..i]
        invariant forall k | 0 <= k < i :: safe(files[k].0)
      {
        var (path, content) := files[i];
        if !safe(path) {
          return None;
        }
        entries := entries + [Entry(path, content)];
      }
      r := Some(entries);
    }

    method PostTree(pull: Option<nat>, ref: Option<nat>, base: Tree, entries: seq<Entry>) returns (r: Option<Tree>)
      requires Valid() && pc == Treeing(pull, ref, base) && entries == EntriesOf(files)
      modifies `store, `pc, `calls, `steps
      ensures Valid() && if r.None? then pc == Idle else pc == Committing(pull, ref, r.value)
      ensures calls >= old(calls)
      ensures r.None? ==> Excused()
    {
      var fault := AnyFault();
      if fault != Fine {
        Fail();
        return None;
      }
      calls, r := calls + 1, Some(Overlay(base, entries));
      pc := Committing(pull, ref, r.value);
      Log(Call(0));
    }

    method PostCommit(pull: Option<nat>, ref: Option<nat>, tree: Tree) returns (r: Option<nat>)
      requires Valid() && pc == Committing(pull, ref, tree)
      modifies `store, `pc, `calls, `steps
      ensures Valid() && if r.None? then pc == Idle else pc == Moving(pull, ref, r.value)
      ensures calls >= old(calls)
      ensures r.None? ==> Excused()
    {
      var fault := AnyFault();
      if fault == Refused {
        Fail();
        return None;
      }
      var head := |store.commits|;
      store := store.(commits := store.commits + [Commit(key, tree, [parent])]);
      calls := calls + 1;
      if fault == Lost {
        pc, r := Idle, None;
        Log(LostCall);
      } else {
        pc, r := Moving(pull, ref, head), Some(head);
        Log(Call(0));
      }
    }

    /** PATCH without force, or POST of a new ref. */
    method MoveBranch(pull: Option<nat>, ref: Option<nat>, head: nat) returns (moved: bool)
      requires Valid() && pc == Moving(pull, ref, head)
      modifies `store, `pc, `advances, `calls, `steps
      ensures Valid() && if moved then pc == Opening(pull, head) else pc == Idle
      ensures calls >= old(calls)
      ensures !moved ==> Excused()
    {
      var fault := AnyFault();
      if fault == Refused || !MayMove(store, ref, head) {
        Fail();
        return false;
      }
      store := store.(branch := Some(head));
      advances, calls := advances + 1, calls + 1;
      moved := fault == Fine;
      pc := if moved then Opening(pull, head) else Idle;
      Log(if moved then Call(0) else LostCall);
    }

    method OpenPull(pull: Option<nat>, head: nat) returns (r: Option<nat>)
      requires Valid() && pc == Opening(pull, head)
      modifies `store, `pc, `calls, `steps
      ensures Valid() && if r.None? then pc == Idle else pc == Confirming(r.value, head, 0)
      ensures calls >= old(calls)
      ensures r.None? ==> Excused()
    {
      if pull.Some? {
        r, pc := pull, Confirming(pull.value, head, 0);
        Log(Call(0));
        return;
      }
      var fault := AnyFault();
      if fault == Refused || true in store.pulls {
        Fail();
        return None;
      }
      r := if fault == Fine then Some(|store.pulls|) else None;
      pc := if fault == Fine then Confirming(|store.pulls|, head, 0) else Idle;
      store := store.(pulls := store.pulls + [true]);
      calls := calls + 1;
      Log(if fault == Fine then Call(0) else LostCall);
    }

    method GetPullHead(number: nat, head: nat, attempt: nat) returns (r: Option<nat>)
      requires Valid() && pc == Confirming(number, head, attempt)
      modifies `store, `pc, `calls, `steps
      ensures Valid() && r.None? ==> pc == Idle
      ensures r == Some(head) ==> pc == Recording(Published(number, head))
      ensures r.Some? && r.value != head ==> pc == Rechecking(number, head, attempt)
      ensures Valid()
      ensures calls >= old(calls)
      ensures r.None? ==> Excused()
    {
      var fault := AnyFault();
      if fault != Fine {
        Fail();
        return None;
      }
      var seen: nat := *;
      calls, r := calls + 1, Some(seen);
      pc := if seen == head then Recording(Published(number, head)) else Rechecking(number, head, attempt);
      Log(Call(seen));
    }

    method Recheck(number: nat, head: nat, attempt: nat) returns (again: bool)
      requires Valid() && pc == Rechecking(number, head, attempt)
      modifies `store, `pc, `calls, `steps
      ensures Valid() && if again then pc == Confirming(number, head, attempt + 1) && attempt < 2 else pc == Idle
      ensures calls >= old(calls)
      ensures !again ==> Excused()
    {
      var fault := AnyFault();
      if fault != Fine {
        Fail();
        return false;
      }
      calls := calls + 1;
      again := store.branch == Some(head) && attempt < 2;
      pc := if again then Confirming(number, head, attempt + 1) else Idle;
      Log(Call(0));
    }

    /** confirm_published_pr: three looks, because a pull request may lag behind its branch. */
    method Confirm(number: nat, head: nat) returns (confirmed: bool)
      requires Valid() && pc == Confirming(number, head, 0)
      modifies `store, `pc, `calls, `steps
      ensures Valid() && if confirmed then pc == Recording(Published(number, head)) else pc == Idle
      ensures calls >= old(calls)
      ensures !confirmed ==> Excused()
    {
      var attempt := 0;
      while true
        invariant Valid() && pc == Confirming(number, head, attempt) && attempt <= 2
        invariant calls >= old(calls)
        decreases 3 - attempt
      {
        var seen := GetPullHead(number, head, attempt);
        if seen.None? {
          return false;
        }
        if seen.value == head {
          return true;
        }
        var again := Recheck(number, head, attempt);
        if !again {
          return false;
        }
        attempt := attempt + 1;
      }
    }

    /** Parent commit, tree, commit, ref. */
    method Advance(pull: Option<nat>, ref: Option<nat>) returns (r: Option<nat>)
      requires Valid() && pc == Parenting(pull, ref)
      modifies this
      ensures Valid() && op == old(op) && start == old(start)
      ensures if r.None? then pc == Idle else pc == Opening(pull, r.value)
      ensures calls >= old(calls)
      ensures r.None? ==> Excused()
    {
      var base := GetBaseTree(pull, ref);
      if base.None? {
        return None;
      }
      var entries := BuildEntries();
      if entries.None? {
        Stop();
        return None;
      }
      var tree := PostTree(pull, ref, base.value, entries.value);
      if tree.None? {
        return None;
      }
      var head := PostCommit(pull, ref, tree.value);
      if head.None? {
        return None;
      }
      var moved := MoveBranch(pull, ref, head.value);
      r := if moved then head else None;
    }

    method Publish() returns (r: Option<Published>)
      requires Valid() && pc == Listing
      modifies this
      ensures Valid() && op == old(op) && start == old(start)
      ensures if r.None? then pc == Idle else pc == Recording(r.value)
      ensures calls > old(calls)
      ensures r.None? ==> Excused()
    {
      var pull := ListPulls();
      if pull.None? {
        return None;
      }
      var ref := ReadRef(pull.value);
      if ref.None? {
        return None;
      }
      var head;
      var published := Some(false);
      if ref.value.Some? {
        published := InspectRef(pull.value, ref.value.value);
        if published.None? {
          return None;
        }
      }
      if published.value {
        head := ref.value;
      } else {
        head := Advance(pull.value, ref.value);
        if head.None? {
          return None;
        }
      }
      var number := OpenPull(pull.value, head.value);
      if number.None? {
        return None;
      }
      var confirmed := Confirm(number.value, head.value);
      r := if confirmed then Some(Published(number.value, head.value)) else None;
    }

    /** external: a recorded result is returned without a call. Anything else, pending or not, is published and then
        recorded, unless a call does not get through or is refused. The recorded head always carries this key; if
        nobody else touched the repository, the branch stands on it, exactly one commit further than the recorded
        parent. */
    method External() returns (r: Option<Published>)
      requires Valid() && pc == Idle
      modifies this
      ensures Valid() && pc == Idle && start == old(start)
      ensures old(op).Done? ==> r == Some(old(op).result) && View() == old(View())
      ensures !old(op).Done? ==> calls > old(calls)
      ensures r.None? ==> Excused()
      ensures r.Some? ==> op == Done(r.value) && Keyed(TheJob(), store.commits, r.value.head)
      ensures r.Some? && Undisturbed() ==>
                advances == 1 && store.branch == Some(r.value.head) && store.pulls == [true]
                && store.commits[r.value.head]
                   == Commit(key, Overlay(start.store.commits[parent].tree, EntriesOf(files)), [parent])
    {
      if op.Done? {
        SoundRun(TheJob(), start, steps);
        if Undisturbed() {
          PublishedOnce(TheJob(), start, steps);
        }
        return Some(op.result);
      }
      op, pc := Pending, Listing;
      Log(Begin);
      r := Publish();
      if r.None? {
        return None;
      }
      op, pc := Done(r.value), Idle;
      Log(Call(0));
      SoundRun(TheJob(), start, steps);
      if Undisturbed() {
        PublishedOnce(TheJob(), start, steps);
      }
    }
  }
}
