/** Posting a split text exactly once (send_chunked in src/agent_team/adapters/discord.py).
    A part is posted with a marker, its message id is saved as a receipt, and only then is the marker
    removed. A sender can stop after any of these calls and start over. */
module Delivery {
  import opened Wrappers
  import opened Splitting

  const HISTORY := 100

  /** A message as this event sees it: `marker` is the part number it carries, if any. The id of a
      message is its position in the channel. */
  datatype Message = Message(author: nat, body: string, marker: Option<nat>)

  /** One history variable records which part went out in which message, in order of posting. */
  datatype Post = Post(part: nat, id: nat)

  /** What the sender does next for part `next`; `Idle` is between attempts. */
  datatype Pc =
    | Idle
    | Looking(known: map<nat, nat>, next: nat)
    | Holding(known: map<nat, nat>, next: nat, id: nat)
    | Saved(known: map<nat, nat>, next: nat, id: nat)

  datatype World = World(bot: nat, messages: seq<Message>, receipts: map<nat, nat>, log: seq<Post>, pc: Pc)

  datatype Step = Begin(known: map<nat, nat>) | Resolve | SaveReceipt | Strip | Crash | Other(message: Message)

  /** The messages the history search can see: the newest hundred. */
  ghost predicate Visible(w: World, id: nat) {
    id < |w.messages| <= id + HISTORY
  }

  ghost predicate Marked(w: World, id: nat, part: nat) {
    id < |w.messages| && w.messages[id].author == w.bot && w.messages[id].marker == Some(part)
  }

  /** The result of the history search: exactly the marked parts among the visible messages. */
  ghost predicate Scan(w: World, n: nat, known: map<nat, nat>) {
    && (forall p | p in known :: p < n && Visible(w, known[p]) && Marked(w, known[p], p))
    && (forall id: nat, p: nat | Visible(w, id) && Marked(w, id, p) && p < n :: p in known)
  }

  /** The assumption of the guarantee: a posted part that lost its receipt is still in the history. */
  ghost predicate WithinHistory(w: World) {
    forall k | 0 <= k < |w.log| :: w.log[k].part in w.receipts || Visible(w, w.log[k].id)
  }

  ghost predicate Init(w: World) {
    && w.log == [] && w.receipts == map[] && w.pc == Idle
    && forall id: nat, p: nat :: !Marked(w, id, p)
  }

  ghost predicate Next(parts: seq<string>, w: World, step: Step, w': World) {
    match step
    case Begin(known) =>
      w.pc.Idle? && WithinHistory(w) && Scan(w, |parts|, known) && w' == w.(pc := Looking(known, 0))
    case Resolve =>
      && w.pc.Looking? && w.pc.next < |parts|
      && var next := w.pc.next;
         if next in w.pc.known then w' == w.(pc := Holding(w.pc.known, next, w.pc.known[next]))
         else if next in w.receipts then w' == w.(pc := Holding(w.pc.known, next, w.receipts[next]))
         else w' == w.(messages := w.messages + [Message(w.bot, parts[next], Some(next))],
                       log := w.log + [Post(next, |w.messages|)],
                       pc := Holding(w.pc.known, next, |w.messages|))
    case SaveReceipt =>
      w.pc.Holding?
      && w' == w.(receipts := w.receipts[w.pc.next := w.pc.id], pc := Saved(w.pc.known, w.pc.next, w.pc.id))
    case Strip =>
      && w.pc.Saved? && w.pc.id < |w.messages|
      && var m := w.messages[w.pc.id];
         w' == w.(messages := if m.marker == Some(w.pc.next) then w.messages[w.pc.id := m.(marker := None)]
                              else w.messages,
                  pc := Looking(w.pc.known, w.pc.next + 1))
    case Crash => w' == w.(pc := Idle)
    case Other(message) =>
      !(message.author == w.bot && message.marker.Some?) && w' == w.(messages := w.messages + [message])
  }

  /** The inductive invariant: parts go out in order, once each, and a part is findable by its marker
      or by its receipt. */
  ghost predicate Inv(parts: seq<string>, w: World) {
    && |w.log| <= |parts|
    && (forall k | 0 <= k < |w.log| :: LogOk(parts, w, k))
    && (forall j, k | 0 <= j < k < |w.log| :: w.log[j].id < w.log[k].id)
    && (forall p | p in w.receipts :: p < |w.log| && w.receipts[p] == w.log[p].id)
    && (forall id: nat, p: nat | Marked(w, id, p) :: p < |w.log| && w.log[p].id == id)
    && PcOk(parts, w)
  }

  ghost predicate LogOk(parts: seq<string>, w: World, k: nat)
    requires k < |w.log| <= |parts|
  {
    && w.log[k].part == k && w.log[k].id < |w.messages|
    && var m := w.messages[w.log[k].id];
       m.author == w.bot && m.body == parts[k] && (m.marker == Some(k) || (m.marker == None && k in w.receipts))
  }

  ghost predicate PcOk(parts: seq<string>, w: World) {
    !w.pc.Idle? ==>
      && w.pc.next <= |w.log|
      && (forall p | p in w.pc.known :: p < |w.log| && w.pc.known[p] == w.log[p].id)
      && (forall k | w.pc.next <= k < |w.log| ::
            k in w.pc.known || k in w.receipts || (!w.pc.Looking? && k == w.pc.next))
      && (forall k | 0 <= k < w.pc.next ::
            k in w.receipts && w.log[k].id < |w.messages| && w.messages[w.log[k].id].marker == None)
      && (!w.pc.Looking? ==> w.pc.next < |w.log| && w.pc.id == w.log[w.pc.next].id)
      && (w.pc.Saved? ==> w.pc.next in w.receipts)
  }

  lemma SameMessages(parts: seq<string>, w: World, w': World)
    requires w'.messages == w.messages && w'.log == w.log && w'.bot == w.bot && |w.log| <= |parts|
    requires forall p | p in w.receipts :: p in w'.receipts
    ensures forall k | 0 <= k < |w.log| :: LogOk(parts, w, k) ==> LogOk(parts, w', k)
    ensures forall id: nat, p: nat :: Marked(w', id, p) <==> Marked(w, id, p)
  {}

  lemma StepKeeps(parts: seq<string>, w: World, step: Step, w': World)
    requires Inv(parts, w) && Next(parts, w, step, w')
    ensures Inv(parts, w')
  {
    match step
    case Begin(known) =>
      SameMessages(parts, w, w');
      forall k | 0 <= k < |w.log| ensures k in known || k in w.receipts {
        if k !in w.receipts {
          assert LogOk(parts, w, k) && Marked(w, w.log[k].id, k);
        }
      }
    case Resolve => ResolveKeeps(parts, w, w');
    case SaveReceipt => SameMessages(parts, w, w');
    case Strip => StripKeeps(parts, w, w');
    case Crash => SameMessages(parts, w, w');
    case Other(m) =>
      forall k | 0 <= k < |w.log| ensures LogOk(parts, w', k) { assert LogOk(parts, w, k); }
      forall id: nat, p: nat | Marked(w', id, p) ensures p < |w.log| && w.log[p].id == id {
        assert id < |w.messages| && Marked(w, id, p);
      }
  }

  lemma ResolveKeeps(parts: seq<string>, w: World, w': World)
    requires Inv(parts, w) && Next(parts, w, Resolve, w')
    ensures Inv(parts, w')
  {
    if w.pc.next in w.pc.known || w.pc.next in w.receipts {
      SameMessages(parts, w, w');
    } else {
      PostKeeps(parts, w, w');
      assert PcOk(parts, w');
    }
  }

  lemma PostKeeps(parts: seq<string>, w: World, w': World)
    requires Inv(parts, w) && Next(parts, w, Resolve, w')
    requires w.pc.next !in w.pc.known && w.pc.next !in w.receipts
    ensures |w'.log| <= |parts| && forall k | 0 <= k < |w'.log| :: LogOk(parts, w', k)
    ensures forall id: nat, p: nat | Marked(w', id, p) :: p < |w'.log| && w'.log[p].id == id
    ensures forall j, k | 0 <= j < k < |w'.log| :: w'.log[j].id < w'.log[k].id
  {
    assert w.pc.next == |w.log|;
    forall k | 0 <= k < |w'.log| ensures LogOk(parts, w', k) {
      assert k < |w.log| ==> LogOk(parts, w, k);
    }
    forall id: nat, p: nat | Marked(w', id, p) ensures p < |w'.log| && w'.log[p].id == id {
      assert id < |w.messages| ==> Marked(w, id, p);
    }
    forall j, k | 0 <= j < k < |w'.log| ensures w'.log[j].id < w'.log[k].id {
      assert LogOk(parts, w, j);
    }
  }

  lemma StripKeeps(parts: seq<string>, w: World, w': World)
    requires Inv(parts, w) && Next(parts, w, Strip, w')
    ensures Inv(parts, w')
  {
    var next := w.pc.next;
    assert LogOk(parts, w, next);
    forall k | 0 <= k < |w'.log| ensures LogOk(parts, w', k) {
      assert LogOk(parts, w, k);
      assert k < next || k == next || k > next;
    }
    forall id: nat, p: nat | Marked(w', id, p) ensures p < |w'.log| && w'.log[p].id == id {
      assert Marked(w, id, p);
    }
  }

  ghost predicate IsRun(parts: seq<string>, run: seq<World>, steps: seq<Step>) {
    && |run| == |steps| + 1 && Init(run[0])
    && forall i | 0 <= i < |steps| :: Next(parts, run[i], steps[i], run[i + 1])
  }

  lemma {:induction false} RunInv(parts: seq<string>, run: seq<World>, steps: seq<Step>, i: nat)
    requires IsRun(parts, run, steps) && i < |run|
    ensures Inv(parts, run[i])
  {
    if i > 0 {
      RunInv(parts, run, steps, i - 1);
      StepKeeps(parts, run[i - 1], steps[i - 1], run[i]);
    }
  }

  /** Does this step put a message into the channel? Resolve is the only step of the sender that can. */
  ghost predicate Posts(w: World, step: Step) {
    step.Resolve? && w.pc.Looking? && w.pc.next !in w.pc.known && w.pc.next !in w.receipts
  }

  lemma {:induction false} LogGrows(parts: seq<string>, run: seq<World>, steps: seq<Step>, i: nat, j: nat)
    requires IsRun(parts, run, steps) && i <= j < |run|
    ensures |run[i].log| <= |run[j].log|
    decreases j - i
  {
    if i < j {
      LogGrows(parts, run, steps, i, j - 1);
      assert Next(parts, run[j - 1], steps[j - 1], run[j]);
    }
  }

  /** Over any sequence of stopped and retried attempts no part is posted twice. */
  lemma AtMostOnce(parts: seq<string>, run: seq<World>, steps: seq<Step>, i: nat, j: nat)
    requires IsRun(parts, run, steps) && i < j < |steps|
    requires Posts(run[i], steps[i]) && Posts(run[j], steps[j])
    ensures run[i].pc.next < run[j].pc.next
  {
    RunInv(parts, run, steps, i);
    RunInv(parts, run, steps, j);
    assert Next(parts, run[i], steps[i], run[i + 1]) && Next(parts, run[j], steps[j], run[j + 1]);
    LogGrows(parts, run, steps, i + 1, j);
  }

  /** The contents of the event's messages in channel order. */
  ghost function Contents(w: World): seq<string>
    requires forall k | 0 <= k < |w.log| :: w.log[k].id < |w.messages|
  {
    seq(|w.log|, k requires 0 <= k < |w.log| => w.messages[w.log[k].id].body)
  }

  ghost predicate Delivered(parts: seq<string>, w: World) {
    && |w.log| == |parts|
    && (forall k | 0 <= k < |parts| :: w.log[k].part == k && w.log[k].id < |w.messages|)
    && (forall j, k | 0 <= j < k < |parts| :: w.log[j].id < w.log[k].id)
    && (forall k | 0 <= k < |parts| :: w.messages[w.log[k].id] == Message(w.bot, parts[k], None))
    && forall id: nat, p: nat :: !Marked(w, id, p)
  }

  /** A sender that got through all parts leaves one clean message for each, in channel order. */
  lemma CompletedIsDelivered(parts: seq<string>, w: World)
    requires Inv(parts, w) && w.pc.Looking? && w.pc.next == |parts|
    ensures Delivered(parts, w)
  {
    forall k | 0 <= k < |parts|
      ensures w.log[k].id < |w.messages| && w.messages[w.log[k].id] == Message(w.bot, parts[k], None)
    {
      assert LogOk(parts, w, k);
    }
    forall k | 0 <= k < |parts| ensures w.log[k].part == k {
      assert LogOk(parts, w, k);
    }
  }

  /** ... and together they say exactly the original text. */
  lemma DeliveredText(text: string, limit: nat, w: World)
    requires limit >= 1 && Delivered(Chunks(text, limit), w)
    ensures Concat(Contents(w)) == text
  {
    assert Contents(w) == Chunks(text, limit);
    Lossless(text, limit);
  }

  /** The sender's process. `trace` records every state it and the channel went through. */
  class Sender {
    const bot: nat
    const parts: seq<string>
    var messages: seq<Message>
    var receipts: map<nat, nat>
    ghost var log: seq<Post>
    ghost var pc: Pc
    ghost var trace: seq<World>
    ghost var steps: seq<Step>

    ghost function View(): World
      reads this
    {
      World(bot, messages, receipts, log, pc)
    }

    ghost predicate Valid()
      reads this
    {
      IsRun(parts, trace, steps) && trace[|steps|] == View()
    }

    constructor (bot: nat, text: string, channel: seq<Message>)
      requires forall m | m in channel :: !(m.author == bot && m.marker.Some?)
      ensures Valid() && parts == Chunks(text, 1800) && messages == channel && pc == Idle
    {
      this.bot, parts := bot, Chunks(text, 1800);
      messages, receipts := channel, map[];
      log, pc, steps := [], Idle, [];
      trace := [World(bot, channel, map[], [], Idle)];
    }

    ghost method Record(step: Step)
      requires IsRun(parts, trace, steps) && Next(parts, trace[|steps|], step, View())
      modifies this`trace, this`steps
      ensures Valid() && steps == old(steps) + [step]
    {
      trace, steps := trace + [View()], steps + [step];
    }

    /** The search over channel.history(limit=100). */
    method ScanHistory() returns (known: map<nat, nat>)
      ensures Scan(View(), |parts|, known)
    {
      known := map[];
      var lo := if |messages| < HISTORY then 0 else |messages| - HISTORY;
      var id := |messages|;
      while id > lo
        invariant lo <= id <= |messages|
        invariant forall p | p in known :: p < |parts| && id <= known[p] && Marked(View(), known[p], p)
        invariant forall i: nat, p: nat | id <= i && Marked(View(), i, p) && p < |parts| :: p in known
      {
        id := id - 1;
        var m := messages[id];
        if m.author == bot && m.marker.Some? && m.marker.value < |parts| {
          known := known[m.marker.value := id];
        }
      }
    }

    /** The loop body up to the call that finds or posts the message of part `next`. */
    method ResolvePart(known: map<nat, nat>, next: nat) returns (id: nat)
      requires Valid() && pc == Looking(known, next) && next < |parts|
      modifies this
      ensures Valid() && pc == Holding(known, next, id) && steps == old(steps) + [Resolve]
    {
      if next in known {
        id := known[next];
      } else if next in receipts {
        id := receipts[next];
      } else {
        id := |messages|;
        messages := messages + [Message(bot, parts[next], Some(next))];
        log := log + [Post(next, id)];
      }
      pc := Holding(known, next, id);
      Record(Resolve);
    }

    method StripMarker(known: map<nat, nat>, next: nat, id: nat)
      requires Valid() && pc == Saved(known, next, id)
      modifies this
      ensures Valid() && pc == Looking(known, next + 1) && steps == old(steps) + [Strip]
    {
      RunInv(parts, trace, steps, |steps|);
      assert LogOk(parts, View(), next);
      var m := messages[id];
      if m.marker == Some(next) {
        messages := messages[id := m.(marker := None)];
      }
      pc := Looking(known, next + 1);
      Record(Strip);
    }

    ghost method Stop()
      requires Valid()
      modifies this`pc, this`trace, this`steps
      ensures Valid() && pc == Idle && steps == old(steps) + [Crash]
    {
      pc := Idle;
      Record(Crash);
    }

    /** The loop body: at most three calls for one part, or fewer when the attempt is cut off. */
    method SendPart(known: map<nat, nat>, next: nat, calls: nat)
      requires Valid() && pc == Looking(known, next) && next < |parts|
      modifies this
      ensures Valid() && old(steps) <= steps
      ensures pc == if calls < 3 then Idle else Looking(known, next + 1)
    {
      if calls == 0 {
        Stop();
        return;
      }
      var id := ResolvePart(known, next);
      if calls == 1 {
        Stop();
        return;
      }
      receipts := receipts[next := id];
      pc := Saved(known, next, id);
      Record(SaveReceipt);
      if calls == 2 {
        Stop();
        return;
      }
      StripMarker(known, next, id);
    }

    /** One attempt, cut off after `calls` of its calls. A completed attempt has delivered the text. */
    method SendChunked(calls: nat) returns (completed: bool)
      requires Valid() && pc == Idle && WithinHistory(View())
      modifies this
      ensures Valid() && old(steps) <= steps
      ensures !completed ==> pc == Idle && calls < 3 * |parts|
      ensures completed ==> Delivered(parts, View())
    {
      var left := calls;
      var known := ScanHistory();
      pc := Looking(known, 0);
      Record(Begin(known));
      for next := 0 to |parts|
        invariant Valid() && pc == Looking(known, next) && old(steps) <= steps
        invariant left == calls - 3 * next >= 0
      {
        if left < 3 {
          SendPart(known, next, left);
          return false;
        }
        SendPart(known, next, left);
        left := left - 3;
      }
      RunInv(parts, trace, steps, |steps|);
      CompletedIsDelivered(parts, View());
      completed := true;
    }
  }
}
