/** Lossless message splitting (src/agent_team/discord_delivery.py). */
module Splitting {
  import opened Wrappers

  ghost predicate At(s: string, sep: string, i: int) {
    0 <= i && i + |sep| <= |s| && s[i..i + |sep|] == sep
  }

  /** str.rfind(sep, 0, hi) for a nonempty separator: the last match that ends at or before hi. */
  function RFind(s: string, sep: string, hi: nat): (r: int)
    requires |sep| > 0
    ensures r == -1 || (At(s, sep, r) && r + |sep| <= hi)
    ensures forall i | At(s, sep, i) && i + |sep| <= hi :: i <= r
    decreases hi
  {
    if hi < |sep| then -1
    else if hi <= |s| && s[hi - |sep|..hi] == sep then hi - |sep|
    else RFind(s, sep, hi - 1)
  }

  /** Where the first chunk of an over-long text ends: after a paragraph break, else after a line
      break, else after a space, else at the limit; a separator at position 0 does not count. */
  function Cut(s: string, limit: nat): (cut: nat)
    requires 1 <= limit < |s|
    ensures 1 <= cut <= limit + 1
  {
    var paragraph := RFind(s, "\n\n", limit + 1);
    var line := RFind(s, "\n", limit + 1);
    var space := RFind(s, " ", limit + 1);
    if paragraph > 0 then paragraph + 2
    else if line > 0 then line + 1
    else if space > 0 then space + 1
    else limit
  }

  /** A separator that does not stand at the start ends at `e`, at most one past the limit. */
  ghost predicate EndsAt(s: string, sep: string, limit: nat, e: int) {
    At(s, sep, e - |sep|) && e - |sep| > 0 && e <= limit + 1
  }

  /** The last such place. */
  ghost predicate LastEnd(s: string, sep: string, limit: nat, e: int) {
    EndsAt(s, sep, limit, e) && forall f: int | EndsAt(s, sep, limit, f) :: f <= e
  }

  ghost predicate Usable(s: string, sep: string, limit: nat) { exists e: int :: EndsAt(s, sep, limit, e) }

  lemma RFindIsLast(s: string, sep: string, limit: nat)
    requires |sep| > 0
    ensures var i := RFind(s, sep, limit + 1);
            (i > 0 <==> Usable(s, sep, limit)) && (i > 0 ==> LastEnd(s, sep, limit, i + |sep|))
  {
    var i := RFind(s, sep, limit + 1);
    if i > 0 {
      assert EndsAt(s, sep, limit, i + |sep|);
    }
    forall f: int | EndsAt(s, sep, limit, f) ensures f <= i + |sep| {
      assert At(s, sep, f - |sep|);
    }
  }

  /** The first chunk of an over-long text ends after the last usable paragraph break; without one after the last
      usable line break; without one after the last usable space; and without any separator at the limit. */
  lemma CutTable(s: string, limit: nat)
    requires 1 <= limit < |s|
    ensures if Usable(s, "\n\n", limit) then LastEnd(s, "\n\n", limit, Cut(s, limit))
            else if Usable(s, "\n", limit) then LastEnd(s, "\n", limit, Cut(s, limit))
            else if Usable(s, " ", limit) then LastEnd(s, " ", limit, Cut(s, limit))
            else Cut(s, limit) == limit
  {
    RFindIsLast(s, "\n\n", limit);
    RFindIsLast(s, "\n", limit);
    RFindIsLast(s, " ", limit);
  }

  /** The chunks of a text: itself if it is short enough, else its first chunk and the chunks of the rest. */
  function Chunks(s: string, limit: nat): (chunks: seq<string>)
    requires limit >= 1
    ensures chunks != []
    decreases |s|
  {
    if |s| <= limit then [s] else [s[..Cut(s, limit)]] + Chunks(s[Cut(s, limit)..], limit)
  }

  /** A short text is one chunk; the first chunk of any other ends at its cut, and the rest is split again. */
  lemma ChunksTable(s: string, limit: nat)
    requires limit >= 1
    ensures |s| <= limit ==> Chunks(s, limit) == [s]
    ensures |s| > limit ==>
              var chunks, cut := Chunks(s, limit), Cut(s, limit);
              chunks[0] == s[..cut] && chunks[1..] == Chunks(s[cut..], limit)
  {
  }

  function Concat(chunks: seq<string>): string {
    if chunks == [] then "" else chunks[0] + Concat(chunks[1..])
  }

  method SplitDiscordText(text: string, limit: int) returns (r: Result<seq<string>, string>)
    ensures r.Err? <==> limit < 1
    ensures r.Ok? ==> r.value == Chunks(text, limit)
    ensures r.Ok? ==> Concat(r.value) == text
  {
    if limit < 1 {
      return Err("Discord message limit must be positive");
    }
    Lossless(text, limit);
    if text == "" {
      return Ok([""]);
    }
    var chunks: seq<string> := [];
    var remaining := text;
    while |remaining| > limit
      invariant chunks + Chunks(remaining, limit) == Chunks(text, limit)
      decreases |remaining|
    {
      var cut := RFind(remaining, "\n\n", limit + 1);
      var separatorLength := 2;
      if cut <= 0 {
        cut := RFind(remaining, "\n", limit + 1);
        separatorLength := 1;
      }
      if cut <= 0 {
        cut := RFind(remaining, " ", limit + 1);
        separatorLength := 1;
      }
      if cut <= 0 {
        cut := limit;
      } else {
        cut := cut + separatorLength;
      }
      assert cut == Cut(remaining, limit);
      Regroup(chunks, remaining[..cut], Chunks(remaining[cut..], limit));
      chunks := chunks + [remaining[..cut]];
      remaining := remaining[cut..];
    }
    r := Ok(chunks + [remaining]);
  }

  lemma Regroup(a: seq<string>, b: string, c: seq<string>)
    ensures a + ([b] + c) == a + [b] + c
  {}

  lemma {:induction false} Lossless(s: string, limit: nat)
    requires limit >= 1
    ensures Concat(Chunks(s, limit)) == s
    decreases |s|
  {
    if |s| > limit {
      var cut := Cut(s, limit);
      Lossless(s[cut..], limit);
      assert s == s[..cut] + s[cut..];
      assert Chunks(s, limit)[1..] == Chunks(s[cut..], limit);
    }
  }

  /** Chunks stay within one character of the limit, and only the last one may be empty. */
  lemma {:induction false} ChunkSizes(s: string, limit: nat)
    requires limit >= 1
    ensures forall i | 0 <= i < |Chunks(s, limit)| :: |Chunks(s, limit)[i]| <= limit + 1
    ensures forall i | 0 <= i < |Chunks(s, limit)| - 1 :: |Chunks(s, limit)[i]| > 0
    ensures |Chunks(s, limit)| <= |s| + 1
    decreases |s|
  {
    if |s| > limit {
      ChunkSizes(s[Cut(s, limit)..], limit);
    }
  }

  /** The separator the cut follows occupies the positions just before `end`. */
  ghost predicate BreaksAt(s: string, limit: nat, end: nat) {
    || (At(s, "\n\n", end - 2) && end > 2)
    || (RFind(s, "\n\n", limit + 1) <= 0 && At(s, "\n", end - 1) && end > 1)
    || (RFind(s, "\n\n", limit + 1) <= 0 && RFind(s, "\n", limit + 1) <= 0 && At(s, " ", end - 1) && end > 1)
  }

  /** The documented limit is exceeded exactly when a usable separator ends one past it. */
  lemma OverLimitIff(s: string, limit: nat)
    requires 1 <= limit < |s|
    ensures |Chunks(s, limit)[0]| > limit <==> BreaksAt(s, limit, limit + 1)
  {
    assert |Chunks(s, limit)[0]| == Cut(s, limit);
    if RFind(s, "\n\n", limit + 1) > 0 {
      OneAtLimit(s, "\n\n", limit);
    } else if RFind(s, "\n", limit + 1) > 0 {
      OneAtLimit(s, "\n\n", limit);
      OneAtLimit(s, "\n", limit);
    } else {
      OneAtLimit(s, "\n\n", limit);
      OneAtLimit(s, "\n", limit);
      OneAtLimit(s, " ", limit);
    }
  }

  lemma OneAtLimit(s: string, sep: string, limit: nat)
    requires 1 <= limit < |s| && |sep| > 0
    ensures At(s, sep, limit + 1 - |sep|) <==> RFind(s, sep, limit + 1) == limit + 1 - |sep| >= 0
  {}

  function Last(chunks: seq<string>): string
    requires chunks != []
  {
    chunks[|chunks| - 1]
  }

  /** The positions where a chunk begins: 0, and from any such position of an over-long rest the end of
      its first chunk. */
  ghost predicate CutPoint(s: string, limit: nat, k: nat)
    requires limit >= 1
    decreases |s|
  {
    k == 0 || (|s| > limit && Cut(s, limit) <= k && CutPoint(s[Cut(s, limit)..], limit, k - Cut(s, limit)))
  }

  /** A separator that ends one past the limit of the chunk that begins at `k`. */
  ghost predicate OverlongAt(s: string, limit: nat, k: nat)
    requires limit >= 1
  {
    k < |s| && CutPoint(s, limit, k) && |s| - k > limit && BreaksAt(s[k..], limit, limit + 1)
  }

  lemma OverlongInRest(s: string, limit: nat, k: nat)
    requires 1 <= limit < |s| && k >= 1
    ensures OverlongAt(s, limit, k) <==>
            k >= Cut(s, limit) && OverlongAt(s[Cut(s, limit)..], limit, k - Cut(s, limit))
  {
    if k >= Cut(s, limit) && k <= |s| {
      assert s[Cut(s, limit)..][k - Cut(s, limit)..] == s[k..];
    }
  }

  /** The chunk that begins at `k` takes all the rest, separator included. */
  ghost predicate EndsOverlong(s: string, limit: nat, k: nat)
    requires limit >= 1
  {
    OverlongAt(s, limit, k) && |s| - k == limit + 1
  }

  lemma FirstIsOverlong(s: string, limit: nat)
    requires 1 <= limit < |s|
    ensures OverlongAt(s, limit, 0) <==> Cut(s, limit) > limit
    ensures EndsOverlong(s, limit, 0) <==> Cut(s, limit) == |s|
  {
    assert s[0..] == s;
    OverLimitIff(s, limit);
  }

  lemma EndsInRest(s: string, limit: nat, k: nat)
    requires 1 <= limit < |s| && EndsOverlong(s, limit, k)
    ensures Cut(s, limit) == |s| || (k >= Cut(s, limit) && EndsOverlong(s[Cut(s, limit)..], limit, k - Cut(s, limit)))
  {
    if k == 0 {
      FirstIsOverlong(s, limit);
    } else {
      OverlongInRest(s, limit, k);
    }
  }

  ghost predicate LeavesNothing(s: string, limit: nat)
    requires limit >= 1
  {
    exists k: nat :: EndsOverlong(s, limit, k)
  }

  lemma EndsFromRest(s: string, limit: nat, k: nat)
    requires 1 <= limit < |s| && EndsOverlong(s[Cut(s, limit)..], limit, k)
    ensures EndsOverlong(s, limit, Cut(s, limit) + k)
  {
    var cut := Cut(s, limit);
    assert OverlongAt(s[cut..], limit, k) && |s[cut..]| == |s| - cut;
    OverlongInRest(s, limit, cut + k);
    assert OverlongAt(s, limit, cut + k);
  }

  lemma LeavesNothingStep(s: string, limit: nat)
    requires 1 <= limit < |s|
    ensures LeavesNothing(s, limit) <==> Cut(s, limit) == |s| || LeavesNothing(s[Cut(s, limit)..], limit)
  {
    var rest := s[Cut(s, limit)..];
    FirstIsOverlong(s, limit);
    forall k: nat | EndsOverlong(rest, limit, k) ensures LeavesNothing(s, limit) {
      EndsFromRest(s, limit, k);
    }
    forall k: nat | EndsOverlong(s, limit, k) ensures Cut(s, limit) == |s| || LeavesNothing(rest, limit) {
      EndsInRest(s, limit, k);
    }
  }

  lemma LastOfRest(s: string, limit: nat)
    requires 1 <= limit < |s|
    ensures Last(Chunks(s, limit)) == Last(Chunks(s[Cut(s, limit)..], limit))
  {
  }

  /** A nonempty text ends in an empty chunk exactly when its last over-long rest is one over the limit
      and ends with the separator that the cut follows. */
  lemma {:induction false} EmptyLastIff(s: string, limit: nat)
    requires limit >= 1 && s != ""
    ensures Last(Chunks(s, limit)) == "" <==> LeavesNothing(s, limit)
    decreases |s|
  {
    if |s| > limit {
      LastOfRest(s, limit);
      LeavesNothingStep(s, limit);
      if Cut(s, limit) < |s| {
        EmptyLastIff(s[Cut(s, limit)..], limit);
      }
    }
  }

  /** What a caller can check: a text that ends in a visible character never leaves an empty chunk. */
  lemma NoEmptyChunk(s: string, limit: nat)
    requires limit >= 1 && s != "" && s[|s| - 1] != ' ' && s[|s| - 1] != '\n'
    ensures forall i | 0 <= i < |Chunks(s, limit)| :: Chunks(s, limit)[i] != ""
  {
    EmptyLastIff(s, limit);
    ChunkSizes(s, limit);
    if LeavesNothing(s, limit) {
      var k: nat :| EndsOverlong(s, limit, k);
      EndsWithSeparator(s[k..], limit);
    }
  }

  lemma EndsWithSeparator(s: string, limit: nat)
    requires limit >= 1 && |s| == limit + 1 && BreaksAt(s, limit, limit + 1)
    ensures s[limit] == '\n' || s[limit] == ' '
  {
    if At(s, "\n\n", limit - 1) {
      assert s[limit - 1..limit + 1][1] == '\n';
    } else if At(s, "\n", limit) {
      assert s[limit..limit + 1][0] == '\n';
    } else {
      assert s[limit..limit + 1][0] == ' ';
    }
  }

  ghost predicate HasLong(chunks: seq<string>, limit: nat) {
    exists i :: 0 <= i < |chunks| && |chunks[i]| > limit
  }

  lemma HasLongAfter(chunk: string, chunks: seq<string>, limit: nat)
    ensures HasLong([chunk] + chunks, limit) <==> |chunk| > limit || HasLong(chunks, limit)
  {
    var all := [chunk] + chunks;
    assert all[0] == chunk && forall i | 0 <= i < |chunks| :: all[i + 1] == chunks[i];
    if HasLong(all, limit) {
      var i :| 0 <= i < |all| && |all[i]| > limit;
      assert i > 0 ==> |chunks[i - 1]| > limit;
    }
  }

  ghost predicate GoesOver(s: string, limit: nat)
    requires limit >= 1
  {
    exists k: nat :: OverlongAt(s, limit, k)
  }

  lemma GoesOverStep(s: string, limit: nat)
    requires 1 <= limit < |s|
    ensures GoesOver(s, limit) <==> Cut(s, limit) > limit || GoesOver(s[Cut(s, limit)..], limit)
  {
    var cut, rest := Cut(s, limit), s[Cut(s, limit)..];
    FirstIsOverlong(s, limit);
    if GoesOver(rest, limit) {
      var k: nat :| OverlongAt(rest, limit, k);
      OverlongInRest(s, limit, cut + k);
    }
    if GoesOver(s, limit) {
      var k: nat :| OverlongAt(s, limit, k);
      if k > 0 {
        OverlongInRest(s, limit, k);
      }
    }
  }

  /** Some chunk is over the limit exactly when, at some position where a chunk begins, a usable separator
      ends one past it. */
  lemma {:induction false} SomeOverLimitIff(s: string, limit: nat)
    requires limit >= 1
    ensures HasLong(Chunks(s, limit), limit) <==> GoesOver(s, limit)
    decreases |s|
  {
    if |s| > limit {
      var rest := s[Cut(s, limit)..];
      GoesOverStep(s, limit);
      SomeOverLimitIff(rest, limit);
      HasLongAfter(s[..Cut(s, limit)], Chunks(rest, limit), limit);
    }
  }

  lemma NotFound(s: string, sep: string, hi: nat)
    requires |sep| > 0 && forall i | 0 <= i < |s| :: s[i] != sep[0]
    ensures RFind(s, sep, hi) == -1
  {
    if hi > 0 && hi >= |sep| {
      assert hi <= |s| ==> s[hi - |sep|..hi][0] == s[hi - |sep|];
      NotFound(s, sep, hi - 1);
    }
  }

  /** Both departures from "every chunk is nonempty and within the limit" at once. */
  lemma LimitIsExceeded()
    ensures Chunks("ab ", 2) == ["ab ", ""]
  {
    NotFound("ab ", "\n\n", 3);
    NotFound("ab ", "\n", 3);
    assert At("ab ", " ", 2);
    assert Cut("ab ", 2) == 3;
    assert "ab "[..3] == "ab " && "ab "[3..] == "";
  }
}
