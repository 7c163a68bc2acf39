/** Secret redaction (src/agent_team/redaction.py): overlapping and touching findings are merged into
    ranges, and each range is replaced by one marker. The reference definition works position by
    position on a mask and knows nothing of ranges. */
module Redaction {
  datatype Finding = Finding(kind: string, start: nat, end: nat)
  datatype Range = Range(start: nat, end: nat)

  /** What scan_text delivers: nonempty spans inside the text, ordered by start. */
  ghost predicate Scanned(findings: seq<Finding>, n: nat) {
    && (forall i | 0 <= i < |findings| :: findings[i].start < findings[i].end <= n)
    && (forall i, j | 0 <= i < j < |findings| :: findings[i].start <= findings[j].start)
  }

  ghost predicate Hit(findings: seq<Finding>, p: nat) {
    exists i | 0 <= i < |findings| :: findings[i].start <= p < findings[i].end
  }

  ghost predicate InRange(ranges: seq<Range>, p: nat) {
    exists i | 0 <= i < |ranges| :: ranges[i].start <= p < ranges[i].end
  }

  /** Sorted, nonempty and separated by at least one uncovered position. */
  ghost predicate Separated(ranges: seq<Range>, n: nat) {
    && (forall i | 0 <= i < |ranges| :: ranges[i].start < ranges[i].end <= n)
    && (forall i, j | 0 <= i < j < |ranges| :: ranges[i].end < ranges[j].start)
  }

  /** Position by position: is this character part of a finding? */
  ghost function Mask(findings: seq<Finding>, n: nat): (mask: seq<bool>)
    ensures |mask| == n && forall p | 0 <= p < n :: mask[p] <==> Hit(findings, p)
  {
    seq(n, p requires 0 <= p => Hit(findings, p))
  }

  /** The reference: a covered character is dropped, the first one of a covered run leaves the marker,
      an uncovered one is kept. */
  ghost function Redacted(text: string, mask: seq<bool>, marker: string, from: nat): string
    requires |mask| == |text| && from <= |text|
    decreases |text| - from
  {
    if from == |text| then ""
    else
      (if !mask[from] then [text[from]] else if from == 0 || !mask[from - 1] then marker else "")
      + Redacted(text, mask, marker, from + 1)
  }

  // ----- the algorithm -----

  method MergeFindings(findings: seq<Finding>, n: nat) returns (ranges: seq<Range>)
    requires Scanned(findings, n)
    ensures Separated(ranges, n)
    ensures forall p: nat :: InRange(ranges, p) <==> Hit(findings, p)
  {
    ranges := [];
    for k := 0 to |findings|
      invariant Separated(ranges, n)
      invariant forall i | 0 <= i < |ranges| :: k > 0 && ranges[i].start <= findings[k - 1].start
      invariant forall p: nat :: InRange(ranges, p) <==> Hit(findings[..k], p)
    {
      var f := findings[k];
      var last := |ranges| - 1;
      MergeStep(ranges, findings, k, n);
      ghost var merged := Merged(ranges, f);
      if ranges != [] && f.start <= ranges[last].end {
        var end := if f.end > ranges[last].end then f.end else ranges[last].end;
        ranges := ranges[last := Range(ranges[last].start, end)];
      } else {
        ranges := ranges + [Range(f.start, f.end)];
      }
      assert ranges == merged;
    }
    assert findings[..|findings|] == findings;
  }

  ghost function Merged(ranges: seq<Range>, f: Finding): seq<Range> {
    var last := |ranges| - 1;
    if ranges != [] && f.start <= ranges[last].end then
      ranges[last := Range(ranges[last].start, if f.end > ranges[last].end then f.end else ranges[last].end)]
    else ranges + [Range(f.start, f.end)]
  }

  /** One pass through the merge loop adds exactly the span of finding `k`. */
  lemma MergeStep(ranges: seq<Range>, findings: seq<Finding>, k: nat, n: nat)
    requires k < |findings| && Scanned(findings, n) && Separated(ranges, n)
    requires forall i | 0 <= i < |ranges| :: ranges[i].start <= findings[k].start
    requires forall p: nat :: InRange(ranges, p) <==> Hit(findings[..k], p)
    ensures Separated(Merged(ranges, findings[k]), n)
    ensures forall i | 0 <= i < |Merged(ranges, findings[k])| ::
              Merged(ranges, findings[k])[i].start <= findings[k].start
    ensures forall p: nat :: InRange(Merged(ranges, findings[k]), p) <==> Hit(findings[..k + 1], p)
  {
    var f, last, merged := findings[k], |ranges| - 1, Merged(ranges, findings[k]);
    HitSnoc(findings, k);
    if ranges != [] && f.start <= ranges[last].end {
      var end := if f.end > ranges[last].end then f.end else ranges[last].end;
      ExtendLast(ranges, f, end);
      forall p: nat ensures InRange(merged, p) <==> InRange(ranges, p) || f.start <= p < f.end {
        assert InRange(ranges[last := Range(ranges[last].start, end)], p)
          <==> InRange(ranges, p) || f.start <= p < f.end;
      }
    } else {
      AppendRange(ranges, Range(f.start, f.end));
    }
    assert forall p: nat :: InRange(merged, p) <==> InRange(ranges, p) || f.start <= p < f.end;
  }

  lemma HitSnoc(findings: seq<Finding>, k: nat)
    requires k < |findings|
    ensures forall p: nat ::
      Hit(findings[..k + 1], p) <==> Hit(findings[..k], p) || findings[k].start <= p < findings[k].end
  {
    forall p: nat
      ensures Hit(findings[..k + 1], p) <==> Hit(findings[..k], p) || findings[k].start <= p < findings[k].end
    {
      if Hit(findings[..k], p) {
        var i :| 0 <= i < k && findings[..k][i].start <= p < findings[..k][i].end;
        assert findings[..k + 1][i] == findings[..k][i];
      }
      if Hit(findings[..k + 1], p) {
        var i :| 0 <= i < k + 1 && findings[..k + 1][i].start <= p < findings[..k + 1][i].end;
        assert i < k ==> findings[..k][i] == findings[..k + 1][i];
      }
      if findings[k].start <= p < findings[k].end {
        assert findings[..k + 1][k] == findings[k];
      }
    }
  }

  lemma AppendRange(ranges: seq<Range>, r: Range)
    ensures forall p: nat :: InRange(ranges + [r], p) <==> InRange(ranges, p) || r.start <= p < r.end
  {
    var after := ranges + [r];
    forall p: nat ensures InRange(after, p) <==> InRange(ranges, p) || r.start <= p < r.end {
      if InRange(ranges, p) {
        var i :| 0 <= i < |ranges| && ranges[i].start <= p < ranges[i].end;
        assert after[i] == ranges[i];
      }
      if r.start <= p < r.end {
        assert after[|ranges|] == r;
      }
    }
  }

  lemma ExtendLast(ranges: seq<Range>, f: Finding, end: nat)
    requires ranges != [] && ranges[|ranges| - 1].start <= f.start <= ranges[|ranges| - 1].end
    requires end == if f.end > ranges[|ranges| - 1].end then f.end else ranges[|ranges| - 1].end
    ensures forall p: nat ::
      InRange(ranges[|ranges| - 1 := Range(ranges[|ranges| - 1].start, end)], p)
      <==> InRange(ranges, p) || f.start <= p < f.end
  {
    var last := |ranges| - 1;
    var after := ranges[last := Range(ranges[last].start, end)];
    assert ranges == ranges[..last] + [ranges[last]] && after == ranges[..last] + [after[last]];
    AppendRange(ranges[..last], ranges[last]);
    AppendRange(ranges[..last], after[last]);
  }

  function Join(parts: seq<string>): string {
    if parts == [] then "" else Join(parts[..|parts| - 1]) + parts[|parts| - 1]
  }

  /** redact_text: the whole operation equals the position-wise reference. */
  method RedactText(text: string, findings: seq<Finding>, marker: string) returns (out: string)
    requires Scanned(findings, |text|)
    ensures out == Redacted(text, Mask(findings, |text|), marker, 0)
  {
    ghost var mask := Mask(findings, |text|);
    if findings == [] {
      CleanRun(text, mask, marker, 0, |text|);
      return text;
    }
    var ranges := MergeFindings(findings, |text|);
    var parts: seq<string> := [];
    var cursor := 0;
    for k := 0 to |ranges|
      invariant cursor == if k == 0 then 0 else ranges[k - 1].end
      invariant cursor <= |text|
      invariant Join(parts) + Redacted(text, mask, marker, cursor) == Redacted(text, mask, marker, 0)
    {
      var r := ranges[k];
      RebuildStep(parts, text, mask, marker, ranges, findings, k);
      parts := parts + [text[cursor..r.start]] + [marker];
      cursor := r.end;
    }
    LastPart(text, mask, marker, ranges, findings);
    JoinSnoc(parts, text[cursor..]);
    parts := parts + [text[cursor..]];
    out := Join(parts);
  }

  // ----- what the reference means -----

  lemma JoinSnoc(parts: seq<string>, last: string)
    ensures Join(parts + [last]) == Join(parts) + last
  {
    assert (parts + [last])[..|parts|] == parts;
  }

  lemma JoinTwo(parts: seq<string>, a: string, b: string)
    ensures Join(parts + [a] + [b]) == Join(parts) + a + b
  {
    JoinSnoc(parts, a);
    JoinSnoc(parts + [a], b);
  }

  /** Between two merged ranges, and after the last, nothing is covered; inside one everything is. */
  lemma Gap(ranges: seq<Range>, findings: seq<Finding>, mask: seq<bool>, k: nat)
    requires Separated(ranges, |mask|) && k <= |ranges|
    requires forall p: nat :: InRange(ranges, p) <==> Hit(findings, p)
    requires forall p | 0 <= p < |mask| :: mask[p] <==> Hit(findings, p)
    ensures var lo := if k == 0 then 0 else ranges[k - 1].end;
            var hi := if k == |ranges| then |mask| else ranges[k].start;
            lo <= hi <= |mask| && (forall p | lo <= p < hi :: !mask[p])
            && (0 < k < |ranges| ==> lo < hi)
    ensures k < |ranges| ==> forall p | ranges[k].start <= p < ranges[k].end :: mask[p]
  {
    var lo := if k == 0 then 0 else ranges[k - 1].end;
    var hi := if k == |ranges| then |mask| else ranges[k].start;
    forall p | lo <= p < hi ensures p < |mask| && !mask[p] {
      assert mask[p] <==> InRange(ranges, p);
    }
    if k < |ranges| {
      forall p | ranges[k].start <= p < ranges[k].end ensures mask[p] {
        assert InRange(ranges, p);
      }
    }
  }

  lemma Regroup(a: string, b: string, c: string, d: string)
    ensures a + (b + (c + d)) == a + b + c + d
  {}

  lemma NextRange(text: string, mask: seq<bool>, marker: string,
                  ranges: seq<Range>, findings: seq<Finding>, k: nat)
    requires |mask| == |text| && Separated(ranges, |mask|) && k < |ranges|
    requires forall p: nat :: InRange(ranges, p) <==> Hit(findings, p)
    requires forall p | 0 <= p < |mask| :: mask[p] <==> Hit(findings, p)
    ensures var cursor := if k == 0 then 0 else ranges[k - 1].end;
            cursor <= ranges[k].start < ranges[k].end <= |text|
            && Redacted(text, mask, marker, cursor)
               == text[cursor..ranges[k].start] + (marker + Redacted(text, mask, marker, ranges[k].end))
  {
    Gap(ranges, findings, mask, k);
    CleanRun(text, mask, marker, if k == 0 then 0 else ranges[k - 1].end, ranges[k].start);
    CoveredRun(text, mask, marker, ranges[k].start, ranges[k].end);
  }

  lemma RebuildStep(parts: seq<string>, text: string, mask: seq<bool>, marker: string,
                    ranges: seq<Range>, findings: seq<Finding>, k: nat)
    requires |mask| == |text| && Separated(ranges, |mask|) && k < |ranges|
    requires forall p: nat :: InRange(ranges, p) <==> Hit(findings, p)
    requires forall p | 0 <= p < |mask| :: mask[p] <==> Hit(findings, p)
    ensures var cursor := if k == 0 then 0 else ranges[k - 1].end;
            cursor <= ranges[k].start < ranges[k].end <= |text|
            && Join(parts + [text[cursor..ranges[k].start]] + [marker]) + Redacted(text, mask, marker, ranges[k].end)
               == Join(parts) + Redacted(text, mask, marker, cursor)
  {
    var cursor := if k == 0 then 0 else ranges[k - 1].end;
    NextRange(text, mask, marker, ranges, findings, k);
    JoinTwo(parts, text[cursor..ranges[k].start], marker);
    Regroup(Join(parts), text[cursor..ranges[k].start], marker, Redacted(text, mask, marker, ranges[k].end));
  }

  lemma LastPart(text: string, mask: seq<bool>, marker: string, ranges: seq<Range>, findings: seq<Finding>)
    requires |mask| == |text| && Separated(ranges, |mask|)
    requires forall p: nat :: InRange(ranges, p) <==> Hit(findings, p)
    requires forall p | 0 <= p < |mask| :: mask[p] <==> Hit(findings, p)
    ensures var cursor := if ranges == [] then 0 else ranges[|ranges| - 1].end;
            cursor <= |text| && Redacted(text, mask, marker, cursor) == text[cursor..]
  {
    var cursor := if ranges == [] then 0 else ranges[|ranges| - 1].end;
    Gap(ranges, findings, mask, |ranges|);
    CleanRun(text, mask, marker, cursor, |text|);
  }

  lemma CleanRun(text: string, mask: seq<bool>, marker: string, a: nat, b: nat)
    requires |mask| == |text| && a <= b <= |text|
    requires forall p | a <= p < b :: !mask[p]
    ensures Redacted(text, mask, marker, a) == text[a..b] + Redacted(text, mask, marker, b)
    decreases b - a
  {
    if a < b {
      CleanRun(text, mask, marker, a + 1, b);
      var rest := Redacted(text, mask, marker, b);
      assert text[a..b] + rest == [text[a]] + (text[a + 1..b] + rest);
    }
  }

  lemma InsideRun(text: string, mask: seq<bool>, marker: string, a: nat, b: nat)
    requires |mask| == |text| && 0 < a <= b <= |text|
    requires forall p | a - 1 <= p < b :: mask[p]
    ensures Redacted(text, mask, marker, a) == Redacted(text, mask, marker, b)
    decreases b - a
  {
    if a < b {
      InsideRun(text, mask, marker, a + 1, b);
    }
  }

  lemma CoveredRun(text: string, mask: seq<bool>, marker: string, a: nat, b: nat)
    requires |mask| == |text| && a < b <= |text|
    requires forall p | a <= p < b :: mask[p]
    requires a == 0 || !mask[a - 1]
    ensures Redacted(text, mask, marker, a) == marker + Redacted(text, mask, marker, b)
  {
    InsideRun(text, mask, marker, a + 1, b);
  }

  /** Nothing of a secret reaches the output: texts that differ only at covered positions redact to
      the same string. */
  lemma {:induction false} NothingLeaks(a: string, b: string, mask: seq<bool>, marker: string, from: nat)
    requires |a| == |b| == |mask| && from <= |a|
    requires forall p | 0 <= p < |mask| && !mask[p] :: a[p] == b[p]
    ensures Redacted(a, mask, marker, from) == Redacted(b, mask, marker, from)
    decreases |a| - from
  {
    if from < |a| {
      NothingLeaks(a, b, mask, marker, from + 1);
    }
  }

  /** The uncovered characters, in order. */
  ghost function Kept(text: string, mask: seq<bool>, from: nat): string
    requires |mask| == |text| && from <= |text|
    decreases |text| - from
  {
    if from == |text| then ""
    else (if mask[from] then "" else [text[from]]) + Kept(text, mask, from + 1)
  }

  /** The number of maximal covered runs that begin at or after `from`. */
  ghost function Runs(mask: seq<bool>, from: nat): nat
    requires from <= |mask|
    decreases |mask| - from
  {
    if from == |mask| then 0
    else (if mask[from] && (from == 0 || !mask[from - 1]) then 1 else 0) + Runs(mask, from + 1)
  }

  /** Nothing else is lost or added: dropping the markers gives the uncovered characters in order,
      and there is one marker for each maximal covered run. */
  lemma {:induction false} NothingElseChanges(text: string, mask: seq<bool>, marker: string, from: nat)
    requires |mask| == |text| && from <= |text|
    ensures Redacted(text, mask, "", from) == Kept(text, mask, from)
    ensures |Redacted(text, mask, marker, from)| == |Kept(text, mask, from)| + |marker| * Runs(mask, from)
    decreases |text| - from
  {
    if from < |text| {
      NothingElseChanges(text, mask, marker, from + 1);
      var rest := Runs(mask, from + 1);
      assert |marker| * (1 + rest) == |marker| + |marker| * rest;
    }
  }
}
