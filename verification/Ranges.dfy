/**
  Received-range bookkeeping of an artifact upload: merging one chunk's range into the list,
  deciding completeness and computing what is still missing, over 64-bit offsets.
 */
module Ranges {
  import opened Wrappers

  const U64_MAX: nat := 0xFFFF_FFFF_FFFF_FFFF

  datatype ByteRange = ByteRange(offset: nat, length: nat)

  function SaturatingAdd(a: nat, b: nat): nat {
    if a + b > U64_MAX then U64_MAX else a + b
  }

  function End(r: ByteRange): nat {
    SaturatingAdd(r.offset, r.length)
  }

  function RangeFromStartEnd(start: nat, end: nat): ByteRange {
    ByteRange(start, if end < start then 0 else end - start)
  }

  /** Byte `x` lies in one of the ranges. */
  predicate Covers(rs: seq<ByteRange>, x: nat) {
    exists i | 0 <= i < |rs| :: rs[i].offset <= x < rs[i].offset + rs[i].length
  }

  /** No range reaches past `total`, so no 64-bit sum saturates. */
  predicate Within(rs: seq<ByteRange>, total: nat) {
    total <= U64_MAX && forall i | 0 <= i < |rs| :: rs[i].offset + rs[i].length <= total
  }

  /** Ascending ranges with a gap between any two; what merging maintains. */
  predicate Canonical(rs: seq<ByteRange>) {
    forall i, j | 0 <= i < j < |rs| :: rs[i].offset + rs[i].length < rs[j].offset
  }

  predicate SortedByOffset(rs: seq<ByteRange>) {
    forall i, j | 0 <= i < j < |rs| :: rs[i].offset <= rs[j].offset
  }

  lemma CoversConcat(a: seq<ByteRange>, b: seq<ByteRange>, x: nat)
    ensures Covers(a + b, x) <==> Covers(a, x) || Covers(b, x)
  {
    if Covers(a, x) {
      var i :| 0 <= i < |a| && a[i].offset <= x < a[i].offset + a[i].length;
      assert (a + b)[i] == a[i];
    }
    if Covers(b, x) {
      var i :| 0 <= i < |b| && b[i].offset <= x < b[i].offset + b[i].length;
      assert (a + b)[|a| + i] == b[i];
    }
  }

  lemma CoversOne(r: ByteRange, x: nat)
    ensures Covers([r], x) <==> r.offset <= x < r.offset + r.length
  {
    assert [r][0] == r;
  }

  // ---- Merging ----

  /** Stable insertion: behind every range with the same or a smaller offset. */
  function InsertByOffset(rs: seq<ByteRange>, r: ByteRange): seq<ByteRange> {
    if rs == [] || rs[|rs| - 1].offset <= r.offset then rs + [r]
    else InsertByOffset(rs[..|rs| - 1], r) + [rs[|rs| - 1]]
  }

  function SortByOffset(rs: seq<ByteRange>): seq<ByteRange> {
    if rs == [] then [] else InsertByOffset(SortByOffset(rs[..|rs| - 1]), rs[|rs| - 1])
  }

  /** Grows `last` so that it also covers `r`. */
  function Absorb(last: ByteRange, r: ByteRange): ByteRange {
    var end := if End(last) >= End(r) then End(last) else End(r);
    RangeFromStartEnd(last.offset, end)
  }

  /** Growing never leaves the 64-bit offsets: ends past the last one are cut off there. */
  lemma AbsorbSaturates(last: ByteRange, r: ByteRange, x: nat)
    requires last.offset <= r.offset <= U64_MAX
    ensures Absorb(last, r).offset == last.offset && last.offset + Absorb(last, r).length <= U64_MAX
    ensures last.offset <= x < U64_MAX ==>
      (x < last.offset + Absorb(last, r).length <==> x < last.offset + last.length || x < r.offset + r.length)
  {}

  /** One range of the merging pass: grow the last merged range or start a new one. */
  function Fold(done: seq<ByteRange>, r: ByteRange): seq<ByteRange> {
    if done != [] && r.offset <= End(done[|done| - 1]) then
      done[..|done| - 1] + [Absorb(done[|done| - 1], r)]
    else done + [r]
  }

  /** Folds the sorted ranges `rs` onto the merged ranges `done`. */
  function Coalesce(done: seq<ByteRange>, rs: seq<ByteRange>): seq<ByteRange>
    decreases |rs|
  {
    if rs == [] then done else Coalesce(Fold(done, rs[0]), rs[1..])
  }

  function Merge(rs: seq<ByteRange>, r: ByteRange): seq<ByteRange> {
    Coalesce([], SortByOffset(rs + [r]))
  }

  lemma {:induction false} InsertByOffsetSorted(rs: seq<ByteRange>, r: ByteRange)
    requires SortedByOffset(rs)
    ensures SortedByOffset(InsertByOffset(rs, r))
    ensures forall k | 0 <= k < |InsertByOffset(rs, r)| ::
        InsertByOffset(rs, r)[k] in rs || InsertByOffset(rs, r)[k] == r
  {
    if rs == [] || rs[|rs| - 1].offset <= r.offset {
      AppendSorted(rs, r);
    } else {
      var front, last := rs[..|rs| - 1], rs[|rs| - 1];
      InsertByOffsetSorted(front, r);
      var out := InsertByOffset(front, r);
      forall k | 0 <= k < |out| ensures out[k].offset <= last.offset && (out[k] in rs || out[k] == r) {
        if out[k] != r {
          var i :| 0 <= i < |front| && front[i] == out[k];
          assert rs[i].offset <= rs[|rs| - 1].offset;
        }
      }
      AppendSorted(out, last);
    }
  }

  lemma AppendSorted(rs: seq<ByteRange>, r: ByteRange)
    requires SortedByOffset(rs)
    requires rs != [] ==> rs[|rs| - 1].offset <= r.offset
    ensures SortedByOffset(rs + [r])
  {
    assert forall i | 0 <= i < |rs| :: rs[i].offset <= rs[|rs| - 1].offset;
  }

  lemma {:induction false} InsertByOffsetCovers(rs: seq<ByteRange>, r: ByteRange, x: nat)
    ensures Covers(InsertByOffset(rs, r), x) <==> Covers(rs, x) || Covers([r], x)
  {
    if rs == [] || rs[|rs| - 1].offset <= r.offset {
      CoversConcat(rs, [r], x);
    } else {
      var front, last := rs[..|rs| - 1], rs[|rs| - 1];
      InsertByOffsetCovers(front, r, x);
      CoversConcat(InsertByOffset(front, r), [last], x);
      CoversConcat(front, [last], x);
      assert rs == front + [last];
    }
  }

  lemma InsertByOffsetFacts(rs: seq<ByteRange>, r: ByteRange, total: nat, x: nat)
    requires SortedByOffset(rs) && Within(rs, total) && Within([r], total)
    ensures SortedByOffset(InsertByOffset(rs, r)) && Within(InsertByOffset(rs, r), total)
    ensures Covers(InsertByOffset(rs, r), x) <==> Covers(rs, x) || Covers([r], x)
  {
    assert [r][0] == r;
    InsertByOffsetSorted(rs, r);
    InsertByOffsetCovers(rs, r, x);
  }

  lemma {:induction false} SortByOffsetFacts(rs: seq<ByteRange>, total: nat, x: nat)
    requires Within(rs, total)
    ensures SortedByOffset(SortByOffset(rs)) && Within(SortByOffset(rs), total)
    ensures Covers(SortByOffset(rs), x) <==> Covers(rs, x)
  {
    if rs != [] {
      var front, last := rs[..|rs| - 1], rs[|rs| - 1];
      SortByOffsetFacts(front, total, x);
      assert [last][0] == last;
      InsertByOffsetFacts(SortByOffset(front), last, total, x);
      CoversConcat(front, [last], x);
      assert rs == front + [last];
    }
  }

  lemma FoldCovers(done: seq<ByteRange>, r: ByteRange, total: nat, x: nat)
    requires Within(done, total) && r.offset + r.length <= total
    requires done != [] ==> done[|done| - 1].offset <= r.offset
    ensures Covers(Fold(done, r), x) <==> Covers(done, x) || Covers([r], x)
  {
    if done != [] && r.offset <= End(done[|done| - 1]) {
      var front, last := done[..|done| - 1], done[|done| - 1];
      assert done == front + [last];
      CoversConcat(front, [last], x);
      CoversConcat(front, [Absorb(last, r)], x);
      CoversOne(last, x);
      CoversOne(r, x);
      CoversOne(Absorb(last, r), x);
    } else {
      CoversConcat(done, [r], x);
    }
  }

  lemma FoldCanonical(done: seq<ByteRange>, r: ByteRange, total: nat)
    requires Within(done, total) && r.offset + r.length <= total && Canonical(done)
    requires done != [] ==> done[|done| - 1].offset <= r.offset
    ensures Canonical(Fold(done, r)) && Within(Fold(done, r), total)
    ensures Fold(done, r) != [] && Fold(done, r)[|Fold(done, r)| - 1].offset <= r.offset
  {
    if done == [] || End(done[|done| - 1]) < r.offset {
      forall i | 0 <= i < |done| ensures done[i].offset + done[i].length < r.offset {
        if i < |done| - 1 {
          assert done[i].offset + done[i].length < done[|done| - 1].offset;
        }
      }
    }
  }

  lemma {:induction false} CoalesceFacts(done: seq<ByteRange>, rs: seq<ByteRange>, total: nat, x: nat)
    requires SortedByOffset(rs) && Within(rs, total) && Within(done, total) && Canonical(done)
    requires done != [] && rs != [] ==> done[|done| - 1].offset <= rs[0].offset
    ensures Canonical(Coalesce(done, rs)) && Within(Coalesce(done, rs), total)
    ensures Covers(Coalesce(done, rs), x) <==> Covers(done, x) || Covers(rs, x)
    decreases |rs|
  {
    if rs != [] {
      FoldCovers(done, rs[0], total, x);
      FoldCanonical(done, rs[0], total);
      CoversConcat([rs[0]], rs[1..], x);
      assert rs == [rs[0]] + rs[1..];
      CoalesceFacts(Fold(done, rs[0]), rs[1..], total, x);
    }
  }

  /** Merging keeps the list canonical and in bounds, and adds exactly the incoming bytes. */
  lemma MergeAddsRange(rs: seq<ByteRange>, r: ByteRange, total: nat)
    requires Within(rs, total) && Within([r], total)
    ensures Canonical(Merge(rs, r)) && Within(Merge(rs, r), total)
    ensures forall x: nat :: Covers(Merge(rs, r), x) <==> Covers(rs, x) || r.offset <= x < r.offset + r.length
  {
    assert [r][0] == r;
    forall x: nat
      ensures Canonical(Merge(rs, r)) && Within(Merge(rs, r), total)
      ensures Covers(Merge(rs, r), x) <==> Covers(rs, x) || r.offset <= x < r.offset + r.length
    {
      SortByOffsetFacts(rs + [r], total, x);
      CoalesceFacts([], SortByOffset(rs + [r]), total, x);
      CoversConcat(rs, [r], x);
      CoversOne(r, x);
    }
    assert Canonical(Merge(rs, r)) && Within(Merge(rs, r), total) by {
      SortByOffsetFacts(rs + [r], total, 0);
      CoalesceFacts([], SortByOffset(rs + [r]), total, 0);
    }
  }

  /** The list update as it runs: push, stable sort, one merging pass. */
  method MergeRange(rs: seq<ByteRange>, incoming: ByteRange) returns (merged: seq<ByteRange>)
    ensures merged == Merge(rs, incoming)
  {
    var ranges := rs + [incoming];
    var sorted := [];
    for i := 0 to |ranges|
      invariant sorted == SortByOffset(ranges[..i])
    {
      assert ranges[..i + 1][..i] == ranges[..i];
      sorted := InsertByOffset(sorted, ranges[i]);
    }
    assert ranges[..|ranges|] == ranges;
    merged := [];
    assert sorted[0..] == sorted;
    for i := 0 to |sorted|
      invariant Coalesce(merged, sorted[i..]) == Coalesce([], sorted)
    {
      assert sorted[i..][1..] == sorted[i + 1..];
      if merged != [] && sorted[i].offset <= End(merged[|merged| - 1]) {
        merged := merged[..|merged| - 1] + [Absorb(merged[|merged| - 1], sorted[i])];
      } else {
        merged := merged + [sorted[i]];
      }
    }
  }

  // ---- Completeness and what is missing ----

  predicate IsComplete(rs: seq<ByteRange>, total: nat) {
    |rs| == 1 && rs[0].offset == 0 && rs[0].length == total
  }

  lemma FirstByte(rs: seq<ByteRange>)
    requires Canonical(rs) && Covers(rs, 0)
    ensures rs[0].offset == 0 < rs[0].length
  {
    forall k | 0 < k < |rs| ensures 0 < rs[k].offset {
      assert rs[0].offset + rs[0].length < rs[k].offset;
    }
  }

  /** The one-range test decides full coverage. */
  lemma CompleteIffCovered(rs: seq<ByteRange>, total: nat)
    requires Canonical(rs) && Within(rs, total) && 0 < total
    ensures IsComplete(rs, total) <==> forall x | 0 <= x < total :: Covers(rs, x)
  {
    if IsComplete(rs, total) {
      forall x | 0 <= x < total ensures Covers(rs, x) {
        assert rs[0].offset <= x < rs[0].offset + rs[0].length;
      }
    }
    if forall x | 0 <= x < total :: Covers(rs, x) {
      FirstByte(rs);
      var end := rs[0].offset + rs[0].length;
      assert |rs| > 1 ==> end < rs[1].offset;
      UncoveredBefore(rs, 1, end);
      assert end >= total;
    }
  }

  /** A gap ends at the total or at the next offset on record, which may be that of an empty range. */
  ghost predicate EndsGap(rs: seq<ByteRange>, total: nat, gap: ByteRange) {
    && (gap.offset + gap.length == total || exists k :: 0 <= k < |rs| && rs[k].offset == gap.offset + gap.length)
    && forall k | 0 <= k < |rs| :: !(gap.offset < rs[k].offset < gap.offset + gap.length)
  }

  /** The first gap: nothing below it is missing, none of it is covered, and it reaches to the next record. */
  ghost predicate FirstGap(rs: seq<ByteRange>, total: nat, gap: ByteRange) {
    && 0 < gap.length && gap.offset + gap.length <= total
    && (forall x | 0 <= x < gap.offset :: Covers(rs, x))
    && (forall x | gap.offset <= x < gap.offset + gap.length :: !Covers(rs, x))
    && EndsGap(rs, total, gap)
  }

  lemma GapEnds(rs: seq<ByteRange>, total: nat, i: nat, cursor: nat)
    requires Canonical(rs) && Within(rs, total) && i <= |rs|
    requires cursor == if i == 0 then 0 else rs[i - 1].offset + rs[i - 1].length
    requires cursor < if i < |rs| then rs[i].offset else total
    ensures EndsGap(rs, total, RangeFromStartEnd(cursor, if i < |rs| then rs[i].offset else total))
  {
    forall k | 0 <= k < |rs| && k != i ensures rs[k].offset <= cursor || (i < |rs| && rs[i].offset < rs[k].offset) {
      if k < i - 1 {
        assert rs[k].offset + rs[k].length < rs[i - 1].offset;
      } else if k > i {
        assert rs[i].offset + rs[i].length < rs[k].offset;
      }
    }
  }

  /** Short of the total, the byte at the end of the first gap is missing too exactly if an empty range is there. */
  lemma GapEndMissingIff(rs: seq<ByteRange>, total: nat, gap: ByteRange)
    requires Canonical(rs) && Within(rs, total) && FirstGap(rs, total, gap) && gap.offset + gap.length < total
    ensures !Covers(rs, gap.offset + gap.length) <==> ByteRange(gap.offset + gap.length, 0) in rs
  {
    var end := gap.offset + gap.length;
    var k :| 0 <= k < |rs| && rs[k].offset == end;
    assert rs[k].length > 0 ==> Covers(rs, end);
    if rs[k].length == 0 {
      assert rs[k] == ByteRange(end, 0);
      assert forall j | 0 <= j < k :: rs[j].offset + rs[j].length < rs[k].offset;
      assert forall j | k < j < |rs| :: rs[k].offset + rs[k].length < rs[j].offset;
    } else {
      assert forall j | 0 <= j < |rs| && j != k :: rs[j].offset != end;
    }
  }

  /** After an empty chunk the first gap can end at a byte that is missing too. */
  lemma GapCanEndEarly()
    ensures var rs, gap := Merge([], ByteRange(5, 0)), ByteRange(0, 5);
            Canonical(rs) && Within(rs, 10) && FirstGap(rs, 10, gap) && !Covers(rs, 5)
  {
    var rs := [ByteRange(5, 0)];
    assert Merge([], ByteRange(5, 0)) == rs by {
      assert [] + rs == rs;
      assert SortByOffset(rs) == rs;
      assert Coalesce([], rs) == rs;
    }
    assert rs[0].offset == 5;
  }

  method NextMissingRange(rs: seq<ByteRange>, total: nat) returns (r: Option<ByteRange>)
    requires Canonical(rs) && Within(rs, total)
    ensures r.None? <==> forall x | 0 <= x < total :: Covers(rs, x)
    ensures r.Some? ==> FirstGap(rs, total, r.value)
  {
    if total == 0 {
      return None;
    }
    if rs == [] {
      assert !Covers(rs, 0);
      return Some(ByteRange(0, total));
    }
    var cursor := 0;
    for i := 0 to |rs|
      invariant 0 <= cursor <= total
      invariant cursor == if i == 0 then 0 else rs[i - 1].offset + rs[i - 1].length
      invariant forall x | 0 <= x < cursor :: Covers(rs, x)
    {
      if cursor < rs[i].offset {
        forall x | cursor <= x < rs[i].offset ensures !Covers(rs, x) {
          UncoveredBefore(rs, i, x);
        }
        assert !Covers(rs, cursor);
        GapEnds(rs, total, i, cursor);
        return Some(RangeFromStartEnd(cursor, rs[i].offset));
      }
      forall x | cursor <= x < End(rs[i]) ensures Covers(rs, x) {
        assert rs[i].offset <= x < rs[i].offset + rs[i].length;
      }
      cursor := End(rs[i]);
    }
    if cursor < total {
      forall x | cursor <= x < total ensures !Covers(rs, x) {
        UncoveredBefore(rs, |rs|, x);
      }
      assert !Covers(rs, cursor);
      GapEnds(rs, total, |rs|, cursor);
      return Some(RangeFromStartEnd(cursor, total));
    }
    r := None;
  }

  /** A byte past every range below `i` and before range `i` is not covered. */
  lemma UncoveredBefore(rs: seq<ByteRange>, i: nat, x: nat)
    requires Canonical(rs) && i <= |rs|
    requires i > 0 ==> rs[i - 1].offset + rs[i - 1].length <= x
    requires i < |rs| ==> x < rs[i].offset
    ensures !Covers(rs, x)
  {
    forall k | 0 <= k < |rs| ensures !(rs[k].offset <= x < rs[k].offset + rs[k].length) {
      if k < i - 1 {
        assert rs[k].offset + rs[k].length < rs[i - 1].offset;
      } else if k > i {
        assert rs[i].offset + rs[i].length < rs[k].offset;
      }
    }
  }

  /** Ascending ranges that do not overlap. */
  predicate Ascending(rs: seq<ByteRange>) {
    forall i, j | 0 <= i < j < |rs| :: rs[i].offset + rs[i].length <= rs[j].offset
  }

  /** Non-empty gaps in ascending order, none reaching past `cursor`. */
  ghost predicate Gaps(rs: seq<ByteRange>, total: nat, missing: seq<ByteRange>, cursor: nat) {
    && Within(missing, total) && Ascending(missing)
    && forall k | 0 <= k < |missing| ::
         0 < missing[k].length && missing[k].offset + missing[k].length <= cursor && EndsGap(rs, total, missing[k])
  }

  lemma GapsAppend(rs: seq<ByteRange>, total: nat, missing: seq<ByteRange>, i: nat, cursor: nat)
    requires Canonical(rs) && Within(rs, total) && i <= |rs| && Gaps(rs, total, missing, cursor)
    requires cursor == if i == 0 then 0 else rs[i - 1].offset + rs[i - 1].length
    requires cursor < if i < |rs| then rs[i].offset else total
    ensures var end := if i < |rs| then rs[i].offset else total;
            Gaps(rs, total, missing + [RangeFromStartEnd(cursor, end)], end)
  {
    GapEnds(rs, total, i, cursor);
  }

  /** All gaps in ascending order; together they are exactly the bytes below `total` that were not received. */
  method AllMissingRanges(rs: seq<ByteRange>, total: nat) returns (missing: seq<ByteRange>)
    requires Canonical(rs) && Within(rs, total)
    ensures forall x: nat :: Covers(missing, x) <==> x < total && !Covers(rs, x)
    ensures forall i | 0 <= i < |missing| :: 0 < missing[i].length && EndsGap(rs, total, missing[i])
    ensures Within(missing, total) && Ascending(missing)
  {
    missing := [];
    if total == 0 {
      return;
    }
    if rs == [] {
      missing := [ByteRange(0, total)];
      forall x: nat ensures Covers(missing, x) <==> x < total { CoversOne(ByteRange(0, total), x); }
      return;
    }
    var cursor := 0;
    var i := 0;
    while i < |rs|
      invariant 0 <= i <= |rs| && 0 <= cursor <= total
      invariant cursor == if i == 0 then 0 else rs[i - 1].offset + rs[i - 1].length
      invariant Gaps(rs, total, missing, cursor)
      invariant forall x: nat :: Covers(missing, x) <==> x < cursor && !Covers(rs, x)
    {
      ghost var before := missing;
      var start := rs[i].offset;
      if cursor < start {
        GapsAppend(rs, total, missing, i, cursor);
        missing := missing + [RangeFromStartEnd(cursor, start)];
      }
      MissingStep(rs, i, cursor, before, missing);
      var end := End(rs[i]);
      cursor := if cursor >= end then cursor else end;
      i := i + 1;
      if cursor >= total {
        break;
      }
    }
    ghost var before := missing;
    if cursor < total {
      GapsAppend(rs, total, missing, |rs|, cursor);
      missing := missing + [RangeFromStartEnd(cursor, total)];
      forall x: nat ensures Covers(missing, x) <==> x < total && !Covers(rs, x) {
        CoversConcat(before, [RangeFromStartEnd(cursor, total)], x);
        CoversOne(RangeFromStartEnd(cursor, total), x);
        if cursor <= x < total {
          UncoveredBefore(rs, |rs|, x);
        }
      }
    }
  }

  lemma MissingStep(rs: seq<ByteRange>, i: nat, cursor: nat, before: seq<ByteRange>, after: seq<ByteRange>)
    requires Canonical(rs) && i < |rs|
    requires cursor == if i == 0 then 0 else rs[i - 1].offset + rs[i - 1].length
    requires forall x: nat :: Covers(before, x) <==> x < cursor && !Covers(rs, x)
    requires after == if cursor < rs[i].offset then before + [RangeFromStartEnd(cursor, rs[i].offset)] else before
    ensures forall x: nat :: Covers(after, x) <==> x < rs[i].offset + rs[i].length && !Covers(rs, x)
  {
    if i > 0 {
      assert rs[i - 1].offset + rs[i - 1].length < rs[i].offset;
    }
    forall x: nat ensures Covers(after, x) <==> x < rs[i].offset + rs[i].length && !Covers(rs, x) {
      if cursor < rs[i].offset {
        CoversConcat(before, [RangeFromStartEnd(cursor, rs[i].offset)], x);
        CoversOne(RangeFromStartEnd(cursor, rs[i].offset), x);
      }
      if cursor <= x < rs[i].offset {
        UncoveredBefore(rs, i, x);
      }
      if rs[i].offset <= x < rs[i].offset + rs[i].length {
        assert Covers(rs, x);
      }
    }
  }
}
