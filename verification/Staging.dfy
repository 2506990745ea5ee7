/**
  Chunked snapshot staging: a byte buffer and the list of byte runs written into it.
  The run list must stand for the plain set of bytes written.
*/
module Staging {
  import opened Wrappers


  type Byte = b: int | 0 <= b < 256

  const MAX_STAGING_RUNS: nat := 1024

  /** The half-open byte range `[lo, hi)`. */
  datatype Run = Run(lo: nat, hi: nat)

  ghost predicate Covered(runs: seq<Run>, i: nat) {
    exists k :: 0 <= k < |runs| && runs[k].lo <= i < runs[k].hi
  }

  ghost predicate SameBytes(a: seq<Run>, b: seq<Run>) {
    forall i: nat :: Covered(a, i) <==> Covered(b, i)
  }

  /** Non-empty runs in order with a gap before each next one. */
  ghost predicate Canonical(runs: seq<Run>) {
    && (forall k :: 0 <= k < |runs| ==> runs[k].lo < runs[k].hi)
    && (forall j, k :: 0 <= j < k < |runs| ==> runs[j].hi < runs[k].lo)
  }

  /** The bytes in `runs` cannot be listed in canonical form within the cap. */
  ghost predicate Fragmented(runs: seq<Run>) {
    forall c :: Canonical(c) && SameBytes(c, runs) ==> |c| > MAX_STAGING_RUNS
  }

  // ---- The canonical form is unique ------------------------------------------------------------

  lemma HeadBounds(a: seq<Run>, b: seq<Run>)
    requires Canonical(a) && Canonical(b) && SameBytes(a, b) && a != [] && b != []
    ensures a[0].lo >= b[0].lo
    ensures a[0].lo == b[0].lo ==> a[0].hi <= b[0].hi
  {
    assert Covered(a, a[0].lo);
    assert Covered(b, a[0].lo);
    var h: nat := b[0].hi;
    assert a[0].lo <= h < a[0].hi ==> Covered(a, h);
    assert !Covered(b, h);
  }

  lemma TailBytes(a: seq<Run>, i: nat)
    requires Canonical(a) && a != []
    ensures Covered(a[1..], i) <==> Covered(a, i) && !(a[0].lo <= i < a[0].hi)
  {
    if Covered(a[1..], i) {
      var k :| 0 <= k < |a[1..]| && a[1..][k].lo <= i < a[1..][k].hi;
      assert a[k + 1].lo <= i < a[k + 1].hi;
    }
    if Covered(a, i) && !(a[0].lo <= i < a[0].hi) {
      var k :| 0 <= k < |a| && a[k].lo <= i < a[k].hi;
      assert a[1..][k - 1].lo <= i < a[1..][k - 1].hi;
    }
  }

  /** Two canonical lists of the same bytes are the same list. */
  lemma {:induction false} CanonicalUnique(a: seq<Run>, b: seq<Run>)
    requires Canonical(a) && Canonical(b) && SameBytes(a, b)
    ensures a == b
    decreases |a|
  {
    assert (a == []) == (b == []) by {
      if a != [] { assert Covered(a, a[0].lo); assert Covered(b, a[0].lo); }
      if b != [] { assert Covered(b, b[0].lo); assert Covered(a, b[0].lo); }
    }
    if a != [] {
      HeadBounds(a, b);
      HeadBounds(b, a);
      forall i: nat ensures Covered(a[1..], i) <==> Covered(b[1..], i) {
        TailBytes(a, i);
        TailBytes(b, i);
      }
      CanonicalUnique(a[1..], b[1..]);
      HeadTail(a);
      HeadTail(b);
    }
  }

  lemma HeadTail(s: seq<Run>)
    requires s != []
    ensures s == [s[0]] + s[1..]
  {
  }

  // ---- The contiguous watermark ------------------------------------------------------------------

  /** The end of the run that starts at 0. */
  function Contiguous(runs: seq<Run>): nat {
    if runs != [] && runs[0].lo == 0 then runs[0].hi else 0
  }

  /** It is the longest fully written prefix: everything below it is written, it is not. */
  lemma ContiguousIsPrefix(runs: seq<Run>)
    requires Canonical(runs)
    ensures forall i: nat :: i < Contiguous(runs) ==> Covered(runs, i)
    ensures !Covered(runs, Contiguous(runs))
  {
    if runs != [] && runs[0].lo == 0 {
      assert !Covered(runs, runs[0].hi);
    }
  }

  // ---- One chunk -----------------------------------------------------------------------------------

  datatype Chunk = Chunk(offset: nat, data: seq<Byte>)

  function Min(a: nat, b: nat): nat { if a < b then a else b }

  function Lo(total: nat, c: Chunk): nat { Min(c.offset, total) }

  /** Clamped to the buffer, as the copy is. */
  function Hi(total: nat, c: Chunk): (r: nat)
    ensures Lo(total, c) <= r <= total && r - Lo(total, c) <= |c.data|
  { Min(Lo(total, c) + |c.data|, total) }

  /** The buffer after one chunk is copied in. */
  function Overlay(buf: seq<Byte>, c: Chunk): (r: seq<Byte>)
    ensures |r| == |buf|
  {
    var lo, hi := Lo(|buf|, c), Hi(|buf|, c);
    buf[..lo] + c.data[..hi - lo] + buf[hi..]
  }

  lemma OverlayAt(buf: seq<Byte>, c: Chunk, i: nat)
    requires i < |buf|
    ensures Overlay(buf, c)[i]
         == if Lo(|buf|, c) <= i < Hi(|buf|, c) then c.data[i - Lo(|buf|, c)] else buf[i]
  {
  }

  /** What a staging holds: the bytes and the runs written. */
  datatype Stage = Stage(buf: seq<Byte>, runs: seq<Run>)

  /** The bytes covered after the chunk are those before it and its own. */
  ghost predicate Adds(runs: seq<Run>, lo: nat, hi: nat, runs': seq<Run>) {
    forall i: nat :: Covered(runs', i) <==> Covered(runs, i) || lo <= i < hi
  }

  ghost predicate InsertSpec(runs: seq<Run>, lo: nat, hi: nat, ok: bool, runs': seq<Run>) {
    && Adds(runs, lo, hi, runs')
    && (lo >= hi ==> ok && runs' == runs)
    && (lo < hi && ok ==> Canonical(runs') && |runs'| <= MAX_STAGING_RUNS)
    && (!ok ==> Fragmented(runs') && multiset(runs') == multiset(runs + [Run(lo, hi)]))
    && (!ok && Canonical(runs) && |runs| <= MAX_STAGING_RUNS ==>
          Canonical(runs') && |runs'| == MAX_STAGING_RUNS + 1)
  }

  ghost predicate AcceptSpec(s: Stage, c: Chunk, ok: bool, s': Stage) {
    && s'.buf == Overlay(s.buf, c)
    && InsertSpec(s.runs, Lo(|s.buf|, c), Hi(|s.buf|, c), ok, s'.runs)
  }

  // ---- Sort and merge -------------------------------------------------------------------------------

  ghost predicate SortedByStart(s: seq<Run>) {
    forall j, k :: 0 <= j < k < |s| ==> s[j].lo <= s[k].lo
  }

  lemma InsertSorted(r: seq<Run>, k: nat, x: Run, r': seq<Run>)
    requires SortedByStart(r) && k <= |r| && r' == r[..k] + [x] + r[k..]
    requires forall j :: 0 <= j < k ==> r[j].lo < x.lo
    requires k < |r| ==> x.lo <= r[k].lo
    ensures SortedByStart(r')
  {
  }

  lemma InsertCounts(r: seq<Run>, k: nat, x: Run)
    requires k <= |r|
    ensures multiset(r[..k] + [x] + r[k..]) == multiset(r) + multiset{x}
  {
    assert r == r[..k] + r[k..];
  }

  method SlotByStart(r: seq<Run>, x: Run) returns (k: nat)
    requires SortedByStart(r)
    ensures k <= |r| && forall j :: 0 <= j < k ==> r[j].lo < x.lo
    ensures k < |r| ==> x.lo <= r[k].lo
  {
    k := 0;
    while k < |r| && r[k].lo < x.lo
      invariant k <= |r| && forall j :: 0 <= j < k ==> r[j].lo < x.lo
    {
      k := k + 1;
    }
  }

  method SortByStart(s: seq<Run>) returns (r: seq<Run>)
    ensures SortedByStart(r) && multiset(r) == multiset(s)
  {
    r := [];
    for n := 0 to |s|
      invariant SortedByStart(r) && multiset(r) == multiset(s[..n])
    {
      var k := SlotByStart(r, s[n]);
      InsertSorted(r, k, s[n], r[..k] + [s[n]] + r[k..]);
      InsertCounts(r, k, s[n]);
      assert s[..n + 1] == s[..n] + [s[n]];
      r := r[..k] + [s[n]] + r[k..];
    }
    assert s[..|s|] == s;
  }

  lemma SameElements(a: seq<Run>, b: seq<Run>)
    requires multiset(a) == multiset(b)
    ensures |a| == |b| && SameBytes(a, b)
  {
    assert |a| == |multiset(a)| == |multiset(b)| == |b|;
    forall i: nat ensures Covered(a, i) <==> Covered(b, i) {
      if Covered(a, i) {
        var k :| 0 <= k < |a| && a[k].lo <= i < a[k].hi;
        assert a[k] in multiset(b);
        assert a[k] in b;
      }
      if Covered(b, i) {
        var k :| 0 <= k < |b| && b[k].lo <= i < b[k].hi;
        assert b[k] in multiset(a);
        assert b[k] in a;
      }
    }
  }

  /** One element of the merge loop: extend the last run or open a new one. */
  function MergeOne(merged: seq<Run>, r: Run): seq<Run> {
    if merged != [] && r.lo <= merged[|merged| - 1].hi then
      var last := merged[|merged| - 1];
      merged[|merged| - 1 := Run(last.lo, if last.hi > r.hi then last.hi else r.hi)]
    else merged + [r]
  }

  lemma MergeOneKeeps(merged: seq<Run>, r: Run)
    requires Canonical(merged) && r.lo < r.hi
    requires forall k :: 0 <= k < |merged| ==> merged[k].lo <= r.lo
    ensures Canonical(MergeOne(merged, r))
    ensures Adds(merged, r.lo, r.hi, MergeOne(merged, r))
    ensures |MergeOne(merged, r)| <= |merged| + 1
    ensures |MergeOne(merged, r)| == |merged| + 1 ==> MergeOne(merged, r) == merged + [r]
  {
    var m := MergeOne(merged, r);
    var n := |merged|;
    forall i: nat ensures Covered(m, i) <==> Covered(merged, i) || r.lo <= i < r.hi {
      if Covered(merged, i) {
        var k :| 0 <= k < n && merged[k].lo <= i < merged[k].hi;
        assert m[k].lo <= i < m[k].hi;
      }
      if r.lo <= i < r.hi {
        assert m[|m| - 1].lo <= i < m[|m| - 1].hi;
      }
      if Covered(m, i) {
        var k :| 0 <= k < |m| && m[k].lo <= i < m[k].hi;
        if k < n - 1 { assert merged[k].lo <= i < merged[k].hi; }
        if k == n - 1 && i < merged[k].hi { assert merged[k].lo <= i < merged[k].hi; }
      }
    }
  }

  /** The merge loop over runs sorted by start. Only a merge can shorten the list. */
  method MergeRuns(sorted: seq<Run>) returns (merged: seq<Run>)
    requires SortedByStart(sorted) && forall k :: 0 <= k < |sorted| ==> sorted[k].lo < sorted[k].hi
    ensures Canonical(merged) && SameBytes(merged, sorted)
    ensures |merged| <= |sorted| && (|merged| == |sorted| ==> merged == sorted)
  {
    merged := [];
    for n := 0 to |sorted|
      invariant Canonical(merged) && SameBytes(merged, sorted[..n])
      invariant forall k, j :: 0 <= k < |merged| && n <= j < |sorted| ==> merged[k].lo <= sorted[j].lo
      invariant |merged| <= n && (|merged| == n ==> merged == sorted[..n])
    {
      MergeOneKeeps(merged, sorted[n]);
      AppendBytes(sorted, n);
      merged := MergeOne(merged, sorted[n]);
    }
    assert sorted[..|sorted|] == sorted;
  }

  lemma AppendBytes(s: seq<Run>, n: nat)
    requires n < |s|
    ensures s[..n + 1] == s[..n] + [s[n]]
    ensures Adds(s[..n], s[n].lo, s[n].hi, s[..n + 1])
  {
    forall i: nat ensures Covered(s[..n + 1], i) <==> Covered(s[..n], i) || s[n].lo <= i < s[n].hi {
      if Covered(s[..n], i) {
        var k :| 0 <= k < n && s[..n][k].lo <= i < s[..n][k].hi;
        assert s[..n + 1][k].lo <= i < s[..n + 1][k].hi;
      }
      if s[n].lo <= i < s[n].hi {
        assert s[..n + 1][n].lo <= i < s[..n + 1][n].hi;
      }
      if Covered(s[..n + 1], i) {
        var k :| 0 <= k < n + 1 && s[..n + 1][k].lo <= i < s[..n + 1][k].hi;
        if k < n { assert s[..n][k].lo <= i < s[..n][k].hi; }
      }
    }
  }

  // ---- The accumulator --------------------------------------------------------------------------------

  ghost predicate Proper(runs: seq<Run>) {
    forall k :: 0 <= k < |runs| ==> runs[k].lo < runs[k].hi
  }

  /** A merge that ends over the cap, from a list within it, merged nothing. */
  lemma UnmergedIsSorted(runs: seq<Run>, sorted: seq<Run>, merged: seq<Run>)
    requires |sorted| == |runs| + 1 && |merged| <= |sorted| && (|merged| == |sorted| ==> merged == sorted)
    requires |runs| <= MAX_STAGING_RUNS < |merged|
    ensures merged == sorted && |sorted| == MAX_STAGING_RUNS + 1
  {
  }

  /**
    A refused interval touches no run that was there: the list was full, and what it now
    holds is those runs, each as it was, and the interval on its own.
  */
  lemma RefusalMergedNothing(runs: seq<Run>, lo: nat, hi: nat, runs': seq<Run>, k: nat)
    requires InsertSpec(runs, lo, hi, false, runs') && Canonical(runs) && |runs| <= MAX_STAGING_RUNS && k < |runs|
    ensures |runs| == MAX_STAGING_RUNS && multiset(runs') == multiset(runs) + multiset{Run(lo, hi)}
    ensures runs[k].hi < lo || hi < runs[k].lo
  {
    var all := runs + [Run(lo, hi)];
    assert |multiset(runs')| == |runs'| && |multiset(all)| == |all|;
    assert all[k] in multiset(all) && all[|runs|] in multiset(all);
    var i :| 0 <= i < |runs'| && runs'[i] == Run(lo, hi);
    var j :| 0 <= j < |runs'| && runs'[j] == runs[k];
    AddsSomething(runs, lo, hi, runs', k);
  }

  /** An interval that is already a run adds no byte, and so no run. */
  lemma AddsSomething(runs: seq<Run>, lo: nat, hi: nat, runs': seq<Run>, k: nat)
    requires Canonical(runs) && Canonical(runs') && |runs'| != |runs| && k < |runs| && Adds(runs, lo, hi, runs')
    ensures runs[k] != Run(lo, hi)
  {
    if runs[k] == Run(lo, hi) {
      forall i: nat
        ensures Covered(runs', i) <==> Covered(runs, i)
      {
        if lo <= i < hi { assert runs[k].lo <= i < runs[k].hi; }
      }
      CanonicalUnique(runs, runs');
    }
  }

  class SnapshotStaging {
    const boundary: nat
    const buf: array<Byte>
    var runs: seq<Run>

    ghost predicate Valid()
      reads this
    { Proper(runs) }

    ghost function View(): Stage
      reads this, buf
    { Stage(buf[..], runs) }

    /** An empty staging of `total` zero bytes. */
    constructor (boundary: nat, total: nat)
      ensures Valid() && this.boundary == boundary && fresh(buf)
      ensures View() == Stage(seq(total, _ => 0), [])
    {
      this.boundary := boundary;
      buf := new Byte[total](_ => 0);
      runs := [];
    }

    /** Refused over the caller's cap, and when the buffer cannot be reserved. */
    static method Create(boundary: nat, total: nat, maxBytes: nat, reserved: bool) returns (s: SnapshotStaging?)
      ensures s != null <==> total <= maxBytes && reserved
      ensures s != null ==> fresh(s) && fresh(s.buf) && s.Valid() && s.boundary == boundary
      ensures s != null ==> s.View() == Stage(seq(total, _ => 0), [])
    {
      if total > maxBytes || !reserved {
        return null;
      }
      s := new SnapshotStaging(boundary, total);
    }

    method ContiguousEnd() returns (r: nat)
      ensures r == Contiguous(runs)
    {
      r := if |runs| > 0 && runs[0].lo == 0 then runs[0].hi else 0;
    }

    /** Push, sort by start, merge, and refuse a list still longer than the cap. */
    method InsertRun(lo: nat, hi: nat) returns (ok: bool)
      requires Valid()
      modifies this`runs
      ensures Valid() && InsertSpec(old(runs), lo, hi, ok, runs)
    {
      if lo >= hi {
        return true;
      }
      var pushed := runs + [Run(lo, hi)];
      var sorted := SortByStart(pushed);
      PushedBytes(runs, Run(lo, hi));
      SameElements(sorted, pushed);
      ProperPermutes(pushed, sorted);
      var merged := MergeRuns(sorted);
      if |merged| > MAX_STAGING_RUNS {
        if |runs| <= MAX_STAGING_RUNS {
          UnmergedIsSorted(runs, sorted, merged);
        }
        CanonicalOnlyAs(merged, sorted);
        runs := sorted;
        return false;
      }
      runs := merged;
      ok := true;
    }

    /** Copy the chunk in, clamped to the buffer, and report the contiguous watermark. */
    method Accept(offset: nat, data: seq<Byte>) returns (r: Option<nat>)
      requires Valid()
      modifies this`runs, buf
      ensures Valid() && AcceptSpec(old(View()), Chunk(offset, data), r.Some?, View())
      ensures r.Some? ==> r.value == Contiguous(runs)
    {
      var start := Min(offset, buf.Length);
      var end := Min(start + |data|, buf.Length);
      forall i | start <= i < end {
        buf[i] := data[i - start];
      }
      CopiedIs(old(buf[..]), Chunk(offset, data), buf[..]);
      var ok := InsertRun(start, end);
      if !ok {
        return None;
      }
      var c := ContiguousEnd();
      r := Some(c);
    }

    method IsComplete() returns (r: bool)
      ensures r <==> Contiguous(runs) == buf.Length
    {
      var c := ContiguousEnd();
      r := c == buf.Length;
    }
  }

  lemma CopiedIs(before: seq<Byte>, c: Chunk, after: seq<Byte>)
    requires |after| == |before|
    requires forall i :: 0 <= i < |before| ==>
               after[i] == if Lo(|before|, c) <= i < Hi(|before|, c) then c.data[i - Lo(|before|, c)] else before[i]
    ensures after == Overlay(before, c)
  {
  }

  lemma PushedBytes(runs: seq<Run>, r: Run)
    ensures Adds(runs, r.lo, r.hi, runs + [r])
  {
    var s := runs + [r];
    AppendBytes(s, |runs|);
    assert s[..|runs|] == runs && s[..|runs| + 1] == s;
  }

  lemma ProperPermutes(a: seq<Run>, b: seq<Run>)
    requires Proper(a) && multiset(a) == multiset(b)
    ensures Proper(b)
  {
    forall k | 0 <= k < |b| ensures b[k].lo < b[k].hi {
      assert b[k] in multiset(a);
      assert b[k] in a;
    }
  }

  lemma CanonicalOnlyAs(merged: seq<Run>, runs: seq<Run>)
    requires Canonical(merged) && SameBytes(merged, runs) && |merged| > MAX_STAGING_RUNS
    ensures Fragmented(runs)
  {
    forall c | Canonical(c) && SameBytes(c, runs) ensures |c| > MAX_STAGING_RUNS {
      CanonicalUnique(c, merged);
    }
  }

  // ---- Any number of chunks ----------------------------------------------------------------------------

  /** Some chunk of the list wrote byte `i` of a `total`-byte buffer. */
  ghost predicate Written(total: nat, cs: seq<Chunk>, i: nat) {
    exists k :: 0 <= k < |cs| && Lo(total, cs[k]) <= i < Hi(total, cs[k])
  }

  /** A run of accepts from an empty staging, none of them refused. */
  ghost predicate AcceptedRun(total: nat, cs: seq<Chunk>, stages: seq<Stage>) {
    && |stages| == |cs| + 1
    && |stages[0].buf| == total && stages[0].runs == []
    && forall k :: 0 <= k < |cs| ==> AcceptSpec(stages[k], cs[k], true, stages[k + 1])
  }

  /** After any accepted chunks the run list is canonical and stands for exactly the bytes written. */
  lemma {:induction false} RunsAreWrittenBytes(total: nat, cs: seq<Chunk>, stages: seq<Stage>, n: nat)
    requires AcceptedRun(total, cs, stages) && n <= |cs|
    ensures |stages[n].buf| == total && Canonical(stages[n].runs) && |stages[n].runs| <= MAX_STAGING_RUNS
    ensures forall i: nat :: Covered(stages[n].runs, i) <==> Written(total, cs[..n], i)
  {
    if n > 0 {
      RunsAreWrittenBytes(total, cs, stages, n - 1);
      assert AcceptSpec(stages[n - 1], cs[n - 1], true, stages[n - 1 + 1]);
      forall i: nat ensures Covered(stages[n].runs, i) <==> Written(total, cs[..n], i) {
        WrittenGrows(total, cs, n - 1, i);
      }
    }
  }

  lemma WrittenGrows(total: nat, cs: seq<Chunk>, n: nat, i: nat)
    requires n < |cs|
    ensures Written(total, cs[..n + 1], i) <==>
              Written(total, cs[..n], i) || Lo(total, cs[n]) <= i < Hi(total, cs[n])
  {
    var a, b := cs[..n], cs[..n + 1];
    assert forall k :: 0 <= k < n ==> a[k] == b[k];
    assert b[n] == cs[n];
    if Written(total, a, i) {
      var k :| 0 <= k < n && Lo(total, a[k]) <= i < Hi(total, a[k]);
      assert Lo(total, b[k]) <= i < Hi(total, b[k]);
    }
    if Written(total, b, i) {
      var k :| 0 <= k < n + 1 && Lo(total, b[k]) <= i < Hi(total, b[k]);
      assert k < n ==> Lo(total, a[k]) <= i < Hi(total, a[k]);
    }
  }

  /** The watermark is the longest prefix every byte of which some accepted chunk wrote. */
  lemma WatermarkIsLongestPrefix(total: nat, cs: seq<Chunk>, stages: seq<Stage>, n: nat)
    requires AcceptedRun(total, cs, stages) && n <= |cs|
    ensures var w := Contiguous(stages[n].runs);
            (forall i: nat :: i < w ==> Written(total, cs[..n], i)) && !Written(total, cs[..n], w)
  {
    RunsAreWrittenBytes(total, cs, stages, n);
    ContiguousIsPrefix(stages[n].runs);
  }

  /** Delivering the same chunks in another order, or some twice, ends with the same run list. */
  lemma OrderDoesNotMatter(total: nat, cs: seq<Chunk>, ds: seq<Chunk>, ss: seq<Stage>, ts: seq<Stage>)
    requires AcceptedRun(total, cs, ss) && AcceptedRun(total, ds, ts)
    requires forall c :: c in cs <==> c in ds
    ensures ss[|cs|].runs == ts[|ds|].runs
  {
    RunsAreWrittenBytes(total, cs, ss, |cs|);
    RunsAreWrittenBytes(total, ds, ts, |ds|);
    assert cs[..|cs|] == cs && ds[..|ds|] == ds;
    forall i: nat ensures Covered(ss[|cs|].runs, i) <==> Covered(ts[|ds|].runs, i) {
      SameChunksWrite(total, cs, ds, i);
      SameChunksWrite(total, ds, cs, i);
    }
    CanonicalUnique(ss[|cs|].runs, ts[|ds|].runs);
  }

  lemma SameChunksWrite(total: nat, cs: seq<Chunk>, ds: seq<Chunk>, i: nat)
    requires forall c :: c in cs ==> c in ds
    ensures Written(total, cs, i) ==> Written(total, ds, i)
  {
    if Written(total, cs, i) {
      var k :| 0 <= k < |cs| && Lo(total, cs[k]) <= i < Hi(total, cs[k]);
      assert cs[k] in ds;
    }
  }

  /**
    The first chunk refused for fragmentation leaves a list that is still canonical
    and still exactly the bytes written, that chunk's included.
  */
  lemma FirstRefusalIsFaithful(total: nat, cs: seq<Chunk>, stages: seq<Stage>, c: Chunk, s': Stage)
    requires AcceptedRun(total, cs, stages)
    requires AcceptSpec(stages[|cs|], c, false, s')
    ensures Canonical(s'.runs) && |s'.runs| == MAX_STAGING_RUNS + 1
    ensures forall i: nat :: Covered(s'.runs, i) <==> Written(total, cs + [c], i)
  {
    RunsAreWrittenBytes(total, cs, stages, |cs|);
    var all := cs + [c];
    assert all[..|cs|] == cs && cs[..|cs|] == cs && all[..|cs| + 1] == all;
    forall i: nat ensures Covered(s'.runs, i) <==> Written(total, all, i) {
      WrittenGrows(total, all, |cs|, i);
    }
  }

  /** A refusal happens exactly when the bytes written do not fit the cap in canonical form. */
  lemma RefusedIff(s: Stage, c: Chunk, ok: bool, s': Stage)
    requires AcceptSpec(s, c, ok, s') && Canonical(s.runs) && |s.runs| <= MAX_STAGING_RUNS
    ensures ok <==> !Fragmented(s'.runs)
  {
    assert SameBytes(s'.runs, s'.runs);
  }

  // ---- Which byte ends up where ---------------------------------------------------------------------------

  function OverlayAll(buf: seq<Byte>, cs: seq<Chunk>): (r: seq<Byte>)
    ensures |r| == |buf|
    decreases |cs|
  {
    if cs == [] then buf else Overlay(OverlayAll(buf, cs[..|cs| - 1]), cs[|cs| - 1])
  }

  lemma OverlaySnoc(buf: seq<Byte>, cs: seq<Chunk>, c: Chunk)
    ensures OverlayAll(buf, cs + [c]) == Overlay(OverlayAll(buf, cs), c)
  {
    var all := cs + [c];
    assert all[..|all| - 1] == cs;
  }

  /** Chunk `k` wrote byte value `b` at `i` and no later chunk wrote there. */
  ghost predicate WroteLast(total: nat, cs: seq<Chunk>, k: nat, i: nat, b: Byte) {
    && k < |cs| && Lo(total, cs[k]) <= i < Hi(total, cs[k])
    && cs[k].data[i - Lo(total, cs[k])] == b
    && !Written(total, cs[k + 1..], i)
  }

  lemma WroteLastExtends(total: nat, cs: seq<Chunk>, c: Chunk, k: nat, i: nat, b: Byte)
    requires WroteLast(total, cs, k, i, b) && !(Lo(total, c) <= i < Hi(total, c))
    ensures WroteLast(total, cs + [c], k, i, b)
  {
    var tail := (cs + [c])[k + 1..];
    var n := |tail| - 1;
    assert tail[..n] == cs[k + 1..] && tail[n] == c && tail[..n + 1] == tail;
    WrittenGrows(total, tail, n, i);
  }

  /** Every written byte of the buffer is the byte of the last chunk that wrote it. */
  lemma {:induction false} LastWriterWins(buf: seq<Byte>, cs: seq<Chunk>, i: nat) returns (k: nat)
    requires i < |buf| && Written(|buf|, cs, i)
    ensures WroteLast(|buf|, cs, k, i, OverlayAll(buf, cs)[i])
    decreases |cs|
  {
    var n := |cs| - 1;
    var front, c := cs[..n], cs[n];
    assert cs == front + [c];
    OverlaySnoc(buf, front, c);
    OverlayAt(OverlayAll(buf, front), c, i);
    if Lo(|buf|, c) <= i < Hi(|buf|, c) {
      k := n;
    } else {
      WrittenGrows(|buf|, cs, n, i);
      assert cs[..n + 1] == cs;
      k := LastWriterWins(buf, front, i);
      WroteLastExtends(|buf|, front, c, k, i, OverlayAll(buf, front)[i]);
    }
  }
}
