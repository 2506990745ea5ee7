/**
  The limbo region a failover read must prove its key absent from: every normal entry
  above the committed index a new leader inherited. It is read from a log store whose
  answers may be truncated, gapped or a bare suffix, under a cost cap, and any doubt
  falls back to a normal read.
*/
module Limbo {
  import opened Wrappers

  const U64_MAX: nat := 0xFFFF_FFFF_FFFF_FFFF
  const ENTRY_OVERHEAD: nat := 64

  datatype Kind = Normal | Other
  datatype Entry = Entry(index: nat, kind: Kind, len: nat)

  /** The committed index served at, and the last index that may have been acknowledged. */
  datatype Window = Window(index: nat, upper: nat)

  datatype Read = Ready(entries: seq<Entry>) | Pending | Fault

  datatype Outcome = Fatal | Fallback | Region(limbo: seq<Entry>)

  // ---- The code ---------------------------------------------------------------------------------------

  function CheckedNext(i: nat): Option<nat> { if i < U64_MAX then Some(i + 1) else None }

  function SaturatingAdd(a: nat, b: nat): nat { if a + b > U64_MAX then U64_MAX else a + b }

  function Normals(es: seq<Entry>): seq<Entry> {
    if es == [] then [] else
      var last := es[|es| - 1];
      Normals(es[..|es| - 1]) + if last.kind.Normal? then [last] else []
  }

  /** The scan: start at `lo`, no gap, reach `hi`, within the cost cap. */
  method ContiguousNormalEntries(entries: seq<Entry>, lo: nat, hi: nat, maxBytes: nat) returns (r: Option<seq<Entry>>)
    requires hi <= U64_MAX
    ensures r == if IsRegion(entries, lo, hi) && Affordable(entries, maxBytes) then Some(Normals(entries)) else None
  {
    var expected, cost: nat := lo, 0;
    for k := 0 to |entries|
      invariant expected == lo + k
      invariant forall j :: 0 <= j < k ==> entries[j].index == lo + j
      invariant cost == Least(Cost(entries[..k]), U64_MAX) <= maxBytes || k == 0
      invariant k == 0 ==> cost == 0
    {
      var e := entries[k];
      if e.index != expected {
        return None;
      }
      var next := CheckedNext(e.index);
      if next.None? {
        return None;
      }
      expected := next.value;
      cost := SaturatingAdd(SaturatingAdd(cost, ENTRY_OVERHEAD), e.len);
      assert entries[..k + 1][..k] == entries[..k];
      CostGrows(entries, k + 1);
      if cost > maxBytes {
        return None;
      }
    }
    assert entries[..|entries|] == entries;
    if expected != hi {
      return None;
    }
    var normals := [];
    for k := 0 to |entries|
      invariant normals == Normals(entries[..k])
    {
      assert entries[..k + 1][..k] == entries[..k];
      if entries[k].kind.Normal? {
        normals := normals + [entries[k]];
      }
    }
    return Some(normals);
  }

  function Bounds(w: Window): Option<(nat, nat)> {
    if CheckedNext(w.index).Some? && CheckedNext(w.upper).Some?
    then Some((CheckedNext(w.index).value, CheckedNext(w.upper).value)) else None
  }

  /** The widest region the preflight lets through to a read. */
  function MaxEntries(maxBytes: nat): nat { if maxBytes / ENTRY_OVERHEAD > 1 then maxBytes / ENTRY_OVERHEAD else 1 }

  /** `read` is what the store answers for `[lo, hi)`, should it be asked. */
  method ReadLimbo(w: Window, maxBytes: nat, read: Read) returns (r: Outcome)
    ensures r == Answer(w, maxBytes, read)
  {
    var bounds := Bounds(w);
    if bounds.None? {
      return Fallback;
    }
    var (lo, hi) := bounds.value;
    if lo >= hi {
      return Region([]);
    }
    if hi - lo > MaxEntries(maxBytes) {
      return Fallback;
    }
    match read {
      case Fault => return Fatal;
      case Pending => return Fallback;
      case Ready(entries) =>
        var region := ContiguousNormalEntries(entries, lo, hi, maxBytes);
        return if region.Some? then Region(region.value) else Fallback;
    }
  }

  /** A checked failover read runs its closure only on an empty limbo. */
  function ApplyChecked<Out>(limbo: seq<Entry>, f: () -> Option<Out>): Option<Out> {
    if limbo == [] then f() else None
  }

  // ---- What it means ------------------------------------------------------------------------------------

  function Least(a: nat, b: nat): nat { if a <= b then a else b }

  /** What a scan is charged: a fixed overhead and the payload of each entry. */
  function Cost(es: seq<Entry>): nat {
    if es == [] then 0 else Cost(es[..|es| - 1]) + ENTRY_OVERHEAD + es[|es| - 1].len
  }

  /** The sum saturates, so the largest cap admits every cost. */
  predicate Affordable(es: seq<Entry>, maxBytes: nat) { es == [] || Cost(es) <= maxBytes || U64_MAX <= maxBytes }

  ghost predicate IsRegion(es: seq<Entry>, lo: nat, hi: nat) {
    |es| == hi - lo && forall k :: 0 <= k < |es| ==> es[k].index == lo + k
  }

  ghost function Answer(w: Window, maxBytes: nat, read: Read): Outcome {
    if w.index >= U64_MAX || w.upper >= U64_MAX then Fallback
    else if w.upper <= w.index then Region([])
    else if w.upper - w.index > MaxEntries(maxBytes) then Fallback
    else match read
         case Fault => Fatal
         case Pending => Fallback
         case Ready(es) =>
           if IsRegion(es, w.index + 1, w.upper + 1) && Affordable(es, maxBytes) then Region(Normals(es)) else Fallback
  }

  lemma {:induction false} CostGrows(es: seq<Entry>, n: nat)
    requires n <= |es|
    ensures Cost(es[..n]) <= Cost(es)
    ensures ENTRY_OVERHEAD * n <= Cost(es[..n])
    decreases |es| - n, n
  {
    if n < |es| {
      CostGrows(es, n + 1);
      assert es[..n + 1][..n] == es[..n];
    } else {
      assert es[..n] == es;
    }
    CostAtLeast(es[..n]);
  }

  lemma {:induction false} CostAtLeast(es: seq<Entry>)
    ensures ENTRY_OVERHEAD * |es| <= Cost(es)
    decreases |es|
  {
    if es != [] { CostAtLeast(es[..|es| - 1]); }
  }

  /** Whatever the store chose to return, it made nothing up. */
  ghost predicate Authentic(es: seq<Entry>, log: map<nat, Entry>) {
    forall k :: 0 <= k < |es| ==> es[k].index in log && log[es[k].index] == es[k]
  }

  /** The normal entries of the log itself at indices `[lo, hi)`. */
  function NormalsBetween(log: map<nat, Entry>, lo: nat, hi: nat): seq<Entry>
    decreases hi
  {
    if hi <= lo then [] else
      NormalsBetween(log, lo, hi - 1) + if hi - 1 in log && log[hi - 1].kind.Normal? then [log[hi - 1]] else []
  }

  lemma {:induction false} RegionIsTheLog(es: seq<Entry>, log: map<nat, Entry>, lo: nat, hi: nat)
    requires Authentic(es, log) && IsRegion(es, lo, hi)
    ensures Normals(es) == NormalsBetween(log, lo, hi)
    decreases |es|
  {
    if es != [] {
      RegionIsTheLog(es[..|es| - 1], log, lo, hi - 1);
      assert es[|es| - 1].index == hi - 1;
    }
  }

  lemma {:induction false} EmptyMeansNone(log: map<nat, Entry>, lo: nat, hi: nat, i: nat)
    requires NormalsBetween(log, lo, hi) == [] && lo <= i < hi
    ensures !(i in log && log[i].kind.Normal?)
    decreases hi
  {
    if i < hi - 1 { EmptyMeansNone(log, lo, hi - 1, i); }
  }

  /** An entry of the list is at this index. */
  ghost predicate Lists(es: seq<Entry>, i: nat) { exists k :: 0 <= k < |es| && es[k].index == i }

  lemma ListsPush(es: seq<Entry>, e: Entry, i: nat)
    ensures Lists(es + [e], i) <==> Lists(es, i) || e.index == i
  {
    var all := es + [e];
    if Lists(es, i) {
      var k :| 0 <= k < |es| && es[k].index == i;
      assert all[k].index == i;
    }
    if e.index == i { assert all[|es|].index == i; }
  }

  lemma {:induction false} NormalsBetweenLists(log: map<nat, Entry>, lo: nat, hi: nat, i: nat)
    requires forall j :: lo <= j < hi && j in log ==> log[j].index == j
    ensures Lists(NormalsBetween(log, lo, hi), i) <==> lo <= i < hi && i in log && log[i].kind.Normal?
    decreases hi
  {
    if lo < hi {
      NormalsBetweenLists(log, lo, hi - 1, i);
      assert NormalsBetween(log, lo, hi - 1) + [] == NormalsBetween(log, lo, hi - 1);
      if hi - 1 in log { ListsPush(NormalsBetween(log, lo, hi - 1), log[hi - 1], i); }
    }
  }

  /**
    A region is handed out only when it is all of it: the log's own normal entries in
    `(index, upper]`, each once and in order, however the store truncated its answer.
  */
  lemma RegionIsComplete(w: Window, maxBytes: nat, read: Read, log: map<nat, Entry>)
    requires read.Ready? ==> Authentic(read.entries, log)
    requires Answer(w, maxBytes, read).Region?
    ensures Answer(w, maxBytes, read).limbo == NormalsBetween(log, w.index + 1, w.upper + 1)
  {
    if w.upper > w.index {
      RegionIsTheLog(read.entries, log, w.index + 1, w.upper + 1);
    }
  }

  lemma {:induction false} NonEmptyMeansSome(log: map<nat, Entry>, lo: nat, hi: nat) returns (i: nat)
    requires NormalsBetween(log, lo, hi) != []
    ensures lo <= i < hi && i in log && log[i].kind.Normal?
    decreases hi
  {
    if hi - 1 in log && log[hi - 1].kind.Normal? { i := hi - 1; } else { i := NonEmptyMeansSome(log, lo, hi - 1); }
  }

  ghost predicate NormalIn(log: map<nat, Entry>, w: Window, i: nat) {
    w.index < i <= w.upper && i in log && log[i].kind.Normal?
  }

  /** A checked failover read is its closure's answer exactly when the log holds no normal entry in limbo. */
  lemma CheckedReadAnswersIff<Out>(w: Window, maxBytes: nat, read: Read, log: map<nat, Entry>, f: () -> Option<Out>)
    requires read.Ready? ==> Authentic(read.entries, log)
    requires Answer(w, maxBytes, read).Region?
    ensures ApplyChecked(Answer(w, maxBytes, read).limbo, f) == if exists i :: NormalIn(log, w, i) then None else f()
  {
    RegionIsComplete(w, maxBytes, read, log);
    if i :| NormalIn(log, w, i) {
      if NormalsBetween(log, w.index + 1, w.upper + 1) == [] { EmptyMeansNone(log, w.index + 1, w.upper + 1, i); }
    } else if NormalsBetween(log, w.index + 1, w.upper + 1) != [] {
      var i := NonEmptyMeansSome(log, w.index + 1, w.upper + 1);
      assert NormalIn(log, w, i);
    }
  }

  /** A window whose ends can be counted on from and that holds an index; nothing else is ever read. */
  predicate Countable(w: Window) { w.index < U64_MAX && w.upper < U64_MAX }

  /** A faulty read stops the driver exactly when there was a region to read that was narrow enough. */
  lemma FaultIsFatalIff(w: Window, maxBytes: nat, read: Read)
    ensures Answer(w, maxBytes, read).Fatal?
        <==> Countable(w) && 0 < w.upper - w.index <= MaxEntries(maxBytes) && read.Fault?
    ensures Countable(w) && w.upper <= w.index ==> Answer(w, maxBytes, read) == Region([])
    ensures !Countable(w) || (read.Pending? && w.upper > w.index) ==> Answer(w, maxBytes, read).Fallback?
  {}

  /** A region the store does return whole is refused only for its width or its cost. */
  lemma WholeRegionFallsBackIff(w: Window, maxBytes: nat, es: seq<Entry>)
    requires w.index < w.upper < U64_MAX && IsRegion(es, w.index + 1, w.upper + 1) && maxBytes < U64_MAX
    ensures Answer(w, maxBytes, Ready(es)).Fallback? <==> Cost(es) > maxBytes
  {
    if w.upper - w.index > MaxEntries(maxBytes) {
      PreflightRefusesOnlyTheUnaffordable(es, w.index + 1, w.upper + 1, maxBytes);
    }
  }

  /** Below the largest cap, a region too wide for the preflight could not have been paid for. */
  lemma PreflightRefusesOnlyTheUnaffordable(es: seq<Entry>, lo: nat, hi: nat, maxBytes: nat)
    requires IsRegion(es, lo, hi) && maxBytes < U64_MAX && hi - lo > MaxEntries(maxBytes)
    ensures !Affordable(es, maxBytes)
  {
    CostAtLeast(es);
  }

  /** Every region the preflight turns away, the scan would turn away too. */
  ghost predicate PreflightIsRedundant(maxBytes: nat) {
    forall es: seq<Entry>, lo: nat, hi: nat :: hi <= U64_MAX && IsRegion(es, lo, hi) && hi - lo > MaxEntries(maxBytes)
      ==> !Affordable(es, maxBytes)
  }

  /** At the largest cap the saturating sum never exceeds it, and the preflight does refuse more. */
  lemma PreflightIsRedundantIff(maxBytes: nat)
    requires maxBytes <= U64_MAX
    ensures PreflightIsRedundant(maxBytes) <==> maxBytes < U64_MAX
  {
    if maxBytes < U64_MAX {
      forall es: seq<Entry>, lo: nat, hi: nat | hi <= U64_MAX && IsRegion(es, lo, hi) && hi - lo > MaxEntries(maxBytes)
        ensures !Affordable(es, maxBytes)
      {
        PreflightRefusesOnlyTheUnaffordable(es, lo, hi, maxBytes);
      }
    } else {
      var n := MaxEntries(maxBytes) + 1;
      var es := seq(n, (i: nat) => Entry(1 + i, Normal, 0));
      assert IsRegion(es, 1, n + 1) && Affordable(es, maxBytes);
    }
  }
}
