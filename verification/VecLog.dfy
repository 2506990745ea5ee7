/** The store itself: a vector of entries above an offset. */
module VecLog {
  import opened Wrappers
  import opened LogStore

  predicate InView(offset: Index, n: nat, i: Index) { offset < i <= offset + n }

  /** The visible log that a vector above an offset stands for. */
  ghost function Indexed(offset: Index, entries: seq<Entry>): map<Index, Entry> {
    map i: nat | i < offset + |entries| + 1 && InView(offset, |entries|, i) :: entries[i - offset - 1]
  }

  lemma TruncateAndExtend(offset: Index, entries: seq<Entry>, es: seq<Entry>, at: Index)
    requires offset < at <= offset + |entries| + 1
    ensures Indexed(offset, entries[..at - offset - 1] + es) == Overwritten(Indexed(offset, entries), at, es)
  {
    var after := entries[..at - offset - 1] + es;
    var was := Indexed(offset, entries);
    forall i: nat
      ensures i in Indexed(offset, after) <==> i in Overwritten(was, at, es)
      ensures i in Indexed(offset, after) ==> Indexed(offset, after)[i] == Overwritten(was, at, es)[i]
    {
      assert i in was <==> InView(offset, |entries|, i);
    }
  }

  lemma DropPrefix(offset: Index, entries: seq<Entry>, b: Index)
    requires offset < b <= offset + |entries|
    ensures Indexed(b, entries[b - offset..])
         == map i | i in Indexed(offset, entries) && i > b :: Indexed(offset, entries)[i]
  {
    var after := entries[b - offset..];
    forall i: nat
      ensures i in Indexed(b, after) <==> i in Indexed(offset, entries) && i > b
      ensures i in Indexed(b, after) ==> Indexed(b, after)[i] == Indexed(offset, entries)[i]
    {
      assert InView(b, |after|, i) <==> InView(offset, |entries|, i) && i > b;
    }
  }

  lemma SliceInView(offset: Index, entries: seq<Entry>, lo: nat, hi: nat)
    requires lo <= hi <= |entries|
    ensures forall i :: offset + 1 + lo <= i < offset + 1 + hi ==> i in Indexed(offset, entries)
    ensures Slice(Indexed(offset, entries), offset + 1 + lo, offset + 1 + hi) == entries[lo..hi]
  {
    forall i | offset + 1 + lo <= i < offset + 1 + hi
      ensures i in Indexed(offset, entries)
    {
      assert InView(offset, |entries|, i);
    }
  }

  class VecLog {
    var entries: seq<Entry>
    var offset: Index
    var compactedTerm: Term
    var holdAppends: bool
    var held: seq<(OpId, Index)>
    var completions: seq<Done>
    var durableUpto: Index
    ghost var disk: map<Index, Entry>

    ghost function View(): Store
      reads this
    {
      Store(offset, compactedTerm, offset + |entries|, Indexed(offset, entries), holdAppends, held, completions,
            durableUpto, disk)
    }

    ghost predicate Valid()
      reads this
    { Inv(View()) }

    constructor ()
      ensures Valid() && View() == EMPTY
    {
      entries, offset, compactedTerm, holdAppends, held, completions, durableUpto := [], 0, 0, false, [], [], 0;
      disk := map[];
    }

    function LastIndex(): Index
      reads this
    { offset + |entries| }

    /** Total on every index: the boundary term, the entry's term, or the absent term. */
    method TermOf(index: Index) returns (t: Term)
      ensures t == TermAt(View(), index)
    {
      if index == offset {
        return compactedTerm;
      }
      assert index in View().content <==> InView(offset, |entries|, index);
      if index < offset || index > LastIndex() {
        return 0;
      }
      t := entries[index - offset - 1].term;
    }

    /** The byte cap is ignored: the whole part of the range in view comes back. */
    method Entries(start: Index, end: Index) returns (r: seq<Entry>)
      requires Valid()
      ensures r == ReadRange(View(), start, end)
    {
      var lo := if start <= offset then 0 else start - offset - 1;
      var hi := if end <= offset then 0 else if end - offset - 1 < |entries| then end - offset - 1 else |entries|;
      lo := if lo < |entries| then lo else |entries|;
      hi := if hi > lo then hi else lo;
      hi := if hi < |entries| then hi else |entries|;
      r := entries[lo..hi];
      SliceInView(offset, entries, lo, hi);
      hide Indexed, Slice;
      if end <= offset + 1 + lo { assert r == []; }
    }

    method NoteDurable(upTo: Index)
      modifies this`durableUpto, this`disk
      ensures View() == Land(old(View()), upTo)
    {
      hide Indexed, Written;
      if upTo <= LastIndex() {
        disk := Written(disk, Indexed(offset, entries), upTo);
        durableUpto := if upTo > durableUpto then upTo else durableUpto;
      }
    }

    /** Make the entries visible, truncating what they conflict with and clamping the frontier. */
    method Show(es: seq<Entry>)
      requires Appendable(View(), es)
      modifies this`entries, this`durableUpto
      ensures View() == Visible(old(View()), es)
    {
      hide Indexed, Overwritten;
      if es != [] {
        var at := es[0].index;
        var from := if at <= offset + 1 then 0 else at - offset - 1;
        TruncateAndExtend(offset, entries, es, at);
        durableUpto := if durableUpto < at then durableUpto else at - 1;
        entries := entries[..from];
      }
      assert es == [] ==> entries + es == entries;
      entries := entries + es;
    }

    method SubmitAppend(id: OpId, es: seq<Entry>)
      requires Valid() && Appendable(View(), es)
      modifies this
      ensures Valid() && View() == Append(old(View()), id, es)
    {
      hide Indexed, Inv, Land, Visible;
      AppendKeeps(View(), id, es);
      Show(es);
      var upTo := if es == [] then 0 else es[|es| - 1].index;
      if holdAppends {
        held := held + [(id, upTo)];
      } else {
        NoteDurable(upTo);
        completions := completions + [Appended(id)];
      }
    }

    method HoldAppends(on: bool)
      requires Valid()
      modifies this`holdAppends
      ensures Valid() && View() == old(View()).(hold := on)
    {
      holdAppends := on;
    }

    /** The deferred fsyncs land, oldest first. */
    method FlushHeldAppends()
      requires Valid()
      modifies this
      ensures Valid() && View() == Flush(old(View()))
    {
      hide Indexed, Inv, Written;
      FlushKeeps(View());
      while held != []
        invariant Flush(View()) == Flush(old(View()))
        decreases |held|
      {
        var (id, upTo) := held[0];
        held := held[1..];
        NoteDurable(upTo);
        completions := completions + [Appended(id)];
      }
    }

    method CompactTo(upTo: Index)
      requires Valid()
      modifies this
      ensures Valid() && View() == Compact(old(View()), upTo)
    {
      CompactKeeps(View(), upTo);
      if upTo <= offset || entries == [] {
        return;
      }
      var b := if upTo > LastIndex() then LastIndex() else upTo;
      DropPrefix(offset, entries, b);
      var boundaryTerm := TermOf(b);
      Drop(b, boundaryTerm);
    }

    method Drop(b: Index, boundaryTerm: Term)
      requires offset < b <= LastIndex()
      modifies this
      ensures View() == old(View()).(boundary := b, boundaryTerm := boundaryTerm, done := old(completions) + [Compacted(b)],
                                     content := Indexed(b, old(entries)[b - old(offset)..]))
    {
      hide Indexed;
      entries := entries[b - offset..];
      offset := b;
      compactedTerm := boundaryTerm;
      completions := completions + [Compacted(b)];
    }

    method RestoreTo(lastIndex: Index, lastTerm: Term)
      requires Valid()
      modifies this
      ensures Valid() && View() == Restore(old(View()), lastIndex, lastTerm)
    {
      entries, completions, held := [], [], [];
      offset, compactedTerm, durableUpto := lastIndex, lastTerm, 0;
      assert View().content == map[];
    }

    method Poll() returns (d: Option<Done>)
      requires Valid()
      modifies this`completions
      ensures Valid()
      ensures d == if old(completions) == [] then None else Some(old(completions)[0])
      ensures View() == old(View()).(done := if old(completions) == [] then [] else old(completions)[1..])
    {
      if completions == [] {
        return None;
      }
      d := Some(completions[0]);
      completions := completions[1..];
    }
  }

}
