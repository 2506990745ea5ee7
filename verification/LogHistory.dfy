/**
  What the log store holds, told from the operations alone: after any run its entries,
  terms, boundary and durable frontier are those the submitted operations call for.
*/
module LogHistory {
  import opened Wrappers
  import opened LogStore

  // ---- What a restore installs -----------------------------------------------------------------------

  ghost predicate Consecutive(es: seq<Entry>) {
    forall k :: 0 <= k < |es| ==> es[k].index == es[0].index + k
  }

  /** The restored boundary is all there is: its term, no entry, and one place to append. */
  lemma RestoreInstalls(s: Store, last: Index, term: Term, i: Index, end: Index, es: seq<Entry>)
    ensures var r := Restore(s, last, term);
            && r.last == last && TermAt(r, i) == (if i == last then term else 0)
            && Wf(r) && ReadRange(r, i, end) == []
            && (es != [] ==> (Appendable(r, es) <==> es[0].index == last + 1 && Consecutive(es)))
  {}

  // ---- The log the operations wrote ---------------------------------------------------------------------

  predicate Covers(es: seq<Entry>, i: Index) {
    es != [] && es[0].index <= i < es[0].index + |es|
  }

  /** The entry written at `i` by the last append covering it, unless a later one cut it off or a restore came. */
  function WrittenAt(ops: seq<Op>, n: nat, i: Index): Option<Entry>
    requires n <= |ops|
  {
    if n == 0 || ops[n - 1].DoRestore? then None
    else if ops[n - 1].DoAppend? && Covers(ops[n - 1].es, i) then Some(ops[n - 1].es[i - ops[n - 1].es[0].index])
    else if ops[n - 1].DoAppend? && ops[n - 1].es != [] && ops[n - 1].es[0].index <= i then None
    else WrittenAt(ops, n - 1, i)
  }

  /** Where the last restore put the log, or its start, and the term there. */
  function Base(ops: seq<Op>, n: nat): (Index, Term)
    requires n <= |ops|
  {
    if n == 0 then (0, 0)
    else if ops[n - 1].DoRestore? then (ops[n - 1].last, ops[n - 1].term)
    else Base(ops, n - 1)
  }

  function LastOf(ops: seq<Op>, n: nat): Index
    requires n <= |ops|
  {
    if n == 0 then 0
    else if ops[n - 1].DoRestore? then ops[n - 1].last
    else if ops[n - 1].DoAppend? && ops[n - 1].es != [] then ops[n - 1].es[|ops[n - 1].es| - 1].index
    else LastOf(ops, n - 1)
  }

  function Max(a: nat, b: nat): nat { if a < b then b else a }

  function Min(a: nat, b: nat): nat { if a < b then a else b }

  /** The highest index compacted since the last restore, capped at the log's end when it was asked for. */
  function CompactedThrough(ops: seq<Op>, n: nat): Index
    requires n <= |ops|
  {
    if n == 0 then 0
    else if ops[n - 1].DoRestore? then ops[n - 1].last
    else if ops[n - 1].DoCompact? then Max(CompactedThrough(ops, n - 1), Min(ops[n - 1].upTo, LastOf(ops, n - 1)))
    else CompactedThrough(ops, n - 1)
  }

  /** The term the operations put at `i`. */
  function TermOf(ops: seq<Op>, n: nat, i: Index): Term
    requires n <= |ops|
  {
    if i < CompactedThrough(ops, n) then 0
    else if WrittenAt(ops, n, i).Some? then WrittenAt(ops, n, i).value.term
    else if i == Base(ops, n).0 then Base(ops, n).1
    else 0
  }

  /** The store after `n` operations is what they wrote. */
  ghost predicate Holds(s: Store, ops: seq<Op>, n: nat)
    requires n <= |ops|
  {
    && s.last == LastOf(ops, n) && s.boundary == CompactedThrough(ops, n)
    && Base(ops, n).0 <= s.boundary
    && s.boundaryTerm == TermOf(ops, n, s.boundary)
    && forall i :: (i in s.content <==> i > s.boundary && WrittenAt(ops, n, i).Some?)
                && (i in s.content ==> WrittenAt(ops, n, i) == Some(s.content[i]))
  }

  lemma HoldsAppend(s: Store, ops: seq<Op>, n: nat)
    requires n < |ops| && ops[n].DoAppend? && Wf(s) && Holds(s, ops, n) && Appendable(s, ops[n].es)
    ensures Holds(Append(s, ops[n].id, ops[n].es), ops, n + 1)
  {
    var es, s' := ops[n].es, Append(s, ops[n].id, ops[n].es);
    assert s'.content == Visible(s, es).content && s'.boundary == s.boundary;
    if es != [] {
      forall i
        ensures i in s'.content <==> i > s.boundary && WrittenAt(ops, n + 1, i).Some?
        ensures i in s'.content ==> WrittenAt(ops, n + 1, i) == Some(s'.content[i])
      {
      }
    }
  }

  lemma HoldsCompact(s: Store, ops: seq<Op>, n: nat)
    requires n < |ops| && ops[n].DoCompact? && Wf(s) && Holds(s, ops, n)
    ensures Holds(Compact(s, ops[n].upTo), ops, n + 1)
  {
    var s' := Compact(s, ops[n].upTo);
    assert forall i :: WrittenAt(ops, n + 1, i) == WrittenAt(ops, n, i);
    assert s'.boundary == CompactedThrough(ops, n + 1);
    if s'.boundary != s.boundary { assert s'.boundary in s.content; }
  }

  lemma {:induction false} FlushOnlyLands(s: Store)
    ensures var f := Flush(s);
            f.content == s.content && f.last == s.last && f.boundary == s.boundary && f.boundaryTerm == s.boundaryTerm
    decreases |s.held|
  {
    if s.held != [] {
      FlushOnlyLands(Land(s, s.held[0].1).(held := s.held[1..], done := s.done + [Appended(s.held[0].0)]));
    }
  }

  lemma StepHolds(s: Store, ops: seq<Op>, n: nat)
    requires n < |ops| && Wf(s) && Holds(s, ops, n) && Step(s, ops[n]).Some?
    ensures Holds(Step(s, ops[n]).value, ops, n + 1)
  {
    match ops[n] {
      case DoAppend(_, _) => HoldsAppend(s, ops, n);
      case DoCompact(_) => HoldsCompact(s, ops, n);
      case DoFlush => FlushOnlyLands(s);
      case DoRestore(_, _) =>
      case DoHold(_) =>
      case DoPoll =>
    }
  }

  lemma {:induction false} AlwaysHolds(run: seq<Store>, ops: seq<Op>, n: nat)
    requires Behavior(run, ops) && n <= |ops|
    ensures Holds(run[n], ops, n)
  {
    if n > 0 {
      AlwaysHolds(run, ops, n - 1);
      AlwaysInv(run, ops, n - 1);
      assert Step(run[n - 1], ops[n - 1]) == Some(run[n - 1 + 1]);
      hide Holds, Step;
      StepHolds(run[n - 1], ops, n - 1);
    }
  }

  /**
    After any run the term at an index is that of the last append covering it since the
    last restore, the restored term at the restored boundary until that is compacted past,
    and the absent term below the compaction boundary and everywhere else.
  */
  lemma TermsOfEveryRun(run: seq<Store>, ops: seq<Op>, n: nat, i: Index)
    requires Behavior(run, ops) && n <= |ops|
    ensures TermAt(run[n], i) == TermOf(ops, n, i)
    ensures run[n].last == LastOf(ops, n) && run[n].boundary == CompactedThrough(ops, n)
  {
    AlwaysHolds(run, ops, n);
    AlwaysInv(run, ops, n);
  }

  /** And a read returns exactly the entries of its range written last and not compacted. */
  lemma ReadsOfEveryRun(run: seq<Store>, ops: seq<Op>, n: nat, start: Index, end: Index, e: Entry)
    requires Behavior(run, ops) && n <= |ops|
    ensures Wf(run[n])
    ensures e in ReadRange(run[n], start, end)
        <==> start <= e.index < end && e.index > CompactedThrough(ops, n) && WrittenAt(ops, n, e.index) == Some(e)
  {
    AlwaysHolds(run, ops, n);
    AlwaysInv(run, ops, n);
    ReadHas(run[n], start, end, e);
  }

  lemma ReadHas(s: Store, start: Index, end: Index, e: Entry)
    requires Wf(s)
    ensures e in ReadRange(s, start, end) <==> start <= e.index < end && e.index in s.content && s.content[e.index] == e
  {
    var r := ReadRange(s, start, end);
    var lo := if start <= s.boundary then s.boundary + 1 else start;
    if start <= e.index < end && e.index in s.content { assert r[e.index - lo] == s.content[e.index]; }
  }

  // ---- The durable frontier ------------------------------------------------------------------------------------

  /** An fsync through `d` or beyond lands in this step, of bytes still in view. */
  ghost predicate Lands(s: Store, op: Op, d: Index) {
    match op
    case DoAppend(_, es) => !s.hold && es != [] && d <= es[|es| - 1].index
    case DoFlush => exists h :: h in s.held && d <= h.1 <= s.last
    case DoHold(_) => false
    case DoCompact(_) => false
    case DoRestore(_, _) => false
    case DoPoll => false
  }

  /** This operation replaces what was visible at `d` or below. */
  predicate Rewrites(op: Op, d: Index) {
    op.DoRestore? || (op.DoAppend? && op.es != [] && op.es[0].index <= d)
  }

  /** Some fsync reached `d`, and nothing at or below it was rewritten since. */
  ghost predicate Reached(run: seq<Store>, ops: seq<Op>, n: nat, d: Index)
    requires n <= |ops| < |run|
  {
    n > 0 && (Lands(run[n - 1], ops[n - 1], d) || (Reached(run, ops, n - 1, d) && !Rewrites(ops[n - 1], d)))
  }

  lemma {:induction false} FlushReaches(s: Store, d: Index)
    ensures d <= Flush(s).durable <==> d <= s.durable || exists h :: h in s.held && d <= h.1 <= s.last
    decreases |s.held|
  {
    if s.held != [] {
      var h, rest := s.held[0], s.held[1..];
      var next := Land(s, h.1).(held := rest, done := s.done + [Appended(h.0)]);
      FlushReaches(next, d);
      assert forall g :: g in s.held <==> g == h || g in rest;
      assert Flush(s) == Flush(next) && next.held == rest && next.last == s.last;
      assert d <= next.durable <==> d <= s.durable || d <= h.1 <= s.last;
    }
  }

  lemma StepReaches(s: Store, op: Op, d: Index)
    requires Inv(s) && d > 0 && Step(s, op).Some?
    ensures d <= Step(s, op).value.durable <==> Lands(s, op, d) || (d <= s.durable && !Rewrites(op, d))
  {
    if op.DoFlush? { FlushReaches(s, d); }
  }

  /**
    The reported frontier is exact in every run: it covers an index if and only if an
    fsync reached it and no append or restore has rewritten it or anything below it since.
  */
  lemma {:induction false} FrontierOfEveryRun(run: seq<Store>, ops: seq<Op>, n: nat, d: Index)
    requires Behavior(run, ops) && n <= |ops| && d > 0
    ensures d <= run[n].durable <==> Reached(run, ops, n, d)
  {
    if n > 0 {
      FrontierOfEveryRun(run, ops, n - 1, d);
      AlwaysInv(run, ops, n - 1);
      assert Step(run[n - 1], ops[n - 1]) == Some(run[n - 1 + 1]);
      hide Step, Lands, Inv;
      StepReaches(run[n - 1], ops[n - 1], d);
    }
  }

  /** A compaction is reported, with the boundary it reached, exactly when it moved the boundary. */
  lemma CompactReports(s: Store, upTo: Index)
    requires Wf(s)
    ensures var c := Compact(s, upTo);
            && c.done == (if c.boundary == s.boundary then s.done else s.done + [Compacted(c.boundary)])
            && (c.boundary != s.boundary <==> s.boundary < upTo && s.content != map[])
  {
    if s.last > s.boundary { assert s.last in s.content; }
  }
}
