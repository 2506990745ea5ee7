/**
  The in-memory log store against the normative log-store contract: an indexed log with
  a compaction boundary, appends whose durability may be deferred, and a durable
  frontier that must never answer out of superseded bytes.
*/
module LogStore {
  import opened Wrappers

  type Index = nat
  type Term = nat
  type OpId = nat

  datatype Entry = Entry(index: Index, term: Term, data: nat)
  datatype Done = Appended(id: OpId) | Compacted(upTo: Index)

  /**
    The contract's state. `content` is the visible log, over exactly the indices after
    `boundary` up to `last`. `disk` is what a crash would leave: an fsync landing at N
    writes the visible prefix through N.
  */
  datatype Store = Store(boundary: Index, boundaryTerm: Term, last: Index, content: map<Index, Entry>,
                         hold: bool, held: seq<(OpId, Index)>, done: seq<Done>, durable: Index,
                         disk: map<Index, Entry>)

  const EMPTY := Store(0, 0, 0, map[], false, [], [], 0, map[])

  // ---- Contract ---------------------------------------------------------------------------------------

  function TermAt(s: Store, i: Index): Term {
    if i == s.boundary then s.boundaryTerm else if i in s.content then s.content[i].term else 0
  }

  /** The visible log with everything from `at` on replaced. */
  function Overwritten(content: map<Index, Entry>, at: Index, es: seq<Entry>): map<Index, Entry> {
    map i: nat | i < at + |es| && (i in content || at <= i) :: if i < at then content[i] else es[i - at]
  }

  /** The prefix through `upTo` written over what was on disk. */
  function Written(disk: map<Index, Entry>, content: map<Index, Entry>, upTo: Index): map<Index, Entry> {
    map i | i in disk.Keys + content.Keys && (i in disk || i <= upTo) ::
      if i in content && i <= upTo then content[i] else disk[i]
  }

  /** An fsync of the append that ended at `upTo` lands; one the visible log no longer reaches is ignored. */
  function Land(s: Store, upTo: Index): Store {
    if upTo > s.last then s
    else s.(durable := if upTo > s.durable then upTo else s.durable, disk := Written(s.disk, s.content, upTo))
  }

  predicate Appendable(s: Store, es: seq<Entry>) {
    es != [] ==> s.boundary < es[0].index <= s.last + 1 && forall k :: 0 <= k < |es| ==> es[k].index == es[0].index + k
  }

  function Visible(s: Store, es: seq<Entry>): Store
    requires Appendable(s, es)
  {
    if es == [] then s else
      var at := es[0].index;
      s.(content := Overwritten(s.content, at, es), last := at + |es| - 1,
         durable := if s.durable < at then s.durable else at - 1)
  }

  function Append(s: Store, id: OpId, es: seq<Entry>): Store
    requires Appendable(s, es)
  {
    var v := Visible(s, es);
    var upTo := if es == [] then 0 else es[|es| - 1].index;
    if s.hold then v.(held := v.held + [(id, upTo)])
    else Land(v, upTo).(done := v.done + [Appended(id)])
  }

  function Flush(s: Store): Store
    decreases |s.held|
  {
    if s.held == [] then s else
      var (id, upTo) := s.held[0];
      Flush(Land(s, upTo).(held := s.held[1..], done := s.done + [Appended(id)]))
  }

  function Compact(s: Store, upTo: Index): Store {
    if upTo <= s.boundary || s.last == s.boundary then s else
      var b := if upTo > s.last then s.last else upTo;
      s.(boundary := b, boundaryTerm := TermAt(s, b),
         content := map i | i in s.content && i > b :: s.content[i], done := s.done + [Compacted(b)])
  }

  function Restore(s: Store, last: Index, term: Term): Store {
    s.(boundary := last, boundaryTerm := term, last := last, content := map[], held := [], done := [], durable := 0)
  }

  ghost function Slice(content: map<Index, Entry>, lo: Index, hi: Index): seq<Entry>
    requires lo <= hi && forall i :: lo <= i < hi ==> i in content
  {
    seq(hi - lo, k requires 0 <= k < hi - lo => content[lo + k])
  }

  /** The part of `[start, end)` in view. */
  ghost function ReadRange(s: Store, start: Index, end: Index): seq<Entry>
    requires Wf(s)
  {
    var lo := if start <= s.boundary then s.boundary + 1 else start;
    var hi := if end > s.last + 1 then s.last + 1 else end;
    if hi <= lo then [] else Slice(s.content, lo, hi)
  }

  // ---- What every operation keeps -----------------------------------------------------------------------

  ghost predicate Wf(s: Store) {
    && s.boundary <= s.last
    && (forall i :: i in s.content <==> s.boundary < i <= s.last)
    && (forall i :: i in s.content ==> s.content[i].index == i)
  }

  /** The whole visible prefix through the reported frontier is on disk, as visible now. */
  ghost predicate Honest(s: Store) {
    s.durable <= s.last
    && forall i :: s.boundary < i <= s.durable ==> i in s.disk && i in s.content && s.disk[i] == s.content[i]
  }

  ghost predicate Inv(s: Store) { Wf(s) && Honest(s) }

  lemma LandKeeps(s: Store, upTo: Index)
    requires Inv(s)
    ensures Inv(Land(s, upTo))
  {}

  lemma VisibleKeeps(s: Store, es: seq<Entry>)
    requires Inv(s) && Appendable(s, es)
    ensures Inv(Visible(s, es))
  {}

  lemma AppendKeeps(s: Store, id: OpId, es: seq<Entry>)
    requires Inv(s) && Appendable(s, es)
    ensures Inv(Append(s, id, es))
  {
    VisibleKeeps(s, es);
    LandKeeps(Visible(s, es), if es == [] then 0 else es[|es| - 1].index);
  }

  lemma {:induction false} FlushKeeps(s: Store)
    requires Inv(s)
    ensures Inv(Flush(s)) && Flush(s).held == []
    decreases |s.held|
  {
    if s.held != [] {
      LandKeeps(s, s.held[0].1);
      FlushKeeps(Land(s, s.held[0].1).(held := s.held[1..], done := s.done + [Appended(s.held[0].0)]));
    }
  }

  lemma CompactKeeps(s: Store, upTo: Index)
    requires Inv(s)
    ensures Inv(Compact(s, upTo))
  {}

  // ---- Runs ------------------------------------------------------------------------------------------------

  datatype Op =
    | DoAppend(id: OpId, es: seq<Entry>)
    | DoHold(on: bool)
    | DoFlush
    | DoCompact(upTo: Index)
    | DoRestore(last: Index, term: Term)
    | DoPoll

  function Step(s: Store, op: Op): Option<Store> {
    match op
    case DoAppend(id, es) => if Appendable(s, es) then Some(Append(s, id, es)) else None
    case DoHold(on) => Some(s.(hold := on))
    case DoFlush => Some(Flush(s))
    case DoCompact(upTo) => Some(Compact(s, upTo))
    case DoRestore(last, term) => Some(Restore(s, last, term))
    case DoPoll => Some(if s.done == [] then s else s.(done := s.done[1..]))
  }

  lemma StepKeeps(s: Store, op: Op)
    requires Inv(s) && Step(s, op).Some?
    ensures Inv(Step(s, op).value)
  {
    match op {
      case DoAppend(id, es) => AppendKeeps(s, id, es);
      case DoHold(_) =>
      case DoFlush => FlushKeeps(s);
      case DoCompact(upTo) => CompactKeeps(s, upTo);
      case DoRestore(_, _) =>
      case DoPoll =>
    }
  }

  ghost predicate Behavior(run: seq<Store>, ops: seq<Op>) {
    && |run| == |ops| + 1 && run[0] == EMPTY
    && forall k :: 0 <= k < |ops| ==> Step(run[k], ops[k]) == Some(run[k + 1])
  }

  lemma {:induction false} AlwaysInv(run: seq<Store>, ops: seq<Op>, n: nat)
    requires Behavior(run, ops) && n < |run|
    ensures Inv(run[n])
  {
    if n > 0 {
      AlwaysInv(run, ops, n - 1);
      assert Step(run[n - 1], ops[n - 1]) == Some(run[n - 1 + 1]);
      StepKeeps(run[n - 1], ops[n - 1]);
    }
  }

  /**
    Under any run of appends, truncations, compactions, restores, holds and flushes the
    reported frontier never covers a visible entry a crash would lose or replace.
  */
  lemma DurableIndexIsHonest(run: seq<Store>, ops: seq<Op>, n: nat, i: Index)
    requires Behavior(run, ops) && n < |run|
    requires run[n].boundary < i <= run[n].durable
    ensures i in run[n].content && i in run[n].disk && run[n].disk[i] == run[n].content[i]
  {
    AlwaysInv(run, ops, n);
  }

  // ---- The term domain ------------------------------------------------------------------------------------------

  /** Compaction changes no term from the new boundary up, and answers the absent term below it. */
  lemma CompactKeepsTerms(s: Store, upTo: Index, i: Index)
    requires Wf(s)
    ensures var c := Compact(s, upTo); TermAt(c, i) == if i >= c.boundary then TermAt(s, i) else if c == s then TermAt(s, i) else 0
  {}

  /** An append keeps every term below it, shows its own, and answers the absent term beyond. */
  lemma AppendTerms(s: Store, id: OpId, es: seq<Entry>, i: Index)
    requires Wf(s) && es != [] && Appendable(s, es)
    ensures var a := Append(s, id, es);
            TermAt(a, i) == if i < es[0].index then TermAt(s, i)
                            else if i < es[0].index + |es| then es[i - es[0].index].term else 0
  {}

  /**
    A read is a gapless run holding everything of the range in view, and it starts at
    the range's own start exactly when that index is retained.
  */
  lemma ReadIsAlignedIff(s: Store, start: Index, end: Index)
    requires Wf(s)
    ensures var r := ReadRange(s, start, end);
            && (forall k :: 0 <= k < |r| ==> r[k].index == r[0].index + k && r[k].index < end)
            && (forall i :: start <= i < end && i in s.content ==> r != [] && r[0].index <= i < r[0].index + |r|)
            && (r != [] ==> (r[0].index == start <==> start > s.boundary))
  {}

  // ---- Completions -----------------------------------------------------------------------------------------------

  function Ids(done: seq<Done>): seq<OpId> {
    if done == [] then [] else
      var d := done[|done| - 1];
      Ids(done[..|done| - 1]) + if d.Appended? then [d.id] else []
  }

  function HeldIds(held: seq<(OpId, Index)>): seq<OpId> { seq(|held|, k requires 0 <= k < |held| => held[k].0) }

  /** The appends whose completion has not been polled, in the order they will be. */
  function Outstanding(s: Store): seq<OpId> { Ids(s.done) + HeldIds(s.held) }

  lemma IdsPush(done: seq<Done>, d: Done)
    ensures Ids(done + [d]) == Ids(done) + if d.Appended? then [d.id] else []
  {
    assert (done + [d])[..|done|] == done;
  }

  lemma {:induction false} IdsPop(done: seq<Done>)
    requires done != []
    ensures Ids(done) == (if done[0].Appended? then [done[0].id] else []) + Ids(done[1..])
    decreases |done|
  {
    var init, d := done[..|done| - 1], done[|done| - 1];
    if init == [] {
      assert done[1..] == [];
    } else {
      IdsPop(init);
      assert done[1..] == init[1..] + [d];
      IdsPush(init[1..], d);
    }
  }

  /** A flush turns every held append into a completion, in order, losing none. */
  lemma {:induction false} FlushKeepsOutstanding(s: Store)
    ensures Outstanding(Flush(s)) == Outstanding(s)
    decreases |s.held|
  {
    if s.held != [] {
      var (id, upTo) := s.held[0];
      var next := Land(s, upTo).(held := s.held[1..], done := s.done + [Appended(id)]);
      IdsPush(s.done, Appended(id));
      assert HeldIds(s.held) == [id] + HeldIds(s.held[1..]);
      FlushKeepsOutstanding(next);
    }
  }

  /** What an operation does to the appends outstanding: exactly one in per append, one out per poll. */
  ghost predicate Accounted(s: Store, op: Op, s': Store) {
    match op
    case DoAppend(id, _) => multiset(Outstanding(s')) == multiset(Outstanding(s)) + multiset{id}
    case DoRestore(_, _) => Outstanding(s') == []
    case DoPoll => Outstanding(s) == (if s.done != [] && s.done[0].Appended? then [s.done[0].id] else []) + Outstanding(s')
    case DoHold(_) => Outstanding(s') == Outstanding(s)
    case DoFlush => Outstanding(s') == Outstanding(s)
    case DoCompact(_) => Outstanding(s') == Outstanding(s)
  }

  lemma AppendAccounted(s: Store, id: OpId, es: seq<Entry>)
    requires Appendable(s, es)
    ensures var s' := Append(s, id, es);
            Outstanding(s') == if s.hold then Outstanding(s) + [id] else Ids(s.done) + [id] + HeldIds(s.held)
  {
    var s' := Append(s, id, es);
    if s.hold {
      assert HeldIds(s'.held) == HeldIds(s.held) + [id];
    } else {
      IdsPush(s.done, Appended(id));
    }
  }

  lemma PollAccounted(s: Store)
    requires s.done != []
    ensures Outstanding(s) == (if s.done[0].Appended? then [s.done[0].id] else []) + Outstanding(s.(done := s.done[1..]))
  {
    IdsPop(s.done);
  }

  lemma CompactAccounted(s: Store, upTo: Index)
    ensures Outstanding(Compact(s, upTo)) == Outstanding(s)
  {
    IdsPush(s.done, Compacted(if upTo > s.last then s.last else upTo));
  }

  /** Every accepted append surfaces exactly one completion, unless a restore drops it. */
  lemma ExactlyOneCompletion(s: Store, op: Op)
    requires Step(s, op).Some?
    ensures Accounted(s, op, Step(s, op).value)
  {
    hide Ids, Append, Flush, Compact;
    match op {
      case DoAppend(id, es) => AppendAccounted(s, id, es);
      case DoFlush => FlushKeepsOutstanding(s);
      case DoCompact(upTo) => CompactAccounted(s, upTo);
      case DoPoll => if s.done != [] { PollAccounted(s); }
      case DoHold(_) =>
      case DoRestore(last, term) => assert Restore(s, last, term).done == []; NothingOutstanding(Restore(s, last, term));
    }
  }

  lemma NothingOutstanding(s: Store)
    requires s.done == [] && s.held == []
    ensures Outstanding(s) == []
  {}

  /**
    Completions come in the order the appends were submitted exactly as long as no
    append goes straight through while others are held: such a one overtakes them.
  */
  lemma AppendIsFifoIff(s: Store, id: OpId, es: seq<Entry>)
    requires Appendable(s, es) && id !in HeldIds(s.held)
    ensures Outstanding(Append(s, id, es)) == Outstanding(s) + [id] <==> s.hold || s.held == []
  {
    AppendAccounted(s, id, es);
    var ids, held := Ids(s.done), HeldIds(s.held);
    if !s.hold {
      if held == [] {
        assert ids + [id] + held == ids + held + [id];
      } else {
        assert (ids + [id] + held)[|ids|] == id;
        assert (ids + held + [id])[|ids|] == held[0];
        assert held[0] in held;
      }
    }
  }

  // ---- Completions over a whole run -------------------------------------------------------------------------

  /** The append's id a poll hands out, if it hands one out. */
  function PolledBy(s: Store, op: Op): seq<OpId> {
    if op.DoPoll? && s.done != [] && s.done[0].Appended? then [s.done[0].id] else []
  }

  /** Everything polled in the first `n` steps, in order. */
  function Polled(run: seq<Store>, ops: seq<Op>, n: nat): seq<OpId>
    requires n <= |ops| < |run|
  {
    if n == 0 then [] else Polled(run, ops, n - 1) + PolledBy(run[n - 1], ops[n - 1])
  }

  /** How often an id was submitted in the first `n` steps. */
  function Submitted(ops: seq<Op>, n: nat, id: OpId): nat
    requires n <= |ops|
  {
    if n == 0 then 0 else
      Submitted(ops, n - 1, id) + if ops[n - 1].DoAppend? && ops[n - 1].id == id then 1 else 0
  }

  /** How often a restore dropped it before it was polled. */
  function RestoredAway(run: seq<Store>, ops: seq<Op>, n: nat, id: OpId): nat
    requires n <= |ops| < |run|
  {
    if n == 0 then 0 else
      RestoredAway(run, ops, n - 1, id) + if ops[n - 1].DoRestore? then multiset(Outstanding(run[n - 1]))[id] else 0
  }

  /** One step: what goes in comes out, is dropped, or is still there. */
  lemma StepAccounts(s: Store, op: Op, s': Store, id: OpId)
    requires Step(s, op) == Some(s')
    ensures multiset(Outstanding(s))[id] + (if op.DoAppend? && op.id == id then 1 else 0)
         == multiset(PolledBy(s, op))[id] + (if op.DoRestore? then multiset(Outstanding(s))[id] else 0)
            + multiset(Outstanding(s'))[id]
  {
    hide Outstanding, Step;
    ExactlyOneCompletion(s, op);
  }

  /** How often it was polled. */
  function TimesPolled(run: seq<Store>, ops: seq<Op>, n: nat, id: OpId): nat
    requires n <= |ops| < |run|
  {
    if n == 0 then 0 else TimesPolled(run, ops, n - 1, id) + multiset(PolledBy(run[n - 1], ops[n - 1]))[id]
  }

  /**
    In every run, each append submitted is polled once, dropped by a restore, or still to
    come: none is lost and none is reported twice.
  */
  lemma {:induction false} EveryAppendIsReportedOnce(run: seq<Store>, ops: seq<Op>, n: nat, id: OpId)
    requires Behavior(run, ops) && n <= |ops|
    ensures Submitted(ops, n, id)
         == TimesPolled(run, ops, n, id) + RestoredAway(run, ops, n, id) + multiset(Outstanding(run[n]))[id]
  {
    hide Outstanding, Step, PolledBy;
    if n == 0 {
      NothingOutstanding(run[0]);
    } else {
      EveryAppendIsReportedOnce(run, ops, n - 1, id);
      assert Step(run[n - 1], ops[n - 1]) == Some(run[n - 1 + 1]);
      StepAccounts(run[n - 1], ops[n - 1], run[n], id);
    }
  }

  /** The ids still owed or polled, in submission order; a restore forgets what was not polled. */
  function Expected(run: seq<Store>, ops: seq<Op>, n: nat): seq<OpId>
    requires n <= |ops| < |run|
  {
    if n == 0 then [] else
      match ops[n - 1]
      case DoAppend(id, _) => Expected(run, ops, n - 1) + [id]
      case DoRestore(_, _) => Polled(run, ops, n - 1)
      case DoHold(_) => Expected(run, ops, n - 1)
      case DoFlush => Expected(run, ops, n - 1)
      case DoCompact(_) => Expected(run, ops, n - 1)
      case DoPoll => Expected(run, ops, n - 1)
  }

  /** No append went straight through while others were held. */
  ghost predicate Orderly(run: seq<Store>, ops: seq<Op>) {
    |ops| < |run| && forall k :: 0 <= k < |ops| && ops[k].DoAppend? ==> run[k].hold || run[k].held == []
  }

  /** One step of the order: what is owed after it, given what was owed before. */
  lemma StepInOrder(s: Store, op: Op, s': Store, polled: seq<OpId>)
    requires Step(s, op) == Some(s') && (op.DoAppend? ==> s.hold || s.held == [])
    ensures polled + PolledBy(s, op) + Outstanding(s')
         == if op.DoAppend? then polled + Outstanding(s) + [op.id]
            else if op.DoRestore? then polled else polled + Outstanding(s)
  {
    hide Outstanding, Append, Flush, Compact, Restore;
    ExactlyOneCompletion(s, op);
    if op.DoAppend? {
      AppendInOrder(s, op.id, op.es);
      assert polled + [] + (Outstanding(s) + [op.id]) == polled + Outstanding(s) + [op.id];
    } else if op.DoPoll? {
      assert polled + PolledBy(s, op) + Outstanding(s') == polled + (PolledBy(s, op) + Outstanding(s'));
    } else {
      assert polled + [] == polled;
    }
  }

  /** In every orderly run completions come in the order of submission. */
  lemma {:induction false} OrderlyRunsAreFifo(run: seq<Store>, ops: seq<Op>, n: nat)
    requires Behavior(run, ops) && Orderly(run, ops) && n <= |ops|
    ensures Expected(run, ops, n) == Polled(run, ops, n) + Outstanding(run[n])
  {
    hide Outstanding, Step;
    if n == 0 {
      NothingOutstanding(run[0]);
    } else {
      OrderlyRunsAreFifo(run, ops, n - 1);
      assert Step(run[n - 1], ops[n - 1]) == Some(run[n - 1 + 1]);
      StepInOrder(run[n - 1], ops[n - 1], run[n], Polled(run, ops, n - 1));
    }
  }

  lemma AppendInOrder(s: Store, id: OpId, es: seq<Entry>)
    requires Appendable(s, es) && (s.hold || s.held == [])
    ensures Outstanding(Append(s, id, es)) == Outstanding(s) + [id]
  {
    AppendAccounted(s, id, es);
    if s.held == [] { assert Ids(s.done) + [id] + HeldIds(s.held) == Ids(s.done) + HeldIds(s.held) + [id]; }
  }

  const HELD := EMPTY.(hold := true, held := [(1, 0)])
  const PASSED := EMPTY.(held := [(1, 0)], done := [Appended(2)])
  const FLUSHED := EMPTY.(done := [Appended(2), Appended(1)])
  const OVERTAKE := [DoHold(true), DoAppend(1, []), DoHold(false), DoAppend(2, []), DoFlush]
  const OVERTAKEN := [EMPTY, EMPTY.(hold := true), HELD, HELD.(hold := false), PASSED, FLUSHED]

  lemma NothingLands(s: Store)
    requires s.content == map[]
    ensures Land(s, 0) == s
  {
    assert Written(s.disk, map[], 0) == s.disk;
  }

  lemma OvertakeAppends()
    ensures Step(EMPTY.(hold := true), DoAppend(1, [])) == Some(HELD)
    ensures Step(HELD.(hold := false), DoAppend(2, [])) == Some(PASSED)
  {
    hide Land;
    NothingLands(HELD.(hold := false));
    assert [] + [(1, 0)] == [(1, 0)] && [] + [Appended(2)] == [Appended(2)];
  }

  lemma OvertakeFlushes()
    ensures Step(PASSED, DoFlush) == Some(FLUSHED)
  {
    hide Land;
    NothingLands(PASSED);
    var next := PASSED.(held := PASSED.held[1..], done := PASSED.done + [Appended(1)]);
    assert Flush(PASSED) == Flush(next);
    assert PASSED.held[1..] == [] && PASSED.done + [Appended(1)] == FLUSHED.done;
  }

  /** Without that order they need not: in this run the second append's completion comes out first. */
  lemma AnAppendCanOvertake()
    ensures Behavior(OVERTAKEN, OVERTAKE) && Expected(OVERTAKEN, OVERTAKE, 5) == [1, 2]
    ensures Outstanding(FLUSHED) == [2, 1]
  {
    OvertakeAppends();
    OvertakeFlushes();
    assert Expected(OVERTAKEN, OVERTAKE, 1) == [];
    assert Expected(OVERTAKEN, OVERTAKE, 2) == [1];
    assert Expected(OVERTAKEN, OVERTAKE, 4) == [1, 2];
    hide Step, Expected;
    assert FLUSHED.done == [Appended(2)] + [Appended(1)] && [Appended(2)] == [] + [Appended(2)];
    IdsPush([Appended(2)], Appended(1));
    IdsPush([], Appended(2));
  }
}
