/**
  The shared in-flight budget as a concurrent protocol: two separate atomic counters,
  an optimistic add with rollback on each, guards given back in two steps, and any
  number of threads taking any of these steps in any order.
*/
module Budget {
  import opened Wrappers
  import opened Finite

  /** `AtomicUsize` arithmetic wraps at this modulus. */
  const WORD: nat := 0x1_0000_0000_0000_0000

  type Token = nat

  /** Where one reservation attempt, or the guard it became, stands. */
  datatype Phase =
    | Counted(len: nat, prev: int)       // added 1 to the count and read `prev`
    | Weighed(len: nat, prev: int)       // passed the count gate, added `len` bytes and read `prev`
    | Unweighed(len: nat)                // failed the byte gate, gave the bytes back, not yet the count
    | Held(len: nat)                     // the guard
    | Dropping(len: nat)                 // the guard's count given back, not yet its bytes

  datatype Caps = Caps(count: nat, bytes: nat)

  datatype State = State(count: int, bytes: int, live: map<Token, Phase>)

  datatype Step =
    | AddCount(t: Token, len: nat)
    | RefuseCount(t: Token)
    | AddBytes(t: Token)
    | RollBackBytes(t: Token)
    | RefuseBytes(t: Token)
    | Grant(t: Token)
    | DropCount(t: Token)
    | DropBytes(t: Token)

  /** `fetch_add` and `fetch_sub` of words wrap around. */
  function Plus(a: int, b: int): int { if a + b >= WORD then a + b - WORD else a + b }

  function Minus(a: int, b: int): int { if a >= b then a - b else a + WORD - b }

  function SaturatingAdd(a: int, b: int): int { if a + b >= WORD then WORD - 1 else a + b }

  /** One atomic instruction of one thread; `None` when it is not that thread's next one. */
  function Next(s: State, caps: Caps, step: Step): Option<State> {
    match step
    case AddCount(t, len) =>
      if t in s.live then None
      else Some(s.(count := Plus(s.count, 1), live := s.live[t := Counted(len, s.count)]))
    case RefuseCount(t) =>
      if t in s.live && s.live[t].Counted? && s.live[t].prev >= caps.count
      then Some(s.(count := Minus(s.count, 1), live := s.live - {t})) else None
    case AddBytes(t) =>
      if t in s.live && s.live[t].Counted? && s.live[t].prev < caps.count
      then Some(s.(bytes := Plus(s.bytes, s.live[t].len), live := s.live[t := Weighed(s.live[t].len, s.bytes)]))
      else None
    case RollBackBytes(t) =>
      if t in s.live && s.live[t].Weighed? && SaturatingAdd(s.live[t].prev, s.live[t].len) > caps.bytes
      then Some(s.(bytes := Minus(s.bytes, s.live[t].len), live := s.live[t := Unweighed(s.live[t].len)]))
      else None
    case RefuseBytes(t) =>
      if t in s.live && s.live[t].Unweighed?
      then Some(s.(count := Minus(s.count, 1), live := s.live - {t})) else None
    case Grant(t) =>
      if t in s.live && s.live[t].Weighed? && SaturatingAdd(s.live[t].prev, s.live[t].len) <= caps.bytes
      then Some(s.(live := s.live[t := Held(s.live[t].len)])) else None
    case DropCount(t) =>
      if t in s.live && s.live[t].Held?
      then Some(s.(count := Minus(s.count, 1), live := s.live[t := Dropping(s.live[t].len)])) else None
    case DropBytes(t) =>
      if t in s.live && s.live[t].Dropping?
      then Some(s.(bytes := Minus(s.bytes, s.live[t].len), live := s.live - {t})) else None
  }

  // ---- What the counters stand for -----------------------------------------------------------------

  function One(): Phase -> nat { (p: Phase) => 1 }

  function Len(): Phase -> nat { (p: Phase) => p.len }

  /** In the count now. */
  function InCount(): Phase -> nat { (p: Phase) => if p.Dropping? then 0 else 1 }

  /** In the byte total now. */
  function InBytes(): Phase -> nat { (p: Phase) => if p.Weighed? || p.Held? || p.Dropping? then p.len else 0 }

  /** Past the count gate and still counted. */
  function PastCount(caps: Caps): Phase -> nat {
    (p: Phase) => if p.Dropping? || (p.Counted? && p.prev >= caps.count) then 0 else 1
  }

  /** Granted, or sure to be by its own next step. */
  function PastBytes(caps: Caps): Phase -> nat {
    (p: Phase) => if p.Held? || (p.Weighed? && SaturatingAdd(p.prev, p.len) <= caps.bytes) then p.len else 0
  }

  function IsHeld(): Phase -> nat { (p: Phase) => if p.Held? then 1 else 0 }

  function HeldLen(): Phase -> nat { (p: Phase) => if p.Held? then p.len else 0 }

  /** The lengths of everything in flight at once do not wrap a word. */
  ghost predicate Fits(s: State) {
    Total(s.live, One()) < WORD && Total(s.live, Len()) < WORD
  }

  ghost predicate Inv(s: State, caps: Caps) {
    && s.count == Total(s.live, InCount())
    && s.bytes == Total(s.live, InBytes())
    && Total(s.live, PastCount(caps)) <= caps.count
    && Total(s.live, PastBytes(caps)) <= caps.bytes
  }

  lemma Bounds(m: map<Token, Phase>, caps: Caps)
    ensures Total(m, InCount()) <= Total(m, One())
    ensures Total(m, InBytes()) <= Total(m, Len())
    ensures Total(m, PastCount(caps)) <= Total(m, InCount())
    ensures Total(m, PastBytes(caps)) <= Total(m, InBytes())
    ensures Total(m, IsHeld()) <= Total(m, PastCount(caps))
    ensures Total(m, HeldLen()) <= Total(m, PastBytes(caps))
  {
    TotalBelow(m, InCount(), One());
    TotalBelow(m, InBytes(), Len());
    TotalBelow(m, PastCount(caps), InCount());
    TotalBelow(m, PastBytes(caps), InBytes());
    TotalBelow(m, IsHeld(), PastCount(caps));
    TotalBelow(m, HeldLen(), PastBytes(caps));
  }

  /** How a weight's total changes when one token's phase is set or the token leaves. */
  ghost predicate Shifts(m: map<Token, Phase>, t: Token, p: Phase, w: Phase -> nat) {
    if t in m then
      && Total(m[t := p], w) + w(m[t]) == Total(m, w) + w(p)
      && Total(m, w) == w(m[t]) + Total(m - {t}, w)
    else Total(m[t := p], w) == Total(m, w) + w(p)
  }

  lemma SetPhase(m: map<Token, Phase>, t: Token, p: Phase, w: Phase -> nat)
    ensures Shifts(m, t, p, w)
  {
    if t in m {
      TotalUpdate(m, w, t, p);
      TotalRemove(m, w, t);
    } else {
      TotalInsert(m, w, t, p);
    }
  }

  lemma SetPhaseAll(m: map<Token, Phase>, t: Token, p: Phase, caps: Caps)
    ensures Shifts(m, t, p, InCount()) && Shifts(m, t, p, InBytes())
    ensures Shifts(m, t, p, PastCount(caps)) && Shifts(m, t, p, PastBytes(caps))
  {
    SetPhase(m, t, p, InCount());
    SetPhase(m, t, p, InBytes());
    SetPhase(m, t, p, PastCount(caps));
    SetPhase(m, t, p, PastBytes(caps));
  }

  lemma EntryKeeps(s: State, caps: Caps, t: Token, len: nat, s': State)
    requires Inv(s, caps) && Next(s, caps, AddCount(t, len)) == Some(s') && Fits(s')
    ensures Inv(s', caps)
  {
    SetPhaseAll(s.live, t, Counted(len, s.count), caps);
    Bounds(s'.live, caps);
  }

  lemma WeighKeeps(s: State, caps: Caps, t: Token, s': State)
    requires Inv(s, caps) && Next(s, caps, AddBytes(t)) == Some(s') && Fits(s')
    ensures Inv(s', caps)
  {
    SetPhaseAll(s.live, t, Weighed(s.live[t].len, s.bytes), caps);
    Bounds(s'.live, caps);
  }

  lemma StayKeeps(s: State, caps: Caps, step: Step, s': State)
    requires Inv(s, caps) && Next(s, caps, step) == Some(s')
    requires step.RollBackBytes? || step.Grant? || step.DropCount?
    ensures Inv(s', caps)
  {
    SetPhaseAll(s.live, step.t, s'.live[step.t], caps);
  }

  lemma LeaveKeeps(s: State, caps: Caps, step: Step, s': State)
    requires Inv(s, caps) && Next(s, caps, step) == Some(s')
    requires step.RefuseCount? || step.RefuseBytes? || step.DropBytes?
    ensures Inv(s', caps)
  {
    SetPhaseAll(s.live, step.t, s.live[step.t], caps);
  }

  /**
    Every atomic step of every thread keeps both counters equal to what the attempts
    and guards in flight put there, and keeps what has passed each gate within its cap.
  */
  lemma NextKeeps(s: State, caps: Caps, step: Step, s': State)
    requires Inv(s, caps) && Next(s, caps, step) == Some(s') && Fits(s')
    ensures Inv(s', caps)
  {
    match step {
      case AddCount(t, len) => EntryKeeps(s, caps, t, len, s');
      case AddBytes(t) => WeighKeeps(s, caps, t, s');
      case RollBackBytes(_) => StayKeeps(s, caps, step, s');
      case Grant(_) => StayKeeps(s, caps, step, s');
      case DropCount(_) => StayKeeps(s, caps, step, s');
      case RefuseCount(_) => LeaveKeeps(s, caps, step, s');
      case RefuseBytes(_) => LeaveKeeps(s, caps, step, s');
      case DropBytes(_) => LeaveKeeps(s, caps, step, s');
    }
  }

  // ---- Every interleaving ------------------------------------------------------------------------------

  const EMPTY := State(0, 0, map[])

  ghost predicate Steps(run: seq<State>, caps: Caps, steps: seq<Step>) {
    |run| == |steps| + 1 && forall i :: 0 <= i < |steps| ==> Next(run[i], caps, steps[i]) == Some(run[i + 1])
  }

  /** Any interleaving of any threads' steps whose simultaneous lengths never wrap a word. */
  ghost predicate Behavior(run: seq<State>, caps: Caps, steps: seq<Step>) {
    Steps(run, caps, steps) && run[0] == EMPTY && forall i :: 0 <= i < |run| ==> Fits(run[i])
  }

  lemma {:induction false} AlwaysInv(run: seq<State>, caps: Caps, steps: seq<Step>, n: nat)
    requires Behavior(run, caps, steps) && n < |run|
    ensures Inv(run[n], caps)
  {
    if n > 0 {
      AlwaysInv(run, caps, steps, n - 1);
      assert Next(run[n - 1], caps, steps[n - 1]) == Some(run[n - 1 + 1]);
      NextKeeps(run[n - 1], caps, steps[n - 1], run[n]);
    }
  }

  /** The guards alive at any moment never exceed either cap. */
  lemma GuardsWithinCaps(run: seq<State>, caps: Caps, steps: seq<Step>, n: nat)
    requires Behavior(run, caps, steps) && n < |run|
    ensures Total(run[n].live, IsHeld()) <= caps.count
    ensures Total(run[n].live, HeldLen()) <= caps.bytes
  {
    AlwaysInv(run, caps, steps, n);
    Bounds(run[n].live, caps);
  }

  ghost predicate Quiet(s: State) {
    forall t :: t in s.live ==> s.live[t].Held?
  }

  /** When no attempt is mid-flight both counters are exactly the live guards. */
  lemma QuietCountersAreGuards(run: seq<State>, caps: Caps, steps: seq<Step>, n: nat)
    requires Behavior(run, caps, steps) && n < |run| && Quiet(run[n])
    ensures run[n].count == Total(run[n].live, IsHeld()) == Total(run[n].live, One())
    ensures run[n].bytes == Total(run[n].live, HeldLen()) == Total(run[n].live, Len())
  {
    var m := run[n].live;
    AlwaysInv(run, caps, steps, n);
    TotalBelow(m, IsHeld(), InCount());
    TotalBelow(m, InCount(), IsHeld());
    TotalBelow(m, One(), IsHeld());
    TotalBelow(m, IsHeld(), One());
    TotalBelow(m, HeldLen(), InBytes());
    TotalBelow(m, InBytes(), HeldLen());
    TotalBelow(m, Len(), HeldLen());
    TotalBelow(m, HeldLen(), Len());
  }

  /** An attempt that has been refused is in neither counter any more. */
  lemma RefusedLeavesNothing(run: seq<State>, caps: Caps, steps: seq<Step>, n: nat)
    requires Behavior(run, caps, steps) && n < |steps| && (steps[n].RefuseCount? || steps[n].RefuseBytes?)
    ensures var others := run[n].live - {steps[n].t};
            && run[n + 1].live == others
            && run[n + 1].count == Total(others, InCount())
            && run[n + 1].bytes == Total(others, InBytes())
  {
    AlwaysInv(run, caps, steps, n + 1);
  }

  // ---- One thread at a time ------------------------------------------------------------------------------

  /** The steps one undisturbed attempt takes. */
  function Attempt(s: State, caps: Caps, t: Token, len: nat): seq<Step> {
    if s.count >= caps.count then [AddCount(t, len), RefuseCount(t)]
    else if SaturatingAdd(s.bytes, len) > caps.bytes then
      [AddCount(t, len), AddBytes(t), RollBackBytes(t), RefuseBytes(t)]
    else [AddCount(t, len), AddBytes(t), Grant(t)]
  }

  /** Its intermediate states. */
  function Trail(s: State, caps: Caps, t: Token, len: nat): seq<State> {
    var counted := State(s.count + 1, s.bytes, s.live[t := Counted(len, s.count)]);
    var weighed := State(s.count + 1, s.bytes + len, s.live[t := Weighed(len, s.bytes)]);
    if s.count >= caps.count then [s, counted, s]
    else if s.bytes + len > caps.bytes then
      [s, counted, weighed, State(s.count + 1, s.bytes, s.live[t := Unweighed(len)]), s]
    else [s, counted, weighed, State(s.count + 1, s.bytes + len, s.live[t := Held(len)])]
  }

  lemma Overwrite(m: map<Token, Phase>, t: Token, p: Phase, q: Phase)
    requires t !in m
    ensures m[t := p][t := q] == m[t := q] && m[t := p] - {t} == m
  {}

  lemma AttemptTrail(s: State, caps: Caps, t: Token, len: nat)
    requires t !in s.live && caps.bytes < WORD && 0 <= s.count && 0 <= s.bytes
    requires s.count + 1 < WORD && s.bytes + len < WORD
    ensures Steps(Trail(s, caps, t, len), caps, Attempt(s, caps, t, len))
  {
    Overwrite(s.live, t, Counted(len, s.count), Weighed(len, s.bytes));
    Overwrite(s.live, t, Weighed(len, s.bytes), Unweighed(len));
    Overwrite(s.live, t, Weighed(len, s.bytes), Held(len));
    Overwrite(s.live, t, Unweighed(len), Held(len));
  }

  /**
    With nobody else mid-flight an attempt is granted exactly when the live guards
    leave room under both caps, and a refusal leaves the whole state as it was.
  */
  lemma UndisturbedAttempt(s: State, caps: Caps, t: Token, len: nat)
    requires Inv(s, caps) && Quiet(s) && t !in s.live && caps.bytes < WORD
    requires s.count + 1 < WORD && s.bytes + len < WORD
    ensures var run := Trail(s, caps, t, len);
            var granted := Total(s.live, IsHeld()) < caps.count && Total(s.live, HeldLen()) + len <= caps.bytes;
            && Steps(run, caps, Attempt(s, caps, t, len)) && run[0] == s
            && run[|run| - 1] == if granted then State(s.count + 1, s.bytes + len, s.live[t := Held(len)]) else s
  {
    TotalBelow(s.live, IsHeld(), InCount());
    TotalBelow(s.live, InCount(), IsHeld());
    TotalBelow(s.live, HeldLen(), InBytes());
    TotalBelow(s.live, InBytes(), HeldLen());
    AttemptTrail(s, caps, t, len);
  }

  /** Each attempt and guard has exactly one step it can take next: what it read decides which. */
  lemma EachThreadHasOneStep(s: State, caps: Caps, t: Token) returns (step: Step)
    requires t in s.live
    ensures step.t == t && Next(s, caps, step).Some?
    ensures forall other: Step :: other.t == t && Next(s, caps, other).Some? ==> other == step
  {
    match s.live[t] {
      case Counted(_, prev) => step := if prev >= caps.count then RefuseCount(t) else AddBytes(t);
      case Weighed(len, prev) => step := if SaturatingAdd(prev, len) > caps.bytes then RollBackBytes(t) else Grant(t);
      case Unweighed(_) => step := RefuseBytes(t);
      case Held(_) => step := DropCount(t);
      case Dropping(_) => step := DropBytes(t);
    }
  }

  // ---- The budget object -----------------------------------------------------------------------------------

  class InflightBudget {
    var count: int
    var bytes: int
    const caps: Caps

    ghost predicate Valid()
      reads this
    { 0 <= count < WORD && 0 <= bytes < WORD && caps.bytes < WORD }

    constructor (maxCount: nat, maxBytes: nat)
      requires maxBytes < WORD
      ensures Valid() && count == 0 && bytes == 0 && caps == Caps(maxCount, maxBytes)
    {
      count, bytes := 0, 0;
      caps := Caps(maxCount, maxBytes);
    }

    /** Optimistic add and rollback; a refusal puts both counters back even across a wrap. */
    method TryReserve(len: nat) returns (ok: bool)
      requires Valid() && len < WORD
      modifies this
      ensures Valid()
      ensures ok <==> old(count) < caps.count && SaturatingAdd(old(bytes), len) <= caps.bytes
      ensures count == (if ok then Plus(old(count), 1) else old(count))
      ensures bytes == (if ok then Plus(old(bytes), len) else old(bytes))
    {
      var prevCount := count;
      count := Plus(count, 1);
      if prevCount >= caps.count {
        count := Minus(count, 1);
        return false;
      }
      var prevBytes := bytes;
      bytes := Plus(bytes, len);
      if SaturatingAdd(prevBytes, len) > caps.bytes {
        bytes := Minus(bytes, len);
        count := Minus(count, 1);
        return false;
      }
      ok := true;
    }

    /** A guard's drop. */
    method Release(len: nat)
      requires Valid() && len < WORD
      modifies this
      ensures Valid() && count == Minus(old(count), 1) && bytes == Minus(old(bytes), len)
    {
      count := Minus(count, 1);
      bytes := Minus(bytes, len);
    }
  }

  // ---- What the protocol does not promise --------------------------------------------------------------------

  /**
    `Busy` can be spurious: an attempt may be refused on the count with no guard held
    at all, because another attempt that is itself about to fail was counted first.
  */
  lemma BusyCanBeSpurious()
    ensures var caps := Caps(1, 0);
            exists run: seq<State> :: Steps(run, caps, [AddCount(1, 5), AddCount(2, 0), RefuseCount(2)]) && run[0] == EMPTY
              && forall t :: t in run[2].live ==> !run[2].live[t].Held?
  {
    var one := State(1, 0, map[1 := Counted(5, 0)]);
    var two := State(2, 0, map[1 := Counted(5, 0), 2 := Counted(0, 1)]);
    assert two.live - {2} == one.live;
    var run := [EMPTY, one, two, one];
    assert Steps(run, Caps(1, 0), [AddCount(1, 5), AddCount(2, 0), RefuseCount(2)]);
  }

  const HOLDING: map<Token, Phase> := map[1 := Held(10)]
  const LAPPED: map<Token, Phase> := HOLDING[2 := Weighed(WORD - 10, 10)]

  /** Ten bytes held, and two attempts in flight around them. */
  function WrapRun(): seq<State> {
    [ State(1, 10, HOLDING),
      State(2, 10, HOLDING[2 := Counted(WORD - 10, 1)]),
      State(2, 0, LAPPED),
      State(3, 0, LAPPED[3 := Counted(10, 2)]),
      State(3, 10, LAPPED[3 := Weighed(10, 0)]),
      State(3, 10, LAPPED[3 := Held(10)]) ]
  }

  lemma WrapRunSteps()
    ensures Steps(WrapRun(), Caps(9, 10), [AddCount(2, WORD - 10), AddBytes(2), AddCount(3, 10), AddBytes(3), Grant(3)])
  {
    Overwrite(HOLDING, 2, Counted(WORD - 10, 1), Weighed(WORD - 10, 10));
    Overwrite(LAPPED, 3, Counted(10, 2), Weighed(10, 0));
    Overwrite(LAPPED, 3, Weighed(10, 0), Held(10));
  }

  lemma WrapRunHolds()
    ensures Total(LAPPED[3 := Held(10)], HeldLen()) == 20
  {
    var none: map<Token, Phase> := map[];
    assert HOLDING == none[1 := Held(10)];
    SetPhase(none, 1, Held(10), HeldLen());
    SetPhase(HOLDING, 2, Weighed(WORD - 10, 10), HeldLen());
    SetPhase(LAPPED, 3, Held(10), HeldLen());
  }

  /** From the empty budget: ten bytes reserved, then the run above. */
  function WrapTrail(): seq<State> { Trail(EMPTY, Caps(9, 10), 1, 10) + WrapRun()[1..] }

  function WrapSteps(): seq<Step> {
    [AddCount(1, 10), AddBytes(1), Grant(1)]
    + [AddCount(2, WORD - 10), AddBytes(2), AddCount(3, 10), AddBytes(3), Grant(3)]
  }

  lemma StepsThen(a: seq<State>, first: seq<Step>, b: seq<State>, second: seq<Step>, caps: Caps)
    requires Steps(a, caps, first) && Steps(b, caps, second) && a[|first|] == b[0]
    ensures Steps(a + b[1..], caps, first + second) && (a + b[1..])[|first + second|] == b[|second|]
  {
    var run, steps := a + b[1..], first + second;
    forall i | 0 <= i < |steps|
      ensures Next(run[i], caps, steps[i]) == Some(run[i + 1])
    {
      if i < |first| {
        assert Next(a[i], caps, first[i]) == Some(a[i + 1]);
      } else {
        assert Next(b[i - |first|], caps, second[i - |first|]) == Some(b[i - |first| + 1]);
      }
    }
  }

  /**
    The byte cap does rest on the lengths not wrapping. In this run from the empty budget
    ten bytes are held, an attempt of 2^64 - 10 brings the counter round to zero, and until
    it rolls back another ten bytes are granted under a cap of ten.
  */
  lemma WrapBreaksTheByteCap()
    ensures Steps(WrapTrail(), Caps(9, 10), WrapSteps()) && WrapTrail()[0] == EMPTY
    ensures Total(WrapTrail()[|WrapSteps()|].live, HeldLen()) == 20
  {
    var caps := Caps(9, 10);
    assert EMPTY.live[1 := Held(10)] == HOLDING;
    AttemptTrail(EMPTY, caps, 1, 10);
    WrapRunSteps();
    WrapRunHolds();
    StepsThen(Trail(EMPTY, caps, 1, 10), [AddCount(1, 10), AddBytes(1), Grant(1)], WrapRun(),
              [AddCount(2, WORD - 10), AddBytes(2), AddCount(3, 10), AddBytes(3), Grant(3)], caps);
  }
}
