/** The window of unacknowledged appends to one peer. */
module Inflights {
  type Index = nat

  datatype Sent = Sent(index: Index, bytes: nat)

  function Sum(s: seq<Sent>): nat { if s == [] then 0 else s[0].bytes + Sum(s[1..]) }

  /** What a front-to-back release leaves. */
  function Released(s: seq<Sent>, to: Index): seq<Sent> {
    if s == [] || s[0].index > to then s else Released(s[1..], to)
  }

  /** The messages the peer has not acknowledged. */
  function Above(s: seq<Sent>, to: Index): seq<Sent> {
    if s == [] then [] else (if s[0].index > to then [s[0]] else []) + Above(s[1..], to)
  }

  ghost predicate InOrder(s: seq<Sent>) { forall i, j :: 0 <= i < j < |s| ==> s[i].index <= s[j].index }

  function LastIndex(s: seq<Sent>): Index { if s == [] then 0 else s[|s| - 1].index }

  lemma {:induction false} AllAbove(s: seq<Sent>, to: Index)
    requires forall i :: 0 <= i < |s| ==> s[i].index > to
    ensures Above(s, to) == s
    decreases |s|
  {
    if s != [] { AllAbove(s[1..], to); }
  }

  /** With messages sent in index order, releasing from the front is releasing exactly what is acknowledged. */
  lemma {:induction false} ReleasedIsAbove(s: seq<Sent>, to: Index)
    requires InOrder(s)
    ensures Released(s, to) == Above(s, to)
    decreases |s|
  {
    if s != [] {
      if s[0].index > to { AllAbove(s, to); } else { ReleasedIsAbove(s[1..], to); }
    }
  }

  /** At most `maxMsgs`, and what came before the last message was still under a nonzero byte cap. */
  ghost predicate Within(s: seq<Sent>, maxMsgs: nat, maxBytes: nat) {
    && |s| <= maxMsgs
    && (maxBytes != 0 && s != [] ==> Sum(s[..|s| - 1]) < maxBytes)
  }

  lemma {:induction false} SumPush(s: seq<Sent>, m: Sent)
    ensures Sum(s + [m]) == Sum(s) + m.bytes
    decreases |s|
  {
    if s != [] {
      assert (s + [m])[1..] == s[1..] + [m];
      SumPush(s[1..], m);
    }
  }

  lemma PopWithin(s: seq<Sent>, maxMsgs: nat, maxBytes: nat)
    requires s != [] && Within(s, maxMsgs, maxBytes)
    ensures Within(s[1..], maxMsgs, maxBytes)
  {
    if |s| > 1 {
      assert s[1..][..|s| - 2] == s[..|s| - 1][1..];
    }
  }

  /** The overshoot of a nonzero byte cap is less than the last message. */
  lemma OvershootIsOneMessage(s: seq<Sent>, maxMsgs: nat, maxBytes: nat)
    requires Within(s, maxMsgs, maxBytes) && maxBytes != 0 && s != []
    ensures Sum(s) < maxBytes + s[|s| - 1].bytes
  {
    SumPush(s[..|s| - 1], s[|s| - 1]);
    assert s[..|s| - 1] + [s[|s| - 1]] == s;
  }

  class Window {
    var inflight: seq<Sent>
    const maxMsgs: nat
    const maxBytes: nat
    var bytes: nat

    ghost predicate Valid()
      reads this
    { bytes == Sum(inflight) }

    ghost predicate Bounded()
      reads this
    { Within(inflight, maxMsgs, maxBytes) }

    constructor (maxMsgs: nat, maxBytes: nat)
      ensures Valid() && Bounded() && inflight == [] && this.maxMsgs == maxMsgs && this.maxBytes == maxBytes
    {
      this.maxMsgs, this.maxBytes := maxMsgs, maxBytes;
      inflight, bytes := [], 0;
    }

    predicate Full()
      reads this
    { |inflight| >= maxMsgs || (maxBytes != 0 && bytes >= maxBytes) }

    /** Adding while not full keeps the window bounded; adding in index order keeps it in order. */
    method Add(index: Index, size: nat)
      requires Valid()
      modifies this
      ensures Valid() && inflight == old(inflight) + [Sent(index, size)]
      ensures old(Bounded()) && !old(Full()) ==> Bounded()
      ensures InOrder(old(inflight)) && LastIndex(old(inflight)) <= index ==> InOrder(inflight)
    {
      SumPush(inflight, Sent(index, size));
      assert (inflight + [Sent(index, size)])[..|inflight|] == inflight;
      inflight := inflight + [Sent(index, size)];
      bytes := bytes + size;
    }

    /** With indices added in order, what remains is exactly what the acknowledgement does not reach. */
    method FreeLe(to: Index)
      requires Valid()
      modifies this
      ensures Valid() && inflight == Released(old(inflight), to)
      ensures InOrder(old(inflight)) ==> InOrder(inflight) && inflight == Above(old(inflight), to)
      ensures old(Bounded()) ==> Bounded()
    {
      if InOrder(inflight) { ReleasedIsAbove(inflight, to); }
      while inflight != [] && inflight[0].index <= to
        invariant Valid()
        invariant old(Bounded()) ==> Bounded()
        invariant InOrder(old(inflight)) ==> InOrder(inflight)
        invariant Released(inflight, to) == Released(old(inflight), to)
        decreases |inflight|
      {
        if Bounded() { PopWithin(inflight, maxMsgs, maxBytes); }
        bytes := bytes - inflight[0].bytes;
        inflight := inflight[1..];
      }
    }

    method FreeFirstOne()
      requires Valid()
      modifies this
      ensures Valid() && inflight == if old(inflight) == [] then [] else old(inflight)[1..]
      ensures old(Bounded()) ==> Bounded()
      ensures InOrder(old(inflight)) ==> InOrder(inflight)
    {
      if inflight != [] {
        if Bounded() { PopWithin(inflight, maxMsgs, maxBytes); }
        bytes := bytes - inflight[0].bytes;
        inflight := inflight[1..];
      }
    }

    method Reset()
      modifies this
      ensures Valid() && Bounded() && inflight == [] && InOrder(inflight)
    {
      inflight, bytes := [], 0;
    }
  }

  // ---- Every run ------------------------------------------------------------------------------------------

  datatype Step = Send(index: Index, bytes: nat) | Ack(to: Index) | FreeOne | Reset

  /** The leader sends in index order and only while the window is not full. */
  predicate Enabled(s: seq<Sent>, maxMsgs: nat, maxBytes: nat, step: Step) {
    step.Send? ==> LastIndex(s) <= step.index && |s| < maxMsgs && (maxBytes == 0 || Sum(s) < maxBytes)
  }

  /** The window calls itself full exactly when the leader may send nothing more, whatever its index and size. */
  lemma FullIff(w: Window)
    requires w.Valid()
    ensures w.Full() <==> forall m: Sent :: !Enabled(w.inflight, w.maxMsgs, w.maxBytes, Send(m.index, m.bytes))
  {
    var m := Sent(LastIndex(w.inflight), 0);
    assert !w.Full() ==> Enabled(w.inflight, w.maxMsgs, w.maxBytes, Send(m.index, m.bytes));
  }

  function Next(s: seq<Sent>, step: Step): seq<Sent> {
    match step
    case Send(index, bytes) => s + [Sent(index, bytes)]
    case Ack(to) => Released(s, to)
    case FreeOne => if s == [] then [] else s[1..]
    case Reset => []
  }

  ghost predicate Behavior(run: seq<seq<Sent>>, maxMsgs: nat, maxBytes: nat, steps: seq<Step>) {
    && |run| == |steps| + 1 && run[0] == []
    && forall k :: 0 <= k < |steps| ==> Enabled(run[k], maxMsgs, maxBytes, steps[k]) && Next(run[k], steps[k]) == run[k + 1]
  }

  lemma {:induction false} ReleasedKeeps(s: seq<Sent>, to: Index, maxMsgs: nat, maxBytes: nat)
    requires InOrder(s) && Within(s, maxMsgs, maxBytes)
    ensures InOrder(Released(s, to)) && Within(Released(s, to), maxMsgs, maxBytes)
    decreases |s|
  {
    if s != [] && s[0].index <= to {
      PopWithin(s, maxMsgs, maxBytes);
      ReleasedKeeps(s[1..], to, maxMsgs, maxBytes);
    }
  }

  lemma NextKeeps(s: seq<Sent>, maxMsgs: nat, maxBytes: nat, step: Step)
    requires InOrder(s) && Within(s, maxMsgs, maxBytes) && Enabled(s, maxMsgs, maxBytes, step)
    ensures InOrder(Next(s, step)) && Within(Next(s, step), maxMsgs, maxBytes)
  {
    match step {
      case Send(index, bytes) => assert (s + [Sent(index, bytes)])[..|s|] == s;
      case Ack(to) => ReleasedKeeps(s, to, maxMsgs, maxBytes);
      case FreeOne => if s != [] { PopWithin(s, maxMsgs, maxBytes); }
      case Reset =>
    }
  }

  lemma {:induction false} AlwaysBounded(run: seq<seq<Sent>>, maxMsgs: nat, maxBytes: nat, steps: seq<Step>, n: nat)
    requires Behavior(run, maxMsgs, maxBytes, steps) && n < |run|
    ensures InOrder(run[n]) && Within(run[n], maxMsgs, maxBytes)
  {
    if n > 0 {
      AlwaysBounded(run, maxMsgs, maxBytes, steps, n - 1);
      assert Next(run[n - 1], steps[n - 1]) == run[n - 1 + 1];
      NextKeeps(run[n - 1], maxMsgs, maxBytes, steps[n - 1]);
    }
  }

  /**
    In every run the count stays within its cap, a nonzero byte cap is overshot by less
    than the last message, and an acknowledgement leaves exactly what it does not reach.
  */
  lemma WindowIsBoundedAndExact(run: seq<seq<Sent>>, maxMsgs: nat, maxBytes: nat, steps: seq<Step>, n: nat, to: Index)
    requires Behavior(run, maxMsgs, maxBytes, steps) && n < |run|
    ensures |run[n]| <= maxMsgs
    ensures maxBytes != 0 && run[n] != [] ==> Sum(run[n]) < maxBytes + run[n][|run[n]| - 1].bytes
    ensures Released(run[n], to) == Above(run[n], to)
  {
    AlwaysBounded(run, maxMsgs, maxBytes, steps, n);
    if maxBytes != 0 && run[n] != [] { OvershootIsOneMessage(run[n], maxMsgs, maxBytes); }
    ReleasedIsAbove(run[n], to);
  }
}
