/**
  The chunked snapshot transfer: a leader streams a blob from its resume cursor, the
  follower stages each chunk and acknowledges its contiguous watermark, and the
  network may lose, duplicate, reorder and delay both chunks and acknowledgements.
*/
module Transfer {
  import opened Staging

  /** What the leader reads off its resident snapshot. */
  function SnapshotChunk(blob: seq<Byte>, offset: nat, len: nat): (c: Chunk)
    ensures c.offset == offset
    ensures |c.data| == if offset <= |blob| then Min(len, |blob| - offset) else 0
    ensures offset <= |blob| ==> c.data == blob[offset..offset + |c.data|]
  {
    var start, end := Min(offset, |blob|), Min(offset + len, |blob|);
    Chunk(offset, blob[start..end])
  }

  /** `chunks` and `acks` hold everything ever sent: delivery takes nothing out. */
  datatype State = State(blob: seq<Byte>, stage: Stage, cursor: nat, chunks: set<Chunk>, acks: set<nat>, poisoned: bool)

  datatype Step =
    | Send(len: nat)
    | Deliver(chunk: Chunk, accepted: bool, stage: Stage)
    | Ack(offset: nat)

  ghost predicate Init(s: State) {
    && s.stage == Stage(seq(|s.blob|, _ => 0), [])
    && s.cursor == 0 && s.chunks == {} && s.acks == {} && !s.poisoned
  }

  /** A refused chunk fail-stops the follower; an ack past the blob is dropped by the leader. */
  ghost predicate Next(s: State, step: Step, s': State) {
    match step
    case Send(len) =>
      s' == s.(chunks := s.chunks + {SnapshotChunk(s.blob, s.cursor, len)})
    case Deliver(c, accepted, stage) =>
      && c in s.chunks && !s.poisoned && AcceptSpec(s.stage, c, accepted, stage)
      && s' == (if accepted then s.(stage := stage, acks := s.acks + {Contiguous(stage.runs)})
                else s.(stage := stage, poisoned := true))
    case Ack(offset) =>
      && offset in s.acks
      && s' == if offset <= |s.blob| then s.(cursor := offset) else s
  }

  function Watermark(s: State): nat { Contiguous(s.stage.runs) }

  /** The one run a transfer ever holds. */
  function Prefix(c: nat): seq<Run> { if c == 0 then [] else [Run(0, c)] }

  ghost predicate Inv(s: State) {
    && !s.poisoned
    && |s.stage.buf| == |s.blob| && Watermark(s) <= |s.blob|
    && s.stage.runs == Prefix(Watermark(s))
    && s.stage.buf[..Watermark(s)] == s.blob[..Watermark(s)]
    && s.cursor <= Watermark(s)
    && (forall a :: a in s.acks ==> a <= Watermark(s))
    && (forall c :: c in s.chunks ==> FromBlob(s.blob, c) && c.offset <= Watermark(s))
  }

  ghost predicate FromBlob(blob: seq<Byte>, c: Chunk) {
    c.offset + |c.data| <= |blob| && c.data == blob[c.offset..c.offset + |c.data|]
  }

  lemma PrefixCovers(c: nat, i: nat)
    ensures Covered(Prefix(c), i) <==> i < c
    ensures Canonical(Prefix(c)) && Contiguous(Prefix(c)) == c && |Prefix(c)| <= 1
  {
    if c > 0 && i < c { assert Prefix(c)[0].lo <= i < Prefix(c)[0].hi; }
  }

  /** A chunk that touches the written prefix only ever lengthens it, and is never refused. */
  lemma ChunkExtendsPrefix(s: Stage, c: Chunk, w: nat, ok: bool, s': Stage)
    requires s.runs == Prefix(w) && c.offset <= w && c.offset + |c.data| <= |s.buf|
    requires AcceptSpec(s, c, ok, s')
    ensures ok && s'.runs == Prefix(if c.offset + |c.data| > w then c.offset + |c.data| else w)
  {
    var end := c.offset + |c.data|;
    var w' := if end > w then end else w;
    PrefixCovers(w, 0);
    PrefixCovers(w', 0);
    if c.data != [] {
      forall i: nat ensures Covered(s'.runs, i) <==> Covered(Prefix(w'), i) {
        PrefixCovers(w, i);
        PrefixCovers(w', i);
      }
      assert SameBytes(Prefix(w'), s'.runs);
      if ok {
        CanonicalUnique(s'.runs, Prefix(w'));
      }
    }
  }

  lemma CopyExtendsPrefix(blob: seq<Byte>, buf: seq<Byte>, c: Chunk, w: nat)
    requires |buf| == |blob| && w <= |blob| && buf[..w] == blob[..w]
    requires FromBlob(blob, c) && c.offset <= w
    ensures var end := c.offset + |c.data|;
            var w' := if end > w then end else w;
            Overlay(buf, c)[..w'] == blob[..w']
  {
    var end := c.offset + |c.data|;
    var w' := if end > w then end else w;
    forall i | 0 <= i < w' ensures Overlay(buf, c)[i] == blob[i] {
      OverlayAt(buf, c, i);
      if i < w { assert buf[..w][i] == blob[..w][i]; }
    }
  }

  lemma InitInv(s: State)
    requires Init(s)
    ensures Inv(s)
  {
  }

  /**
    Each step keeps the invariant, and the acknowledged watermark never falls. A
    delivered chunk that starts at the watermark and is not empty strictly raises it.
  */
  lemma NextKeeps(s: State, step: Step, s': State)
    requires Inv(s) && Next(s, step, s')
    ensures Inv(s') && s'.blob == s.blob
    ensures Watermark(s) <= Watermark(s')
    ensures step.Deliver? ==>
              Watermark(s') == (var end := step.chunk.offset + |step.chunk.data|;
                                if end > Watermark(s) then end else Watermark(s))
  {
    match step {
      case Send(len) =>
      case Ack(offset) =>
      case Deliver(c, ok, stage) =>
        var w := Watermark(s);
        ChunkExtendsPrefix(s.stage, c, w, ok, stage);
        CopyExtendsPrefix(s.blob, s.stage.buf, c, w);
        PrefixCovers(w, 0);
        PrefixCovers(if c.offset + |c.data| > w then c.offset + |c.data| else w, 0);
    }
  }

  ghost predicate Steps(run: seq<State>, steps: seq<Step>) {
    |run| == |steps| + 1 && forall i :: 0 <= i < |steps| ==> Next(run[i], steps[i], run[i + 1])
  }

  ghost predicate Behavior(run: seq<State>, steps: seq<Step>) { Steps(run, steps) && Init(run[0]) }

  lemma {:induction false} AlwaysInv(run: seq<State>, steps: seq<Step>, n: nat)
    requires Behavior(run, steps) && n < |run|
    ensures Inv(run[n]) && run[n].blob == run[0].blob
  {
    if n == 0 {
      InitInv(run[0]);
    } else {
      AlwaysInv(run, steps, n - 1);
      assert Next(run[n - 1], steps[n - 1], run[n - 1 + 1]);
      NextKeeps(run[n - 1], steps[n - 1], run[n]);
    }
  }

  /**
    In every run: the follower is never fail-stopped, holds at most one run, and its
    watermark never falls between any two points; once the watermark reaches the
    total, the staged bytes are the blob.
  */
  lemma {:induction false} TransferIsFaithful(run: seq<State>, steps: seq<Step>, m: nat, n: nat)
    requires Behavior(run, steps) && m <= n < |run|
    ensures !run[n].poisoned && |run[n].stage.runs| <= 1
    ensures Watermark(run[m]) <= Watermark(run[n])
    ensures Watermark(run[n]) == |run[0].blob| ==> run[n].stage.buf == run[0].blob
    decreases n
  {
    AlwaysInv(run, steps, n);
    if m < n {
      TransferIsFaithful(run, steps, m, n - 1);
      AlwaysInv(run, steps, n - 1);
      assert Next(run[n - 1], steps[n - 1], run[n - 1 + 1]);
      NextKeeps(run[n - 1], steps[n - 1], run[n]);
    }
    if Watermark(run[n]) == |run[0].blob| {
      assert run[n].stage.buf[..|run[0].blob|] == run[n].stage.buf;
      assert run[n].blob[..|run[0].blob|] == run[0].blob;
    }
  }

  // ---- The transfer can always be finished --------------------------------------------------------------

  /** The follower's state and acknowledgement after this chunk. */
  function Delivered(s: State, c: Chunk): State {
    var end := c.offset + |c.data|;
    var w := if end > Watermark(s) then end else Watermark(s);
    s.(stage := Stage(Overlay(s.stage.buf, c), Prefix(w)), acks := s.acks + {w})
  }

  /** A chunk in the network can be delivered, and is accepted. */
  lemma CanDeliver(s: State, c: Chunk)
    requires Inv(s) && c in s.chunks
    ensures var s' := Delivered(s, c);
            Next(s, Deliver(c, true, s'.stage), s') && Watermark(s') in s'.acks
            && Watermark(s') == if c.offset + |c.data| > Watermark(s) then c.offset + |c.data| else Watermark(s)
  {
    var w := Watermark(s);
    var end := c.offset + |c.data|;
    var w' := if end > w then end else w;
    PrefixCovers(w, 0);
    PrefixCovers(w', 0);
    forall i: nat
      ensures Covered(Prefix(w'), i) <==> Covered(Prefix(w), i) || c.offset <= i < end
    {
      PrefixCovers(w, i);
      PrefixCovers(w', i);
    }
    assert InsertSpec(Prefix(w), c.offset, end, true, Prefix(w'));
  }

  /** Send a chunk of up to `len` bytes from the cursor and deliver it. */
  lemma CanResend(s: State, len: nat) returns (s': State, steps: seq<Step>, run: seq<State>)
    requires Inv(s)
    ensures Steps(run, steps) && run[0] == s && run[|steps|] == s' && Inv(s')
    ensures s'.blob == s.blob && s'.cursor == s.cursor && s'.acks >= s.acks && Watermark(s') in s'.acks
    ensures Watermark(s') == var end := s.cursor + Min(len, |s.blob| - s.cursor); if end > Watermark(s) then end else Watermark(s)
    ensures SendsOf(steps, len)
  {
    var c := SnapshotChunk(s.blob, s.cursor, len);
    var sent := s.(chunks := s.chunks + {c});
    NextKeeps(s, Send(len), sent);
    CanDeliver(sent, c);
    s' := Delivered(sent, c);
    NextKeeps(sent, Deliver(c, true, s'.stage), s');
    steps, run := [Send(len), Deliver(c, true, s'.stage)], [s, sent, s'];
  }

  /** Every chunk sent asks for `len` bytes. */
  ghost predicate SendsOf(steps: seq<Step>, len: nat) { forall i :: 0 <= i < |steps| && steps[i].Send? ==> steps[i].len == len }

  lemma StepsThen(a: seq<State>, first: seq<Step>, b: seq<State>, second: seq<Step>)
    requires Steps(a, first) && Steps(b, second) && a[|first|] == b[0]
    ensures Steps(a + b[1..], first + second)
    ensures (a + b[1..])[0] == a[0] && (a + b[1..])[|first + second|] == b[|second|]
  {
    var run, steps := a + b[1..], first + second;
    forall i | 0 <= i < |steps|
      ensures Next(run[i], steps[i], run[i + 1])
    {
      if i < |first| {
        assert Next(a[i], first[i], a[i + 1]);
      } else {
        assert Next(b[i - |first|], second[i - |first|], b[i - |first| + 1]);
      }
    }
  }

  /** Resend, then hear the watermark that came back. */
  lemma CanHear(s: State, len: nat) returns (s': State, steps: seq<Step>, run: seq<State>)
    requires Inv(s)
    ensures Steps(run, steps) && run[0] == s && run[|steps|] == s' && Inv(s')
    ensures s'.blob == s.blob && s'.cursor == Watermark(s') && s'.acks >= s.acks + {s'.cursor} && SendsOf(steps, len)
    ensures Watermark(s') == var end := s.cursor + Min(len, |s.blob| - s.cursor); if end > Watermark(s) then end else Watermark(s)
  {
    var heard, first, trail := CanResend(s, len);
    s' := heard.(cursor := Watermark(heard));
    NextKeeps(heard, Ack(s'.cursor), s');
    StepsThen(trail, first, [heard, s'], [Ack(s'.cursor)]);
    steps, run := first + [Ack(s'.cursor)], trail + [heard, s'][1..];
  }

  /**
    From every unfinished state of the invariant and for every chunk size there is a
    short run after which strictly fewer bytes are missing: resend from wherever the
    cursor is, hear the watermark that comes back, and send from there.
  */
  lemma CanAdvance(s: State, len: nat) returns (s': State, steps: seq<Step>, run: seq<State>)
    requires Inv(s) && Watermark(s) < |s.blob| && len > 0
    ensures Steps(run, steps) && run[0] == s && run[|steps|] == s' && Inv(s') && s'.blob == s.blob
    ensures Watermark(s) < Watermark(s') && SendsOf(steps, len)
  {
    var caught, first, a := CanHear(s, len);
    var more, second, b := CanResend(caught, len);
    StepsThen(a, first, b, second);
    s', steps, run := more, first + second, a + b[1..];
  }

  /**
    Every run can be continued, sending chunks of any one size, to one that has the
    whole blob: the bytes missing are a measure that can always be brought down.
  */
  lemma {:induction false} CanFinish(s: State, len: nat) returns (s': State, steps: seq<Step>, run: seq<State>)
    requires Inv(s) && len > 0
    ensures Steps(run, steps) && run[0] == s && run[|steps|] == s' && SendsOf(steps, len)
    ensures Watermark(s') == |s.blob| && s'.stage.buf == s.blob
    decreases |s.blob| - Watermark(s)
  {
    if Watermark(s) == |s.blob| {
      assert s.stage.buf[..|s.blob|] == s.stage.buf && s.blob[..|s.blob|] == s.blob;
      s', steps, run := s, [], [s];
    } else {
      var next, first, a := CanAdvance(s, len);
      var last, rest, b := CanFinish(next, len);
      StepsThen(a, first, b, rest);
      s', steps, run := last, first + rest, a + b[1..];
    }
  }

  /** From every reachable state, whatever was lost, duplicated or delayed on the way there. */
  lemma TransferCanAlwaysFinish(run: seq<State>, steps: seq<Step>, len: nat) returns (more: seq<Step>, on: seq<State>)
    requires Behavior(run, steps) && len > 0
    ensures Behavior(run + on, steps + more) && SendsOf(more, len)
    ensures (run + on)[|steps + more|].stage.buf == run[0].blob
  {
    AlwaysInv(run, steps, |steps|);
    var last, rest, b := CanFinish(run[|steps|], len);
    StepsThen(run, steps, b, rest);
    more, on := rest, b[1..];
  }

  /**
    The leader's own cursor is not monotone: in this run from the start its second
    acknowledgement is followed by its first, late. That is why the follower's
    watermark, not the cursor, is the thing that never falls.
  */
  lemma CursorCanFallBack() returns (run: seq<State>, steps: seq<Step>)
    ensures Behavior(run, steps) && |steps| > 0 && run[|steps|].cursor < run[|steps| - 1].cursor
  {
    var s := State([7, 8], Stage([0, 0], []), 0, {}, {}, false);
    assert s.stage.buf == seq(|s.blob|, _ => 0);
    InitInv(s);
    var one, first, a := CanHear(s, 1);
    var two, second, b := CanHear(one, 1);
    StepsThen(a, first, b, second);
    var back := two.(cursor := 1);
    assert Next(two, Ack(1), back);
    StepsThen(a + b[1..], first + second, [two, back], [Ack(1)]);
    run, steps := a + b[1..] + [two, back][1..], first + second + [Ack(1)];
  }

  /**
    Exactly a late acknowledgement, one below the cursor, moves it back; the leader's
    guard against an offset past the blob never has anything to refuse.
  */
  lemma CursorFallsIff(run: seq<State>, steps: seq<Step>, n: nat)
    requires Behavior(run, steps) && n < |steps|
    ensures run[n + 1].cursor < run[n].cursor <==> steps[n].Ack? && steps[n].offset < run[n].cursor
    ensures steps[n].Ack? ==> run[n + 1].cursor == steps[n].offset
  {
    AlwaysInv(run, steps, n);
    assert Next(run[n], steps[n], run[n + 1]);
  }
}
