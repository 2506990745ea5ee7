/** The outbound byte charge of one connection, between the run loop and its writer task. */
module Backlog {
  /**
    `hand`: the frame the writer is writing. `charge` is shared; frames are their lengths.
    `taken` and `written` are the frames taken on and those the writer has finished.
  */
  datatype Conn = Conn(charge: int, queue: seq<nat>, hand: seq<nat>, writing: bool, open: bool,
                       taken: seq<nat>, written: seq<nat>)

  const OPENED := Conn(0, [], [], true, true, [], [])

  datatype Step =
    | Send(len: nat)                 // the run loop has a frame for this connection
    | Take                           // the writer receives the next frame
    | Finish(ok: bool)               // the write returns; on an error the writer exits
    | Close

  function Sum(s: seq<nat>): nat { if s == [] then 0 else s[0] + Sum(s[1..]) }

  predicate Enabled(c: Conn, step: Step) {
    match step
    case Send(_) => c.open
    case Take => c.open && c.writing && c.hand == [] && c.queue != []
    case Finish(_) => c.open && c.writing && c.hand != []
    case Close => c.open
  }

  /** The charge is an integer here, so that an underflow of the writer's subtraction would show. */
  function Next(c: Conn, limit: nat, step: Step): Conn
    requires Enabled(c, step)
  {
    match step
    case Send(len) =>
      if c.charge + len > limit then c.(queue := [], hand := [], writing := false, open := false)
      else c.(charge := c.charge + len, queue := if c.writing then c.queue + [len] else c.queue, taken := c.taken + [len])
    case Take => c.(queue := c.queue[1..], hand := [c.queue[0]])
    case Finish(ok) =>
      if ok then c.(charge := c.charge - c.hand[0], hand := [], written := c.written + c.hand)
      else c.(charge := c.charge - c.hand[0], queue := [], hand := [], writing := false)
    case Close => c.(queue := [], hand := [], writing := false, open := false)
  }

  /** The charge covers what is resident, exactly so while the writer lives, and is within the limit. */
  ghost predicate Charged(c: Conn, limit: nat) {
    && |c.hand| <= 1 && 0 <= c.charge <= limit
    && Sum(c.queue) + Sum(c.hand) <= c.charge
    && (c.open && c.writing ==> Sum(c.queue) + Sum(c.hand) == c.charge)
  }

  lemma {:induction false} SumPush(s: seq<nat>, n: nat)
    ensures Sum(s + [n]) == Sum(s) + n
    decreases |s|
  {
    if s != [] {
      assert (s + [n])[1..] == s[1..] + [n];
      SumPush(s[1..], n);
    }
  }

  /** No step underflows the charge, exceeds the limit, or lets resident bytes go uncharged. */
  lemma NextCharged(c: Conn, limit: nat, step: Step)
    requires Charged(c, limit) && Enabled(c, step)
    ensures Charged(Next(c, limit, step), limit)
  {
    match step {
      case Send(len) => SumPush(c.queue, len);
      case Take => assert Sum([c.queue[0]]) == c.queue[0] + Sum([]);
      case Finish(_) => assert c.hand == [c.hand[0]] && Sum([c.hand[0]]) == c.hand[0] + Sum([]);
      case Close =>
    }
  }

  ghost predicate Behavior(run: seq<Conn>, limit: nat, steps: seq<Step>) {
    && |run| == |steps| + 1 && run[0] == OPENED
    && forall k :: 0 <= k < |steps| ==> Enabled(run[k], steps[k]) && Next(run[k], limit, steps[k]) == run[k + 1]
  }

  /** Over every interleaving of run loop and writer. */
  lemma {:induction false} AlwaysCharged(run: seq<Conn>, limit: nat, steps: seq<Step>, n: nat)
    requires Behavior(run, limit, steps) && n < |run|
    ensures Charged(run[n], limit)
  {
    if n > 0 {
      AlwaysCharged(run, limit, steps, n - 1);
      NextCharged(run[n - 1], limit, steps[n - 1]);
      assert Next(run[n - 1], limit, steps[n - 1]) == run[n - 1 + 1];
    }
  }

  ghost predicate InOrder(c: Conn) {
    && c.written <= c.taken
    && (c.open && c.writing ==> c.taken == c.written + (c.hand + c.queue))
  }

  lemma NextInOrder(c: Conn, limit: nat, step: Step)
    requires InOrder(c) && Enabled(c, step) && |c.hand| <= 1
    ensures InOrder(Next(c, limit, step))
  {
    match step {
      case Send(len) =>
        if c.writing { assert c.written + (c.hand + (c.queue + [len])) == c.written + (c.hand + c.queue) + [len]; }
      case Take => assert [] + c.queue == [c.queue[0]] + c.queue[1..];
      case Finish(ok) => if ok { assert c.written + c.hand + ([] + c.queue) == c.written + (c.hand + c.queue); }
      case Close =>
    }
  }

  /** In every run the writer writes the frames taken on, each once and in their order, and skips none. */
  lemma {:induction false} FramesGoOutInOrder(run: seq<Conn>, limit: nat, steps: seq<Step>, n: nat)
    requires Behavior(run, limit, steps) && n < |run|
    ensures InOrder(run[n])
  {
    if n > 0 {
      FramesGoOutInOrder(run, limit, steps, n - 1);
      AlwaysCharged(run, limit, steps, n - 1);
      NextInOrder(run[n - 1], limit, steps[n - 1]);
      assert Next(run[n - 1], limit, steps[n - 1]) == run[n - 1 + 1];
    }
  }

  /** While the writer lives, a frame is taken on exactly when it fits beside what is resident; else the link goes. */
  lemma TakenOnIff(run: seq<Conn>, limit: nat, steps: seq<Step>, n: nat, len: nat)
    requires Behavior(run, limit, steps) && n < |run| && run[n].open && run[n].writing
    ensures var c, c' := run[n], Next(run[n], limit, Send(len));
            var fits := Sum(c.queue) + Sum(c.hand) + len <= limit;
            && c'.open == fits && c'.taken == if fits then c.taken + [len] else c.taken
  {
    AlwaysCharged(run, limit, steps, n);
  }

  /** What ends a connection and what ends its writer, and that only a finished write counts as written. */
  lemma EndsIff(c: Conn, limit: nat, step: Step)
    requires Enabled(c, step)
    ensures var c' := Next(c, limit, step);
            && (c'.open <==> !step.Close? && (step.Send? ==> c.charge + step.len <= limit))
            && (c'.writing <==> c.writing && c'.open && step != Finish(false))
            && c'.written == if step == Finish(true) then c.written + c.hand else c.written
  {}
}
