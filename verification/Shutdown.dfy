/**
  Shutting a driver down from any number of handle clones at once: one swapped flag
  coalesces the requests, and one signal, fired after the socket is released, completes
  every caller.
*/
module Shutdown {
  import opened Wrappers
  import opened Finite

  type Token = nat

  datatype Caller = Calling | Won | Waiting | Returned(ok: bool)

  datatype Phase = Running | Leaving | Drained | Closed | Signalled | Aborted

  /** `queued` Shutdown commands in the channel, `sent` of them ever. */
  datatype State = State(flag: bool, queued: nat, sent: nat, phase: Phase, released: bool, callers: map<Token, Caller>)

  const START := State(false, 0, 0, Running, false, map[])

  datatype Step =
    | Call(t: Token)
    | Swap(t: Token)
    | Send(t: Token)
    | Await(t: Token)
    | TakeShutdown                 // the run loop handles the command
    | Leave                        // it exits for another reason
    | Drain                        // the command receiver is drained and dropped
    | CloseSocket
    | Fire
    | Abort                        // the driver future is dropped

  predicate Is(s: State, t: Token, c: Caller) { t in s.callers && s.callers[t] == c }

  /** The channel refuses a command once its receiver is gone. */
  predicate Open(s: State) { s.phase.Running? || s.phase.Leaving? }

  function Next(s: State, step: Step): Option<State> {
    match step
    case Call(t) => if t in s.callers then None else Some(s.(callers := s.callers[t := Calling]))
    case Swap(t) =>
      if Is(s, t, Calling) then Some(s.(flag := true, callers := s.callers[t := if s.flag then Waiting else Won])) else None
    case Send(t) =>
      if !Is(s, t, Won) then None
      else if Open(s) then Some(s.(queued := s.queued + 1, sent := s.sent + 1, callers := s.callers[t := Waiting]))
      else Some(s.(callers := s.callers[t := Waiting]))
    case Await(t) =>
      if Is(s, t, Waiting) && (s.phase.Signalled? || s.phase.Aborted?)
      then Some(s.(callers := s.callers[t := Returned(s.phase.Signalled?)])) else None
    case TakeShutdown => if s.phase.Running? && s.queued > 0 then Some(s.(queued := s.queued - 1, phase := Leaving)) else None
    case Leave => if s.phase.Running? then Some(s.(phase := Leaving)) else None
    case Drain => if s.phase.Leaving? then Some(s.(queued := 0, phase := Drained)) else None
    case CloseSocket => if s.phase.Drained? then Some(s.(released := true, phase := Closed)) else None
    case Fire => if s.phase.Closed? then Some(s.(phase := Signalled)) else None
    case Abort => if s.phase.Signalled? || s.phase.Aborted? then None else Some(s.(queued := 0, phase := Aborted))
  }

  function IsWon(): Caller -> nat { (c: Caller) => if c.Won? then 1 else 0 }

  function One(b: bool): nat { if b then 1 else 0 }

  ghost predicate Inv(s: State) {
    && s.sent + Total(s.callers, IsWon()) <= One(s.flag)
    && (s.phase.Running? ==> s.queued + Total(s.callers, IsWon()) == One(s.flag))
    && (s.phase.Closed? || s.phase.Signalled? ==> s.released)
    && forall t :: t in s.callers ==>
         && (s.callers[t].Waiting? || s.callers[t].Returned? ==> s.flag)
         && (s.callers[t] == Returned(true) ==> s.phase.Signalled?)
         && (s.callers[t] == Returned(false) ==> s.phase.Aborted?)
  }

  lemma MoveCaller(m: map<Token, Caller>, t: Token, c: Caller)
    ensures Total(m[t := c], IsWon()) + (if t in m then IsWon()(m[t]) else 0) == Total(m, IsWon()) + IsWon()(c)
  {
    if t in m { TotalUpdate(m, IsWon(), t, c); } else { TotalInsert(m, IsWon(), t, c); }
  }

  lemma NextKeeps(s: State, step: Step)
    requires Inv(s) && Next(s, step).Some?
    ensures Inv(Next(s, step).value)
  {
    if step.Call? || step.Swap? || step.Send? || step.Await? {
      MoveCaller(s.callers, step.t, Next(s, step).value.callers[step.t]);
    }
  }

  ghost predicate Behavior(run: seq<State>, steps: seq<Step>) {
    && |run| == |steps| + 1 && run[0] == START
    && forall k :: 0 <= k < |steps| ==> Next(run[k], steps[k]) == Some(run[k + 1])
  }

  lemma {:induction false} AlwaysInv(run: seq<State>, steps: seq<Step>, n: nat)
    requires Behavior(run, steps) && n < |run|
    ensures Inv(run[n])
  {
    if n > 0 {
      AlwaysInv(run, steps, n - 1);
      assert Next(run[n - 1], steps[n - 1]) == Some(run[n - 1 + 1]);
      NextKeeps(run[n - 1], steps[n - 1]);
    }
  }

  /** However many callers race, one command is ever enqueued, and an `Ok` means the socket is released. */
  lemma CoalescedAndHonest(run: seq<State>, steps: seq<Step>, n: nat, t: Token)
    requires Behavior(run, steps) && n < |run|
    ensures run[n].sent <= 1
    ensures Is(run[n], t, Returned(true)) ==> run[n].released
  {
    AlwaysInv(run, steps, n);
  }

  /**
    What a caller gets says how it ended: `Ok` exactly once the signal has fired, an error
    only after an abort, and a caller still waiting gets the one the driver's end calls for.
  */
  lemma ReturnsTellTheEnd(run: seq<State>, steps: seq<Step>, n: nat, t: Token)
    requires Behavior(run, steps) && n < |run| && t in run[n].callers
    ensures run[n].callers[t].Returned? ==> if run[n].callers[t].ok then run[n].phase.Signalled? else run[n].phase.Aborted?
    ensures run[n].callers[t].Waiting? ==>
              && (Next(run[n], Await(t)).Some? <==> run[n].phase.Signalled? || run[n].phase.Aborted?)
              && (run[n].phase.Signalled? ==> Is(Next(run[n], Await(t)).value, t, Returned(true)))
              && (run[n].phase.Aborted? ==> Is(Next(run[n], Await(t)).value, t, Returned(false)))
  {
    AlwaysInv(run, steps, n);
  }

  // ---- Nobody waits for nothing ------------------------------------------------------------------------

  function PhaseRank(p: Phase): nat {
    match p
    case Running => 4
    case Leaving => 3
    case Drained => 2
    case Closed => 1
    case Signalled => 0
    case Aborted => 0
  }

  ghost function Rank(s: State): nat { PhaseRank(s.phase) + 2 * One(!s.flag) + Total(s.callers, IsWon()) }

  /** No step of anybody raises the rank. */
  lemma RankNeverRises(s: State, step: Step)
    requires Next(s, step).Some?
    ensures Rank(Next(s, step).value) <= Rank(s)
  {
    if step.Call? || step.Swap? || step.Send? || step.Await? {
      MoveCaller(s.callers, step.t, Next(s, step).value.callers[step.t]);
    }
  }

  lemma {:induction false} SomeoneWon(m: map<Token, Caller>) returns (t: Token)
    requires Total(m, IsWon()) > 0
    ensures t in m && m[t] == Won
    decreases |m|
  {
    var k := Pick(m);
    TotalRemove(m, IsWon(), k);
    if m[k].Won? { t := k; } else { t := SomeoneWon(m - {k}); }
  }

  /**
    A waiting caller can always return, or somebody else has a step to take that lowers
    the rank: the flag that coalesces the requests never strands the callers it turned away.
  */
  lemma NeverStranded(run: seq<State>, steps: seq<Step>, n: nat, t: Token) returns (step: Step)
    requires Behavior(run, steps) && n < |run| && Is(run[n], t, Waiting)
    ensures Next(run[n], step).Some? && (step == Await(t) || Rank(Next(run[n], step).value) < Rank(run[n]))
    ensures !step.Call? && !step.Swap? && !step.Leave? && !step.Abort?
  {
    AlwaysInv(run, steps, n);
    var s := run[n];
    match s.phase {
      case Running =>
        if s.queued > 0 {
          step := TakeShutdown;
        } else {
          var u := SomeoneWon(s.callers);
          MoveCaller(s.callers, u, Waiting);
          step := Send(u);
        }
      case Leaving => step := Drain;
      case Drained => step := CloseSocket;
      case Closed => step := Fire;
      case Signalled => step := Await(t);
      case Aborted => step := Await(t);
    }
  }
}
