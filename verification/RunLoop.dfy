/**
  The run loop's own order. A loop pass pumps, then handles commands, then lets the
  endpoint move on, then pumps again: no leadership change is ever waiting to be routed
  when a command is handled. In that order nothing parked is ever lost.
*/
module RunLoop {
  import opened Wrappers
  import opened Routing
  import opened Driver
  import opened AnswerSafety
  import opened ReadSafety
  import opened Conservation
  import Limbo

  // ---- What a pass adds to the trace ----------------------------------------------------------------

  /** One pass: what the clock and store said, whether it had a sweep to do, and whether it ended the loop. */
  datatype Pass = Pass(ch: Choice, swept: bool, quits: bool)

  /** A change of leader was queued, or leadership was lost since the last pass. */
  predicate Sweeping(d: Node) {
    (!d.ep.poisoned && LeaderChanged in d.ep.events) || (d.wasLeader && !d.ep.leader)
  }

  ghost function PassOf(panics: Token -> bool, d: Node, ch: Choice): Pass {
    Pass(ch, Sweeping(d), Pump(panics, d, ch).phase.Leaving?)
  }

  /** The errors a pass may give out: `Superseded` for a sweep, `Poisoned` when it ends the loop. */
  predicate MayFail(err: Error, p: Pass) {
    (err == Superseded && p.swept) || (err == Poisoned && p.quits)
  }

  /**
    No channel is dropped, an error is one of those two with its reason, and a served
    failover read got the window and limbo of this pass.
  */
  ghost predicate Answers(e: Effect, p: Pass) {
    match e
    case Reply(_, answer) => answer.Ok? || (answer.Err? && MayFail(answer.error, p))
    case Invoke(_, arg, _) =>
      && (arg.Fail? ==> MayFail(arg.error, p))
      && (arg.ServeFailover? ==> HasOffer(p.ch) && arg.offer == Offered(p.ch))
    case Discard(_, _) => false
  }

  ghost predicate OnlyAnswers(before: seq<Effect>, after: seq<Effect>, p: Pass) {
    before <= after && forall i :: |before| <= i < |after| ==> Answers(after[i], p)
  }

  lemma OnlyAnswersThen(a: seq<Effect>, b: seq<Effect>, c: seq<Effect>, p: Pass)
    requires OnlyAnswers(a, b, p) && OnlyAnswers(b, c, p)
    ensures OnlyAnswers(a, c, p)
  {
    forall i | |a| <= i < |c|
      ensures Answers(c[i], p)
    {
      if i < |b| { assert b[i] == c[i]; }
    }
  }

  lemma FailAllAnswers(panics: Token -> bool, r: State, err: Error, p: Pass)
    requires MayFail(err, p)
    ensures OnlyAnswers(r.trace, FailAll(panics, r, err).trace, p)
  {
    FailAllWith(panics, r, err);
    forall i | |r.trace| <= i < |FailAll(panics, r, err).trace|
      ensures Answers(FailAll(panics, r, err).trace[i], p)
    {
      assert IsError(FailAll(panics, r, err).trace[i], err);
    }
  }

  lemma RouteAnswers(panics: Token -> bool, log: seq<Entry>, applied: Index, r: State, ev: Event, rest: seq<Event>, p: Pass)
    requires Truthful(log, applied, ev) && Safe(log, [ev] + rest, r.pending) && (ev.LeaderChanged? ==> p.swept)
    ensures OnlyAnswers(r.trace, RouteEvent(panics, r, ev).trace, p)
  {
    if ev.LeaderChanged? {
      FailAllAnswers(panics, r, Superseded, p);
    } else if (ev.Applied? || ev.ConfChanged?) && ev.index in r.pending {
      assert !SweptFirst([ev] + rest, ev.index);
      assert InLog(log, ev.index, r.pending[ev.index]);
    }
  }

  lemma {:induction false} RouteAllAnswers(panics: Token -> bool, log: seq<Entry>, applied: Index, r: State, evs: seq<Event>,
                                           p: Pass)
    requires AllTruthful(log, applied, evs) && Safe(log, evs, r.pending) && AllHonest(r.trace)
    requires LeaderChanged in evs ==> p.swept
    ensures OnlyAnswers(r.trace, RouteAll(panics, r, evs).trace, p)
    decreases |evs|
  {
    if evs != [] {
      assert evs == [evs[0]] + evs[1..];
      assert AllTruthful(log, applied, evs[1..]);
      var next := RouteEvent(panics, r, evs[0]);
      RouteAnswers(panics, log, applied, r, evs[0], evs[1..], p);
      RouteOwned(panics, log, applied, r, evs[0], evs[1..]);
      RouteAllAnswers(panics, log, applied, next, evs[1..], p);
      OnlyAnswersThen(r.trace, next.trace, RouteAll(panics, next, evs[1..]).trace, p);
    }
  }

  lemma SettledAnswers(panics: Token -> bool, d: Node, p: Pass)
    requires Owned(d) && (Sweeping(d) ==> p.swept)
    ensures OnlyAnswers(d.r.trace, Settled(panics, d).trace, p)
  {
    assert OnlyAnswers(d.r.trace, d.r.trace, p);
    hide FailAll, RouteAll, OnlyAnswers;
    if !d.ep.poisoned {
      RouteAllAnswers(panics, d.ep.log, d.ep.applied, d.r, d.ep.events, p);
    }
    var synced := if d.ep.poisoned then d.r else Raise(RouteAll(panics, d.r, d.ep.events), d.ep.applied);
    if d.wasLeader && !d.ep.leader {
      FailAllAnswers(panics, synced, Superseded, p);
      OnlyAnswersThen(d.r.trace, synced.trace, FailAll(panics, synced, Superseded).trace, p);
    }
  }

  lemma DeclinesAnswer(panics: Token -> bool, r: State, p: Pass)
    ensures OnlyAnswers(r.trace, EndFailovers(panics, r, Decline).trace, p)
  {
    EndFailoversDecline(panics, r);
  }

  lemma {:induction false} AnyPanicsIn(panics: Token -> bool, batch: seq<Token>, i: nat)
    requires i <= |batch| && AnyPanics(panics, batch[..i])
    ensures AnyPanics(panics, batch)
    decreases |batch|
  {
    assert batch[..i][1..] == batch[1..][..i - 1];
    if !panics(batch[0]) { AnyPanicsIn(panics, batch[1..], i - 1); }
  }

  lemma ServedFailoversAnswer(panics: Token -> bool, r: State, applied: Index, p: Pass)
    requires HasOffer(p.ch) && (AnyPanics(panics, r.failovers) ==> p.quits)
    ensures OnlyAnswers(r.trace, ServeFailovers(panics, r.trace, r.failovers, Offered(p.ch), applied, p.ch.live, 0, false), p)
  {
    hide Scan;
    ServeFailoversTally(panics, r.trace, r.failovers, Offered(p.ch), applied, p.ch.live, 0, false, 0);
    var after := ServeFailovers(panics, r.trace, r.failovers, Offered(p.ch), applied, p.ch.live, 0, false);
    forall i | |r.trace| <= i < |after|
      ensures Answers(after[i], p)
    {
      var j := i - |r.trace|;
      ServeFailoversArgs(panics, r.trace, r.failovers, Offered(p.ch), applied, p.ch.live, 0, false, j);
      if AnyPanics(panics, r.failovers[..j]) { AnyPanicsIn(panics, r.failovers, j); }
    }
  }

  lemma FailoverPassAnswers(panics: Token -> bool, r: State, applied: Index, p: Pass)
    requires FailoverStops(panics, r, p.ch) ==> p.quits
    ensures OnlyAnswers(r.trace, FailoverPass(panics, r, applied, p.ch).trace, p)
  {
    DeclinesAnswer(panics, r, p);
    assert OnlyAnswers(r.trace, r.trace, p);
    hide OnlyAnswers, EndFailovers, ServeFailovers;
    if HasOffer(p.ch) && r.failovers != [] && p.ch.window.value.index <= r.applied { ServedFailoversAnswer(panics, r, applied, p); }
  }

  lemma ServeQueriesAnswers(panics: Token -> bool, trace: seq<Effect>, batch: seq<Query>, applied: Index, p: Pass)
    requires forall q :: q in batch ==> q.readyAt.Some?
    requires AnyPanics(panics, Tokens(batch)) ==> p.quits
    ensures OnlyAnswers(trace, ServeQueries(panics, trace, batch, applied, false), p)
  {
    ServeQueriesTally(panics, trace, batch, applied, false, 0);
    var after := ServeQueries(panics, trace, batch, applied, false);
    forall i | |trace| <= i < |after|
      ensures Answers(after[i], p)
    {
      var j := i - |trace|;
      ServeQueriesArgs(panics, trace, batch, applied, false, j);
      if AnyPanics(panics, Tokens(batch)[..j]) { AnyPanicsIn(panics, Tokens(batch), j); }
    }
  }

  lemma QueryPassAnswers(panics: Token -> bool, r: State, applied: Index, p: Pass)
    requires AnyPanics(panics, Tokens(RunnableQueries(r))) ==> p.quits
    ensures OnlyAnswers(r.trace, QueryPass(panics, r, applied).trace, p)
  {
    TakeRunnableIsExact(r, 0);
    ServeQueriesAnswers(panics, r.trace, RunnableQueries(r), applied, p);
  }

  lemma PassedAnswers(panics: Token -> bool, d: Node, p: Pass)
    requires Owned(d) && (Sweeping(d) ==> p.swept) && (Stops(panics, d, p.ch) ==> p.quits)
    ensures OnlyAnswers(d.r.trace, Passed(panics, d, p.ch).trace, p)
  {
    hide Owned, Settled, FailoverPass, FailoverStops, OnlyAnswers;
    var settled := Settled(panics, d);
    SettledAnswers(panics, d, p);
    if !d.ep.poisoned {
      FailoverPassAnswers(panics, settled, d.ep.applied, p);
      OnlyAnswersThen(d.r.trace, settled.trace, FailoverPass(panics, settled, d.ep.applied, p.ch).trace, p);
    }
  }

  lemma ServedAnswers(panics: Token -> bool, d: Node, p: Pass)
    requires OnlyAnswers(d.r.trace, Passed(panics, d, p.ch).trace, p) && (Fatal(panics, d, p.ch) ==> p.quits)
    ensures OnlyAnswers(d.r.trace, Served(panics, d, p.ch).trace, p)
  {
    hide Passed, QueryPass, RunsQueries, OnlyAnswers;
    var read := Passed(panics, d, p.ch).(latch := false);
    if ServesQueries(panics, d, p.ch) {
      QueryPassAnswers(panics, read, d.ep.applied, p);
      OnlyAnswersThen(d.r.trace, read.trace, QueryPass(panics, read, d.ep.applied).trace, p);
    }
  }

  /**
    A pass replies to or completes whatever it takes out of routing. It says `Superseded`
    only when a change of leader was queued or leadership was lost since the last pass, and
    `Poisoned` only when it ends the loop.
  */
  lemma PumpAnswers(panics: Token -> bool, d: Node, ch: Choice)
    requires Owned(d) && d.phase.Running?
    ensures OnlyAnswers(d.r.trace, Pump(panics, d, ch).r.trace, PassOf(panics, d, ch))
  {
    hide Owned, Passed, Served, Stops, Fatal, FailAll, OnlyAnswers;
    var p := PassOf(panics, d, ch);
    PassedAnswers(panics, d, p);
    if Stops(panics, d, ch) {
      var passed := Passed(panics, d, ch);
      FailAllAnswers(panics, passed, Poisoned, p);
      OnlyAnswersThen(d.r.trace, passed.trace, FailAll(panics, passed, Poisoned).trace, p);
    } else {
      var served := Served(panics, d, ch);
      ServedAnswers(panics, d, p);
      if Fatal(panics, d, ch) {
        FailAllAnswers(panics, served, Poisoned, p);
        OnlyAnswersThen(d.r.trace, served.trace, FailAll(panics, served, Poisoned).trace, p);
      }
    }
  }

  /** In every run an error given out by a pass has its reason, and it is one of two. */
  lemma ErrorsHaveTheirReason(panics: Token -> bool, steps: seq<Step>, ch: Choice, k: nat, err: Error)
    requires Run(panics, steps).Some? && Run(panics, steps).value.phase.Running?
    requires var d := Run(panics, steps).value;
             |d.r.trace| <= k < |Pump(panics, d, ch).r.trace| && IsError(Pump(panics, d, ch).r.trace[k], err)
    ensures var d := Run(panics, steps).value;
            (err == Superseded && Sweeping(d)) || (err == Poisoned && Pump(panics, d, ch).phase.Leaving?)
  {
    var d := Run(panics, steps).value;
    AlwaysOwned(panics, steps);
    PumpAnswers(panics, d, ch);
    assert Answers(Pump(panics, d, ch).r.trace[k], PassOf(panics, d, ch));
  }

  // ---- Failover reads see the whole limbo ---------------------------------------------------------------

  /** What the log store holds of the endpoint's log; it may lack any of it. */
  ghost predicate Stores(store: map<nat, Limbo.Entry>, log: seq<Entry>) {
    forall i :: i in store ==> 1 <= i <= |log| && (store[i].kind.Normal? <==> log[i - 1].kind.Normal?)
  }

  /**
    In every run, a failover read handed the state machine was handed a limbo region
    that lists exactly the normal entries the log holds between the committed index and
    the last one that may have been acknowledged, with that committed index applied.
  */
  lemma FailoverReadsSeeTheLimbo(panics: Token -> bool, steps: seq<Step>, ch: Choice, store: map<nat, Limbo.Entry>, k: nat, i: nat)
    requires Run(panics, steps).Some? && Run(panics, steps).value.phase.Running?
    requires var d := Run(panics, steps).value;
             && Stores(store, d.ep.log) && (ch.read.Ready? ==> Limbo.Authentic(ch.read.entries, store))
             && |d.r.trace| <= k < |Pump(panics, d, ch).r.trace|
             && Pump(panics, d, ch).r.trace[k].Invoke? && Pump(panics, d, ch).r.trace[k].arg.ServeFailover?
    ensures var d := Run(panics, steps).value;
            var arg := Pump(panics, d, ch).r.trace[k].arg;
            var w := arg.offer.window;
            && w.index <= arg.applied
            && (w.index < i <= w.upper ==>
                  i <= |d.ep.log| && (Limbo.Lists(arg.offer.limbo, i) <==> d.ep.log[i - 1].kind.Normal?))
  {
    var d := Run(panics, steps).value;
    var e := Pump(panics, d, ch).r.trace[k];
    AlwaysOwned(panics, steps);
    AlwaysReadsOk(panics, steps);
    PumpAnswers(panics, d, ch);
    assert Answers(e, PassOf(panics, d, ch));
    PumpReads(panics, d, ch);
    assert Grounded(e, Pump(panics, d, ch).asked, Pump(panics, d, ch).confirmed);
    var w := e.arg.offer.window;
    if w.index < i <= w.upper { RegionListsTheLog(w, ch, store, d.ep.log, i); }
  }

  lemma RegionListsTheLog(w: Limbo.Window, ch: Choice, store: map<nat, Limbo.Entry>, log: seq<Entry>, i: nat)
    requires HasOffer(ch) && ch.window.value == w && Stores(store, log)
    requires ch.read.Ready? ==> Limbo.Authentic(ch.read.entries, store)
    requires w.index < i <= w.upper
    ensures i <= |log| && (Limbo.Lists(Scan(ch).limbo, i) <==> log[i - 1].kind.Normal?)
  {
    Limbo.RegionIsComplete(w, ch.maxBytes, ch.read, store);
    var es := ch.read.entries;
    assert Limbo.IsRegion(es, w.index + 1, w.upper + 1);
    forall j | w.index + 1 <= j < w.upper + 1
      ensures j in store && store[j].index == j
    {
      assert es[j - (w.index + 1)].index == j;
    }
    Limbo.NormalsBetweenLists(store, w.index + 1, w.upper + 1, i);
  }

  // ---- The loop's order ----------------------------------------------------------------------------------

  /** What can happen between a pump and a command: other commands, and what the endpoint does for them at once. */
  predicate WithCommands(step: Step) {
    || step.Handle? || step.Enqueue?
    || (step.World? && (step.s.Append? || step.s.ApplyNext? || step.s.Confirm? || step.s.Poison?))
  }

  /** Nothing but commands since the last pump. */
  predicate JustPumped(steps: seq<Step>)
    decreases |steps|
  {
    steps != [] && var last := steps[|steps| - 1];
      last.RunPump? || (WithCommands(last) && JustPumped(steps[..|steps| - 1]))
  }

  /**
    The order of every run loop: commands are drained, or one is received, straight after
    a pump; messages, timers and storage completions come after them and before the next.
  */
  predicate LoopOrdered(steps: seq<Step>)
    decreases |steps|
  {
    steps == [] || var init := steps[..|steps| - 1];
      LoopOrdered(init) && (steps[|steps| - 1].Handle? ==> JustPumped(init))
  }

  /** A pump that does not stop the driver leaves no event unrouted. */
  lemma PumpDrains(panics: Token -> bool, d: Node, ch: Choice)
    requires Pump(panics, d, ch).phase.Running? && d.phase.Running?
    ensures Pump(panics, d, ch).ep.events == []
  {}

  lemma ExecuteEmitsNothing(panics: Token -> bool, d: Node, cmd: Command, accept: bool)
    ensures Execute(panics, d, cmd, accept).ep.events == d.ep.events
  {}

  lemma {:induction false} NoChangeWaits(panics: Token -> bool, steps: seq<Step>)
    requires Run(panics, steps).Some? && Run(panics, steps).value.phase.Running? && JustPumped(steps)
    ensures LeaderChanged !in Run(panics, steps).value.ep.events
    decreases |steps|
  {
    hide Pump, Execute, Teardown;
    var init, step := steps[..|steps| - 1], steps[|steps| - 1];
    var d := Run(panics, init).value;
    if step.RunPump? {
      PumpDrains(panics, d, step.ch);
    } else {
      NoChangeWaits(panics, init);
      if step.Handle? { ExecuteEmitsNothing(panics, d.(queue := d.queue[1..]), d.queue[0], step.accept); }
    }
  }

  ghost predicate NoneDropped(trace: seq<Effect>) { forall k :: 0 <= k < |trace| ==> !trace[k].Discard? }

  lemma NoteDropsNone(trace: seq<Effect>, e: Effect)
    requires NoneDropped(trace) && !e.Discard?
    ensures NoneDropped(trace + [e])
  {}

  /** A command handled with no leadership change waiting overwrites nobody. */
  lemma ExecuteDropsNone(panics: Token -> bool, d: Node, cmd: Command, accept: bool)
    requires Owned(d) && LeaderChanged !in d.ep.events && NoneDropped(d.r.trace)
    ensures NoneDropped(Execute(panics, d, cmd, accept).r.trace)
  {
    hide Owned, NoneDropped;
    if |d.ep.log| + 1 in d.r.pending { OverwritesOnlyAcrossAChange(d); }
    if cmd.Request? {
      NoteDropsNone(d.r.trace, Reply(cmd.t, Err(Refused)));
      match cmd.op {
        case Submit =>
        case ChangeConf =>
        case SetReadMode => NoteDropsNone(d.r.trace, Reply(cmd.t, Done));
        case ReadQuery => NoteDropsNone(d.r.trace, Invoke(cmd.t, Fail(Refused), panics(cmd.t)));
        case FailoverRead =>
        case Immediate => NoteDropsNone(d.r.trace, Reply(cmd.t, Done));
      }
    }
  }

  lemma PumpDropsNone(panics: Token -> bool, d: Node, ch: Choice)
    requires Owned(d) && d.phase.Running? && NoneDropped(d.r.trace)
    ensures NoneDropped(Pump(panics, d, ch).r.trace)
  {
    PumpAnswers(panics, d, ch);
    var after := Pump(panics, d, ch).r.trace;
    forall k | 0 <= k < |after|
      ensures !after[k].Discard?
    {
      if k < |d.r.trace| { assert after[k] == d.r.trace[k]; } else { assert Answers(after[k], PassOf(panics, d, ch)); }
    }
  }

  /** Until it stops, a driver running its loop has dropped nobody's channel. */
  lemma {:induction false} LoopDropsNone(panics: Token -> bool, steps: seq<Step>)
    requires Run(panics, steps).Some? && LoopOrdered(steps) && !Run(panics, steps).value.phase.Stopped?
    ensures NoneDropped(Run(panics, steps).value.r.trace)
    decreases |steps|
  {
    if steps != [] {
      var init, step := steps[..|steps| - 1], steps[|steps| - 1];
      var d := Run(panics, init).value;
      LoopDropsNone(panics, init);
      AlwaysOwned(panics, init);
      match step {
        case World(_) =>
        case Enqueue(_) =>
        case Handle(accept) =>
          NoChangeWaits(panics, init);
          ExecuteDropsNone(panics, d.(queue := d.queue[1..]), d.queue[0], accept);
        case RunPump(ch) => PumpDropsNone(panics, d, ch);
        case Stop =>
      }
    }
  }

  // ---- What the callers are left with -----------------------------------------------------------------------

  /** The command carrying this operation was handled at some point of the run. */
  ghost predicate HandledIn(panics: Token -> bool, steps: seq<Step>, t: Token)
    decreases |steps|
  {
    steps != [] &&
      var init := steps[..|steps| - 1];
      || HandledIn(panics, init, t)
      || (steps[|steps| - 1].Handle? && Run(panics, init).Some? && Run(panics, init).value.queue != []
          && Carries(Run(panics, init).value.queue[0], t))
  }

  /** Until the driver stops, an operation has been handled exactly when it has left the queue. */
  lemma {:induction false} HandledLeftTheQueue(panics: Token -> bool, steps: seq<Step>, t: Token)
    requires Run(panics, steps).Some? && !Run(panics, steps).value.phase.Stopped?
    ensures var d := Run(panics, steps).value;
            && (HandledIn(panics, steps, t) ==> t in d.issued)
            && (t in d.issued ==> Queued(d.queue, t) == if HandledIn(panics, steps, t) then 0 else 1)
    decreases |steps|
  {
    if steps != [] {
      var init, step := steps[..|steps| - 1], steps[|steps| - 1];
      var d := Run(panics, init).value;
      HandledLeftTheQueue(panics, init, t);
      AlwaysConserved(panics, init, t);
      match step {
        case World(_) =>
        case Enqueue(cmd) => QueueGrows(d.queue, cmd, t);
        case Handle(accept) => ExecuteFrame(panics, d.(queue := d.queue[1..]), d.queue[0], accept);
        case RunPump(ch) => PumpFrame(panics, d, ch);
        case Stop =>
      }
    }
  }

  lemma PumpFrame(panics: Token -> bool, d: Node, ch: Choice)
    ensures Pump(panics, d, ch).queue == d.queue && Pump(panics, d, ch).issued == d.issued
  {}

  /** What a teardown drops was still queued. */
  lemma {:induction false} DroppedWereQueued(trace: seq<Effect>, queue: seq<Command>, k: nat)
    requires |trace| <= k < |DropQueue(trace, queue)|
    ensures var e := DropQueue(trace, queue)[k]; e == Discard(e.t, Undelivered) && Queued(queue, e.t) > 0
    decreases |queue|
  {
    var next := if queue[0].Request? then trace + [Discard(queue[0].t, Undelivered)] else trace;
    DropQueueUndelivered(next, queue[1..]);
    if k < |next| {
      assert DropQueue(trace, queue)[k] == next[k];
    } else {
      DroppedWereQueued(next, queue[1..], k);
    }
  }

  lemma {:induction false} TallyFinds(trace: seq<Effect>, k: nat)
    requires k < |trace|
    ensures Tally(trace, trace[k].t) > 0
    decreases |trace|
  {
    var init := trace[..|trace| - 1];
    if k < |init| { assert init[k] == trace[k]; TallyFinds(init, k); }
  }

  /**
    When a driver that ran its loop is gone, each operation it was given has exactly one
    effect: an answer or an invocation of its completion if its command was handled, and a
    dropped channel only if it never was.
  */
  lemma EveryHandledOperationIsAnswered(panics: Token -> bool, steps: seq<Step>, k: nat)
    requires Run(panics, steps).Some? && LoopOrdered(steps) && Run(panics, steps).value.phase.Stopped?
    requires k < |Run(panics, steps).value.r.trace|
    ensures var d := Run(panics, steps).value;
            var e := d.r.trace[k];
            && e.t in d.issued && Tally(d.r.trace, e.t) == 1
            && if HandledIn(panics, steps, e.t) then e.Reply? || e.Invoke? else e == Discard(e.t, Undelivered)
  {
    hide Teardown, Pump, Execute;
    var init := steps[..|steps| - 1];
    var d, d' := Run(panics, init).value, Run(panics, steps).value;
    var e := d'.r.trace[k];
    OnlyStopStops(panics, d, steps[|steps| - 1]);
    StoppedHasOneEffectEach(panics, steps, e.t);
    TallyFinds(d'.r.trace, k);
    LoopDropsNone(panics, init);
    HandledLeftTheQueue(panics, init, e.t);
    TeardownAnswersTheRest(panics, d, k);
  }

  lemma OnlyStopStops(panics: Token -> bool, d: Node, step: Step)
    requires Enabled(d, step) && Next(panics, d, step).phase.Stopped?
    ensures step.Stop? && d.phase.Leaving?
  {}

  /** Nobody's effect is a drop unless their command was still queued, in which case it is. */
  lemma TeardownAnswersTheRest(panics: Token -> bool, d: Node, k: nat)
    requires NoneDropped(d.r.trace) && k < |Teardown(panics, d).r.trace|
    requires Tally(Teardown(panics, d).r.trace, Teardown(panics, d).r.trace[k].t) == 1
    ensures var e := Teardown(panics, d).r.trace[k];
            if Queued(d.queue, e.t) > 0 then e == Discard(e.t, Undelivered) else e.Reply? || e.Invoke?
    ensures Teardown(panics, d).issued == d.issued
  {
    hide FailAll;
    var r := if d.ep.poisoned then FailAll(panics, d.r, Poisoned) else d.r;
    var swept := FailAll(panics, r, ShuttingDown);
    var after := DropQueue(swept.trace, d.queue);
    var e := after[k];
    if k < |swept.trace| {
      SweptDropsNone(panics, d, k);
      DropQueueUndelivered(swept.trace, d.queue);
      DropQueueTally(swept.trace, d.queue, e.t);
      assert after[k] == swept.trace[k];
      TallyFinds(swept.trace, k);
    } else {
      DroppedWereQueued(swept.trace, d.queue, k);
    }
  }

  lemma SweptDropsNone(panics: Token -> bool, d: Node, k: nat)
    requires NoneDropped(d.r.trace)
    ensures var r := if d.ep.poisoned then FailAll(panics, d.r, Poisoned) else d.r;
            var swept := FailAll(panics, r, ShuttingDown);
            k < |swept.trace| ==> !swept.trace[k].Discard?
  {
    hide FailAll;
    FailAllWith(panics, d.r, Poisoned);
    var r := if d.ep.poisoned then FailAll(panics, d.r, Poisoned) else d.r;
    FailAllWith(panics, r, ShuttingDown);
    var swept := FailAll(panics, r, ShuttingDown);
    if k < |swept.trace| {
      if k < |d.r.trace| {
        assert d.r.trace[k] == r.trace[k] == swept.trace[k];
      } else if k < |r.trace| {
        assert IsError(r.trace[k], Poisoned) && r.trace[k] == swept.trace[k];
      } else {
        assert IsError(swept.trace[k], ShuttingDown);
      }
    }
  }

  /**
    The order is what matters: a run that handles a command with a leadership change
    unrouted can drop a parked caller's channel, and it is not one of the loop's.
  */
  lemma AnotherOrderCouldOverwrite(panics: Token -> bool)
    ensures Run(panics, UNTIL_REUSED) == Some(REUSED) && REUSED.r.trace == [Discard(1, Overwritten)]
    ensures !LoopOrdered(UNTIL_REUSED)
  {
    AWaiterCanBeOverwritten(panics);
    hide Run;
    var last := |UNTIL_REUSED| - 1;
    assert UNTIL_REUSED[last] == Handle(true);
    var init := UNTIL_REUSED[..last];
    assert init == UNTIL_REWON + [Enqueue(Request(2, Submit))];
    assert init[..|init| - 1] == UNTIL_REWON;
    assert UNTIL_REWON[|UNTIL_REWON| - 1] == World(Elect(false));
    assert !JustPumped(UNTIL_REWON);
    assert !JustPumped(init);
  }
}
