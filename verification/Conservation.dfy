/**
  Every operation is in exactly one place: queued, parked, or answered. The budget it
  holds is released with its answer.
*/
module Conservation {
  import opened Wrappers
  import opened Finite
  import opened Routing
  import opened Driver
  import opened ReadSafety

  predicate Carries(cmd: Command, t: Token) { cmd.Request? && cmd.t == t }

  /** How many queued commands carry this token. */
  ghost function Queued(queue: seq<Command>, t: Token): nat
    decreases |queue|
  {
    if queue == [] then 0 else (if Carries(queue[0], t) then 1 else 0) + Queued(queue[1..], t)
  }

  /** How many queued commands hold a reservation. */
  ghost function QueuedRequests(queue: seq<Command>): nat
    decreases |queue|
  {
    if queue == [] then 0 else (if queue[0].Request? then 1 else 0) + QueuedRequests(queue[1..])
  }

  lemma {:induction false} QueueGrows(queue: seq<Command>, cmd: Command, t: Token)
    ensures Queued(queue + [cmd], t) == Queued(queue, t) + if Carries(cmd, t) then 1 else 0
    ensures QueuedRequests(queue + [cmd]) == QueuedRequests(queue) + if cmd.Request? then 1 else 0
    decreases |queue|
  {
    if queue != [] {
      assert (queue + [cmd])[1..] == queue[1..] + [cmd];
      QueueGrows(queue[1..], cmd, t);
    }
  }

  ghost predicate InOnePlace(d: Node, t: Token) {
    Queued(d.queue, t) + Places(d.r, t) == if t in d.issued then 1 else 0
  }

  /** The reservations taken and not yet released. */
  ghost function Held(d: Node): int { |d.issued| - |d.r.trace| }

  ghost predicate Balanced(d: Node) { Held(d) == QueuedRequests(d.queue) + Parked(d.r) }

  ghost predicate AllDone(d: Node) {
    d.phase.Stopped? ==> d.queue == [] && d.r.pending == map[] && d.r.queries == map[] && d.r.failovers == []
  }

  ghost predicate Conserved(d: Node, t: Token) { InOnePlace(d, t) && Balanced(d) && AllDone(d) }

  /** A routing change that moves operations but neither loses nor makes one. */
  ghost predicate Moves(r: State, r': State, t: Token) {
    Places(r', t) == Places(r, t) && |r'.trace| + Parked(r') == |r.trace| + Parked(r)
  }

  // ---- Sweeps and routing ----------------------------------------------------------------------------------

  lemma FailAllMoves(panics: Token -> bool, r: State, err: Error, t: Token)
    ensures Moves(r, FailAll(panics, r, err), t)
  {
    FailAllPlaces(panics, r, err, t);
    FailAllSweeps(panics, r, err);
  }

  lemma ResolveSize(r: State, i: Index, e: Entry, conf: bool)
    ensures var r' := Resolve(r, i, e, conf); |r'.trace| + |r'.pending| == |r.trace| + |r.pending|
  {
    if i in r.pending { assert |r.pending - {i}| == |r.pending| - 1; }
  }

  /** Routing an event keeps the number of operations parked or answered. */
  lemma RouteSize(panics: Token -> bool, r: State, ev: Event)
    ensures var r' := RouteEvent(panics, r, ev); |r'.trace| + Parked(r') == |r.trace| + Parked(r)
  {
    hide Resolve, FailAll;
    match ev {
      case Applied(i, e) => ResolveSize(r, i, e, false); ResolveFrame(r, i, e, false);
      case ConfChanged(i, e) => ResolveSize(r, i, e, true); ResolveFrame(r, i, e, true);
      case LeaderChanged => FailAllSweeps(panics, r, Superseded);
      case ReadState(ctx, i) =>
        if ctx.Some? && ctx.value in r.queries {
          assert r.queries[ctx.value := r.queries[ctx.value].(readyAt := Some(i))].Keys == r.queries.Keys;
        }
      case SnapshotInstalled(_) =>
      case ReadModeChanged(_) =>
      case OtherEvent =>
    }
  }

  lemma ResolveFrame(r: State, i: Index, e: Entry, conf: bool)
    ensures var r' := Resolve(r, i, e, conf); r'.queries == r.queries && r'.failovers == r.failovers
  {}

  lemma RouteMoves(panics: Token -> bool, r: State, ev: Event, t: Token)
    ensures Moves(r, RouteEvent(panics, r, ev), t)
  {
    hide Places, RouteEvent, Parked;
    RouteEventPlaces(panics, r, ev, t);
    RouteSize(panics, r, ev);
  }

  lemma {:induction false} RouteAllMoves(panics: Token -> bool, r: State, evs: seq<Event>, t: Token)
    ensures Moves(r, RouteAll(panics, r, evs), t)
    decreases |evs|
  {
    if evs != [] {
      RouteMoves(panics, r, evs[0], t);
      RouteAllMoves(panics, RouteEvent(panics, r, evs[0]), evs[1..], t);
    }
  }

  // ---- The pump ----------------------------------------------------------------------------------------------

  lemma SettledMoves(panics: Token -> bool, d: Node, t: Token)
    ensures Moves(d.r, Settled(panics, d), t)
  {
    hide RouteAll, FailAll;
    RouteAllMoves(panics, d.r, d.ep.events, t);
    var synced := if d.ep.poisoned then d.r else Raise(RouteAll(panics, d.r, d.ep.events), d.ep.applied);
    FailAllMoves(panics, synced, Superseded, t);
  }

  lemma ServedFailoversMove(panics: Token -> bool, r: State, offer: Offer, applied: Index, live: nat -> bool, t: Token)
    ensures Moves(r, r.(failovers := [],
                        trace := ServeFailovers(panics, r.trace, r.failovers, offer, applied, live, 0, false)), t)
  {
    ServeFailoversTally(panics, r.trace, r.failovers, offer, applied, live, 0, false, t);
  }

  lemma DeclinesMove(panics: Token -> bool, r: State, t: Token)
    ensures Moves(r, EndFailovers(panics, r, Decline), t)
  {
    EndFailoversPlaces(panics, r, Decline, t);
    EndFailoversSweeps(panics, r, Decline);
  }

  lemma FailoverPassMoves(panics: Token -> bool, r: State, applied: Index, ch: Choice, t: Token)
    ensures Moves(r, FailoverPass(panics, r, applied, ch), t)
  {
    hide Places, Parked, EndFailovers, ServeFailovers;
    DeclinesMove(panics, r, t);
    if HasOffer(ch) { ServedFailoversMove(panics, r, Offered(ch), applied, ch.live, t); }
  }

  /** The taken batch is in hand, in neither routing nor the trace, until each is served. */
  lemma QueryPassMoves(panics: Token -> bool, r: State, applied: Index, t: Token)
    ensures Moves(r, QueryPass(panics, r, applied), t)
  {
    TakeRunnableIsExact(r, t);
    ServeQueriesTally(panics, r.trace, RunnableQueries(r), applied, false, t);
  }

  lemma PassedMoves(panics: Token -> bool, d: Node, ch: Choice, t: Token)
    ensures Moves(d.r, Passed(panics, d, ch), t)
  {
    hide Settled, FailoverPass;
    SettledMoves(panics, d, t);
    FailoverPassMoves(panics, Settled(panics, d), d.ep.applied, ch, t);
  }

  lemma ServedMoves(panics: Token -> bool, d: Node, ch: Choice, t: Token)
    ensures Moves(d.r, Served(panics, d, ch), t)
  {
    hide Passed, QueryPass, ServesQueries;
    PassedMoves(panics, d, ch, t);
    QueryPassMoves(panics, Passed(panics, d, ch).(latch := false), d.ep.applied, t);
  }

  lemma PumpConserves(panics: Token -> bool, d: Node, ch: Choice, t: Token)
    requires Conserved(d, t) && d.phase.Running?
    ensures Conserved(Pump(panics, d, ch), t)
  {
    hide Passed, Served, Stops, Fatal, FailAll, Places;
    PassedMoves(panics, d, ch, t);
    ServedMoves(panics, d, ch, t);
    FailAllMoves(panics, Passed(panics, d, ch), Poisoned, t);
    FailAllMoves(panics, Served(panics, d, ch), Poisoned, t);
  }

  // ---- Commands and teardown -----------------------------------------------------------------------------------

  /** What handling one command adds: its own operation, somewhere, once. */
  ghost predicate Takes(r: State, r': State, cmd: Command, t: Token) {
    && Places(r', t) == Places(r, t) + (if Carries(cmd, t) then 1 else 0)
    && |r'.trace| + Parked(r') == |r.trace| + Parked(r) + if cmd.Request? then 1 else 0
  }

  lemma NoteTakes(r: State, r': State, e: Effect, cmd: Command, t: Token)
    requires cmd.Request? && e.t == cmd.t
    requires r' == Note(r, e).(nextCtx := r'.nextCtx)
    ensures Takes(r, r', cmd, t)
  {
    TallyNote(r.trace, e, t);
  }

  lemma InsertTakes(r: State, i: Index, cmd: Command, conf: bool, t: Token)
    requires cmd.Request? && i !in r.pending
    ensures Takes(r, r.(pending := r.pending[i := Waiter(cmd.t, conf)]), cmd, t)
  {
    TotalInsert(r.pending, IsWaiter(t), i, Waiter(cmd.t, conf));
  }

  lemma OverwriteTakes(r: State, i: Index, cmd: Command, conf: bool, t: Token)
    requires cmd.Request? && i in r.pending
    ensures Takes(r, Note(r, Discard(r.pending[i].t, Overwritten)).(pending := r.pending[i := Waiter(cmd.t, conf)]), cmd, t)
  {
    TallyNote(r.trace, Discard(r.pending[i].t, Overwritten), t);
    TotalUpdate(r.pending, IsWaiter(t), i, Waiter(cmd.t, conf));
    assert r.pending[i := Waiter(cmd.t, conf)].Keys == r.pending.Keys;
  }

  lemma ParkTakes(d: Node, cmd: Command, conf: bool, t: Token)
    requires cmd.Request?
    ensures Takes(d.r, Park(d, cmd.t, conf).r, cmd, t)
  {
    hide Takes;
    var i := |d.ep.log| + 1;
    if i in d.r.pending { OverwriteTakes(d.r, i, cmd, conf, t); } else { InsertTakes(d.r, i, cmd, conf, t); }
  }

  lemma QueryTakes(r: State, cmd: Command, t: Token)
    requires cmd.Request? && r.nextCtx !in r.queries
    ensures Takes(r, r.(nextCtx := r.nextCtx + 1, queries := r.queries[r.nextCtx := Query(cmd.t, r.nextCtx, None)]), cmd, t)
  {
    TotalInsert(r.queries, IsQuery(t), r.nextCtx, Query(cmd.t, r.nextCtx, None));
  }

  lemma FailoverTakes(r: State, cmd: Command, t: Token)
    requires cmd.Request?
    ensures Takes(r, r.(failovers := r.failovers + [cmd.t]), cmd, t)
  {}

  lemma ProposeTakes(panics: Token -> bool, d: Node, t: Token, conf: bool, accept: bool, u: Token)
    ensures var cmd := Request(t, if conf then ChangeConf else Submit);
            Takes(d.r, Execute(panics, d, cmd, accept).r, cmd, u)
  {
    hide Takes, Park;
    var cmd := Request(t, if conf then ChangeConf else Submit);
    if accept && d.ep.leader && !d.ep.poisoned {
      ParkTakes(d, cmd, conf, u);
    } else {
      NoteTakes(d.r, Note(d.r, Reply(t, Err(Refused))), Reply(t, Err(Refused)), cmd, u);
    }
  }

  lemma ReadQueryTakes(panics: Token -> bool, d: Node, t: Token, accept: bool, u: Token)
    requires d.r.nextCtx !in d.r.queries
    ensures Takes(d.r, Execute(panics, d, Request(t, ReadQuery), accept).r, Request(t, ReadQuery), u)
  {
    hide Takes;
    if accept && !d.ep.poisoned {
      QueryTakes(d.r, Request(t, ReadQuery), u);
    } else {
      var r' := Execute(panics, d, Request(t, ReadQuery), accept).r;
      NoteTakes(d.r, r', Invoke(t, Fail(Refused), panics(t)), Request(t, ReadQuery), u);
    }
  }

  lemma SetReadModeTakes(panics: Token -> bool, d: Node, t: Token, accept: bool, u: Token)
    ensures Takes(d.r, Execute(panics, d, Request(t, SetReadMode), accept).r, Request(t, SetReadMode), u)
  {
    var e := Reply(t, if accept && d.ep.leader && !d.ep.poisoned then Done else Err(Refused));
    NoteTakes(d.r, Note(d.r, e), e, Request(t, SetReadMode), u);
  }

  lemma ImmediateTakes(panics: Token -> bool, d: Node, t: Token, accept: bool, u: Token)
    ensures Takes(d.r, Execute(panics, d, Request(t, Immediate), accept).r, Request(t, Immediate), u)
  {
    var e := Reply(t, if accept then Done else Err(Refused));
    NoteTakes(d.r, Note(d.r, e), e, Request(t, Immediate), u);
  }

  lemma ExecuteTakes(panics: Token -> bool, d: Node, cmd: Command, accept: bool, t: Token)
    requires d.r.nextCtx !in d.r.queries
    ensures Takes(d.r, Execute(panics, d, cmd, accept).r, cmd, t)
  {
    if cmd.Shutdown? {
      TakesNothing(d.r, cmd, t);
    } else if cmd.op.FailoverRead? {
      FailoverTakes(d.r, cmd, t);
    } else {
      hide Takes, Execute;
      match cmd.op {
        case Submit => ProposeTakes(panics, d, cmd.t, false, accept, t);
        case ChangeConf => ProposeTakes(panics, d, cmd.t, true, accept, t);
        case SetReadMode => SetReadModeTakes(panics, d, cmd.t, accept, t);
        case ReadQuery => ReadQueryTakes(panics, d, cmd.t, accept, t);
        case Immediate => ImmediateTakes(panics, d, cmd.t, accept, t);
      }
    }
  }

  lemma TakesNothing(r: State, cmd: Command, t: Token)
    requires cmd.Shutdown?
    ensures Takes(r, r, cmd, t)
  {}

  lemma HandleConserves(panics: Token -> bool, d: Node, accept: bool, t: Token)
    requires Conserved(d, t) && d.phase.Running? && d.queue != [] && d.r.nextCtx !in d.r.queries
    ensures Conserved(Next(panics, d, Handle(accept)), t)
  {
    hide Places, Parked, Execute;
    ExecuteTakes(panics, d.(queue := d.queue[1..]), d.queue[0], accept, t);
    ExecuteFrame(panics, d.(queue := d.queue[1..]), d.queue[0], accept);
  }

  lemma ExecuteFrame(panics: Token -> bool, d: Node, cmd: Command, accept: bool)
    ensures var d' := Execute(panics, d, cmd, accept);
            d'.queue == d.queue && d'.issued == d.issued && (d.phase.Running? ==> !d'.phase.Stopped?)
  {}

  lemma {:induction false} DropQueueTally(trace: seq<Effect>, queue: seq<Command>, t: Token)
    ensures Tally(DropQueue(trace, queue), t) == Tally(trace, t) + Queued(queue, t)
    ensures |DropQueue(trace, queue)| == |trace| + QueuedRequests(queue)
    decreases |queue|
  {
    if queue != [] {
      if queue[0].Request? {
        TallyNote(trace, Discard(queue[0].t, Undelivered), t);
        DropQueueTally(trace + [Discard(queue[0].t, Undelivered)], queue[1..], t);
      } else {
        DropQueueTally(trace, queue[1..], t);
      }
    }
  }

  lemma TeardownConserves(panics: Token -> bool, d: Node, t: Token)
    requires Conserved(d, t)
    ensures Conserved(Teardown(panics, d), t)
  {
    hide FailAll;
    FailAllMoves(panics, d.r, Poisoned, t);
    var r := if d.ep.poisoned then FailAll(panics, d.r, Poisoned) else d.r;
    FailAllMoves(panics, r, ShuttingDown, t);
    FailAllSweeps(panics, r, ShuttingDown);
    DropQueueTally(FailAll(panics, r, ShuttingDown).trace, d.queue, t);
  }

  lemma EnqueueConserves(panics: Token -> bool, d: Node, cmd: Command, t: Token)
    requires Conserved(d, t) && Enabled(d, Enqueue(cmd))
    ensures Conserved(Next(panics, d, Enqueue(cmd)), t)
  {
    QueueGrows(d.queue, cmd, t);
  }

  lemma NextConserves(panics: Token -> bool, d: Node, step: Step, t: Token)
    requires Conserved(d, t) && Enabled(d, step) && d.r.nextCtx !in d.r.queries
    ensures Conserved(Next(panics, d, step), t)
  {
    match step {
      case World(_) =>
      case Enqueue(cmd) => EnqueueConserves(panics, d, cmd, t);
      case Handle(accept) => HandleConserves(panics, d, accept, t);
      case RunPump(ch) => PumpConserves(panics, d, ch, t);
      case Stop => TeardownConserves(panics, d, t);
    }
  }

  lemma {:induction false} AlwaysConserved(panics: Token -> bool, steps: seq<Step>, t: Token)
    requires Run(panics, steps).Some?
    ensures Conserved(Run(panics, steps).value, t)
    decreases |steps|
  {
    if steps != [] {
      AlwaysConserved(panics, steps[..|steps| - 1], t);
      var d := Run(panics, steps[..|steps| - 1]).value;
      AlwaysReadsOk(panics, steps[..|steps| - 1]);
      assert d.r.nextCtx !in d.r.queries;
      NextConserves(panics, d, steps[|steps| - 1], t);
    }
  }

  /**
    At every step of every run the budget held is exactly the commands queued plus
    everything parked, and each operation sits in exactly one place.
  */
  lemma BudgetIsWhatIsOutstanding(panics: Token -> bool, steps: seq<Step>, t: Token)
    requires Run(panics, steps).Some?
    ensures var d := Run(panics, steps).value;
            && |d.issued| - |d.r.trace| == QueuedRequests(d.queue) + |d.r.pending| + |d.r.queries| + |d.r.failovers|
            && (t in d.issued ==> Queued(d.queue, t) + Places(d.r, t) == 1)
            && (t !in d.issued ==> Queued(d.queue, t) + Places(d.r, t) == 0)
  {
    AlwaysConserved(panics, steps, t);
  }

  /**
    While a batch of queries is being served the budget held counts it too: after `j`
    completions the queries still in the pump's hand are the rest of the batch.
  */
  lemma BudgetCountsTheQueriesInHand(panics: Token -> bool, steps: seq<Step>, ch: Choice, j: nat)
    requires Run(panics, steps).Some? && Run(panics, steps).value.phase.Running?
    requires j <= |RunnableQueries(Passed(panics, Run(panics, steps).value, ch))|
    ensures var d := Run(panics, steps).value;
            var r := Passed(panics, d, ch);
            var batch := RunnableQueries(r);
            var now := ServedSoFar(panics, r, d.ep.applied, j);
            && now <= QueryPass(panics, r, d.ep.applied).trace
            && |d.issued| - |now| == QueuedRequests(d.queue) + |r.pending| + |r.queries - RunnableKeys(r)| + |r.failovers|
                                     + (|batch| - j)
  {
    hide Passed;
    var d := Run(panics, steps).value;
    var r := Passed(panics, d, ch);
    AlwaysConserved(panics, steps, 0);
    PassedMoves(panics, d, ch, 0);
    TakeRunnableIsExact(r, 0);
    ServeQueriesPrefix(panics, r.trace, RunnableQueries(r), d.ep.applied, false, j);
    ServeQueriesTally(panics, r.trace, RunnableQueries(r)[..j], d.ep.applied, false, 0);
  }

  /** The trace once the first `j` runnable queries have completed. */
  ghost function ServedSoFar(panics: Token -> bool, r: State, applied: Index, j: nat): seq<Effect>
    requires j <= |RunnableQueries(r)|
  {
    TakeRunnableIsExact(r, 0);
    ServeQueries(panics, r.trace, RunnableQueries(r)[..j], applied, false)
  }

  /** The failover batch in hand is counted likewise. */
  lemma BudgetCountsTheFailoversInHand(panics: Token -> bool, steps: seq<Step>, ch: Choice, j: nat)
    requires Run(panics, steps).Some? && Run(panics, steps).value.phase.Running? && HasOffer(ch)
    requires j <= |Settled(panics, Run(panics, steps).value).failovers|
    ensures var d := Run(panics, steps).value;
            var r := Settled(panics, d);
            var now := ServeFailovers(panics, r.trace, r.failovers[..j], Offered(ch), d.ep.applied, ch.live, 0, false);
            && now <= ServeFailovers(panics, r.trace, r.failovers, Offered(ch), d.ep.applied, ch.live, 0, false)
            && |d.issued| - |now| == QueuedRequests(d.queue) + |r.pending| + |r.queries| + (|r.failovers| - j)
  {
    hide Settled, Scan;
    var d := Run(panics, steps).value;
    var r := Settled(panics, d);
    AlwaysConserved(panics, steps, 0);
    SettledMoves(panics, d, 0);
    ServeFailoversPrefix(panics, r.trace, r.failovers, Offered(ch), d.ep.applied, ch.live, 0, false, j);
    ServeFailoversTally(panics, r.trace, r.failovers[..j], Offered(ch), d.ep.applied, ch.live, 0, false, 0);
  }

  /** When the driver is gone every operation it was ever given has exactly one effect. */
  lemma StoppedHasOneEffectEach(panics: Token -> bool, steps: seq<Step>, t: Token)
    requires Run(panics, steps).Some? && Run(panics, steps).value.phase.Stopped?
    ensures var d := Run(panics, steps).value;
            Tally(d.r.trace, t) == (if t in d.issued then 1 else 0) && |d.r.trace| == |d.issued|
  {
    AlwaysConserved(panics, steps, t);
  }

  lemma {:induction false} DropQueueUndelivered(trace: seq<Effect>, queue: seq<Command>)
    ensures var after := DropQueue(trace, queue);
            && trace <= after
            && forall i :: |trace| <= i < |after| ==> after[i].Discard? && after[i].loss == Undelivered
    decreases |queue|
  {
    if queue != [] {
      var next := if queue[0].Request? then trace + [Discard(queue[0].t, Undelivered)] else trace;
      DropQueueUndelivered(next, queue[1..]);
    }
  }

  /**
    The teardown's verdict: everything still parked is answered `Poisoned` when the
    endpoint is poisoned, even if a shutdown won the race to exit, and `ShuttingDown`
    otherwise; only commands never handled are dropped without an answer.
  */
  lemma TeardownVerdict(panics: Token -> bool, d: Node, i: nat)
    requires |d.r.trace| <= i < |Teardown(panics, d).r.trace|
    ensures var e := Teardown(panics, d).r.trace[i];
            if i < |d.r.trace| + Parked(d.r) then IsError(e, if d.ep.poisoned then Poisoned else ShuttingDown)
            else e.Discard? && e.loss == Undelivered
  {
    hide FailAll;
    FailAllWith(panics, d.r, Poisoned);
    FailAllSweeps(panics, d.r, Poisoned);
    var r := if d.ep.poisoned then FailAll(panics, d.r, Poisoned) else d.r;
    var swept := FailAll(panics, r, ShuttingDown);
    FailAllWith(panics, r, ShuttingDown);
    DropQueueUndelivered(swept.trace, d.queue);
    if i < |swept.trace| {
      assert DropQueue(swept.trace, d.queue)[i] == swept.trace[i];
      if i < |r.trace| { assert swept.trace[i] == r.trace[i]; }
    }
  }
}
