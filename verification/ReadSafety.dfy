/**
  Linearizable queries: one runs only once the state machine has applied its own
  confirmed read index, and no pass leaves one parked that could have run.
*/
module ReadSafety {
  import opened Routing
  import opened Driver

  /** A parked query sits under the context minted for it, at an index confirmed for that context. */
  predicate WellParked(c: nat, q: Query, asked: map<nat, Token>, confirmed: set<(nat, Index)>) {
    && q.ctx == c && c in asked && asked[c] == q.t
    && (q.readyAt.Some? ==> (c, q.readyAt.value) in confirmed)
  }

  ghost predicate AllWellParked(queries: map<nat, Query>, asked: map<nat, Token>, confirmed: set<(nat, Index)>) {
    forall c :: c in queries ==> WellParked(c, queries[c], asked, confirmed)
  }

  ghost predicate NoneRunnable(queries: map<nat, Query>, applied: Index) {
    forall c :: c in queries ==> !Runnable(queries[c], applied)
  }

  predicate Bounded(ev: Event, applied: Index, confirmed: set<(nat, Index)>) {
    match ev
    case ReadState(ctx, at) => ctx.Some? ==> (ctx.value, at) in confirmed
    case LeaderChanged => true
    case OtherEvent => true
    case Applied(i, _) => i <= applied
    case ConfChanged(i, _) => i <= applied
    case SnapshotInstalled(i) => i <= applied
    case ReadModeChanged(i) => i <= applied
  }

  ghost predicate AllBounded(evs: seq<Event>, applied: Index, confirmed: set<(nat, Index)>) {
    forall k :: 0 <= k < |evs| ==> Bounded(evs[k], applied, confirmed)
  }

  /** A closure handed the state machine: it has applied the index, and the index is its own. */
  predicate Grounded(e: Effect, asked: map<nat, Token>, confirmed: set<(nat, Index)>) {
    e.Invoke? ==>
      match e.arg
      case ServeQuery(c, at, applied) => at <= applied && (c, at) in confirmed && c in asked && asked[c] == e.t
      case ServeFailover(offer, applied) => offer.window.index <= applied
      case Decline => true
      case Fail(_) => true
  }

  ghost predicate AllGrounded(trace: seq<Effect>, asked: map<nat, Token>, confirmed: set<(nat, Index)>) {
    forall k :: 0 <= k < |trace| ==> Grounded(trace[k], asked, confirmed)
  }

  /** What routing alone keeps, against a bound on the endpoint's applied index. */
  ghost predicate RoutingOk(r: State, applied: Index, asked: map<nat, Token>, confirmed: set<(nat, Index)>) {
    r.applied <= applied && AllWellParked(r.queries, asked, confirmed) && AllGrounded(r.trace, asked, confirmed)
  }

  ghost predicate ReadsOk(d: Node) {
    && RoutingOk(d.r, d.ep.applied, d.asked, d.confirmed)
    && (forall c :: c in d.asked ==> c < d.r.nextCtx)
    && AllBounded(d.ep.events, d.ep.applied, d.confirmed)
    && (d.phase.Running? ==> NoneRunnable(d.r.queries, d.r.applied))
  }

  // ---- Routing -------------------------------------------------------------------------------------------

  lemma OnlyFailsGrounded(before: seq<Effect>, after: seq<Effect>, asked: map<nat, Token>, confirmed: set<(nat, Index)>)
    requires OnlyFails(before, after) && AllGrounded(before, asked, confirmed)
    ensures AllGrounded(after, asked, confirmed)
  {
    forall k | 0 <= k < |after|
      ensures Grounded(after[k], asked, confirmed)
    {
      if k < |before| { assert before[k] == after[k]; } else { assert IsFailure(after[k]); }
    }
  }

  lemma FailAllReads(panics: Token -> bool, r: State, err: Error, applied: Index, asked: map<nat, Token>,
                     confirmed: set<(nat, Index)>)
    requires RoutingOk(r, applied, asked, confirmed)
    ensures var r' := FailAll(panics, r, err);
            RoutingOk(r', applied, asked, confirmed) && r'.queries == map[] && r'.applied == r.applied
            && r'.nextCtx == r.nextCtx
  {
    FailAllSweeps(panics, r, err);
    OnlyFailsGrounded(r.trace, FailAll(panics, r, err).trace, asked, confirmed);
  }

  lemma RouteReads(panics: Token -> bool, r: State, ev: Event, applied: Index, asked: map<nat, Token>,
                   confirmed: set<(nat, Index)>)
    requires RoutingOk(r, applied, asked, confirmed) && Bounded(ev, applied, confirmed)
    ensures var r' := RouteEvent(panics, r, ev);
            && RoutingOk(r', applied, asked, confirmed) && r'.nextCtx == r.nextCtx
            && r.applied <= r'.applied
            && (NoneRunnable(r.queries, r.applied) && !Advances(r, ev) ==>
                  r'.applied == r.applied && NoneRunnable(r'.queries, r'.applied))
  {
    if ev.LeaderChanged? { FailAllReads(panics, r, Superseded, applied, asked, confirmed); }
  }

  /** `false` from every event and from the sync hides no runnable query. */
  lemma {:induction false} RouteAllReads(panics: Token -> bool, r: State, evs: seq<Event>, applied: Index,
                                         asked: map<nat, Token>, confirmed: set<(nat, Index)>)
    requires RoutingOk(r, applied, asked, confirmed) && AllBounded(evs, applied, confirmed)
    ensures var r' := RouteAll(panics, r, evs);
            && RoutingOk(r', applied, asked, confirmed) && r'.nextCtx == r.nextCtx
            && r.applied <= r'.applied
            && (NoneRunnable(r.queries, r.applied) && !AnyAdvances(panics, r, evs) ==>
                  r'.applied == r.applied && NoneRunnable(r'.queries, r'.applied))
    decreases |evs|
  {
    hide RouteEvent, RoutingOk;
    if evs != [] {
      assert Bounded(evs[0], applied, confirmed);
      RouteReads(panics, r, evs[0], applied, asked, confirmed);
      assert AllBounded(evs[1..], applied, confirmed);
      RouteAllReads(panics, RouteEvent(panics, r, evs[0]), evs[1..], applied, asked, confirmed);
    }
  }

  // ---- The pump --------------------------------------------------------------------------------------------

  lemma SettledReads(panics: Token -> bool, d: Node)
    requires ReadsOk(d) && d.phase.Running?
    ensures var r := Settled(panics, d);
            && RoutingOk(r, d.ep.applied, d.asked, d.confirmed) && r.nextCtx == d.r.nextCtx
            && (!d.ep.poisoned ==> r.applied == d.ep.applied)
            && (!d.ep.poisoned && !RunsQueries(panics, d) ==> NoneRunnable(r.queries, r.applied))
  {
    hide RouteAll, FailAll, AnyAdvances;
    RouteAllReads(panics, d.r, d.ep.events, d.ep.applied, d.asked, d.confirmed);
    var synced := if d.ep.poisoned then d.r else Raise(RouteAll(panics, d.r, d.ep.events), d.ep.applied);
    assert RoutingOk(synced, d.ep.applied, d.asked, d.confirmed);
    FailAllReads(panics, synced, Superseded, d.ep.applied, d.asked, d.confirmed);
  }

  lemma ServeFailoversGrounded(panics: Token -> bool, trace: seq<Effect>, batch: seq<Token>, offer: Offer, applied: Index,
                               live: nat -> bool, asked: map<nat, Token>, confirmed: set<(nat, Index)>)
    requires AllGrounded(trace, asked, confirmed) && offer.window.index <= applied
    ensures AllGrounded(ServeFailovers(panics, trace, batch, offer, applied, live, 0, false), asked, confirmed)
  {
    ServeFailoversTally(panics, trace, batch, offer, applied, live, 0, false, 0);
    var after := ServeFailovers(panics, trace, batch, offer, applied, live, 0, false);
    forall k | 0 <= k < |after|
      ensures Grounded(after[k], asked, confirmed)
    {
      if k < |trace| { assert after[k] == trace[k]; }
    }
  }

  lemma FailoverPassReads(panics: Token -> bool, r: State, ch: Choice, applied: Index, asked: map<nat, Token>,
                          confirmed: set<(nat, Index)>)
    requires RoutingOk(r, applied, asked, confirmed)
    ensures var r' := FailoverPass(panics, r, applied, ch);
            && RoutingOk(r', applied, asked, confirmed)
            && r'.queries == r.queries && r'.applied == r.applied && r'.nextCtx == r.nextCtx
  {
    EndFailoversSweeps(panics, r, Decline);
    OnlyFailsGrounded(r.trace, EndFailovers(panics, r, Decline).trace, asked, confirmed);
    if HasOffer(ch) && ch.window.value.index <= r.applied {
      ServeFailoversGrounded(panics, r.trace, r.failovers, Offered(ch), applied, ch.live, asked, confirmed);
    }
  }

  lemma ServeQueriesGrounded(panics: Token -> bool, trace: seq<Effect>, batch: seq<Query>, bound: Index, applied: Index,
                             asked: map<nat, Token>, confirmed: set<(nat, Index)>)
    requires AllGrounded(trace, asked, confirmed) && bound <= applied
    requires forall q :: q in batch ==> q.readyAt.Some?
    requires forall i :: 0 <= i < |batch| ==>
               Runnable(batch[i], bound) && WellParked(batch[i].ctx, batch[i], asked, confirmed)
    ensures AllGrounded(ServeQueries(panics, trace, batch, applied, false), asked, confirmed)
  {
    ServeQueriesTally(panics, trace, batch, applied, false, 0);
    var after := ServeQueries(panics, trace, batch, applied, false);
    forall k | 0 <= k < |after|
      ensures Grounded(after[k], asked, confirmed)
    {
      if k < |trace| {
        assert after[k] == trace[k];
      } else {
        ServeQueriesArgs(panics, trace, batch, applied, false, k - |trace|);
        assert Runnable(batch[k - |trace|], bound);
      }
    }
  }

  lemma QueryPassReads(panics: Token -> bool, r: State, applied: Index, asked: map<nat, Token>,
                       confirmed: set<(nat, Index)>)
    requires RoutingOk(r, applied, asked, confirmed)
    ensures var r' := QueryPass(panics, r, applied);
            && RoutingOk(r', applied, asked, confirmed) && NoneRunnable(r'.queries, r'.applied)
            && r'.applied == r.applied && r'.nextCtx == r.nextCtx
  {
    TakeRunnableIsExact(r, 0);
    var batch := RunnableQueries(r);
    forall i | 0 <= i < |batch|
      ensures WellParked(batch[i].ctx, batch[i], asked, confirmed)
    {
      assert From(r.queries, batch[i]);
    }
    ServeQueriesGrounded(panics, r.trace, batch, r.applied, applied, asked, confirmed);
  }

  lemma PassedReads(panics: Token -> bool, d: Node, ch: Choice)
    requires ReadsOk(d) && d.phase.Running?
    ensures var r := Passed(panics, d, ch);
            && RoutingOk(r, d.ep.applied, d.asked, d.confirmed) && r.nextCtx == d.r.nextCtx
            && (!d.ep.poisoned ==> r.applied == d.ep.applied)
            && (!d.ep.poisoned && !RunsQueries(panics, d) ==> NoneRunnable(r.queries, r.applied))
  {
    hide Settled, FailoverPass, RunsQueries;
    SettledReads(panics, d);
    FailoverPassReads(panics, Settled(panics, d), ch, d.ep.applied, d.asked, d.confirmed);
  }

  lemma ServedReads(panics: Token -> bool, d: Node, ch: Choice)
    requires ReadsOk(d) && d.phase.Running?
    ensures var r := Served(panics, d, ch);
            && RoutingOk(r, d.ep.applied, d.asked, d.confirmed) && r.nextCtx == d.r.nextCtx
            && (!Fatal(panics, d, ch) ==> r.applied == d.ep.applied && NoneRunnable(r.queries, r.applied))
  {
    hide Passed, QueryPass, RunsQueries;
    PassedReads(panics, d, ch);
    var read := Passed(panics, d, ch).(latch := false);
    QueryPassReads(panics, read, d.ep.applied, d.asked, d.confirmed);
  }

  lemma PumpReads(panics: Token -> bool, d: Node, ch: Choice)
    requires ReadsOk(d) && d.phase.Running?
    ensures ReadsOk(Pump(panics, d, ch))
    ensures Pump(panics, d, ch).phase.Running? ==> Pump(panics, d, ch).r.applied == d.ep.applied
  {
    hide Passed, Served, Stops, Fatal, FailAll;
    PassedReads(panics, d, ch);
    ServedReads(panics, d, ch);
    FailAllReads(panics, Passed(panics, d, ch), Poisoned, d.ep.applied, d.asked, d.confirmed);
    FailAllReads(panics, Served(panics, d, ch), Poisoned, d.ep.applied, d.asked, d.confirmed);
  }

  // ---- The other steps ---------------------------------------------------------------------------------------

  lemma EvolveReads(panics: Token -> bool, d: Node, s: EndpointStep)
    requires ReadsOk(d) && Enabled(d, World(s))
    ensures ReadsOk(Next(panics, d, World(s)))
  {
    var d' := Next(panics, d, World(s));
    forall k | 0 <= k < |d'.ep.events|
      ensures Bounded(d'.ep.events[k], d'.ep.applied, d'.confirmed)
    {
      if k < |d.ep.events| { assert Bounded(d.ep.events[k], d.ep.applied, d.confirmed); }
    }
    forall k | 0 <= k < |d.r.trace|
      ensures Grounded(d.r.trace[k], d'.asked, d'.confirmed)
    {
      assert Grounded(d.r.trace[k], d.asked, d.confirmed);
    }
  }

  lemma NoteGrounded(trace: seq<Effect>, e: Effect, asked: map<nat, Token>, confirmed: set<(nat, Index)>)
    requires AllGrounded(trace, asked, confirmed) && !Serves(e)
    ensures AllGrounded(trace + [e], asked, confirmed)
  {}

  /** A fresh context changes nothing that was asked before. */
  lemma MintReads(d: Node, t: Token)
    requires ReadsOk(d)
    ensures var asked := d.asked[d.r.nextCtx := t];
            AllWellParked(d.r.queries, asked, d.confirmed) && AllGrounded(d.r.trace, asked, d.confirmed)
  {
    forall k | 0 <= k < |d.r.trace|
      ensures Grounded(d.r.trace[k], d.asked[d.r.nextCtx := t], d.confirmed)
    {
      assert Grounded(d.r.trace[k], d.asked, d.confirmed);
    }
  }

  lemma ReadQueryReads(panics: Token -> bool, d: Node, t: Token, accept: bool)
    requires ReadsOk(d)
    ensures ReadsOk(Execute(panics, d, Request(t, ReadQuery), accept))
  {
    MintReads(d, t);
    NoteGrounded(d.r.trace, Invoke(t, Fail(Refused), panics(t)), d.asked[d.r.nextCtx := t], d.confirmed);
  }

  lemma ParkReads(d: Node, t: Token, conf: bool)
    requires ReadsOk(d)
    ensures ReadsOk(Park(d, t, conf))
  {
    var i := |d.ep.log| + 1;
    if i in d.r.pending {
      NoteGrounded(d.r.trace, Discard(d.r.pending[i].t, Overwritten), d.asked, d.confirmed);
    }
  }

  lemma AnsweredReads(d: Node, t: Token, answer: Answer)
    requires ReadsOk(d)
    ensures ReadsOk(Answered(d, t, answer))
  {
    NoteGrounded(d.r.trace, Reply(t, answer), d.asked, d.confirmed);
  }

  lemma SetReadModeReads(d: Node, t: Token)
    requires ReadsOk(d)
    ensures ReadsOk(Answered(d.(ep := d.ep.(log := d.ep.log + [Entry(Own(t), ReadMode)])), t, Done))
  {
    NoteGrounded(d.r.trace, Reply(t, Done), d.asked, d.confirmed);
  }

  lemma ExecuteReads(panics: Token -> bool, d: Node, cmd: Command, accept: bool)
    requires ReadsOk(d)
    ensures ReadsOk(Execute(panics, d, cmd, accept))
  {
    if cmd.Request? {
      match cmd.op {
        case Submit => ParkReads(d, cmd.t, false); AnsweredReads(d, cmd.t, Err(Refused));
        case ChangeConf => ParkReads(d, cmd.t, true); AnsweredReads(d, cmd.t, Err(Refused));
        case SetReadMode => SetReadModeReads(d, cmd.t); AnsweredReads(d, cmd.t, Err(Refused));
        case ReadQuery => ReadQueryReads(panics, d, cmd.t, accept);
        case FailoverRead =>
        case Immediate => AnsweredReads(d, cmd.t, if accept then Done else Err(Refused));
      }
    }
  }

  lemma {:induction false} DropQueueGrounded(trace: seq<Effect>, queue: seq<Command>, asked: map<nat, Token>,
                                             confirmed: set<(nat, Index)>)
    requires AllGrounded(trace, asked, confirmed)
    ensures AllGrounded(DropQueue(trace, queue), asked, confirmed)
    decreases |queue|
  {
    if queue != [] {
      DropQueueGrounded(if queue[0].Request? then trace + [Discard(queue[0].t, Undelivered)] else trace, queue[1..],
                        asked, confirmed);
    }
  }

  lemma TeardownReads(panics: Token -> bool, d: Node)
    requires ReadsOk(d)
    ensures ReadsOk(Teardown(panics, d))
  {
    hide FailAll;
    FailAllReads(panics, d.r, Poisoned, d.ep.applied, d.asked, d.confirmed);
    var r := if d.ep.poisoned then FailAll(panics, d.r, Poisoned) else d.r;
    FailAllReads(panics, r, ShuttingDown, d.ep.applied, d.asked, d.confirmed);
    DropQueueGrounded(FailAll(panics, r, ShuttingDown).trace, d.queue, d.asked, d.confirmed);
  }

  lemma NextReads(panics: Token -> bool, d: Node, step: Step)
    requires ReadsOk(d) && Enabled(d, step)
    ensures ReadsOk(Next(panics, d, step))
  {
    match step {
      case World(s) => EvolveReads(panics, d, s);
      case Enqueue(_) =>
      case Handle(accept) => ExecuteReads(panics, d.(queue := d.queue[1..]), d.queue[0], accept);
      case RunPump(ch) => PumpReads(panics, d, ch);
      case Stop => TeardownReads(panics, d);
    }
  }

  lemma {:induction false} AlwaysReadsOk(panics: Token -> bool, steps: seq<Step>)
    requires Run(panics, steps).Some?
    ensures ReadsOk(Run(panics, steps).value)
    decreases |steps|
  {
    if steps != [] {
      AlwaysReadsOk(panics, steps[..|steps| - 1]);
      NextReads(panics, Run(panics, steps[..|steps| - 1]).value, steps[|steps| - 1]);
    }
  }

  /**
    In every run, a query closure is handed the state machine only when that has
    applied the read index the endpoint confirmed for this query's own context.
  */
  lemma QueriesRunAtTheirIndex(panics: Token -> bool, steps: seq<Step>, k: nat)
    requires Run(panics, steps).Some? && k < |Run(panics, steps).value.r.trace|
    ensures var d := Run(panics, steps).value;
            var e := d.r.trace[k];
            e.Invoke? && e.arg.ServeQuery? ==>
              && e.arg.at <= e.arg.applied
              && (e.arg.ctx, e.arg.at) in d.confirmed
              && e.arg.ctx in d.asked && d.asked[e.arg.ctx] == e.t
  {
    AlwaysReadsOk(panics, steps);
    var d := Run(panics, steps).value;
    assert Grounded(d.r.trace[k], d.asked, d.confirmed);
  }

  /**
    After a pump that does not stop the driver, the watermark is the endpoint's applied
    index and every confirmed query still parked is waiting for a later one.
  */
  lemma HealthyPumpLeavesNothingRunnable(panics: Token -> bool, steps: seq<Step>, ch: Choice, c: nat)
    requires Run(panics, steps).Some? && Run(panics, steps).value.phase.Running?
    ensures var d := Pump(panics, Run(panics, steps).value, ch);
            d.phase.Running? ==>
              && d.r.applied == d.ep.applied
              && (c in d.r.queries && d.r.queries[c].readyAt.Some? ==> d.r.queries[c].readyAt.value > d.ep.applied)
  {
    AlwaysReadsOk(panics, steps);
    PumpReads(panics, Run(panics, steps).value, ch);
    var d := Pump(panics, Run(panics, steps).value, ch);
    assert d.phase.Running? && c in d.r.queries ==> !Runnable(d.r.queries[c], d.r.applied);
  }
}
