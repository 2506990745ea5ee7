/**
  A caught panic may have torn the state machine. Completions panic while being served,
  swept, declined or refused; after the first one that does, no completion is handed
  the state machine again.
*/
module PanicSafety {
  import opened Routing
  import opened Driver

  ghost predicate Gated(d: Node) {
    && NeverServesTorn(d.r.trace)
    && (d.phase.Running? ==> !d.r.latch && (Torn(d.r.trace) ==> d.ep.poisoned))
    && (d.phase.Stopped? ==> !d.r.latch)
  }

  /** Inside a pass: a caught panic is latched, and a latched one left nothing to serve. */
  ghost predicate Guarded(r: State) {
    NeverServesTorn(r.trace) && Latched(r) && (r.latch ==> r.failovers == [])
  }

  lemma FailAllGuarded(panics: Token -> bool, r: State, err: Error)
    requires NeverServesTorn(r.trace)
    ensures var r' := FailAll(panics, r, err);
            NeverServesTorn(r'.trace) && r'.failovers == [] && (Latched(r) ==> Guarded(r'))
  {
    FailAllSweeps(panics, r, err);
    OnlyFailsKeeps(r.trace, FailAll(panics, r, err).trace);
  }

  lemma RouteGuarded(panics: Token -> bool, r: State, ev: Event)
    requires Guarded(r)
    ensures Guarded(RouteEvent(panics, r, ev))
  {
    if ev.LeaderChanged? {
      FailAllGuarded(panics, r, Superseded);
    } else if (ev.Applied? || ev.ConfChanged?) && ev.index in r.pending {
      var w := r.pending[ev.index];
      var e := if w.conf == ev.ConfChanged? then Reply(w.t, Ok(ev.entry)) else Discard(w.t, WrongKind);
      NoteTorn(r.trace, e);
      NoteClean(r.trace, e);
    }
  }

  lemma {:induction false} RouteAllGuarded(panics: Token -> bool, r: State, evs: seq<Event>)
    requires Guarded(r)
    ensures Guarded(RouteAll(panics, r, evs))
    decreases |evs|
  {
    if evs != [] {
      RouteGuarded(panics, r, evs[0]);
      RouteAllGuarded(panics, RouteEvent(panics, r, evs[0]), evs[1..]);
    }
  }

  lemma SettledGuarded(panics: Token -> bool, d: Node)
    requires Gated(d) && d.phase.Running?
    ensures NeverServesTorn(Settled(panics, d).trace)
    ensures !d.ep.poisoned ==> Guarded(Settled(panics, d))
  {
    hide RouteAll, FailAll;
    if !d.ep.poisoned { RouteAllGuarded(panics, d.r, d.ep.events); }
    var synced := if d.ep.poisoned then d.r else Raise(RouteAll(panics, d.r, d.ep.events), d.ep.applied);
    FailAllGuarded(panics, synced, Superseded);
  }

  /** A pass that stops hands on nothing untorn; one that does not stop has latched what it caught. */
  lemma FailoverPassGuarded(panics: Token -> bool, r: State, applied: Index, ch: Choice)
    requires Guarded(r)
    ensures var r' := FailoverPass(panics, r, applied, ch);
            NeverServesTorn(r'.trace) && (!FailoverStops(panics, r, ch) ==> Latched(r'))
  {
    EndFailoversSweeps(panics, r, Decline);
    OnlyFailsKeeps(r.trace, EndFailovers(panics, r, Decline).trace);
    if HasOffer(ch) && r.failovers != [] {
      ServeFailoversClean(panics, r.trace, r.failovers, Offered(ch), applied, ch.live, 0, false);
    }
  }

  lemma QueryPassGuarded(panics: Token -> bool, r: State, applied: Index)
    requires NeverServesTorn(r.trace) && !Torn(r.trace)
    ensures var r' := QueryPass(panics, r, applied);
            && NeverServesTorn(r'.trace) && r'.latch == r.latch
            && (Torn(r'.trace) ==> AnyPanics(panics, Tokens(RunnableQueries(r))))
  {
    TakeRunnableIsExact(r, 0);
    ServeQueriesClean(panics, r.trace, RunnableQueries(r), applied, false);
  }

  lemma PassedGuarded(panics: Token -> bool, d: Node, ch: Choice)
    requires Gated(d) && d.phase.Running?
    ensures NeverServesTorn(Passed(panics, d, ch).trace)
    ensures !d.ep.poisoned && !Stops(panics, d, ch) ==> Latched(Passed(panics, d, ch))
  {
    hide Settled, FailoverPass, FailoverStops;
    SettledGuarded(panics, d);
    if !d.ep.poisoned { FailoverPassGuarded(panics, Settled(panics, d), d.ep.applied, ch); }
  }

  lemma ServedGuarded(panics: Token -> bool, d: Node, ch: Choice)
    requires Gated(d) && d.phase.Running? && !Stops(panics, d, ch)
    ensures var r := Served(panics, d, ch);
            NeverServesTorn(r.trace) && !r.latch && (!Fatal(panics, d, ch) ==> !Torn(r.trace))
  {
    hide Passed, Stops, QueryPass, RunsQueries;
    PassedGuarded(panics, d, ch);
    var read := Passed(panics, d, ch).(latch := false);
    if ServesQueries(panics, d, ch) { QueryPassGuarded(panics, read, d.ep.applied); }
  }

  lemma PumpGated(panics: Token -> bool, d: Node, ch: Choice)
    requires Gated(d) && d.phase.Running?
    ensures Gated(Pump(panics, d, ch))
  {
    hide Passed, Served, Stops, Fatal, FailAll;
    PassedGuarded(panics, d, ch);
    if Stops(panics, d, ch) {
      FailAllGuarded(panics, Passed(panics, d, ch), Poisoned);
    } else {
      ServedGuarded(panics, d, ch);
      FailAllGuarded(panics, Served(panics, d, ch), Poisoned);
    }
  }

  lemma NoteGated(d: Node, d': Node, e: Effect)
    requires Gated(d) && d.phase.Running? && d'.phase.Running? && !Serves(e)
    requires d'.r.trace == d.r.trace + [e] && d'.r.latch == d.r.latch
    requires d'.ep.poisoned == (d.ep.poisoned || Panicked(e))
    ensures Gated(d')
  {
    NoteTorn(d.r.trace, e);
    NoteClean(d.r.trace, e);
  }

  lemma ParkGated(d: Node, t: Token, conf: bool)
    requires Gated(d) && d.phase.Running?
    ensures Gated(Park(d, t, conf))
  {
    var i := |d.ep.log| + 1;
    if i in d.r.pending { NoteGated(d, Park(d, t, conf), Discard(d.r.pending[i].t, Overwritten)); }
  }

  lemma ExecuteGated(panics: Token -> bool, d: Node, cmd: Command, accept: bool)
    requires Gated(d) && d.phase.Running?
    ensures Gated(Execute(panics, d, cmd, accept))
  {
    if cmd.Request? {
      var t := cmd.t;
      var d' := Execute(panics, d, cmd, accept);
      var parks := accept && d.ep.leader && !d.ep.poisoned;
      match cmd.op {
        case Submit =>
          if parks { ParkGated(d, t, false); } else { NoteGated(d, d', Reply(t, Err(Refused))); }
        case ChangeConf =>
          if parks { ParkGated(d, t, true); } else { NoteGated(d, d', Reply(t, Err(Refused))); }
        case SetReadMode => NoteGated(d, d', Reply(t, if parks then Done else Err(Refused)));
        case ReadQuery =>
          if !(accept && !d.ep.poisoned) { NoteGated(d, d', Invoke(t, Fail(Refused), panics(t))); }
        case FailoverRead =>
        case Immediate => NoteGated(d, d', Reply(t, if accept then Done else Err(Refused)));
      }
    }
  }

  lemma {:induction false} DropQueueClean(trace: seq<Effect>, queue: seq<Command>)
    requires NeverServesTorn(trace)
    ensures NeverServesTorn(DropQueue(trace, queue))
    decreases |queue|
  {
    if queue != [] {
      if queue[0].Request? { NoteClean(trace, Discard(queue[0].t, Undelivered)); }
      DropQueueClean(if queue[0].Request? then trace + [Discard(queue[0].t, Undelivered)] else trace, queue[1..]);
    }
  }

  lemma TeardownGated(panics: Token -> bool, d: Node)
    requires Gated(d)
    ensures Gated(Teardown(panics, d))
  {
    hide FailAll;
    FailAllGuarded(panics, d.r, Poisoned);
    var r := if d.ep.poisoned then FailAll(panics, d.r, Poisoned) else d.r;
    FailAllGuarded(panics, r, ShuttingDown);
    DropQueueClean(FailAll(panics, r, ShuttingDown).trace, d.queue);
  }

  lemma NextGated(panics: Token -> bool, d: Node, step: Step)
    requires Gated(d) && Enabled(d, step)
    ensures Gated(Next(panics, d, step))
  {
    match step {
      case World(_) =>
      case Enqueue(_) =>
      case Handle(accept) => ExecuteGated(panics, d.(queue := d.queue[1..]), d.queue[0], accept);
      case RunPump(ch) => PumpGated(panics, d, ch);
      case Stop => TeardownGated(panics, d);
    }
  }

  lemma {:induction false} AlwaysGated(panics: Token -> bool, steps: seq<Step>)
    requires Run(panics, steps).Some?
    ensures Gated(Run(panics, steps).value)
    decreases |steps|
  {
    if steps != [] {
      AlwaysGated(panics, steps[..|steps| - 1]);
      NextGated(panics, Run(panics, steps[..|steps| - 1]).value, steps[|steps| - 1]);
    }
  }

  /**
    In every run, no completion is handed the state machine after one has reported a
    caught panic, however that one was invoked.
  */
  lemma NothingServedAfterAPanic(panics: Token -> bool, steps: seq<Step>, i: nat, j: nat)
    requires Run(panics, steps).Some? && i < j < |Run(panics, steps).value.r.trace|
    ensures var d := Run(panics, steps).value; Panicked(d.r.trace[i]) ==> !Serves(d.r.trace[j])
  {
    AlwaysGated(panics, steps);
  }

  /** The latch is clear when the driver, and its routing with it, is gone. */
  lemma LatchIsClearOnceStopped(panics: Token -> bool, steps: seq<Step>)
    requires Run(panics, steps).Some? && Run(panics, steps).value.phase.Stopped?
    ensures !Run(panics, steps).value.r.latch
  {
    AlwaysGated(panics, steps);
  }
}
