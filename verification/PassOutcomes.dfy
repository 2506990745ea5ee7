/**
  What one pass does with everything that is parked: when it ends the loop, which failover
  reads it serves, declines or keeps, and which queries it runs.
*/
module PassOutcomes {
  import opened Wrappers
  import opened Finite
  import opened Routing
  import opened Driver
  import opened AnswerSafety
  import opened ReadSafety
  import opened PanicSafety
  import opened RunLoop

  // ---- When a pass ends the loop --------------------------------------------------------------------

  /** A completion that ran since has reported a caught panic. */
  ghost predicate PanickedSince(before: seq<Effect>, after: seq<Effect>) {
    exists k :: |before| <= k < |after| && Panicked(after[k])
  }

  lemma PanickedLater(a: seq<Effect>, b: seq<Effect>, c: seq<Effect>)
    requires a <= b <= c
    ensures PanickedSince(a, b) || PanickedSince(b, c) ==> PanickedSince(a, c)
  {
    if PanickedSince(a, b) {
      var k :| |a| <= k < |b| && Panicked(b[k]);
      assert Panicked(c[k]);
    }
  }

  /** The latch is raised only by a panic caught since. */
  ghost predicate LatchCaused(r: State, r': State) {
    r.trace <= r'.trace && (r'.latch ==> r.latch || PanickedSince(r.trace, r'.trace))
  }

  lemma LatchCausedThen(a: State, b: State, c: State)
    requires LatchCaused(a, b) && LatchCaused(b, c)
    ensures LatchCaused(a, c)
  {
    PanickedLater(a.trace, b.trace, c.trace);
  }

  lemma CompleteLatches(panics: Token -> bool, r: State, t: Token, arg: Arg)
    ensures LatchCaused(r, Complete(panics, r, t, arg))
  {
    var r' := Complete(panics, r, t, arg);
    assert Panicked(r'.trace[|r.trace|]) <==> panics(t);
  }

  lemma {:induction false} FailQueriesLatches(panics: Token -> bool, r: State, err: Error)
    ensures LatchCaused(r, FailQueries(panics, r, err))
    decreases |r.queries|
  {
    if r.queries != map[] {
      var k := Least(r.queries.Keys);
      var next := Complete(panics, r, r.queries[k].t, Fail(err)).(queries := r.queries - {k});
      CompleteLatches(panics, r, r.queries[k].t, Fail(err));
      FailQueriesLatches(panics, next, err);
      LatchCausedThen(r, next, FailQueries(panics, next, err));
    }
  }

  lemma {:induction false} EndFailoversLatches(panics: Token -> bool, r: State, arg: Arg)
    ensures LatchCaused(r, EndFailovers(panics, r, arg))
    decreases |r.failovers|
  {
    if r.failovers != [] {
      var next := Complete(panics, r, r.failovers[0], arg).(failovers := r.failovers[1..]);
      CompleteLatches(panics, r, r.failovers[0], arg);
      EndFailoversLatches(panics, next, arg);
      LatchCausedThen(r, next, EndFailovers(panics, next, arg));
    }
  }

  lemma FailAllLatches(panics: Token -> bool, r: State, err: Error)
    ensures LatchCaused(r, FailAll(panics, r, err))
  {
    var a := FailPending(r, err);
    var b := FailQueries(panics, a, err);
    FailPendingSweeps(r, err);
    FailQueriesLatches(panics, a, err);
    EndFailoversLatches(panics, b, Fail(err));
    LatchCausedThen(r, a, b);
    LatchCausedThen(r, b, FailAll(panics, r, err));
  }

  lemma {:induction false} RouteAllLatches(panics: Token -> bool, r: State, evs: seq<Event>)
    ensures LatchCaused(r, RouteAll(panics, r, evs))
    decreases |evs|
  {
    if evs != [] {
      var next := RouteEvent(panics, r, evs[0]);
      if evs[0].LeaderChanged? { FailAllLatches(panics, r, Superseded); }
      assert LatchCaused(r, next);
      RouteAllLatches(panics, next, evs[1..]);
      LatchCausedThen(r, next, RouteAll(panics, next, evs[1..]));
    }
  }

  lemma SettledLatches(panics: Token -> bool, d: Node)
    ensures LatchCaused(d.r, Settled(panics, d))
  {
    hide RouteAll, FailAll;
    RouteAllLatches(panics, d.r, d.ep.events);
    var synced := if d.ep.poisoned then d.r else Raise(RouteAll(panics, d.r, d.ep.events), d.ep.applied);
    FailAllLatches(panics, synced, Superseded);
    LatchCausedThen(d.r, synced, FailAll(panics, synced, Superseded));
  }

  lemma PassedLatches(panics: Token -> bool, d: Node, ch: Choice)
    ensures LatchCaused(d.r, Passed(panics, d, ch))
  {
    hide Settled, EndFailovers, ServeFailovers, Scan;
    var settled := Settled(panics, d);
    SettledLatches(panics, d);
    EndFailoversLatches(panics, settled, Decline);
    FailoverPassExtends(panics, settled, d.ep.applied, ch);
    assert LatchCaused(settled, Passed(panics, d, ch));
    LatchCausedThen(d.r, settled, Passed(panics, d, ch));
  }

  lemma {:induction false} AnyPanicsAt(panics: Token -> bool, batch: seq<Token>) returns (i: nat)
    requires AnyPanics(panics, batch)
    ensures i < |batch| && panics(batch[i])
    decreases |batch|
  {
    if panics(batch[0]) { i := 0; } else {
      var j := AnyPanicsAt(panics, batch[1..]);
      i := j + 1;
    }
  }

  lemma FailoversPanic(panics: Token -> bool, r: State, applied: Index, ch: Choice)
    requires FailoverStops(panics, r, ch) && HasOffer(ch)
    ensures PanickedSince(r.trace, FailoverPass(panics, r, applied, ch).trace)
  {
    var i := AnyPanicsAt(panics, r.failovers);
    ServeFailoversArgs(panics, r.trace, r.failovers, Offered(ch), applied, ch.live, 0, false, i);
    assert Panicked(FailoverPass(panics, r, applied, ch).trace[|r.trace| + i]);
  }

  lemma BatchPanics(panics: Token -> bool, trace: seq<Effect>, batch: seq<Query>, applied: Index)
    requires forall q :: q in batch ==> q.readyAt.Some?
    requires AnyPanics(panics, Tokens(batch))
    ensures PanickedSince(trace, ServeQueries(panics, trace, batch, applied, false))
  {
    var i := AnyPanicsAt(panics, Tokens(batch));
    ServeQueriesArgs(panics, trace, batch, applied, false, i);
    assert Panicked(ServeQueries(panics, trace, batch, applied, false)[|trace| + i]);
  }

  lemma QueriesPanic(panics: Token -> bool, r: State, applied: Index)
    requires AnyPanics(panics, Tokens(RunnableQueries(r)))
    ensures PanickedSince(r.trace, QueryPass(panics, r, applied).trace)
  {
    TakeRunnableIsExact(r, 0);
    hide RunnableQueries, ServeQueries, PanickedSince, AnyPanics, Tokens;
    BatchPanics(panics, r.trace, RunnableQueries(r), applied);
  }

  /** The limbo was read for somebody and the log store's answer cannot be trusted. */
  ghost predicate LimboFaults(panics: Token -> bool, d: Node, ch: Choice) {
    && !d.ep.poisoned && Settled(panics, d).failovers != []
    && ch.window.Some? && ch.window.value.index <= d.ep.applied && Scan(ch).Fatal?
  }

  lemma LeavingHasAReason(panics: Token -> bool, d: Node, ch: Choice)
    requires d.phase.Running? && !d.r.latch && (!d.ep.poisoned ==> Settled(panics, d).applied == d.ep.applied)
    requires Stops(panics, d, ch) || Fatal(panics, d, ch)
    ensures d.ep.poisoned || PanickedSince(d.r.trace, Pump(panics, d, ch).r.trace) || LimboFaults(panics, d, ch)
  {
    hide Settled, FailoverPass, QueryPass, RunsQueries, FailAll, Scan;
    if !d.ep.poisoned && !LimboFaults(panics, d, ch) {
      var settled, passed := Settled(panics, d), Passed(panics, d, ch);
      var after := Pump(panics, d, ch).r.trace;
      SettledLatches(panics, d);
      PassedLatches(panics, d, ch);
      PumpExtends(panics, d, ch);
      PanickedLater(d.r.trace, passed.trace, after);
      if Stops(panics, d, ch) {
        FailoversPanic(panics, settled, d.ep.applied, ch);
        PanickedLater(d.r.trace, settled.trace, passed.trace);
      } else if !passed.latch {
        QueriesPanic(panics, passed.(latch := false), d.ep.applied);
        PanickedLater(passed.trace, Served(panics, d, ch).trace, after);
      }
    }
  }

  /**
    In every run a pass ends the loop exactly when the endpoint is poisoned, some completion
    of this pass panicked, or the limbo read for a parked failover read was faulty; it leaves
    the endpoint poisoned in all of these cases but the last.
  */
  lemma PumpLeavesIff(panics: Token -> bool, steps: seq<Step>, ch: Choice)
    requires Run(panics, steps).Some? && Run(panics, steps).value.phase.Running?
    ensures var d := Run(panics, steps).value;
            Pump(panics, d, ch).phase.Leaving?
            <==> d.ep.poisoned || PanickedSince(d.r.trace, Pump(panics, d, ch).r.trace) || LimboFaults(panics, d, ch)
    ensures var d := Run(panics, steps).value;
            Pump(panics, d, ch).ep.poisoned <==> Pump(panics, d, ch).phase.Leaving? && !LimboFaults(panics, d, ch)
  {
    var d := Run(panics, steps).value;
    AlwaysGated(panics, steps);
    AlwaysReadsOk(panics, steps);
    SettledReads(panics, d);
    hide Settled, Passed, Served, FailAll, RunsQueries, Scan;
    if Stops(panics, d, ch) || Fatal(panics, d, ch) {
      LeavingHasAReason(panics, d, ch);
    } else {
      ServedGuarded(panics, d, ch);
      NotTornNotSince(d.r.trace, Served(panics, d, ch).trace);
    }
  }

  lemma NotTornNotSince(before: seq<Effect>, after: seq<Effect>)
    requires !Torn(after)
    ensures !PanickedSince(before, after)
  {}

  // ---- Failover reads -----------------------------------------------------------------------------------

  /** Nothing but a change of leader touches the failover reads. */
  lemma {:induction false} RouteAllKeepsFailovers(panics: Token -> bool, r: State, evs: seq<Event>)
    requires LeaderChanged !in evs
    ensures RouteAll(panics, r, evs).failovers == r.failovers
    decreases |evs|
  {
    if evs != [] { RouteAllKeepsFailovers(panics, RouteEvent(panics, r, evs[0]), evs[1..]); }
  }

  lemma SettledKeepsFailovers(panics: Token -> bool, d: Node)
    requires !Sweeping(d)
    ensures Settled(panics, d).failovers == d.r.failovers
  {
    if !d.ep.poisoned { RouteAllKeepsFailovers(panics, d.r, d.ep.events); }
  }

  /** What the failover pass does with the `j`-th read: `None` leaves it parked. */
  ghost function Verdict(panics: Token -> bool, failovers: seq<Token>, applied: Index, ch: Choice, j: nat): Option<Arg>
    requires j < |failovers|
  {
    if ch.window.None? then Some(Decline)
    else if ch.window.value.index > applied then None
    else match Scan(ch)
         case Fatal => None
         case Fallback => Some(Decline)
         case Region(_) =>
           if AnyPanics(panics, failovers[..j]) then Some(Fail(Poisoned))
           else if ch.live(j) then Some(ServeFailover(Offered(ch), applied)) else Some(Decline)
  }

  lemma FailoverPassVerdict(panics: Token -> bool, r: State, ch: Choice, j: nat)
    requires j < |r.failovers|
    ensures var r', t := FailoverPass(panics, r, r.applied, ch), r.failovers[j];
            match Verdict(panics, r.failovers, r.applied, ch, j)
            case Some(arg) => Invoke(t, arg, panics(t)) in r'.trace && r'.failovers == []
            case None => r' == r
  {
    var r', t := FailoverPass(panics, r, r.applied, ch), r.failovers[j];
    EndFailoversDecline(panics, r);
    EndFailoversSweeps(panics, r, Decline);
    hide EndFailovers;
    if HasOffer(ch) {
      ServeFailoversArgs(panics, r.trace, r.failovers, Offered(ch), r.applied, ch.live, 0, false, j);
    }
    hide ServeFailovers, Scan, AnyPanics;
    assert |r'.trace| > |r.trace| + j ==> r'.trace[|r.trace| + j] in r'.trace;
  }

  /**
    In every run, a pass of a healthy endpoint with no change of leader to route declines
    every parked failover read when there is no window or the limbo falls back, keeps them
    while the window's index is not applied, and otherwise hands each the state machine
    and the limbo if the lease is live at its turn, until one panics.
  */
  lemma FailoverReadsOutcome(panics: Token -> bool, steps: seq<Step>, ch: Choice, j: nat)
    requires Run(panics, steps).Some? && Run(panics, steps).value.phase.Running?
    requires !Run(panics, steps).value.ep.poisoned && !Sweeping(Run(panics, steps).value)
    requires j < |Run(panics, steps).value.r.failovers|
    ensures var d := Run(panics, steps).value;
            var d', t := Pump(panics, d, ch), d.r.failovers[j];
            match Verdict(panics, d.r.failovers, d.ep.applied, ch, j)
            case Some(arg) => Invoke(t, arg, panics(t)) in d'.r.trace && d'.r.failovers == []
            case None => d'.phase.Running? ==> d'.r.failovers == d.r.failovers
  {
    var d := Run(panics, steps).value;
    AlwaysReadsOk(panics, steps);
    SettledReads(panics, d);
    SettledKeepsFailovers(panics, d);
    hide Settled, Verdict;
    var settled := Settled(panics, d);
    FailoverPassVerdict(panics, settled, ch, j);
    PumpExtends(panics, d, ch);
    PumpFailovers(panics, d, ch);
  }

  lemma PumpFailovers(panics: Token -> bool, d: Node, ch: Choice)
    requires d.phase.Running?
    ensures var d' := Pump(panics, d, ch);
            d'.r.failovers == if d'.phase.Running? then Passed(panics, d, ch).failovers else []
  {
    hide Passed, Served, Stops, Fatal, FailAll;
    SweptFailovers(panics, Passed(panics, d, ch));
    SweptFailovers(panics, Served(panics, d, ch));
    ServedKeepsFailovers(panics, d, ch);
  }

  lemma SweptFailovers(panics: Token -> bool, r: State)
    ensures FailAll(panics, r, Poisoned).failovers == []
  {
    FailAllSweeps(panics, r, Poisoned);
  }

  lemma ServedKeepsFailovers(panics: Token -> bool, d: Node, ch: Choice)
    ensures Served(panics, d, ch).failovers == Passed(panics, d, ch).failovers
  {
    hide Passed, ServesQueries, ServeQueries;
  }

  // ---- Queries ----------------------------------------------------------------------------------------------

  /** The read index a query is confirmed at once these events are routed. */
  function ReadyAfter(was: Option<Index>, evs: seq<Event>, c: nat): Option<Index>
    decreases |evs|
  {
    if evs == [] then was
    else ReadyAfter(if evs[0].ReadState? && evs[0].ctx == Some(c) then Some(evs[0].index) else was, evs[1..], c)
  }

  lemma {:induction false} RouteAllReady(panics: Token -> bool, r: State, evs: seq<Event>, c: nat)
    requires LeaderChanged !in evs && c in r.queries
    ensures var r' := RouteAll(panics, r, evs);
            c in r'.queries && r'.queries[c] == r.queries[c].(readyAt := ReadyAfter(r.queries[c].readyAt, evs, c))
    decreases |evs|
  {
    if evs != [] { RouteAllReady(panics, RouteEvent(panics, r, evs[0]), evs[1..], c); }
  }

  lemma {:induction false} AscendingHas(m: map<nat, Query>, c: nat) returns (i: nat)
    requires c in m
    ensures i < |Ascending(m)| && Ascending(m)[i] == m[c]
    decreases |m|
  {
    var k := Least(m.Keys);
    assert Ascending(m) == [m[k]] + Ascending(m - {k});
    if k == c { i := 0; } else {
      var j := AscendingHas(m - {k}, c);
      i := j + 1;
    }
  }

  /** A runnable query of a batch in which nothing panics is handed the state machine at its index. */
  lemma QueryPassServes(panics: Token -> bool, r: State, applied: Index, c: nat)
    requires c in r.queries && Runnable(r.queries[c], r.applied) && !AnyPanics(panics, Tokens(RunnableQueries(r)))
    ensures var q, r' := r.queries[c], QueryPass(panics, r, applied);
            Invoke(q.t, ServeQuery(q.ctx, q.readyAt.value, applied), panics(q.t)) in r'.trace && c !in r'.queries
  {
    TakeRunnableIsExact(r, 0);
    var q, batch := r.queries[c], RunnableQueries(r);
    var i := AscendingHas(Restrict(r.queries, RunnableKeys(r)), c);
    ServeQueriesArgs(panics, r.trace, batch, applied, false, i);
    if AnyPanics(panics, Tokens(batch)[..i]) { AnyPanicsIn(panics, Tokens(batch), i); }
    var after := ServeQueries(panics, r.trace, batch, applied, false);
    assert after[|r.trace| + i] in after;
  }

  /**
    In every run, a pass that goes on with no change of leader to route runs a parked query
    at the index confirmed for it exactly when the state machine has applied that index,
    and leaves it parked otherwise.
  */
  lemma QueriesOutcome(panics: Token -> bool, steps: seq<Step>, ch: Choice, c: nat)
    requires Run(panics, steps).Some? && Run(panics, steps).value.phase.Running?
    requires !Sweeping(Run(panics, steps).value) && c in Run(panics, steps).value.r.queries
    requires Pump(panics, Run(panics, steps).value, ch).phase.Running?
    ensures var d := Run(panics, steps).value;
            var d', q := Pump(panics, d, ch), d.r.queries[c];
            var ready := ReadyAfter(q.readyAt, d.ep.events, c);
            if ready.Some? && ready.value <= d.ep.applied
            then Invoke(q.t, ServeQuery(c, ready.value, d.ep.applied), panics(q.t)) in d'.r.trace && c !in d'.r.queries
            else c in d'.r.queries && d'.r.queries[c] == q.(readyAt := ready)
  {
    var d := Run(panics, steps).value;
    AlwaysReadsOk(panics, steps);
    assert WellParked(c, d.r.queries[c], d.asked, d.confirmed);
    SettledReads(panics, d);
    RouteAllReady(panics, d.r, d.ep.events, c);
    FailoverPassReads(panics, Settled(panics, d), ch, d.ep.applied, d.asked, d.confirmed);
    var passed := Passed(panics, d, ch);
    assert passed.queries[c] == d.r.queries[c].(readyAt := ReadyAfter(d.r.queries[c].readyAt, d.ep.events, c));
    hide Settled, FailoverPass, QueryPass, RunsQueries;
    if Runnable(passed.queries[c], d.ep.applied) {
      QueryPassServes(panics, passed.(latch := false), d.ep.applied, c);
    } else {
      QueryPassKeeps(panics, passed.(latch := false), d.ep.applied, c);
    }
  }

  lemma QueryPassKeeps(panics: Token -> bool, r: State, applied: Index, c: nat)
    requires c in r.queries && !Runnable(r.queries[c], r.applied)
    ensures var r' := QueryPass(panics, r, applied); c in r'.queries && r'.queries[c] == r.queries[c]
  {}

  // ---- Proposals ---------------------------------------------------------------------------------------------

  /** Only the event that completes an index, or a change of leader, touches the caller waiting there. */
  lemma {:induction false} RouteAllKeepsWaiter(panics: Token -> bool, r: State, evs: seq<Event>, i: Index)
    requires LeaderChanged !in evs && i in r.pending && !CompletedFirst(evs, i)
    ensures i in RouteAll(panics, r, evs).pending && RouteAll(panics, r, evs).pending[i] == r.pending[i]
    decreases |evs|
  {
    if evs != [] { RouteAllKeepsWaiter(panics, RouteEvent(panics, r, evs[0]), evs[1..], i); }
  }

  /**
    In every run, a pass that goes on with no change of leader to route answers a waiting
    caller `Ok` exactly when the queue completes its index, and leaves it waiting otherwise.
  */
  lemma ProposalsOutcome(panics: Token -> bool, steps: seq<Step>, ch: Choice, i: Index)
    requires Run(panics, steps).Some? && Run(panics, steps).value.phase.Running?
    requires !Sweeping(Run(panics, steps).value) && i in Run(panics, steps).value.r.pending
    requires Pump(panics, Run(panics, steps).value, ch).phase.Running?
    ensures var d := Run(panics, steps).value;
            var d', w := Pump(panics, d, ch), d.r.pending[i];
            if CompletedFirst(d.ep.events, i)
            then 1 <= i <= |d.ep.log| && Reply(w.t, Ok(d.ep.log[i - 1])) in d'.r.trace && i !in d'.r.pending
            else i in d'.r.pending && d'.r.pending[i] == w
  {
    var d := Run(panics, steps).value;
    hide FailoverPass, QueryPass, RunsQueries;
    AlwaysOwned(panics, steps);
    PumpKeepsWaiters(panics, d, ch);
    if CompletedFirst(d.ep.events, i) {
      CompletedMeansOk(panics, steps, ch, i);
    } else {
      RouteAllKeepsWaiter(panics, d.r, d.ep.events, i);
    }
  }

  lemma PumpKeepsWaiters(panics: Token -> bool, d: Node, ch: Choice)
    requires Owned(d) && d.phase.Running? && Pump(panics, d, ch).phase.Running?
    ensures Pump(panics, d, ch).r.pending == Settled(panics, d).pending
  {
    hide Settled, FailoverPass, QueryPass, RunsQueries, FailoverStops;
    SettledOwned(panics, d);
    FailoverPassOwned(panics, Settled(panics, d), d.ep.applied, ch);
    ServedOwned(panics, d, ch);
  }
}
