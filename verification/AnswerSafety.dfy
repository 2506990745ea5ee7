/**
  An answer belongs to the operation it answers: the index-reuse argument. Waiters are
  keyed by log index, a later leadership can reuse an index, and events are routed long
  after they were queued.
*/
module AnswerSafety {
  import opened Wrappers
  import opened Routing
  import opened Driver

  /** The entry this waiter's operation proposed is at its index. */
  predicate InLog(log: seq<Entry>, i: Index, w: Waiter) {
    1 <= i <= |log| && log[i - 1] == Entry(Own(w.t), if w.conf then Conf else Normal)
  }

  predicate Completes(ev: Event, i: Index) { (ev.Applied? || ev.ConfChanged?) && ev.index == i }

  /** A sweep comes before anything that could complete the waiter at this index. */
  predicate SweptFirst(evs: seq<Event>, i: Index)
    decreases |evs|
  {
    evs != [] && (evs[0].LeaderChanged? || (!Completes(evs[0], i) && SweptFirst(evs[1..], i)))
  }

  /** A queued completion names the applied entry at its index. */
  predicate Truthful(log: seq<Entry>, applied: Index, ev: Event) {
    (ev.Applied? || ev.ConfChanged?) ==>
      && 1 <= ev.index <= applied <= |log| && ev.entry == log[ev.index - 1]
      && ev.entry.kind == if ev.Applied? then Normal else Conf
  }

  ghost predicate AllTruthful(log: seq<Entry>, applied: Index, evs: seq<Event>) {
    forall k :: 0 <= k < |evs| ==> Truthful(log, applied, evs[k])
  }

  ghost predicate Safe(log: seq<Entry>, evs: seq<Event>, pending: map<Index, Waiter>) {
    forall i :: i in pending ==> InLog(log, i, pending[i]) || SweptFirst(evs, i)
  }

  /** An `Ok` carries the very entry this operation proposed, and no waiter meets the wrong kind of event. */
  predicate Honest(e: Effect) {
    && (e.Reply? && e.answer.Ok? ==> e.answer.entry.origin == Own(e.t))
    && (e.Discard? ==> e.loss != WrongKind)
  }

  ghost predicate AllHonest(trace: seq<Effect>) { forall k :: 0 <= k < |trace| ==> Honest(trace[k]) }

  ghost predicate Owned(d: Node) {
    && d.ep.applied <= |d.ep.log|
    && AllTruthful(d.ep.log, d.ep.applied, d.ep.events)
    && Safe(d.ep.log, d.ep.events, d.r.pending)
    && (d.r.pending == map[] || d.ep.leader || LeaderChanged in d.ep.events)
    && AllHonest(d.r.trace)
  }

  // ---- The event queue ------------------------------------------------------------------------------

  lemma {:induction false} SweptFirstGrows(evs: seq<Event>, more: seq<Event>, i: Index)
    requires SweptFirst(evs, i)
    ensures SweptFirst(evs + more, i)
    decreases |evs|
  {
    assert (evs + more)[1..] == evs[1..] + more;
    if !evs[0].LeaderChanged? { SweptFirstGrows(evs[1..], more, i); }
  }

  lemma {:induction false} SweptFirstNeedsChange(evs: seq<Event>, i: Index)
    requires SweptFirst(evs, i)
    ensures LeaderChanged in evs
    decreases |evs|
  {
    if !evs[0].LeaderChanged? { SweptFirstNeedsChange(evs[1..], i); }
  }

  /** Nothing queued can complete an index above the applied one, so any queued change comes first. */
  lemma {:induction false} UnappliedIsSweptFirst(log: seq<Entry>, applied: Index, evs: seq<Event>, i: Index)
    requires AllTruthful(log, applied, evs) && i > applied && LeaderChanged in evs
    ensures SweptFirst(evs, i)
    decreases |evs|
  {
    assert Truthful(log, applied, evs[0]);
    if !evs[0].LeaderChanged? {
      assert AllTruthful(log, applied, evs[1..]);
      UnappliedIsSweptFirst(log, applied, evs[1..], i);
    }
  }

  lemma OnlyFailsHonest(before: seq<Effect>, after: seq<Effect>)
    requires OnlyFails(before, after) && AllHonest(before)
    ensures AllHonest(after)
  {
    forall k | 0 <= k < |after|
      ensures Honest(after[k])
    {
      if k < |before| { assert before[k] == after[k]; } else { assert IsFailure(after[k]); }
    }
  }

  // ---- Routing ---------------------------------------------------------------------------------------

  lemma ResolveOwned(log: seq<Entry>, applied: Index, r: State, ev: Event, rest: seq<Event>)
    requires ev.Applied? || ev.ConfChanged?
    requires Truthful(log, applied, ev) && Safe(log, [ev] + rest, r.pending) && AllHonest(r.trace)
    ensures var r' := Resolve(r, ev.index, ev.entry, ev.ConfChanged?); Safe(log, rest, r'.pending) && AllHonest(r'.trace)
  {
    var r' := Resolve(r, ev.index, ev.entry, ev.ConfChanged?);
    assert ([ev] + rest)[1..] == rest;
    forall i | i in r'.pending
      ensures InLog(log, i, r'.pending[i]) || SweptFirst(rest, i)
    {
      assert InLog(log, i, r.pending[i]) || SweptFirst([ev] + rest, i);
    }
    if ev.index in r.pending {
      assert !SweptFirst([ev] + rest, ev.index);
      assert InLog(log, ev.index, r.pending[ev.index]);
    }
  }

  lemma RouteOwned(panics: Token -> bool, log: seq<Entry>, applied: Index, r: State, ev: Event, rest: seq<Event>)
    requires Truthful(log, applied, ev) && Safe(log, [ev] + rest, r.pending) && AllHonest(r.trace)
    ensures var r' := RouteEvent(panics, r, ev); Safe(log, rest, r'.pending) && AllHonest(r'.trace)
  {
    if ev.LeaderChanged? {
      FailAllSweeps(panics, r, Superseded);
      OnlyFailsHonest(r.trace, FailAll(panics, r, Superseded).trace);
    } else if ev.Applied? || ev.ConfChanged? {
      ResolveOwned(log, applied, r, ev, rest);
    } else {
      assert ([ev] + rest)[1..] == rest;
    }
  }

  /** Draining the queue answers each waiter truthfully and leaves only waiters whose entry is in the log. */
  lemma {:induction false} RouteAllOwned(panics: Token -> bool, log: seq<Entry>, applied: Index, r: State, evs: seq<Event>)
    requires AllTruthful(log, applied, evs) && Safe(log, evs, r.pending) && AllHonest(r.trace)
    ensures var r' := RouteAll(panics, r, evs); Safe(log, [], r'.pending) && AllHonest(r'.trace)
    decreases |evs|
  {
    if evs != [] {
      assert evs == [evs[0]] + evs[1..];
      assert AllTruthful(log, applied, evs[1..]);
      RouteOwned(panics, log, applied, r, evs[0], evs[1..]);
      RouteAllOwned(panics, log, applied, RouteEvent(panics, r, evs[0]), evs[1..]);
    }
  }

  /** A change of leader anywhere in the queue leaves nobody waiting on an index. */
  lemma {:induction false} RouteAllEmpties(panics: Token -> bool, r: State, evs: seq<Event>)
    ensures RouteAll(panics, r, evs).pending.Keys <= r.pending.Keys
    ensures LeaderChanged in evs ==> RouteAll(panics, r, evs).pending == map[]
    decreases |evs|
  {
    if evs != [] {
      var next := RouteEvent(panics, r, evs[0]);
      if evs[0].LeaderChanged? { FailAllSweeps(panics, r, Superseded); }
      assert next.pending.Keys <= r.pending.Keys;
      RouteAllEmpties(panics, next, evs[1..]);
      if evs[0].LeaderChanged? {
        assert RouteAll(panics, next, evs[1..]).pending.Keys == {};
      } else if LeaderChanged in evs {
        assert LeaderChanged in evs[1..];
      }
    }
  }

  // ---- Steps --------------------------------------------------------------------------------------------

  /** The log may change above the applied prefix once nobody here is leader. */
  lemma RewriteSafe(ep: Endpoint, log: seq<Entry>, pending: map<Index, Waiter>)
    requires ep.applied <= |ep.log| && ep.applied <= |log| && log[..ep.applied] == ep.log[..ep.applied]
    requires AllTruthful(ep.log, ep.applied, ep.events) && Safe(ep.log, ep.events, pending)
    requires pending == map[] || LeaderChanged in ep.events
    ensures AllTruthful(log, ep.applied, ep.events) && Safe(log, ep.events, pending)
  {
    assert forall k :: 0 <= k < ep.applied ==> log[k] == log[..ep.applied][k] == ep.log[..ep.applied][k] == ep.log[k];
    forall k | 0 <= k < |ep.events|
      ensures Truthful(log, ep.applied, ep.events[k])
    {
      assert Truthful(ep.log, ep.applied, ep.events[k]);
    }
    forall i | i in pending
      ensures InLog(log, i, pending[i]) || SweptFirst(ep.events, i)
    {
      if i > ep.applied { UnappliedIsSweptFirst(ep.log, ep.applied, ep.events, i); }
    }
  }

  /** New events at the end of the queue change nothing for the waiters already safe. */
  lemma EmitSafe(ep: Endpoint, evs: seq<Event>, applied: Index, pending: map<Index, Waiter>)
    requires ep.applied <= applied <= |ep.log|
    requires AllTruthful(ep.log, ep.applied, ep.events) && Safe(ep.log, ep.events, pending)
    requires AllTruthful(ep.log, applied, evs)
    ensures AllTruthful(ep.log, applied, ep.events + evs) && Safe(ep.log, ep.events + evs, pending)
  {
    forall k | 0 <= k < |ep.events + evs|
      ensures Truthful(ep.log, applied, (ep.events + evs)[k])
    {
      if k < |ep.events| { assert Truthful(ep.log, ep.applied, ep.events[k]); }
    }
    forall i | i in pending && !InLog(ep.log, i, pending[i])
      ensures SweptFirst(ep.events + evs, i)
    {
      SweptFirstGrows(ep.events, evs, i);
    }
  }

  lemma AppendSafe(ep: Endpoint, e: Entry, pending: map<Index, Waiter>)
    requires ep.applied <= |ep.log|
    requires AllTruthful(ep.log, ep.applied, ep.events) && Safe(ep.log, ep.events, pending)
    ensures AllTruthful(ep.log + [e], ep.applied, ep.events) && Safe(ep.log + [e], ep.events, pending)
  {
    forall k | 0 <= k < |ep.events|
      ensures Truthful(ep.log + [e], ep.applied, ep.events[k])
    {
      assert Truthful(ep.log, ep.applied, ep.events[k]);
    }
  }

  lemma EvolveOwned(d: Node, s: EndpointStep)
    requires Owned(d) && Allowed(d.ep, s)
    ensures Owned(d.(ep := Evolve(d.ep, s)))
  {
    var ep := d.ep;
    match s {
      case Lose => EmitSafe(ep, [LeaderChanged], ep.applied, d.r.pending);
      case Elect(announced) => EmitSafe(ep, if announced then [LeaderChanged] else [], ep.applied, d.r.pending);
      case Announce => EmitSafe(ep, [LeaderChanged], ep.applied, d.r.pending);
      case Append(e) => AppendSafe(ep, e, d.r.pending);
      case Rewrite(log) => RewriteSafe(ep, log, d.r.pending);
      case ApplyNext => EmitSafe(ep, Emitted(ep.applied + 1, ep.log[ep.applied]), ep.applied + 1, d.r.pending);
      case Install(log, upTo) =>
        RewriteSafe(ep, log, d.r.pending);
        EmitSafe(ep.(log := log), [SnapshotInstalled(upTo)], upTo, d.r.pending);
      case Confirm(ctx, at) => EmitSafe(ep, [ReadState(ctx, at)], ep.applied, d.r.pending);
      case Poison =>
    }
  }

  lemma AppendOwned(d: Node, e: Entry)
    requires Owned(d)
    ensures Owned(d.(ep := d.ep.(log := d.ep.log + [e])))
  {
    AppendSafe(d.ep, e, d.r.pending);
  }

  lemma ParkOwned(d: Node, t: Token, conf: bool)
    requires Owned(d) && d.ep.leader
    ensures Owned(Park(d, t, conf))
  {
    AppendSafe(d.ep, Entry(Own(t), if conf then Conf else Normal), d.r.pending);
  }

  /**
    A parked waiter is overwritten only while a leadership change is still queued:
    the sweep that was about to fail it has not been routed yet.
  */
  lemma OverwritesOnlyAcrossAChange(d: Node)
    requires Owned(d) && |d.ep.log| + 1 in d.r.pending
    ensures LeaderChanged in d.ep.events
  {
    SweptFirstNeedsChange(d.ep.events, |d.ep.log| + 1);
  }

  /** One honest effect, and nothing the invariant speaks of besides. */
  lemma NoteOwned(d: Node, d': Node, e: Effect)
    requires Owned(d) && Honest(e)
    requires d'.r.pending == d.r.pending && d'.r.trace == d.r.trace + [e]
    requires d'.ep == d.ep.(poisoned := d'.ep.poisoned)
    ensures Owned(d')
  {
    forall k | 0 <= k < |d'.r.trace|
      ensures Honest(d'.r.trace[k])
    {
      if k < |d.r.trace| { assert d'.r.trace[k] == d.r.trace[k]; }
    }
  }

  lemma ExecuteOwned(panics: Token -> bool, d: Node, cmd: Command, accept: bool)
    requires Owned(d)
    ensures Owned(Execute(panics, d, cmd, accept))
  {
    hide Owned, Park;
    var d' := Execute(panics, d, cmd, accept);
    if cmd.Shutdown? {
      KeepOwned(d, d');
    } else {
      var t := cmd.t;
      match cmd.op {
        case Submit =>
          if accept && d.ep.leader && !d.ep.poisoned { ParkOwned(d, t, false); } else { NoteOwned(d, d', Reply(t, Err(Refused))); }
        case ChangeConf =>
          if accept && d.ep.leader && !d.ep.poisoned { ParkOwned(d, t, true); } else { NoteOwned(d, d', Reply(t, Err(Refused))); }
        case SetReadMode =>
          if accept && d.ep.leader && !d.ep.poisoned {
            var e := d.(ep := d.ep.(log := d.ep.log + [Entry(Own(t), ReadMode)]));
            AppendOwned(d, Entry(Own(t), ReadMode));
            NoteOwned(e, d', Reply(t, Done));
          } else {
            NoteOwned(d, d', Reply(t, Err(Refused)));
          }
        case ReadQuery =>
          if accept && !d.ep.poisoned { KeepOwned(d, d'); } else { NoteOwned(d, d', Invoke(t, Fail(Refused), panics(t))); }
        case FailoverRead => KeepOwned(d, d');
        case Immediate => NoteOwned(d, d', Reply(t, if accept then Done else Err(Refused)));
      }
    }
  }

  lemma KeepOwned(d: Node, d': Node)
    requires Owned(d)
    requires d'.r.pending == d.r.pending && d'.r.trace == d.r.trace
    requires d'.ep == d.ep.(poisoned := d'.ep.poisoned)
    ensures Owned(d')
  {}

  // ---- The pump ---------------------------------------------------------------------------------------------

  lemma SettledOwned(panics: Token -> bool, d: Node)
    requires Owned(d)
    ensures var r := Settled(panics, d);
            && AllHonest(r.trace)
            && Safe(d.ep.log, if d.ep.poisoned then d.ep.events else [], r.pending)
            && (r.pending == map[] || d.ep.leader || (d.ep.poisoned && LeaderChanged in d.ep.events))
  {
    var routed := RouteAll(panics, d.r, d.ep.events);
    RouteAllOwned(panics, d.ep.log, d.ep.applied, d.r, d.ep.events);
    RouteAllEmpties(panics, d.r, d.ep.events);
    var synced := if d.ep.poisoned then d.r else Raise(routed, d.ep.applied);
    if d.r.pending == map[] { assert routed.pending == map[]; }
    FailAllSweeps(panics, synced, Superseded);
    OnlyFailsHonest(synced.trace, FailAll(panics, synced, Superseded).trace);
  }

  lemma FailoverPassOwned(panics: Token -> bool, r: State, applied: Index, ch: Choice)
    requires AllHonest(r.trace)
    ensures var r' := FailoverPass(panics, r, applied, ch); r'.pending == r.pending && AllHonest(r'.trace)
  {
    EndFailoversSweeps(panics, r, Decline);
    OnlyFailsHonest(r.trace, EndFailovers(panics, r, Decline).trace);
    if HasOffer(ch) {
      ServeFailoversTally(panics, r.trace, r.failovers, Offered(ch), applied, ch.live, 0, false, 0);
      var after := ServeFailovers(panics, r.trace, r.failovers, Offered(ch), applied, ch.live, 0, false);
      forall k | 0 <= k < |after|
        ensures Honest(after[k])
      {
        if k < |r.trace| { assert after[k] == r.trace[k]; }
      }
    }
  }

  lemma ServeQueriesHonest(panics: Token -> bool, trace: seq<Effect>, batch: seq<Query>, applied: Index)
    requires AllHonest(trace) && forall q :: q in batch ==> q.readyAt.Some?
    ensures AllHonest(ServeQueries(panics, trace, batch, applied, false))
  {
    ServeQueriesTally(panics, trace, batch, applied, false, 0);
    var after := ServeQueries(panics, trace, batch, applied, false);
    forall k | 0 <= k < |after|
      ensures Honest(after[k])
    {
      if k < |trace| {
        assert after[k] == trace[k];
      } else {
        ServeQueriesArgs(panics, trace, batch, applied, false, k - |trace|);
      }
    }
  }

  lemma QueryPassOwned(panics: Token -> bool, r: State, applied: Index)
    requires AllHonest(r.trace)
    ensures var r' := QueryPass(panics, r, applied); r'.pending == r.pending && AllHonest(r'.trace)
  {
    TakeRunnableIsExact(r, 0);
    ServeQueriesHonest(panics, r.trace, RunnableQueries(r), applied);
  }

  lemma FailAllOwned(panics: Token -> bool, r: State, err: Error)
    requires AllHonest(r.trace)
    ensures FailAll(panics, r, err).pending == map[] && AllHonest(FailAll(panics, r, err).trace)
  {
    FailAllSweeps(panics, r, err);
    OnlyFailsHonest(r.trace, FailAll(panics, r, err).trace);
  }

  lemma PassedOwned(panics: Token -> bool, d: Node, ch: Choice)
    requires Owned(d)
    ensures var r := Passed(panics, d, ch);
            && AllHonest(r.trace)
            && Safe(d.ep.log, Drained(d).ep.events, r.pending)
            && (r.pending == map[] || d.ep.leader || LeaderChanged in Drained(d).ep.events)
  {
    hide Settled, FailoverPass;
    SettledOwned(panics, d);
    FailoverPassOwned(panics, Settled(panics, d), d.ep.applied, ch);
  }

  lemma ServedOwned(panics: Token -> bool, d: Node, ch: Choice)
    requires AllHonest(Passed(panics, d, ch).trace)
    ensures Served(panics, d, ch).pending == Passed(panics, d, ch).pending
    ensures AllHonest(Served(panics, d, ch).trace)
  {
    hide Passed, QueryPass;
    QueryPassOwned(panics, Passed(panics, d, ch).(latch := false), d.ep.applied);
  }

  lemma PumpOwned(panics: Token -> bool, d: Node, ch: Choice)
    requires Owned(d)
    ensures Owned(Pump(panics, d, ch))
  {
    hide Passed, Served, Stops, Fatal, FailAll;
    PassedOwned(panics, d, ch);
    ServedOwned(panics, d, ch);
    FailAllOwned(panics, Passed(panics, d, ch), Poisoned);
    FailAllOwned(panics, Served(panics, d, ch), Poisoned);
    assert AllTruthful(d.ep.log, d.ep.applied, Drained(d).ep.events);
  }

  lemma {:induction false} DropQueueHonest(trace: seq<Effect>, queue: seq<Command>)
    requires AllHonest(trace)
    ensures AllHonest(DropQueue(trace, queue))
    decreases |queue|
  {
    if queue != [] {
      DropQueueHonest(if queue[0].Request? then trace + [Discard(queue[0].t, Undelivered)] else trace, queue[1..]);
    }
  }

  lemma TeardownOwned(panics: Token -> bool, d: Node)
    requires Owned(d)
    ensures Owned(Teardown(panics, d))
  {
    FailAllOwned(panics, d.r, Poisoned);
    var r := if d.ep.poisoned then FailAll(panics, d.r, Poisoned) else d.r;
    FailAllOwned(panics, r, ShuttingDown);
    DropQueueHonest(FailAll(panics, r, ShuttingDown).trace, d.queue);
  }

  lemma NextOwned(panics: Token -> bool, d: Node, step: Step)
    requires Owned(d) && Enabled(d, step)
    ensures Owned(Next(panics, d, step))
  {
    match step {
      case World(s) => EvolveOwned(d, s);
      case Enqueue(_) =>
      case Handle(accept) => ExecuteOwned(panics, d.(queue := d.queue[1..]), d.queue[0], accept);
      case RunPump(ch) => PumpOwned(panics, d, ch);
      case Stop => TeardownOwned(panics, d);
    }
  }

  lemma {:induction false} AlwaysOwned(panics: Token -> bool, steps: seq<Step>)
    requires Run(panics, steps).Some?
    ensures Owned(Run(panics, steps).value)
    decreases |steps|
  {
    if steps != [] {
      AlwaysOwned(panics, steps[..|steps| - 1]);
      NextOwned(panics, Run(panics, steps[..|steps| - 1]).value, steps[|steps| - 1]);
    }
  }

  /**
    In every run, an `Ok` answer carries the very entry its own operation proposed,
    whatever leaderships came and went and whatever index they reused, and no waiter is
    ever consumed by an event of the other kind.
  */
  lemma OkAnswersOwnEntry(panics: Token -> bool, steps: seq<Step>, k: nat)
    requires Run(panics, steps).Some? && k < |Run(panics, steps).value.r.trace|
    ensures var e := Run(panics, steps).value.r.trace[k];
            && (e.Reply? && e.answer.Ok? ==> e.answer.entry.origin == Own(e.t))
            && (e.Discard? ==> e.loss != WrongKind)
  {
    AlwaysOwned(panics, steps);
    assert Honest(Run(panics, steps).value.r.trace[k]);
  }

  // ---- An applied operation is acknowledged --------------------------------------------------------------------

  /** The queue completes index `i` before any change of leader. */
  predicate CompletedFirst(evs: seq<Event>, i: Index)
    decreases |evs|
  {
    evs != [] && !evs[0].LeaderChanged? && (Completes(evs[0], i) || CompletedFirst(evs[1..], i))
  }

  lemma {:induction false} RouteAllExtends(panics: Token -> bool, r: State, evs: seq<Event>)
    ensures r.trace <= RouteAll(panics, r, evs).trace
    decreases |evs|
  {
    if evs != [] {
      var next := RouteEvent(panics, r, evs[0]);
      if evs[0].LeaderChanged? { FailAllSweeps(panics, r, Superseded); }
      assert r.trace <= next.trace;
      RouteAllExtends(panics, next, evs[1..]);
    }
  }

  lemma {:induction false} RouteAllAcknowledges(panics: Token -> bool, log: seq<Entry>, applied: Index, r: State,
                                                evs: seq<Event>, i: Index)
    requires AllTruthful(log, applied, evs) && Safe(log, evs, r.pending) && AllHonest(r.trace)
    requires i in r.pending && CompletedFirst(evs, i)
    ensures InLog(log, i, r.pending[i])
    ensures Reply(r.pending[i].t, Ok(log[i - 1])) in RouteAll(panics, r, evs).trace
    decreases |evs|
  {
    var ev, rest := evs[0], evs[1..];
    var next := RouteEvent(panics, r, ev);
    assert evs == [ev] + rest && Truthful(log, applied, ev);
    if Completes(ev, i) {
      var answer := Reply(r.pending[i].t, Ok(log[i - 1]));
      assert InLog(log, i, r.pending[i]);
      assert next.trace == r.trace + [answer] && next.trace[|r.trace|] == answer;
      RouteAllExtends(panics, next, rest);
    } else {
      assert AllTruthful(log, applied, rest);
      RouteOwned(panics, log, applied, r, ev, rest);
      assert next.pending[i] == r.pending[i];
      RouteAllAcknowledges(panics, log, applied, next, rest, i);
    }
  }

  lemma FailoverPassExtends(panics: Token -> bool, r: State, applied: Index, ch: Choice)
    ensures r.trace <= FailoverPass(panics, r, applied, ch).trace
  {
    hide Scan, EndFailovers;
    EndFailoversSweeps(panics, r, Decline);
    if HasOffer(ch) {
      ServeFailoversTally(panics, r.trace, r.failovers, Offered(ch), applied, ch.live, 0, false, 0);
    }
  }

  lemma QueryPassExtends(panics: Token -> bool, r: State, applied: Index)
    ensures r.trace <= QueryPass(panics, r, applied).trace
  {
    TakeRunnableIsExact(r, 0);
    ServeQueriesTally(panics, r.trace, RunnableQueries(r), applied, false, 0);
  }

  /** What a pass has settled stays in the trace. */
  lemma PumpExtends(panics: Token -> bool, d: Node, ch: Choice)
    ensures Settled(panics, d).trace <= Passed(panics, d, ch).trace <= Pump(panics, d, ch).r.trace
    ensures !Stops(panics, d, ch) ==> Served(panics, d, ch).trace <= Pump(panics, d, ch).r.trace
  {
    hide Settled, FailoverPass, QueryPass, Stops, Fatal, ServesQueries, FailAll;
    var passed := Passed(panics, d, ch);
    FailoverPassExtends(panics, Settled(panics, d), d.ep.applied, ch);
    QueryPassExtends(panics, passed.(latch := false), d.ep.applied);
    FailAllSweeps(panics, passed, Poisoned);
    FailAllSweeps(panics, Served(panics, d, ch), Poisoned);
  }

  lemma SettledExtends(panics: Token -> bool, d: Node)
    requires !d.ep.poisoned
    ensures RouteAll(panics, d.r, d.ep.events).trace <= Settled(panics, d).trace
  {
    FailAllSweeps(panics, Raise(RouteAll(panics, d.r, d.ep.events), d.ep.applied), Superseded);
  }

  /**
    In every run, a caller whose index the queue completes before any change of leader is
    answered `Ok` with the log's entry there by the very next pump of a healthy endpoint,
    whatever else that pump meets.
  */
  lemma CompletedMeansOk(panics: Token -> bool, steps: seq<Step>, ch: Choice, i: Index)
    requires Run(panics, steps).Some? && !Run(panics, steps).value.ep.poisoned
    requires i in Run(panics, steps).value.r.pending && CompletedFirst(Run(panics, steps).value.ep.events, i)
    ensures var d := Run(panics, steps).value;
            && 1 <= i <= |d.ep.log|
            && Reply(d.r.pending[i].t, Ok(d.ep.log[i - 1])) in Pump(panics, d, ch).r.trace
            && i !in Settled(panics, d).pending
  {
    AlwaysOwned(panics, steps);
    var d := Run(panics, steps).value;
    RouteAllAcknowledges(panics, d.ep.log, d.ep.applied, d.r, d.ep.events, i);
    SettledExtends(panics, d);
    PumpExtends(panics, d, ch);
    CompletedIsRemoved(panics, d.r, d.ep.events, i);
    FailAllSweeps(panics, Raise(RouteAll(panics, d.r, d.ep.events), d.ep.applied), Superseded);
  }

  lemma {:induction false} CompletedIsRemoved(panics: Token -> bool, r: State, evs: seq<Event>, i: Index)
    requires CompletedFirst(evs, i)
    ensures i !in RouteAll(panics, r, evs).pending
    decreases |evs|
  {
    var next := RouteEvent(panics, r, evs[0]);
    if Completes(evs[0], i) { RouteAllEmpties(panics, next, evs[1..]); } else { CompletedIsRemoved(panics, next, evs[1..], i); }
  }

  lemma {:induction false} CompletedAtLast(evs: seq<Event>, ev: Event, i: Index)
    requires LeaderChanged !in evs && Completes(ev, i)
    ensures CompletedFirst(evs + [ev], i)
    decreases |evs|
  {
    if evs != [] {
      assert (evs + [ev])[1..] == evs[1..] + [ev];
      CompletedAtLast(evs[1..], ev, i);
    }
  }

  /** Applying the entry a caller waits for completes its index, unless a change of leader is already queued. */
  lemma ApplyCompletes(panics: Token -> bool, steps: seq<Step>)
    requires Run(panics, steps).Some? && Allowed(Run(panics, steps).value.ep, ApplyNext)
    requires var d := Run(panics, steps).value; d.ep.applied + 1 in d.r.pending && LeaderChanged !in d.ep.events
    ensures var d := Run(panics, steps).value; CompletedFirst(Evolve(d.ep, ApplyNext).events, d.ep.applied + 1)
  {
    AlwaysOwned(panics, steps);
    var d := Run(panics, steps).value;
    var i := d.ep.applied + 1;
    if SweptFirst(d.ep.events, i) { SweptFirstNeedsChange(d.ep.events, i); }
    assert InLog(d.ep.log, i, d.r.pending[i]);
    CompletedAtLast(d.ep.events, Emitted(i, d.ep.log[d.ep.applied])[0], i);
  }

  // ---- What another order would allow -------------------------------------------------------------------------

  lemma RunGrows(panics: Token -> bool, steps: seq<Step>, d: Node, step: Step)
    requires Run(panics, steps) == Some(d) && Enabled(d, step)
    ensures Run(panics, steps + [step]) == Some(Next(panics, d, step))
  {
    assert (steps + [step])[..|steps|] == steps;
  }

  const WON := FRESH.(ep := FRESH.ep.(leader := true))
  const ASKED := WON.(queue := [Request(1, Submit)], issued := {1})
  const PARKED := WON.(ep := WON.ep.(log := [Entry(Own(1), Normal)]), r := NEW.(pending := map[1 := Waiter(1, false)]), issued := {1})
  const LOST := PARKED.(ep := PARKED.ep.(leader := false, events := [LeaderChanged]))
  const CUT := LOST.(ep := LOST.ep.(log := []))
  const REWON := CUT.(ep := CUT.ep.(leader := true))
  const REASKED := REWON.(queue := [Request(2, Submit)], issued := {1, 2})
  const REUSED := REWON.(ep := REWON.ep.(log := [Entry(Own(2), Normal)]), issued := {1, 2},
                         r := NEW.(pending := map[1 := Waiter(2, false)], trace := [Discard(1, Overwritten)]))

  const UNTIL_LOST := [World(Elect(false)), Enqueue(Request(1, Submit)), Handle(true), World(Lose)]
  const UNTIL_REWON := UNTIL_LOST + [World(Rewrite([]))] + [World(Elect(false))]
  const UNTIL_REUSED := UNTIL_REWON + [Enqueue(Request(2, Submit))] + [Handle(true)]

  lemma UntilLost(panics: Token -> bool)
    ensures Run(panics, UNTIL_LOST) == Some(LOST)
  {
    assert FRESH.ep.events + [] == [];
    RunGrows(panics, [], FRESH, World(Elect(false)));
    assert [] + [World(Elect(false))] == UNTIL_LOST[..1];
    assert WON.queue + [Request(1, Submit)] == ASKED.queue && {} + {1} == {1};
    RunGrows(panics, UNTIL_LOST[..1], WON, Enqueue(Request(1, Submit)));
    assert UNTIL_LOST[..1] + [Enqueue(Request(1, Submit))] == UNTIL_LOST[..2];
    assert ASKED.queue[1..] == [] && WON.ep.log + [Entry(Own(1), Normal)] == PARKED.ep.log;
    RunGrows(panics, UNTIL_LOST[..2], ASKED, Handle(true));
    assert UNTIL_LOST[..2] + [Handle(true)] == UNTIL_LOST[..3];
    assert PARKED.ep.events + [LeaderChanged] == LOST.ep.events;
    RunGrows(panics, UNTIL_LOST[..3], PARKED, World(Lose));
    assert UNTIL_LOST[..3] + [World(Lose)] == UNTIL_LOST;
  }

  lemma UntilRewon(panics: Token -> bool)
    ensures Run(panics, UNTIL_REWON) == Some(REWON)
  {
    UntilLost(panics);
    RunGrows(panics, UNTIL_LOST, LOST, World(Rewrite([])));
    assert CUT.ep.events + [] == CUT.ep.events;
    RunGrows(panics, UNTIL_LOST + [World(Rewrite([]))], CUT, World(Elect(false)));
  }

  /**
    The steps do not have to come in the order a run loop takes them, and in another one
    the condition of `OverwritesOnlyAcrossAChange` is met: leadership lost and won again
    with no pump before the next command, which then takes the index still parked on.
  */
  lemma AWaiterCanBeOverwritten(panics: Token -> bool)
    ensures Run(panics, UNTIL_REUSED) == Some(REUSED) && REUSED.r.trace == [Discard(1, Overwritten)]
  {
    UntilRewon(panics);
    assert REWON.queue + [Request(2, Submit)] == REASKED.queue && {1} + {2} == {1, 2};
    RunGrows(panics, UNTIL_REWON, REWON, Enqueue(Request(2, Submit)));
    assert REASKED.queue[1..] == [] && REWON.ep.log + [Entry(Own(2), Normal)] == REUSED.ep.log;
    assert NEW.trace + [Discard(1, Overwritten)] == REUSED.r.trace;
    assert PARKED.r.pending[1 := Waiter(2, false)] == REUSED.r.pending;
    RunGrows(panics, UNTIL_REWON + [Enqueue(Request(2, Submit))], REASKED, Handle(true));
  }
}
