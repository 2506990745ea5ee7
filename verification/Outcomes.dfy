/**
  Each operation gets the kind of answer it asked for. A proposal is acknowledged only
  with its own entry, of its own kind, once that entry is applied; reads are completed and
  never replied to; what is decided at once is never parked.
*/
module Outcomes {
  import opened Wrappers
  import opened Routing
  import opened Driver
  import opened AnswerSafety
  import opened RunLoop
  import Conservation

  // ---- What each operation may be told ---------------------------------------------------------------

  /** The operations enqueued so far. */
  ghost function Ops(steps: seq<Step>): map<Token, Op>
    decreases |steps|
  {
    if steps == [] then map[] else
      var before, last := Ops(steps[..|steps| - 1]), steps[|steps| - 1];
      if last.Enqueue? && last.cmd.Request? then before[last.cmd.t := last.cmd.op] else before
  }

  predicate Proposes(op: Op) { op.Submit? || op.ChangeConf? }

  predicate IsRead(op: Op) { op.ReadQuery? || op.FailoverRead? }

  function EntryOf(t: Token, op: Op): Entry { Entry(Own(t), if op.ChangeConf? then Conf else Normal) }

  /** This effect is one the operation may see while `done` is what has been applied. */
  predicate Fits(op: Op, e: Effect, done: seq<Entry>) {
    match e
    case Reply(t, answer) =>
      (match answer
       case Ok(entry) => Proposes(op) && entry == EntryOf(t, op) && entry in done
       case Done => op.SetReadMode? || op.Immediate?
       case Err(err) => !IsRead(op) && (Proposes(op) || err == Refused))
    case Invoke(_, arg, _) =>
      (match arg
       case ServeQuery(_, _, _) => op.ReadQuery?
       case ServeFailover(_, _) => op.FailoverRead?
       case Decline => op.FailoverRead?
       case Fail(err) => op.ReadQuery? || (op.FailoverRead? && err != Refused))
    case Discard(_, loss) => loss == Undelivered || (loss == Overwritten && Proposes(op))
  }

  predicate Told(e: Effect, ops: map<Token, Op>, done: seq<Entry>) {
    e.t in ops && Fits(ops[e.t], e, done)
  }

  ghost predicate AllTold(trace: seq<Effect>, ops: map<Token, Op>, done: seq<Entry>) {
    forall k :: 0 <= k < |trace| ==> Told(trace[k], ops, done)
  }

  predicate Asked(ops: map<Token, Op>, t: Token, op: Op) { t in ops && ops[t] == op }

  ghost predicate WaitersTyped(pending: map<Index, Waiter>, ops: map<Token, Op>) {
    forall i :: i in pending ==> Asked(ops, pending[i].t, if pending[i].conf then ChangeConf else Submit)
  }

  ghost predicate QueriesTyped(queries: map<nat, Query>, ops: map<Token, Op>) {
    forall c :: c in queries ==> Asked(ops, queries[c].t, ReadQuery)
  }

  ghost predicate FailoversTyped(failovers: seq<Token>, ops: map<Token, Op>) {
    forall i :: 0 <= i < |failovers| ==> Asked(ops, failovers[i], FailoverRead)
  }

  ghost predicate QueueTyped(queue: seq<Command>, ops: map<Token, Op>) {
    forall i :: 0 <= i < |queue| && queue[i].Request? ==> Asked(ops, queue[i].t, queue[i].op)
  }

  /** Everything sits where its operation belongs. */
  ghost predicate Typed(r: State, ops: map<Token, Op>, done: seq<Entry>) {
    WaitersTyped(r.pending, ops) && QueriesTyped(r.queries, ops) && FailoversTyped(r.failovers, ops)
    && AllTold(r.trace, ops, done)
  }

  // ---- Sweeps -------------------------------------------------------------------------------------------

  lemma NoteTold(trace: seq<Effect>, e: Effect, ops: map<Token, Op>, done: seq<Entry>)
    requires AllTold(trace, ops, done) && Told(e, ops, done)
    ensures AllTold(trace + [e], ops, done)
  {}

  lemma {:induction false} FailPendingTyped(r: State, err: Error, ops: map<Token, Op>, done: seq<Entry>)
    requires Typed(r, ops, done)
    ensures Typed(FailPending(r, err), ops, done)
    decreases |r.pending|
  {
    if r.pending != map[] {
      var k := Least(r.pending.Keys);
      var e := Reply(r.pending[k].t, Err(err));
      NoteTold(r.trace, e, ops, done);
      FailPendingTyped(Note(r, e).(pending := r.pending - {k}), err, ops, done);
    }
  }

  lemma {:induction false} FailQueriesTyped(panics: Token -> bool, r: State, err: Error, ops: map<Token, Op>,
                                            done: seq<Entry>)
    requires Typed(r, ops, done)
    ensures Typed(FailQueries(panics, r, err), ops, done)
    decreases |r.queries|
  {
    if r.queries != map[] {
      var k := Least(r.queries.Keys);
      var t := r.queries[k].t;
      NoteTold(r.trace, Invoke(t, Fail(err), panics(t)), ops, done);
      FailQueriesTyped(panics, Complete(panics, r, t, Fail(err)).(queries := r.queries - {k}), err, ops, done);
    }
  }

  lemma {:induction false} EndFailoversTyped(panics: Token -> bool, r: State, arg: Arg, ops: map<Token, Op>,
                                             done: seq<Entry>)
    requires Typed(r, ops, done) && (arg.Decline? || (arg.Fail? && arg.error != Refused))
    ensures Typed(EndFailovers(panics, r, arg), ops, done)
    decreases |r.failovers|
  {
    if r.failovers != [] {
      var t := r.failovers[0];
      NoteTold(r.trace, Invoke(t, arg, panics(t)), ops, done);
      EndFailoversTyped(panics, Complete(panics, r, t, arg).(failovers := r.failovers[1..]), arg, ops, done);
    }
  }

  lemma FailAllTyped(panics: Token -> bool, r: State, err: Error, ops: map<Token, Op>, done: seq<Entry>)
    requires Typed(r, ops, done) && err != Refused
    ensures Typed(FailAll(panics, r, err), ops, done)
  {
    hide Typed;
    var a := FailPending(r, err);
    FailPendingTyped(r, err, ops, done);
    FailQueriesTyped(panics, a, err, ops, done);
    EndFailoversTyped(panics, FailQueries(panics, a, err), Fail(err), ops, done);
  }

  // ---- The pump --------------------------------------------------------------------------------------------

  /** The entries applied so far. */
  function AppliedEntries(ep: Endpoint): seq<Entry> {
    if ep.applied <= |ep.log| then ep.log[..ep.applied] else []
  }

  lemma ResolveTyped(d: Node, r: State, ev: Event, rest: seq<Event>, ops: map<Token, Op>)
    requires Typed(r, ops, AppliedEntries(d.ep)) && (ev.Applied? || ev.ConfChanged?)
    requires Truthful(d.ep.log, d.ep.applied, ev) && Safe(d.ep.log, [ev] + rest, r.pending)
    ensures Typed(Resolve(r, ev.index, ev.entry, ev.ConfChanged?), ops, AppliedEntries(d.ep))
  {
    if ev.index in r.pending {
      var w, done := r.pending[ev.index], AppliedEntries(d.ep);
      assert !SweptFirst([ev] + rest, ev.index);
      assert InLog(d.ep.log, ev.index, w);
      assert done[ev.index - 1] == ev.entry;
      NoteTold(r.trace, Reply(w.t, Ok(ev.entry)), ops, done);
    }
  }

  lemma RouteTyped(panics: Token -> bool, d: Node, r: State, ev: Event, rest: seq<Event>, ops: map<Token, Op>)
    requires Typed(r, ops, AppliedEntries(d.ep))
    requires Truthful(d.ep.log, d.ep.applied, ev) && Safe(d.ep.log, [ev] + rest, r.pending)
    ensures Typed(RouteEvent(panics, r, ev), ops, AppliedEntries(d.ep))
  {
    hide FailAll, Resolve;
    if ev.LeaderChanged? {
      FailAllTyped(panics, r, Superseded, ops, AppliedEntries(d.ep));
    } else if ev.Applied? || ev.ConfChanged? {
      ResolveTyped(d, r, ev, rest, ops);
    }
  }

  lemma {:induction false} RouteAllTyped(panics: Token -> bool, d: Node, r: State, evs: seq<Event>, ops: map<Token, Op>)
    requires Typed(r, ops, AppliedEntries(d.ep)) && AllHonest(r.trace)
    requires AllTruthful(d.ep.log, d.ep.applied, evs) && Safe(d.ep.log, evs, r.pending)
    ensures Typed(RouteAll(panics, r, evs), ops, AppliedEntries(d.ep))
    decreases |evs|
  {
    hide Typed, RouteEvent;
    if evs != [] {
      assert evs == [evs[0]] + evs[1..];
      assert AllTruthful(d.ep.log, d.ep.applied, evs[1..]);
      RouteTyped(panics, d, r, evs[0], evs[1..], ops);
      RouteOwned(panics, d.ep.log, d.ep.applied, r, evs[0], evs[1..]);
      RouteAllTyped(panics, d, RouteEvent(panics, r, evs[0]), evs[1..], ops);
    }
  }

  lemma SettledTyped(panics: Token -> bool, d: Node, ops: map<Token, Op>)
    requires Owned(d) && Typed(d.r, ops, AppliedEntries(d.ep))
    ensures Typed(Settled(panics, d), ops, AppliedEntries(d.ep))
  {
    hide RouteAll, FailAll;
    RouteAllTyped(panics, d, d.r, d.ep.events, ops);
    var synced := if d.ep.poisoned then d.r else Raise(RouteAll(panics, d.r, d.ep.events), d.ep.applied);
    FailAllTyped(panics, synced, Superseded, ops, AppliedEntries(d.ep));
  }

  lemma {:induction false} ServeFailoversTold(panics: Token -> bool, trace: seq<Effect>, batch: seq<Token>, offer: Offer,
                                              applied: Index, live: nat -> bool, turn: nat, panicked: bool,
                                              ops: map<Token, Op>, done: seq<Entry>)
    requires AllTold(trace, ops, done) && FailoversTyped(batch, ops)
    ensures AllTold(ServeFailovers(panics, trace, batch, offer, applied, live, turn, panicked), ops, done)
    decreases |batch|
  {
    if batch != [] {
      var t := batch[0];
      var arg := if panicked then Fail(Poisoned) else if live(turn) then ServeFailover(offer, applied) else Decline;
      NoteTold(trace, Invoke(t, arg, panics(t)), ops, done);
      ServeFailoversTold(panics, trace + [Invoke(t, arg, panics(t))], batch[1..], offer, applied, live, turn + 1,
                         panicked || panics(t), ops, done);
    }
  }

  lemma FailoverPassTyped(panics: Token -> bool, r: State, applied: Index, ch: Choice, ops: map<Token, Op>,
                          done: seq<Entry>)
    requires Typed(r, ops, done)
    ensures Typed(FailoverPass(panics, r, applied, ch), ops, done)
  {
    EndFailoversTyped(panics, r, Decline, ops, done);
    if HasOffer(ch) {
      ServeFailoversTold(panics, r.trace, r.failovers, Offered(ch), applied, ch.live, 0, false, ops, done);
    }
    hide EndFailovers, ServeFailovers, Scan;
  }

  lemma {:induction false} ServeQueriesTold(panics: Token -> bool, trace: seq<Effect>, batch: seq<Query>, applied: Index,
                                            panicked: bool, ops: map<Token, Op>, done: seq<Entry>)
    requires forall q :: q in batch ==> q.readyAt.Some?
    requires AllTold(trace, ops, done) && forall i :: 0 <= i < |batch| ==> Asked(ops, batch[i].t, ReadQuery)
    ensures AllTold(ServeQueries(panics, trace, batch, applied, panicked), ops, done)
    decreases |batch|
  {
    if batch != [] {
      var q := batch[0];
      var arg := if panicked then Fail(Poisoned) else ServeQuery(q.ctx, q.readyAt.value, applied);
      assert Asked(ops, q.t, ReadQuery);
      NoteTold(trace, Invoke(q.t, arg, panics(q.t)), ops, done);
      ServeQueriesTold(panics, trace + [Invoke(q.t, arg, panics(q.t))], batch[1..], applied, panicked || panics(q.t),
                       ops, done);
    }
  }

  lemma QueryPassTyped(panics: Token -> bool, r: State, applied: Index, ops: map<Token, Op>, done: seq<Entry>)
    requires Typed(r, ops, done)
    ensures Typed(QueryPass(panics, r, applied), ops, done)
  {
    TakeRunnableIsExact(r, 0);
    var batch := RunnableQueries(r);
    forall i | 0 <= i < |batch|
      ensures Asked(ops, batch[i].t, ReadQuery)
    {
      assert From(r.queries, batch[i]);
    }
    ServeQueriesTold(panics, r.trace, batch, applied, false, ops, done);
    hide ServeQueries, RunnableQueries;
  }

  lemma PumpTyped(panics: Token -> bool, d: Node, ch: Choice, ops: map<Token, Op>)
    requires Owned(d) && Typed(d.r, ops, AppliedEntries(d.ep))
    ensures Typed(Pump(panics, d, ch).r, ops, AppliedEntries(d.ep))
  {
    hide Owned, Typed, Settled, FailoverPass, QueryPass, Stops, Fatal, ServesQueries, FailAll, AppliedEntries;
    var done := AppliedEntries(d.ep);
    var settled, passed := Settled(panics, d), Passed(panics, d, ch);
    SettledTyped(panics, d, ops);
    FailoverPassTyped(panics, settled, d.ep.applied, ch, ops, done);
    UnlatchTyped(passed, ops, done);
    QueryPassTyped(panics, passed.(latch := false), d.ep.applied, ops, done);
    FailAllTyped(panics, passed, Poisoned, ops, done);
    FailAllTyped(panics, Served(panics, d, ch), Poisoned, ops, done);
  }

  lemma UnlatchTyped(r: State, ops: map<Token, Op>, done: seq<Entry>)
    requires Typed(r, ops, done)
    ensures Typed(r.(latch := false), ops, done)
  {}

  // ---- The other steps -----------------------------------------------------------------------------------

  ghost predicate InPlace(d: Node, ops: map<Token, Op>) {
    ops.Keys == d.issued && QueueTyped(d.queue, ops) && Typed(d.r, ops, AppliedEntries(d.ep))
  }

  lemma ExecuteTyped(panics: Token -> bool, d: Node, cmd: Command, accept: bool, ops: map<Token, Op>)
    requires Typed(d.r, ops, AppliedEntries(d.ep)) && (cmd.Request? ==> Asked(ops, cmd.t, cmd.op))
    ensures Typed(Execute(panics, d, cmd, accept).r, ops, AppliedEntries(d.ep))
  {
    var done := AppliedEntries(d.ep);
    if cmd.Request? {
      var t := cmd.t;
      match cmd.op {
        case Submit => ParkTyped(d, t, false, ops, done); AnsweredTyped(d, t, Err(Refused), ops, done);
        case ChangeConf => ParkTyped(d, t, true, ops, done); AnsweredTyped(d, t, Err(Refused), ops, done);
        case SetReadMode => AnsweredTyped(d, t, Done, ops, done); AnsweredTyped(d, t, Err(Refused), ops, done);
        case ReadQuery => NoteTold(d.r.trace, Invoke(t, Fail(Refused), panics(t)), ops, done);
        case FailoverRead =>
        case Immediate => AnsweredTyped(d, t, if accept then Done else Err(Refused), ops, done);
      }
    }
  }

  lemma ParkTyped(d: Node, t: Token, conf: bool, ops: map<Token, Op>, done: seq<Entry>)
    requires Typed(d.r, ops, done) && Asked(ops, t, if conf then ChangeConf else Submit)
    ensures Typed(Park(d, t, conf).r, ops, done)
  {
    var i := |d.ep.log| + 1;
    if i in d.r.pending { NoteTold(d.r.trace, Discard(d.r.pending[i].t, Overwritten), ops, done); }
  }

  lemma AnsweredTyped(d: Node, t: Token, answer: Answer, ops: map<Token, Op>, done: seq<Entry>)
    requires Typed(d.r, ops, done) && Told(Reply(t, answer), ops, done)
    ensures Typed(Answered(d, t, answer).r, ops, done)
  {
    NoteTold(d.r.trace, Reply(t, answer), ops, done);
  }

  /** More applied entries, or more operations, spoil nothing said before. */
  lemma TypedGrows(r: State, ops: map<Token, Op>, done: seq<Entry>, ops': map<Token, Op>, done': seq<Entry>)
    requires Typed(r, ops, done) && done <= done' && forall t :: t in ops ==> Asked(ops', t, ops[t])
    ensures Typed(r, ops', done')
  {
    forall k | 0 <= k < |r.trace|
      ensures Told(r.trace[k], ops', done')
    {
      assert Told(r.trace[k], ops, done);
      assert forall x :: x in done ==> x in done';
    }
    forall i | i in r.pending
      ensures Asked(ops', r.pending[i].t, if r.pending[i].conf then ChangeConf else Submit)
    {
      assert Asked(ops, r.pending[i].t, if r.pending[i].conf then ChangeConf else Submit);
    }
    forall c | c in r.queries ensures Asked(ops', r.queries[c].t, ReadQuery) { assert Asked(ops, r.queries[c].t, ReadQuery); }
    forall i | 0 <= i < |r.failovers| ensures Asked(ops', r.failovers[i], FailoverRead) {
      assert Asked(ops, r.failovers[i], FailoverRead);
    }
  }

  /** What is applied stays applied, whatever the endpoint does next. */
  lemma AppliedGrows(ep: Endpoint, s: EndpointStep)
    requires Allowed(ep, s) && ep.applied <= |ep.log|
    ensures AppliedEntries(ep) <= AppliedEntries(Evolve(ep, s))
  {
    var ep' := Evolve(ep, s);
    assert ep'.log[..ep.applied] == ep.log[..ep.applied];
    assert ep'.log[..ep'.applied][..ep.applied] == ep'.log[..ep.applied];
  }

  lemma ExecuteApplies(panics: Token -> bool, d: Node, cmd: Command, accept: bool)
    requires d.ep.applied <= |d.ep.log|
    ensures AppliedEntries(Execute(panics, d, cmd, accept).ep) == AppliedEntries(d.ep)
  {
    assert Execute(panics, d, cmd, accept).ep.log[..|d.ep.log|] == d.ep.log;
  }

  lemma {:induction false} DropQueueTold(trace: seq<Effect>, queue: seq<Command>, ops: map<Token, Op>, done: seq<Entry>)
    requires AllTold(trace, ops, done) && QueueTyped(queue, ops)
    ensures AllTold(DropQueue(trace, queue), ops, done)
    decreases |queue|
  {
    if queue != [] {
      assert QueueTyped(queue[1..], ops);
      if queue[0].Request? { NoteTold(trace, Discard(queue[0].t, Undelivered), ops, done); }
      DropQueueTold(if queue[0].Request? then trace + [Discard(queue[0].t, Undelivered)] else trace, queue[1..], ops, done);
    }
  }

  lemma TeardownInPlace(panics: Token -> bool, d: Node, ops: map<Token, Op>)
    requires InPlace(d, ops)
    ensures InPlace(Teardown(panics, d), ops)
  {
    hide FailAll, DropQueue;
    var done := AppliedEntries(d.ep);
    FailAllTyped(panics, d.r, Poisoned, ops, done);
    var r := if d.ep.poisoned then FailAll(panics, d.r, Poisoned) else d.r;
    FailAllTyped(panics, r, ShuttingDown, ops, done);
    DropQueueTold(FailAll(panics, r, ShuttingDown).trace, d.queue, ops, done);
  }

  lemma EnqueueInPlace(panics: Token -> bool, d: Node, cmd: Command, ops: map<Token, Op>)
    requires InPlace(d, ops) && Enabled(d, Enqueue(cmd))
    ensures InPlace(Next(panics, d, Enqueue(cmd)), if cmd.Request? then ops[cmd.t := cmd.op] else ops)
  {
    var ops' := if cmd.Request? then ops[cmd.t := cmd.op] else ops;
    TypedGrows(d.r, ops, AppliedEntries(d.ep), ops', AppliedEntries(d.ep));
    forall i | 0 <= i < |d.queue + [cmd]| && (d.queue + [cmd])[i].Request?
      ensures Asked(ops', (d.queue + [cmd])[i].t, (d.queue + [cmd])[i].op)
    {
      if i < |d.queue| { assert Asked(ops, d.queue[i].t, d.queue[i].op); }
    }
  }

  lemma HandleInPlace(panics: Token -> bool, d: Node, accept: bool, ops: map<Token, Op>)
    requires InPlace(d, ops) && Enabled(d, Handle(accept)) && d.ep.applied <= |d.ep.log|
    ensures InPlace(Next(panics, d, Handle(accept)), ops)
  {
    hide Typed, Execute, AppliedEntries;
    var popped := d.(queue := d.queue[1..]);
    assert QueueTyped(popped.queue, ops);
    ExecuteTyped(panics, popped, d.queue[0], accept, ops);
    ExecuteApplies(panics, popped, d.queue[0], accept);
    Conservation.ExecuteFrame(panics, popped, d.queue[0], accept);
  }

  lemma PumpInPlace(panics: Token -> bool, d: Node, ch: Choice, ops: map<Token, Op>)
    requires InPlace(d, ops) && Owned(d)
    ensures InPlace(Pump(panics, d, ch), ops)
  {
    PumpTyped(panics, d, ch, ops);
    hide Typed, Owned, Served, Passed, Stops, Fatal, FailAll, Scan;
  }

  lemma {:induction false} AlwaysInPlace(panics: Token -> bool, steps: seq<Step>)
    requires Run(panics, steps).Some?
    ensures InPlace(Run(panics, steps).value, Ops(steps))
    decreases |steps|
  {
    if steps != [] {
      var init, step := steps[..|steps| - 1], steps[|steps| - 1];
      var d, ops := Run(panics, init).value, Ops(init);
      AlwaysInPlace(panics, init);
      AlwaysOwned(panics, init);
      match step {
        case World(s) =>
          AppliedGrows(d.ep, s);
          TypedGrows(d.r, ops, AppliedEntries(d.ep), ops, AppliedEntries(Evolve(d.ep, s)));
        case Enqueue(cmd) => EnqueueInPlace(panics, d, cmd, ops);
        case Handle(accept) => HandleInPlace(panics, d, accept, ops);
        case RunPump(ch) => PumpInPlace(panics, d, ch, ops);
        case Stop => TeardownInPlace(panics, d, ops);
      }
    }
  }

  // ---- What the callers are told -----------------------------------------------------------------------------

  /**
    In every run, a reply to a submit or a conf change is an error or `Ok` with the very
    entry it proposed, of its own kind, at an applied index. What is decided at once is
    answered `Done` or refused, a read is completed and never replied to, and only a
    proposal can lose its channel after it was handled.
  */
  lemma OutcomesFit(panics: Token -> bool, steps: seq<Step>, k: nat)
    requires Run(panics, steps).Some? && k < |Run(panics, steps).value.r.trace|
    ensures var d := Run(panics, steps).value;
            var e := d.r.trace[k];
            && d.ep.applied <= |d.ep.log| && e.t in Ops(steps)
            && Fits(Ops(steps)[e.t], e, d.ep.log[..d.ep.applied])
  {
    AlwaysOwned(panics, steps);
    AlwaysInPlace(panics, steps);
    var d := Run(panics, steps).value;
    assert Told(d.r.trace[k], Ops(steps), AppliedEntries(d.ep));
  }

  /**
    A command straight after a pump. A proposal the endpoint accepts becomes the log's new
    last entry and its caller waits at that index and nowhere else, over nobody; one it
    refuses is answered so and leaves the log and every waiter as they were.
  */
  lemma ProposalOutcome(panics: Token -> bool, steps: seq<Step>, t: Token, op: Op, accept: bool)
    requires Run(panics, steps).Some? && JustPumped(steps)
    requires var d := Run(panics, steps).value;
             d.phase.Running? && d.queue != [] && d.queue[0] == Request(t, op) && Proposes(op)
    ensures var d := Run(panics, steps).value;
            var d' := Next(panics, d, Handle(accept));
            if accept && d.ep.leader && !d.ep.poisoned
            then && d'.ep.log == d.ep.log + [EntryOf(t, op)] && |d'.ep.log| !in d.r.pending
                 && d'.r == d.r.(pending := d.r.pending[|d'.ep.log| := Waiter(t, op.ChangeConf?)])
            else d'.ep == d.ep && d'.r == d.r.(trace := d.r.trace + [Reply(t, Err(Refused))])
  {
    var d := Run(panics, steps).value;
    AlwaysOwned(panics, steps);
    NoChangeWaits(panics, steps);
    if |d.ep.log| + 1 in d.r.pending { OverwritesOnlyAcrossAChange(d); }
  }

  /** A read the endpoint takes is parked with nothing said; a refused one is completed at once. */
  lemma ReadOutcome(panics: Token -> bool, d: Node, t: Token, op: Op, accept: bool)
    requires IsRead(op)
    ensures var d' := Execute(panics, d, Request(t, op), accept);
            var taken := op.FailoverRead? || (accept && !d.ep.poisoned);
            && d'.r.pending == d.r.pending && d'.ep.log == d.ep.log
            && d'.r.trace == (if taken then d.r.trace else d.r.trace + [Invoke(t, Fail(Refused), panics(t))])
            && d'.r.failovers == (if op.FailoverRead? then d.r.failovers + [t] else d.r.failovers)
            && d'.r.queries == (if op.ReadQuery? && taken then d.r.queries[d.r.nextCtx := Query(t, d.r.nextCtx, None)]
                                else d.r.queries)
            && (d'.ep.poisoned <==> d.ep.poisoned || (!taken && panics(t)))
  {}

  /** Any other command is answered at once and parks nothing; a read mode agreed on is the log's new last entry. */
  lemma ImmediateOutcome(panics: Token -> bool, d: Node, t: Token, op: Op, accept: bool)
    requires op.SetReadMode? || op.Immediate?
    ensures var d' := Execute(panics, d, Request(t, op), accept);
            var agreed := accept && (op.SetReadMode? ==> d.ep.leader && !d.ep.poisoned);
            && d'.r == d.r.(trace := d.r.trace + [Reply(t, if agreed then Done else Err(Refused))])
            && d'.ep == if op.SetReadMode? && agreed then d.ep.(log := d.ep.log + [Entry(Own(t), ReadMode)]) else d.ep
  {}
}
