/**
  The routing state shared by every driver: submits and conf changes parked by log
  index, queries parked by a minted read context, failover reads in a list, an apply
  watermark and the completion-panic latch. Every answer given and every completion
  invoked is appended to `trace`, in order.

  A completion is a user closure run under `catch_unwind`; whether the one belonging to
  a token panics is the oracle `panics`.
*/
module Routing {
  import opened Wrappers
  import opened Finite
  import Limbo

  type Token = nat
  type Index = nat

  /** Who put a log entry there: the operation with this token, or somebody else. */
  datatype Origin = Own(t: Token) | Foreign(id: nat)
  datatype Kind = Normal | Conf | ReadMode | Empty
  datatype Entry = Entry(origin: Origin, kind: Kind)

  datatype Event =
    | Applied(index: Index, entry: Entry)
    | ConfChanged(index: Index, entry: Entry)
    | LeaderChanged
    | SnapshotInstalled(index: Index)
    | ReadModeChanged(index: Index)
    | ReadState(ctx: Option<nat>, index: Index)    // `None`: a context that is not eight bytes wide
    | OtherEvent

  datatype Error = Superseded | Poisoned | ShuttingDown | Refused

  datatype Answer = Ok(entry: Entry) | Done | Err(error: Error)

  /** What a failover read is offered beside the state machine: the serve window and its limbo region. */
  datatype Offer = Offer(window: Limbo.Window, limbo: seq<Limbo.Entry>)

  /** What a completion is called with. The first two hand it the state machine. */
  datatype Arg =
    | ServeQuery(ctx: nat, at: Index, applied: Index)
    | ServeFailover(offer: Offer, applied: Index)
    | Decline
    | Fail(error: Error)

  datatype Loss = Overwritten | WrongKind | Undelivered

  datatype Effect =
    | Reply(t: Token, answer: Answer)
    | Invoke(t: Token, arg: Arg, panicked: bool)
    | Discard(t: Token, loss: Loss)                // the reply channel is dropped unanswered

  datatype Waiter = Waiter(t: Token, conf: bool)
  datatype Query = Query(t: Token, ctx: nat, readyAt: Option<Index>)

  datatype State = State(pending: map<Index, Waiter>, queries: map<nat, Query>, nextCtx: nat,
                         failovers: seq<Token>, applied: Index, latch: bool, trace: seq<Effect>)

  const NEW := State(map[], map[], 1, [], 0, false, [])

  function Note(r: State, e: Effect): State { r.(trace := r.trace + [e]) }

  // ---- Ascending order of a map's keys -----------------------------------------------------------

  ghost predicate IsLeast(s: set<nat>, k: nat) { k in s && forall j :: j in s ==> k <= j }

  lemma {:induction false} LeastExists(s: set<nat>)
    requires s != {}
    ensures exists k :: IsLeast(s, k)
  {
    var k :| k in s;
    var rest := s - {k};
    if rest == {} {
      assert s == {k};
      assert IsLeast(s, k);
    } else {
      LeastExists(rest);
      var l :| IsLeast(rest, l);
      var least := if k <= l then k else l;
      forall j | j in s
        ensures least <= j
      {
        if j != k { assert j in rest; }
      }
      assert IsLeast(s, least);
    }
  }

  /** The key a `BTreeMap` iterator yields first. */
  ghost function Least(s: set<nat>): (k: nat)
    requires s != {}
    ensures k in s && forall j :: j in s ==> k <= j
  {
    LeastExists(s);
    var k :| IsLeast(s, k);
    k
  }

  ghost function Ascending<V>(m: map<nat, V>): seq<V>
    decreases |m|
  {
    if m == map[] then [] else
      var k := Least(m.Keys);
      [m[k]] + Ascending(m - {k})
  }

  // ---- Operations -----------------------------------------------------------------------------------

  /** One completion outside a serve: a caught panic is latched. */
  function Complete(panics: Token -> bool, r: State, t: Token, arg: Arg): State {
    Note(r, Invoke(t, arg, panics(t))).(latch := r.latch || panics(t))
  }

  ghost function FailPending(r: State, err: Error): State
    decreases |r.pending|
  {
    if r.pending == map[] then r else
      var k := Least(r.pending.Keys);
      FailPending(Note(r, Reply(r.pending[k].t, Err(err))).(pending := r.pending - {k}), err)
  }

  ghost function FailQueries(panics: Token -> bool, r: State, err: Error): State
    decreases |r.queries|
  {
    if r.queries == map[] then r else
      var k := Least(r.queries.Keys);
      FailQueries(panics, Complete(panics, r, r.queries[k].t, Fail(err)).(queries := r.queries - {k}), err)
  }

  /** Complete every parked failover read with `arg`, first in first. */
  function EndFailovers(panics: Token -> bool, r: State, arg: Arg): State
    decreases |r.failovers|
  {
    if r.failovers == [] then r else
      EndFailovers(panics, Complete(panics, r, r.failovers[0], arg).(failovers := r.failovers[1..]), arg)
  }

  ghost function FailAll(panics: Token -> bool, r: State, err: Error): State {
    EndFailovers(panics, FailQueries(panics, FailPending(r, err), err), Fail(err))
  }

  /** Remove the waiter at this index, if any, and answer it when it is of the event's kind. */
  function Resolve(r: State, index: Index, entry: Entry, conf: bool): State {
    if index !in r.pending then r else
      var w := r.pending[index];
      Note(r, if w.conf == conf then Reply(w.t, Ok(entry)) else Discard(w.t, WrongKind))
        .(pending := r.pending - {index})
  }

  function Raise(r: State, index: Index): State {
    if index > r.applied then r.(applied := index) else r
  }

  ghost function RouteEvent(panics: Token -> bool, r: State, ev: Event): State {
    match ev
    case Applied(i, e) => Raise(Resolve(r, i, e, false), i)
    case ConfChanged(i, e) => Raise(Resolve(r, i, e, true), i)
    case LeaderChanged => FailAll(panics, r, Superseded)
    case SnapshotInstalled(i) => Raise(r, i)
    case ReadModeChanged(i) => Raise(r, i)
    case ReadState(ctx, i) =>
      if ctx.Some? && ctx.value in r.queries
      then r.(queries := r.queries[ctx.value := r.queries[ctx.value].(readyAt := Some(i))]) else r
    case OtherEvent => r
  }

  /** What `route_event` returns: there may now be a query to run. */
  predicate Advances(r: State, ev: Event) {
    match ev
    case Applied(i, _) => i > r.applied
    case ConfChanged(i, _) => i > r.applied
    case SnapshotInstalled(i) => i > r.applied
    case ReadModeChanged(i) => i > r.applied
    case ReadState(ctx, _) => ctx.Some? && ctx.value in r.queries
    case LeaderChanged => false
    case OtherEvent => false
  }

  predicate Runnable(q: Query, applied: Index) { q.readyAt.Some? && q.readyAt.value <= applied }

  function RunnableKeys(r: State): set<nat> { set c | c in r.queries && Runnable(r.queries[c], r.applied) }

  ghost function RunnableQueries(r: State): seq<Query> {
    Ascending(Restrict(r.queries, RunnableKeys(r)))
  }

  /** Serve a taken batch; after the first caught panic the rest complete `Poisoned`. */
  function ServeQueries(panics: Token -> bool, trace: seq<Effect>, batch: seq<Query>, applied: Index,
                        panicked: bool): seq<Effect>
    requires forall q :: q in batch ==> q.readyAt.Some?
    decreases |batch|
  {
    if batch == [] then trace else
      var q := batch[0];
      var arg := if panicked then Fail(Poisoned) else ServeQuery(q.ctx, q.readyAt.value, applied);
      ServeQueries(panics, trace + [Invoke(q.t, arg, panics(q.t))], batch[1..], applied,
                   panicked || panics(q.t))
  }

  /** The failover twin; the lease is asked again before each completion. */
  function ServeFailovers(panics: Token -> bool, trace: seq<Effect>, batch: seq<Token>, offer: Offer, applied: Index,
                          live: nat -> bool, turn: nat, panicked: bool): seq<Effect>
    decreases |batch|
  {
    if batch == [] then trace else
      var t := batch[0];
      var arg := if panicked then Fail(Poisoned) else if live(turn) then ServeFailover(offer, applied) else Decline;
      ServeFailovers(panics, trace + [Invoke(t, arg, panics(t))], batch[1..], offer, applied, live,
                     turn + 1, panicked || panics(t))
  }


  // ---- What a trace says ----------------------------------------------------------------------------------

  predicate Serves(e: Effect) { e.Invoke? && (e.arg.ServeQuery? || e.arg.ServeFailover?) }

  predicate Panicked(e: Effect) { e.Invoke? && e.panicked }

  predicate IsFailure(e: Effect) { (e.Reply? && e.answer.Err?) || (e.Invoke? && !Serves(e)) }

  ghost predicate Torn(trace: seq<Effect>) { exists i :: 0 <= i < |trace| && Panicked(trace[i]) }

  /** No completion is handed the state machine after one has panicked. */
  ghost predicate NeverServesTorn(trace: seq<Effect>) {
    forall i, j :: 0 <= i < j < |trace| && Panicked(trace[i]) ==> !Serves(trace[j])
  }

  /** `after` adds only error answers, declines and failures to `before`. */
  ghost predicate OnlyFails(before: seq<Effect>, after: seq<Effect>) {
    before <= after && forall i :: |before| <= i < |after| ==> IsFailure(after[i])
  }

  lemma OnlyFailsKeeps(before: seq<Effect>, after: seq<Effect>)
    requires OnlyFails(before, after) && NeverServesTorn(before)
    ensures NeverServesTorn(after)
  {
    forall i, j | 0 <= i < j < |after| && Panicked(after[i])
      ensures !Serves(after[j])
    {
      if j < |before| { assert before[i] == after[i] && before[j] == after[j]; }
    }
  }

  /** Every caught panic is either latched here or has been acted on. */
  ghost predicate Latched(r: State) { Torn(r.trace) ==> r.latch }

  /** What every sweep does, whatever it sweeps. */
  ghost predicate Sweeps(r: State, r': State) {
    && r'.applied == r.applied && r'.nextCtx == r.nextCtx
    && OnlyFails(r.trace, r'.trace)
    && (Latched(r) ==> Latched(r'))
    && (r.latch ==> r'.latch)
    && |r'.trace| + Parked(r') == |r.trace| + Parked(r)
  }

  ghost function Parked(r: State): nat { |r.pending| + |r.queries| + |r.failovers| }

  lemma SweepsThen(a: State, b: State, c: State)
    requires Sweeps(a, b) && Sweeps(b, c)
    ensures Sweeps(a, c)
  {
    forall i | |a.trace| <= i < |c.trace|
      ensures IsFailure(c.trace[i])
    {
      if i < |b.trace| { assert b.trace[i] == c.trace[i]; }
    }
  }

  lemma NoteTorn(trace: seq<Effect>, e: Effect)
    ensures Torn(trace + [e]) <==> Torn(trace) || Panicked(e)
  {
    var after := trace + [e];
    if Torn(trace) {
      var i :| 0 <= i < |trace| && Panicked(trace[i]);
      assert Panicked(after[i]);
    }
    if Panicked(e) { assert Panicked(after[|trace|]); }
  }

  lemma {:induction false} FailPendingSweeps(r: State, err: Error)
    ensures var r' := FailPending(r, err);
            Sweeps(r, r') && r' == r.(pending := map[], trace := r'.trace)
    decreases |r.pending|
  {
    if r.pending != map[] {
      var k := Least(r.pending.Keys);
      var e := Reply(r.pending[k].t, Err(err));
      var next := Note(r, e).(pending := r.pending - {k});
      NoteTorn(r.trace, e);
      assert Sweeps(r, next);
      FailPendingSweeps(next, err);
      SweepsThen(r, next, FailPending(next, err));
    }
  }

  lemma {:induction false} FailQueriesSweeps(panics: Token -> bool, r: State, err: Error)
    ensures var r' := FailQueries(panics, r, err);
            Sweeps(r, r') && r' == r.(queries := map[], trace := r'.trace, latch := r'.latch)
    decreases |r.queries|
  {
    if r.queries != map[] {
      var k := Least(r.queries.Keys);
      var t := r.queries[k].t;
      var next := Complete(panics, r, t, Fail(err)).(queries := r.queries - {k});
      NoteTorn(r.trace, Invoke(t, Fail(err), panics(t)));
      assert Sweeps(r, next);
      FailQueriesSweeps(panics, next, err);
      SweepsThen(r, next, FailQueries(panics, next, err));
    }
  }

  lemma {:induction false} EndFailoversSweeps(panics: Token -> bool, r: State, arg: Arg)
    requires arg.Decline? || arg.Fail?
    ensures var r' := EndFailovers(panics, r, arg);
            Sweeps(r, r') && r' == r.(failovers := [], trace := r'.trace, latch := r'.latch)
    decreases |r.failovers|
  {
    if r.failovers != [] {
      var t := r.failovers[0];
      var next := Complete(panics, r, t, arg).(failovers := r.failovers[1..]);
      NoteTorn(r.trace, Invoke(t, arg, panics(t)));
      assert Sweeps(r, next);
      EndFailoversSweeps(panics, next, arg);
      SweepsThen(r, next, EndFailovers(panics, next, arg));
    }
  }

  /** A sweep leaves nothing parked, serves nothing, and latches every panic it catches. */
  lemma FailAllSweeps(panics: Token -> bool, r: State, err: Error)
    ensures var r' := FailAll(panics, r, err);
            && Sweeps(r, r') && Parked(r') == 0
            && r' == r.(pending := map[], queries := map[], failovers := [], trace := r'.trace, latch := r'.latch)
  {
    var a := FailPending(r, err);
    var b := FailQueries(panics, a, err);
    FailPendingSweeps(r, err);
    FailQueriesSweeps(panics, a, err);
    EndFailoversSweeps(panics, b, Fail(err));
    SweepsThen(r, a, b);
    SweepsThen(r, b, FailAll(panics, r, err));
  }

  /** Every effect added is this very error. */
  ghost predicate FailsWith(before: seq<Effect>, after: seq<Effect>, err: Error) {
    before <= after && forall i :: |before| <= i < |after| ==> IsError(after[i], err)
  }

  predicate IsError(e: Effect, err: Error) {
    (e.Reply? && e.answer == Err(err)) || (e.Invoke? && e.arg == Fail(err))
  }

  lemma FailsWithThen(a: seq<Effect>, b: seq<Effect>, c: seq<Effect>, err: Error)
    requires FailsWith(a, b, err) && FailsWith(b, c, err)
    ensures FailsWith(a, c, err)
  {
    forall i | |a| <= i < |c|
      ensures IsError(c[i], err)
    {
      if i < |b| { assert b[i] == c[i]; }
    }
  }

  lemma {:induction false} FailPendingWith(r: State, err: Error)
    ensures FailsWith(r.trace, FailPending(r, err).trace, err)
    decreases |r.pending|
  {
    if r.pending != map[] {
      var k := Least(r.pending.Keys);
      var next := Note(r, Reply(r.pending[k].t, Err(err))).(pending := r.pending - {k});
      FailPendingWith(next, err);
      FailsWithThen(r.trace, next.trace, FailPending(next, err).trace, err);
    }
  }

  lemma {:induction false} FailQueriesWith(panics: Token -> bool, r: State, err: Error)
    ensures FailsWith(r.trace, FailQueries(panics, r, err).trace, err)
    decreases |r.queries|
  {
    if r.queries != map[] {
      var k := Least(r.queries.Keys);
      var next := Complete(panics, r, r.queries[k].t, Fail(err)).(queries := r.queries - {k});
      FailQueriesWith(panics, next, err);
      FailsWithThen(r.trace, next.trace, FailQueries(panics, next, err).trace, err);
    }
  }

  lemma {:induction false} EndFailoversWith(panics: Token -> bool, r: State, err: Error)
    ensures FailsWith(r.trace, EndFailovers(panics, r, Fail(err)).trace, err)
    decreases |r.failovers|
  {
    if r.failovers != [] {
      var next := Complete(panics, r, r.failovers[0], Fail(err)).(failovers := r.failovers[1..]);
      EndFailoversWith(panics, next, err);
      FailsWithThen(r.trace, next.trace, EndFailovers(panics, next, Fail(err)).trace, err);
    }
  }

  /** Declining answers every parked failover read with `Decline`, in order. */
  lemma {:induction false} EndFailoversDecline(panics: Token -> bool, r: State)
    ensures var after := EndFailovers(panics, r, Decline).trace;
            && r.trace <= after && |after| == |r.trace| + |r.failovers|
            && forall i :: |r.trace| <= i < |after| ==>
                 after[i] == Invoke(r.failovers[i - |r.trace|], Decline, panics(r.failovers[i - |r.trace|]))
    decreases |r.failovers|
  {
    if r.failovers != [] {
      EndFailoversDecline(panics, Complete(panics, r, r.failovers[0], Decline).(failovers := r.failovers[1..]));
    }
  }

  /** A sweep answers everything parked, one effect each, with the error it was given. */
  lemma FailAllWith(panics: Token -> bool, r: State, err: Error)
    ensures FailsWith(r.trace, FailAll(panics, r, err).trace, err)
    ensures |FailAll(panics, r, err).trace| == |r.trace| + Parked(r)
  {
    var a := FailPending(r, err);
    var b := FailQueries(panics, a, err);
    FailPendingWith(r, err);
    FailQueriesWith(panics, a, err);
    EndFailoversWith(panics, b, err);
    FailsWithThen(r.trace, a.trace, b.trace, err);
    FailsWithThen(r.trace, b.trace, FailAll(panics, r, err).trace, err);
    FailAllSweeps(panics, r, err);
  }

  // ---- Where each operation is ---------------------------------------------------------------------------------

  function IsWaiter(t: Token): Waiter -> nat { (w: Waiter) => if w.t == t then 1 else 0 }

  function IsQuery(t: Token): Query -> nat { (q: Query) => if q.t == t then 1 else 0 }

  /** How many effects carry this token. */
  ghost function Tally(trace: seq<Effect>, t: Token): nat {
    if trace == [] then 0
    else Tally(trace[..|trace| - 1], t) + if trace[|trace| - 1].t == t then 1 else 0
  }

  lemma TallyNote(trace: seq<Effect>, e: Effect, t: Token)
    ensures Tally(trace + [e], t) == Tally(trace, t) + if e.t == t then 1 else 0
  {
    assert (trace + [e])[..|trace|] == trace;
  }

  /** How often a token occurs among what is parked and what has been answered. */
  ghost function Places(r: State, t: Token): nat {
    Total(r.pending, IsWaiter(t)) + Total(r.queries, IsQuery(t)) + multiset(r.failovers)[t] + Tally(r.trace, t)
  }

  lemma {:induction false} FailPendingPlaces(r: State, err: Error, t: Token)
    ensures Places(FailPending(r, err), t) == Places(r, t)
    decreases |r.pending|
  {
    if r.pending != map[] {
      var k := Least(r.pending.Keys);
      var e := Reply(r.pending[k].t, Err(err));
      TallyNote(r.trace, e, t);
      TotalRemove(r.pending, IsWaiter(t), k);
      FailPendingPlaces(Note(r, e).(pending := r.pending - {k}), err, t);
    }
  }

  lemma {:induction false} FailQueriesPlaces(panics: Token -> bool, r: State, err: Error, t: Token)
    ensures Places(FailQueries(panics, r, err), t) == Places(r, t)
    decreases |r.queries|
  {
    if r.queries != map[] {
      var k := Least(r.queries.Keys);
      var q := r.queries[k];
      TallyNote(r.trace, Invoke(q.t, Fail(err), panics(q.t)), t);
      TotalRemove(r.queries, IsQuery(t), k);
      FailQueriesPlaces(panics, Complete(panics, r, q.t, Fail(err)).(queries := r.queries - {k}), err, t);
    }
  }

  lemma {:induction false} EndFailoversPlaces(panics: Token -> bool, r: State, arg: Arg, t: Token)
    ensures Places(EndFailovers(panics, r, arg), t) == Places(r, t)
    decreases |r.failovers|
  {
    if r.failovers != [] {
      var u := r.failovers[0];
      TallyNote(r.trace, Invoke(u, arg, panics(u)), t);
      assert r.failovers == [u] + r.failovers[1..];
      EndFailoversPlaces(panics, Complete(panics, r, u, arg).(failovers := r.failovers[1..]), arg, t);
    }
  }

  /** A sweep moves every parked operation into the trace exactly once. */
  lemma FailAllPlaces(panics: Token -> bool, r: State, err: Error, t: Token)
    ensures Places(FailAll(panics, r, err), t) == Places(r, t)
  {
    FailPendingPlaces(r, err, t);
    FailQueriesPlaces(panics, FailPending(r, err), err, t);
    EndFailoversPlaces(panics, FailQueries(panics, FailPending(r, err), err), Fail(err), t);
  }

  lemma ResolvePlaces(r: State, index: Index, entry: Entry, conf: bool, t: Token)
    ensures Places(Resolve(r, index, entry, conf), t) == Places(r, t)
  {
    if index in r.pending {
      var w := r.pending[index];
      TotalRemove(r.pending, IsWaiter(t), index);
      TallyNote(r.trace, if w.conf == conf then Reply(w.t, Ok(entry)) else Discard(w.t, WrongKind), t);
    }
  }

  lemma ReadStatePlaces(r: State, ctx: nat, at: Index, t: Token)
    requires ctx in r.queries
    ensures Places(r.(queries := r.queries[ctx := r.queries[ctx].(readyAt := Some(at))]), t) == Places(r, t)
  {
    TotalUpdate(r.queries, IsQuery(t), ctx, r.queries[ctx].(readyAt := Some(at)));
  }

  /** Routing an event neither loses nor duplicates an operation. */
  lemma RouteEventPlaces(panics: Token -> bool, r: State, ev: Event, t: Token)
    ensures Places(RouteEvent(panics, r, ev), t) == Places(r, t)
  {
    match ev {
      case Applied(i, e) => ResolvePlaces(r, i, e, false, t);
      case ConfChanged(i, e) => ResolvePlaces(r, i, e, true, t);
      case LeaderChanged => FailAllPlaces(panics, r, Superseded, t);
      case ReadState(ctx, i) => if ctx.Some? && ctx.value in r.queries { ReadStatePlaces(r, ctx.value, i, t); }
      case SnapshotInstalled(_) =>
      case ReadModeChanged(_) =>
      case OtherEvent =>
    }
  }

  // ---- Serving a batch ----------------------------------------------------------------------------------------

  function Tokens(batch: seq<Query>): seq<Token> { seq(|batch|, i requires 0 <= i < |batch| => batch[i].t) }

  /** Whether any completion of a batch catches a panic. */
  predicate AnyPanics(panics: Token -> bool, batch: seq<Token>)
    decreases |batch|
  {
    batch != [] && (panics(batch[0]) || AnyPanics(panics, batch[1..]))
  }

  lemma HeadCount<T>(s: seq<T>, t: T)
    requires s != []
    ensures multiset(s)[t] == (if s[0] == t then 1 else 0) + multiset(s[1..])[t]
  {
    assert s == [s[0]] + s[1..];
  }

  /** Serving invokes each completion of the batch once. */
  lemma {:induction false} ServeQueriesTally(panics: Token -> bool, trace: seq<Effect>, batch: seq<Query>,
                                             applied: Index, panicked: bool, t: Token)
    requires forall q :: q in batch ==> q.readyAt.Some?
    ensures var after := ServeQueries(panics, trace, batch, applied, panicked);
            && trace <= after && |after| == |trace| + |batch|
            && Tally(after, t) == Tally(trace, t) + multiset(Tokens(batch))[t]
    decreases |batch|
  {
    if batch != [] {
      var q := batch[0];
      var arg := if panicked then Fail(Poisoned) else ServeQuery(q.ctx, q.readyAt.value, applied);
      var e := Invoke(q.t, arg, panics(q.t));
      TallyNote(trace, e, t);
      ServeQueriesTally(panics, trace + [e], batch[1..], applied, panicked || panics(q.t), t);
      HeadCount(Tokens(batch), t);
      assert Tokens(batch)[1..] == Tokens(batch[1..]);
    }
  }

  /** After `j` completions the trace is that of serving the first `j`. */
  lemma {:induction false} ServeQueriesPrefix(panics: Token -> bool, trace: seq<Effect>, batch: seq<Query>,
                                              applied: Index, panicked: bool, j: nat)
    requires forall q :: q in batch ==> q.readyAt.Some?
    requires j <= |batch|
    ensures ServeQueries(panics, trace, batch[..j], applied, panicked) <= ServeQueries(panics, trace, batch, applied, panicked)
    decreases |batch|
  {
    if j == 0 {
      ServeQueriesTally(panics, trace, batch, applied, panicked, 0);
    } else {
      var q := batch[0];
      var arg := if panicked then Fail(Poisoned) else ServeQuery(q.ctx, q.readyAt.value, applied);
      var e := Invoke(q.t, arg, panics(q.t));
      assert batch[..j][1..] == batch[1..][..j - 1];
      ServeQueriesPrefix(panics, trace + [e], batch[1..], applied, panicked || panics(q.t), j - 1);
    }
  }

  lemma NoteClean(trace: seq<Effect>, e: Effect)
    requires NeverServesTorn(trace) && (Serves(e) ==> !Torn(trace))
    ensures NeverServesTorn(trace + [e])
  {}

  /** A served query is handed the state machine only while no panic has been caught. */
  lemma {:induction false} ServeQueriesClean(panics: Token -> bool, trace: seq<Effect>, batch: seq<Query>,
                                             applied: Index, panicked: bool)
    requires forall q :: q in batch ==> q.readyAt.Some?
    requires NeverServesTorn(trace) && (Torn(trace) ==> panicked)
    ensures var after := ServeQueries(panics, trace, batch, applied, panicked);
            NeverServesTorn(after) && (Torn(after) ==> panicked || AnyPanics(panics, Tokens(batch)))
    decreases |batch|
  {
    if batch != [] {
      var q := batch[0];
      var arg := if panicked then Fail(Poisoned) else ServeQuery(q.ctx, q.readyAt.value, applied);
      var e := Invoke(q.t, arg, panics(q.t));
      NoteTorn(trace, e);
      NoteClean(trace, e);
      ServeQueriesClean(panics, trace + [e], batch[1..], applied, panicked || panics(q.t));
      assert Tokens(batch)[1..] == Tokens(batch[1..]);
    }
  }

  lemma AnyPanicsTail(panics: Token -> bool, batch: seq<Token>, i: nat)
    requires 0 < i <= |batch|
    ensures AnyPanics(panics, batch[..i]) <==> panics(batch[0]) || AnyPanics(panics, batch[1..][..i - 1])
  {
    assert batch[..i][1..] == batch[1..][..i - 1];
  }

  /** What the i-th query of a batch is called with: the state machine, until one before it has panicked. */
  lemma {:induction false} ServeQueriesArgs(panics: Token -> bool, trace: seq<Effect>, batch: seq<Query>,
                                            applied: Index, panicked: bool, i: nat)
    requires forall q :: q in batch ==> q.readyAt.Some?
    requires i < |batch|
    ensures var after := ServeQueries(panics, trace, batch, applied, panicked);
            && |trace| + i < |after|
            && after[|trace| + i] == Invoke(batch[i].t,
                 if panicked || AnyPanics(panics, Tokens(batch)[..i]) then Fail(Poisoned)
                 else ServeQuery(batch[i].ctx, batch[i].readyAt.value, applied), panics(batch[i].t))
    decreases |batch|
  {
    var q := batch[0];
    var arg := if panicked then Fail(Poisoned) else ServeQuery(q.ctx, q.readyAt.value, applied);
    var e := Invoke(q.t, arg, panics(q.t));
    if i == 0 {
      ServeQueriesTally(panics, trace + [e], batch[1..], applied, panicked || panics(q.t), q.t);
    } else {
      ServeQueriesArgs(panics, trace + [e], batch[1..], applied, panicked || panics(q.t), i - 1);
      AnyPanicsTail(panics, Tokens(batch), i);
      assert Tokens(batch)[1..] == Tokens(batch[1..]);
    }
  }

  lemma {:induction false} ServeFailoversTally(panics: Token -> bool, trace: seq<Effect>, batch: seq<Token>, offer: Offer,
                                               applied: Index, live: nat -> bool, turn: nat, panicked: bool, t: Token)
    ensures var after := ServeFailovers(panics, trace, batch, offer, applied, live, turn, panicked);
            && trace <= after && |after| == |trace| + |batch|
            && Tally(after, t) == Tally(trace, t) + multiset(batch)[t]
            && forall i :: |trace| <= i < |after| ==>
                 after[i].Invoke? && after[i].arg in {Fail(Poisoned), Decline, ServeFailover(offer, applied)}
    decreases |batch|
  {
    if batch != [] {
      var u := batch[0];
      var arg := if panicked then Fail(Poisoned) else if live(turn) then ServeFailover(offer, applied) else Decline;
      var e := Invoke(u, arg, panics(u));
      TallyNote(trace, e, t);
      ServeFailoversTally(panics, trace + [e], batch[1..], offer, applied, live, turn + 1, panicked || panics(u), t);
      HeadCount(batch, t);
    }
  }

  lemma {:induction false} ServeFailoversPrefix(panics: Token -> bool, trace: seq<Effect>, batch: seq<Token>, offer: Offer,
                                                applied: Index, live: nat -> bool, turn: nat, panicked: bool, j: nat)
    requires j <= |batch|
    ensures ServeFailovers(panics, trace, batch[..j], offer, applied, live, turn, panicked)
         <= ServeFailovers(panics, trace, batch, offer, applied, live, turn, panicked)
    decreases |batch|
  {
    if j == 0 {
      ServeFailoversTally(panics, trace, batch, offer, applied, live, turn, panicked, 0);
    } else {
      var t := batch[0];
      var arg := if panicked then Fail(Poisoned) else if live(turn) then ServeFailover(offer, applied) else Decline;
      var e := Invoke(t, arg, panics(t));
      assert batch[..j][1..] == batch[1..][..j - 1];
      ServeFailoversPrefix(panics, trace + [e], batch[1..], offer, applied, live, turn + 1, panicked || panics(t), j - 1);
    }
  }

  /** What the i-th failover read is called with: the lease is asked again for each one. */
  lemma {:induction false} ServeFailoversArgs(panics: Token -> bool, trace: seq<Effect>, batch: seq<Token>, offer: Offer,
                                              applied: Index, live: nat -> bool, turn: nat, panicked: bool, i: nat)
    requires i < |batch|
    ensures var after := ServeFailovers(panics, trace, batch, offer, applied, live, turn, panicked);
            && |trace| + i < |after|
            && after[|trace| + i] == Invoke(batch[i],
                 if panicked || AnyPanics(panics, batch[..i]) then Fail(Poisoned)
                 else if live(turn + i) then ServeFailover(offer, applied) else Decline, panics(batch[i]))
    decreases |batch|
  {
    var t := batch[0];
    var arg := if panicked then Fail(Poisoned) else if live(turn) then ServeFailover(offer, applied) else Decline;
    var e := Invoke(t, arg, panics(t));
    if i == 0 {
      ServeFailoversTally(panics, trace + [e], batch[1..], offer, applied, live, turn + 1, panicked || panics(t), t);
    } else {
      ServeFailoversArgs(panics, trace + [e], batch[1..], offer, applied, live, turn + 1, panicked || panics(t), i - 1);
      AnyPanicsTail(panics, batch, i);
    }
  }

  lemma {:induction false} ServeFailoversClean(panics: Token -> bool, trace: seq<Effect>, batch: seq<Token>, offer: Offer,
                                               applied: Index, live: nat -> bool, turn: nat, panicked: bool)
    requires NeverServesTorn(trace) && (Torn(trace) ==> panicked)
    ensures var after := ServeFailovers(panics, trace, batch, offer, applied, live, turn, panicked);
            NeverServesTorn(after) && (Torn(after) ==> panicked || AnyPanics(panics, batch))
    decreases |batch|
  {
    if batch != [] {
      var t := batch[0];
      var arg := if panicked then Fail(Poisoned) else if live(turn) then ServeFailover(offer, applied) else Decline;
      var e := Invoke(t, arg, panics(t));
      NoteTorn(trace, e);
      NoteClean(trace, e);
      ServeFailoversClean(panics, trace + [e], batch[1..], offer, applied, live, turn + 1, panicked || panics(t));
    }
  }

  // ---- Taking the runnable queries ------------------------------------------------------------------------------

  ghost predicate From(m: map<nat, Query>, q: Query) { exists c :: c in m && m[c] == q }

  lemma {:induction false} AscendingFrom(m: map<nat, Query>)
    ensures |Ascending(m)| == |m|
    ensures forall i :: 0 <= i < |Ascending(m)| ==> From(m, Ascending(m)[i])
    decreases |m|
  {
    if m != map[] {
      var k := Least(m.Keys);
      var rest := Ascending(m - {k});
      AscendingFrom(m - {k});
      assert Ascending(m) == [m[k]] + rest;
      forall i | 0 <= i < |Ascending(m)|
        ensures From(m, Ascending(m)[i])
      {
        if i > 0 {
          assert From(m - {k}, rest[i - 1]);
        }
      }
    }
  }

  lemma {:induction false} AscendingCount(m: map<nat, Query>, t: Token)
    ensures multiset(Tokens(Ascending(m)))[t] == Total(m, IsQuery(t))
    decreases |m|
  {
    if m != map[] {
      var k := Least(m.Keys);
      AscendingCount(m - {k}, t);
      TotalRemove(m, IsQuery(t), k);
      HeadCount(Tokens(Ascending(m)), t);
      assert Tokens(Ascending(m))[1..] == Tokens(Ascending(m - {k}));
    }
  }

  /**
    The taken batch is exactly the parked queries whose read index is covered, each
    once; what stays parked is exactly the rest.
  */
  lemma TakeRunnableIsExact(r: State, t: Token)
    ensures var batch := RunnableQueries(r);
            var left := r.queries - RunnableKeys(r);
            && |batch| + |left| == |r.queries|
            && multiset(Tokens(batch))[t] + Total(left, IsQuery(t)) == Total(r.queries, IsQuery(t))
            && (forall i :: 0 <= i < |batch| ==> Runnable(batch[i], r.applied) && From(r.queries, batch[i]))
            && forall c :: c in left ==> !Runnable(left[c], r.applied)
  {
    var taken := Restrict(r.queries, RunnableKeys(r));
    var batch := RunnableQueries(r);
    AscendingFrom(taken);
    AscendingCount(taken, t);
    RestrictSize(r.queries, RunnableKeys(r));
    TotalSplit(r.queries, RunnableKeys(r), IsQuery(t));
    forall i | 0 <= i < |batch|
      ensures Runnable(batch[i], r.applied) && From(r.queries, batch[i])
    {
      assert From(taken, batch[i]);
    }
  }
}
