/**
  The drivers' imperative code: a mutable routing table, and the driver that pumps it.
  Each method is proved to do what the step functions of `Routing` and `Driver` say.
*/
module DriverObjects {
  import opened Wrappers
  import opened Finite
  import opened R = Routing
  import D = Driver
  import Limbo

  method LeastKey(s: set<nat>) returns (k: nat)
    requires s != {}
    ensures k == Least(s)
  {
    LeastExists(s);
    ghost var w :| IsLeast(s, w);
    k :| k in s && forall j :: j in s ==> k <= j;
  }

  /** The runnable queries of a map, least context first. */
  ghost function RunnableIn(m: map<nat, Query>, applied: Index): map<nat, Query> {
    map c | c in m && Runnable(m[c], applied) :: m[c]
  }

  lemma RunnableInStep(m: map<nat, Query>, applied: Index)
    requires m != map[]
    ensures var k := Least(m.Keys);
            if Runnable(m[k], applied)
            then Ascending(RunnableIn(m, applied)) == [m[k]] + Ascending(RunnableIn(m - {k}, applied))
            else RunnableIn(m, applied) == RunnableIn(m - {k}, applied)
  {
    var k := Least(m.Keys);
    var all := RunnableIn(m, applied);
    if Runnable(m[k], applied) {
      assert k in all;
      assert Least(all.Keys) == k;
      assert all - {k} == RunnableIn(m - {k}, applied);
    }
  }

  /** One pass over the parked queries, least context first, taking out those that can run. */
  method SplitRunnable(m: map<nat, Query>, applied: Index) returns (batch: seq<Query>, left: map<nat, Query>)
    ensures batch == Ascending(RunnableIn(m, applied))
    ensures forall c :: c in left <==> c in m && !Runnable(m[c], applied)
    ensures forall c :: c in left ==> left[c] == m[c]
  {
    hide Ascending, RunnableIn;
    batch, left := [], m;
    var rest := m;
    while rest != map[]
      invariant forall c :: c in rest ==> c in m && rest[c] == m[c]
      invariant forall c :: c in left <==> c in m && (c in rest || !Runnable(m[c], applied))
      invariant forall c :: c in left ==> left[c] == m[c]
      invariant batch + Ascending(RunnableIn(rest, applied)) == Ascending(RunnableIn(m, applied))
      decreases |rest|
    {
      var k := LeastKey(rest.Keys);
      RunnableInStep(rest, applied);
      if Runnable(rest[k], applied) {
        batch, left := batch + [rest[k]], left - {k};
      }
      rest := rest - {k};
    }
    NoneRunnableInNone(applied);
  }

  lemma NoneRunnableInNone(applied: Index)
    ensures Ascending(RunnableIn(map[], applied)) == []
  {
    assert RunnableIn(map[], applied) == map[];
  }

  class Routing {
    var pending: map<Index, Waiter>
    var queries: map<nat, Query>
    var nextCtx: nat
    var failovers: seq<Token>
    var applied: Index
    var completionPanicked: bool
    var trace: seq<Effect>
    const panics: Token -> bool

    ghost function View(): State
      reads this
    { State(pending, queries, nextCtx, failovers, applied, completionPanicked, trace) }

    constructor (oracle: Token -> bool)
      ensures View() == NEW && panics == oracle
    {
      pending, queries, nextCtx, failovers, applied, completionPanicked, trace := map[], map[], 1, [], 0, false, [];
      panics := oracle;
    }

    method MintQueryCtx() returns (ctx: nat)
      modifies this
      ensures ctx == old(nextCtx) && View() == old(View()).(nextCtx := ctx + 1)
    {
      ctx := nextCtx;
      nextCtx := nextCtx + 1;
    }

    method SyncApplied(endpointApplied: Index) returns (moved: bool)
      modifies this
      ensures View() == Raise(old(View()), endpointApplied) && moved == (endpointApplied > old(applied))
    {
      if endpointApplied > applied {
        applied := endpointApplied;
        moved := true;
      } else {
        moved := false;
      }
    }

    method Complete(t: Token, arg: Arg)
      modifies this
      ensures View() == R.Complete(panics, old(View()), t, arg)
    {
      trace := trace + [Invoke(t, arg, panics(t))];
      if panics(t) { completionPanicked := true; }
    }

    method FailPending(err: Error)
      modifies this
      ensures View() == R.FailPending(old(View()), err)
    {
      var taken := pending;
      pending := map[];
      while taken != map[]
        invariant pending == map[]
        invariant R.FailPending(View().(pending := taken), err) == R.FailPending(old(View()), err)
        decreases |taken|
      {
        var k := LeastKey(taken.Keys);
        trace := trace + [Reply(taken[k].t, Err(err))];
        taken := taken - {k};
      }
    }

    method FailQueries(err: Error)
      modifies this
      ensures View() == R.FailQueries(panics, old(View()), err)
    {
      var taken := queries;
      queries := map[];
      while taken != map[]
        invariant queries == map[]
        invariant R.FailQueries(panics, View().(queries := taken), err) == R.FailQueries(panics, old(View()), err)
        decreases |taken|
      {
        var k := LeastKey(taken.Keys);
        Complete(taken[k].t, Fail(err));
        taken := taken - {k};
      }
    }

    method EndFailovers(arg: Arg)
      modifies this
      ensures View() == R.EndFailovers(panics, old(View()), arg)
    {
      var taken := failovers;
      failovers := [];
      while taken != []
        invariant failovers == []
        invariant R.EndFailovers(panics, View().(failovers := taken), arg) == R.EndFailovers(panics, old(View()), arg)
        decreases |taken|
      {
        Complete(taken[0], arg);
        taken := taken[1..];
      }
    }

    method FailAll(err: Error)
      modifies this
      ensures View() == R.FailAll(panics, old(View()), err)
    {
      FailPending(err);
      FailQueries(err);
      EndFailovers(Fail(err));
    }

    method DeclineFailovers()
      modifies this
      ensures View() == R.EndFailovers(panics, old(View()), Decline)
    {
      EndFailovers(Decline);
    }

    method TakeCompletionPanicked() returns (was: bool)
      modifies this
      ensures was == old(completionPanicked) && View() == old(View()).(latch := false)
    {
      was := completionPanicked;
      completionPanicked := false;
    }

    method Resolve(index: Index, entry: Entry, conf: bool)
      modifies this
      ensures View() == R.Resolve(old(View()), index, entry, conf)
    {
      if index in pending {
        var w := pending[index];
        pending := pending - {index};
        trace := trace + [if w.conf == conf then Reply(w.t, Ok(entry)) else Discard(w.t, WrongKind)];
      }
    }

    method RouteEvent(ev: Event) returns (advanced: bool)
      modifies this
      ensures View() == R.RouteEvent(panics, old(View()), ev) && advanced == Advances(old(View()), ev)
    {
      advanced := false;
      match ev {
        case Applied(index, entry) =>
          Resolve(index, entry, false);
          advanced := SyncApplied(index);
        case ConfChanged(index, entry) =>
          Resolve(index, entry, true);
          advanced := SyncApplied(index);
        case LeaderChanged => FailAll(Superseded);
        case SnapshotInstalled(index) => advanced := SyncApplied(index);
        case ReadModeChanged(index) => advanced := SyncApplied(index);
        case ReadState(ctx, index) =>
          if ctx.Some? && ctx.value in queries {
            queries := queries[ctx.value := queries[ctx.value].(readyAt := Some(index))];
            advanced := true;
          }
        case OtherEvent =>
      }
    }

    /** Pops every query whose read index the watermark has reached. */
    method TakeRunnableQueries() returns (batch: seq<Query>)
      modifies this
      ensures batch == RunnableQueries(old(View()))
      ensures View() == old(View()).(queries := old(queries) - RunnableKeys(old(View())))
    {
      assert RunnableIn(queries, applied) == Restrict(queries, RunnableKeys(View()));
      ghost var keys := RunnableKeys(View());
      ghost var was := queries;
      batch, queries := SplitRunnable(queries, applied);
      assert queries == was - keys;
    }

    /** `applied` is what the state machine handed out has applied. */
    method ServeQueryBatch(batch: seq<Query>, smApplied: Index) returns (panicked: bool)
      requires forall q :: q in batch ==> q.readyAt.Some?
      modifies this
      ensures View() == old(View()).(trace := ServeQueries(panics, old(trace), batch, smApplied, false))
      ensures panicked == AnyPanics(panics, Tokens(batch))
    {
      panicked := false;
      assert batch[0..] == batch;
      for i := 0 to |batch|
        invariant View() == old(View()).(trace := trace)
        invariant ServeQueries(panics, trace, batch[i..], smApplied, panicked)
               == ServeQueries(panics, old(trace), batch, smApplied, false)
        invariant (panicked || AnyPanics(panics, Tokens(batch[i..]))) == AnyPanics(panics, Tokens(batch))
      {
        var q := batch[i];
        assert batch[i..][1..] == batch[i + 1..] && batch[i..][0] == q;
        assert Tokens(batch[i..])[1..] == Tokens(batch[i + 1..]);
        if panicked {
          trace := trace + [Invoke(q.t, Fail(Poisoned), panics(q.t))];
        } else {
          trace := trace + [Invoke(q.t, ServeQuery(q.ctx, q.readyAt.value, smApplied), panics(q.t))];
          panicked := panics(q.t);
        }
      }
    }

    method ServeFailoverBatch(batch: seq<Token>, offer: Offer, smApplied: Index, live: nat -> bool) returns (panicked: bool)
      modifies this
      ensures View() == old(View()).(trace := ServeFailovers(panics, old(trace), batch, offer, smApplied, live, 0, false))
      ensures panicked == AnyPanics(panics, batch)
    {
      panicked := false;
      assert batch[0..] == batch;
      for i := 0 to |batch|
        invariant View() == old(View()).(trace := trace)
        invariant ServeFailovers(panics, trace, batch[i..], offer, smApplied, live, i, panicked)
               == ServeFailovers(panics, old(trace), batch, offer, smApplied, live, 0, false)
        invariant (panicked || AnyPanics(panics, batch[i..])) == AnyPanics(panics, batch)
      {
        var t := batch[i];
        assert batch[i..][1..] == batch[i + 1..] && batch[i..][0] == t;
        if panicked {
          trace := trace + [Invoke(t, Fail(Poisoned), panics(t))];
        } else if live(i) {
          trace := trace + [Invoke(t, ServeFailover(offer, smApplied), panics(t))];
          panicked := panics(t);
        } else {
          trace := trace + [Invoke(t, Decline, panics(t))];
          panicked := panics(t);
        }
      }
    }
  }

  class Driver {
    var ep: D.Endpoint
    const routing: Routing
    var wasLeader: bool
    var queue: seq<D.Command>
    var phase: D.Phase
    ghost var issued: set<Token>
    ghost var asked: map<nat, Token>
    ghost var confirmed: set<(nat, Index)>

    ghost function View(): D.Node
      reads this, routing
    { D.Node(ep, routing.View(), wasLeader, queue, phase, issued, asked, confirmed) }

    constructor (oracle: Token -> bool)
      ensures View() == D.FRESH && fresh(routing) && routing.panics == oracle
    {
      ep := D.Endpoint([], false, 0, [], false);
      routing := new Routing(oracle);
      wasLeader, queue, phase := false, [], D.Running;
      issued, asked, confirmed := {}, map[], {};
    }

    method Propose(t: Token, conf: bool, accept: bool)
      modifies this, routing
      ensures View() == D.Execute(routing.panics, old(View()), D.Request(t, if conf then D.ChangeConf else D.Submit), accept)
    {
      if accept && ep.leader && !ep.poisoned {
        var index := |ep.log| + 1;
        ep := ep.(log := ep.log + [Entry(Own(t), if conf then Conf else Normal)]);
        if index in routing.pending {
          // The waiter it replaces is dropped, and its reply channel with it.
          routing.trace := routing.trace + [Discard(routing.pending[index].t, Overwritten)];
        }
        routing.pending := routing.pending[index := Waiter(t, conf)];
      } else {
        routing.trace := routing.trace + [Reply(t, Err(Refused))];
      }
    }

    /** The verdict is immediate: nothing is parked for the entry. */
    method ChangeReadMode(t: Token, accept: bool)
      modifies this, routing
      ensures View() == D.Execute(routing.panics, old(View()), D.Request(t, D.SetReadMode), accept)
    {
      if accept && ep.leader && !ep.poisoned {
        ep := ep.(log := ep.log + [Entry(Own(t), ReadMode)]);
        routing.trace := routing.trace + [Reply(t, Done)];
      } else {
        routing.trace := routing.trace + [Reply(t, Err(Refused))];
      }
    }

    method AskRead(t: Token, accept: bool)
      modifies this, routing
      ensures View() == D.Execute(routing.panics, old(View()), D.Request(t, D.ReadQuery), accept)
    {
      var ctx := routing.MintQueryCtx();
      asked := asked[ctx := t];
      if accept && !ep.poisoned {
        routing.queries := routing.queries[ctx := Query(t, ctx, None)];
      } else {
        routing.trace := routing.trace + [Invoke(t, Fail(Refused), routing.panics(t))];
        if routing.panics(t) { ep := ep.(poisoned := true); }
      }
    }

    /** One command; true when the run loop should exit. */
    method HandleCommand(cmd: D.Command, accept: bool) returns (exit: bool)
      modifies this, routing
      ensures View() == D.Execute(routing.panics, old(View()), cmd, accept) && exit == cmd.Shutdown?
    {
      exit := false;
      match cmd {
        case Shutdown =>
          phase := D.Leaving;
          exit := true;
        case Request(t, op) =>
          match op {
            case Submit => Propose(t, false, accept);
            case ChangeConf => Propose(t, true, accept);
            case SetReadMode => ChangeReadMode(t, accept);
            case ReadQuery => AskRead(t, accept);
            case FailoverRead => routing.failovers := routing.failovers + [t];
            case Immediate => routing.trace := routing.trace + [Reply(t, if accept then Done else Err(Refused))];
          }
      }
    }

    /** Serve, decline or keep the parked failover reads; true when the driver has to stop. */
    method RunFailoverServe(ch: D.Choice) returns (stop: bool)
      modifies this, routing
      ensures stop == D.FailoverStops(routing.panics, old(routing.View()), ch)
      ensures routing.View() == D.FailoverPass(routing.panics, old(routing.View()), ep.applied, ch)
      ensures ep == old(ep).(poisoned := old(ep.poisoned) || (stop && D.Scan(ch).Region?))
      ensures unchanged(`wasLeader, `queue, `phase, `issued, `asked, `confirmed)
    {
      stop := false;
      if routing.failovers == [] {
        return;
      }
      match ch.window {
        case None => routing.DeclineFailovers();
        case Some(window) =>
          if window.index <= routing.applied {
            var limbo := Limbo.ReadLimbo(window, ch.maxBytes, ch.read);
            match limbo {
              case Region(entries) =>
                var parked := routing.failovers;
                routing.failovers := [];
                var panicked := routing.ServeFailoverBatch(parked, Offer(window, entries), ep.applied, ch.live);
                if panicked {
                  ep := ep.(poisoned := true);
                  stop := true;
                }
              case Fallback => routing.DeclineFailovers();
              case Fatal => stop := true;
            }
          }
      }
    }

    /** Route everything the endpoint has queued. */
    method DrainEvents() returns (runQueries: bool)
      requires !ep.poisoned
      modifies this, routing
      ensures routing.View() == D.RouteAll(routing.panics, old(routing.View()), old(ep.events))
      ensures runQueries == D.AnyAdvances(routing.panics, old(routing.View()), old(ep.events))
      ensures ep == old(ep).(events := [])
      ensures unchanged(`wasLeader, `queue, `phase, `issued, `asked, `confirmed)
    {
      runQueries := false;
      while ep.events != []
        invariant ep == old(ep).(events := ep.events)
        invariant unchanged(`wasLeader, `queue, `phase, `issued, `asked, `confirmed)
        invariant D.RouteAll(routing.panics, routing.View(), ep.events)
               == D.RouteAll(routing.panics, old(routing.View()), old(ep.events))
        invariant (runQueries || D.AnyAdvances(routing.panics, routing.View(), ep.events))
               == D.AnyAdvances(routing.panics, old(routing.View()), old(ep.events))
        decreases |ep.events|
      {
        var ev := ep.events[0];
        ep := ep.(events := ep.events[1..]);
        var advanced := routing.RouteEvent(ev);
        runQueries := runQueries || advanced;
      }
    }

    /** The first half of a pump: events, watermark, leadership backstop. */
    method Settle() returns (runQueries: bool)
      modifies this, routing
      ensures routing.View() == D.Settled(routing.panics, old(View()))
      ensures runQueries == D.RunsQueries(routing.panics, old(View()))
      ensures View() == D.Drained(old(View())).(r := routing.View())
    {
      runQueries := false;
      if !ep.poisoned {
        runQueries := DrainEvents();
        var moved := routing.SyncApplied(ep.applied);
        runQueries := runQueries || moved;
      }
      if wasLeader && !ep.leader {
        routing.FailAll(Superseded);
      }
      wasLeader := ep.leader;
    }

    /** The query serve, gated on the latch and on the poison. */
    method ServeQueriesIf(gate: bool) returns (panicked: bool)
      modifies routing
      ensures routing.View() == if gate then D.QueryPass(routing.panics, old(routing.View()), ep.applied) else old(routing.View())
      ensures panicked == (gate && AnyPanics(routing.panics, Tokens(RunnableQueries(old(routing.View())))))
    {
      panicked := false;
      if gate {
        TakeRunnableIsExact(routing.View(), 0);
        var batch := routing.TakeRunnableQueries();
        panicked := routing.ServeQueryBatch(batch, ep.applied);
      }
    }

    method Pump(ch: D.Choice) returns (stop: bool)
      requires phase.Running?
      modifies this, routing
      ensures View() == D.Pump(routing.panics, old(View()), ch) && stop == phase.Leaving?
    {
      hide D.Settled, D.RunsQueries, D.FailoverPass, D.FailoverStops, D.QueryPass, R.FailAll;
      ghost var d := View();
      var runQueries := Settle();
      if !ep.poisoned {
        var fatal := RunFailoverServe(ch);
        if fatal {
          routing.FailAll(Poisoned);
          phase := D.Leaving;
          return true;
        }
      }
      assert routing.View() == D.Passed(routing.panics, d, ch);
      var completionPanicked := routing.TakeCompletionPanicked();
      var queryPanicked := ServeQueriesIf(!completionPanicked && !ep.poisoned && runQueries);
      assert routing.View() == D.Served(routing.panics, d, ch);
      if queryPanicked || completionPanicked {
        ep := ep.(poisoned := true);
      }
      if ep.poisoned {
        routing.FailAll(Poisoned);
        phase := D.Leaving;
        return true;
      }
      stop := false;
    }

    /** The end of the run loop: classify, sweep, clear the latch, drop what is still queued. */
    method Teardown()
      modifies this, routing
      ensures View() == D.Teardown(routing.panics, old(View()))
    {
      if ep.poisoned {
        routing.FailAll(Poisoned);
      }
      routing.FailAll(ShuttingDown);
      var _ := routing.TakeCompletionPanicked();
      ghost var swept := View();
      while queue != []
        invariant View() == swept.(queue := queue, r := swept.r.(trace := routing.trace))
        invariant D.DropQueue(routing.trace, queue) == D.DropQueue(swept.r.trace, swept.queue)
        decreases |queue|
      {
        if queue[0].Request? {
          routing.trace := routing.trace + [Discard(queue[0].t, Undelivered)];
        }
        queue := queue[1..];
      }
      phase := D.Stopped;
    }
  }
}
