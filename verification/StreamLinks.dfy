/** The stream driver's connection table and its standing link reconciler. */
module StreamLinks {
  import opened Wrappers
  import opened Finite
  import opened Backoff

  type Peer = nat
  type ConnId = nat

  /** `backoff` is the delay the next attempt will wait. */
  datatype Redial = Redial(at: nat, backoff: nat, boundSince: Option<nat>)

  /** One dial: the how-manieth since this peer's history was last cleared, and when the next may follow. */
  datatype Dial = Dial(peer: Peer, nth: nat, delay: nat, now: nat, at: nat)

  datatype Setup = Setup(timing: Config, maxConns: nat, peers: seq<Peer>)

  /** A connection maps to the peer it was dialed to, or to `None` when it was accepted. */
  datatype Links = Links(conns: map<ConnId, Option<Peer>>, redial: map<Peer, Redial>, wake: Option<nat>,
                         counts: map<Peer, nat>, dials: seq<Dial>)

  const NONE := Links(map[], map[], None, map[], [])

  /**
    What one pass finds: the time, the bound peers, and for the k-th peer of the book the
    jitter sample and the connection id a dial would get (`None`: the record factory fails).
  */
  datatype Seen = Seen(now: nat, bound: set<Peer>, nanos: nat -> nat, opens: nat -> Option<ConnId>)

  predicate DialedTo(conns: map<ConnId, Option<Peer>>, p: Peer) { exists id :: id in conns && conns[id] == Some(p) }

  function Sooner(wake: Option<nat>, at: nat): Option<nat> {
    if wake.None? || at < wake.value then Some(at) else wake
  }

  function Since(now: nat, then_: nat): nat { if now >= then_ then now - then_ else 0 }

  /** A bound peer: its history goes once the binding has lasted. */
  function VisitBound(s: Setup, l: Links, now: nat, p: Peer): Links {
    if p !in l.redial then l else
      var since := if l.redial[p].boundSince.Some? then l.redial[p].boundSince.value else now;
      if Since(now, since) >= s.timing.base then l.(redial := l.redial - {p}, counts := l.counts - {p})
      else l.(redial := l.redial[p := l.redial[p].(boundSince := Some(since))])
  }

  function Unstable(l: Links, p: Peer): Links {
    if p in l.redial then l.(redial := l.redial[p := l.redial[p].(boundSince := None)]) else l
  }

  /** A due dial: the backoff is armed first, then the attempt is made. */
  function Attempt(s: Setup, l: Links, now: nat, p: Peer, nanos: nat, opens: Option<ConnId>): Links {
    var delay := if p in l.redial then l.redial[p].backoff else s.timing.base;
    var at := now + Jittered(delay, nanos);
    var nth := if p in l.counts then l.counts[p] else 0;
    l.(redial := l.redial[p := Redial(at, Doubled(s.timing, delay), None)],
       counts := l.counts[p := nth + 1],
       dials := l.dials + [Dial(p, nth, delay, now, at)],
       conns := if opens.Some? then l.conns[opens.value := Some(p)] else l.conns,
       wake := Sooner(l.wake, at))
  }

  function Visit(s: Setup, l: Links, seen: Seen, k: nat): Links
    requires k < |s.peers|
  {
    var p := s.peers[k];
    if p in seen.bound then VisitBound(s, l, seen.now, p) else
      var m := Unstable(l, p);
      if DialedTo(m.conns, p) then m
      else if p in m.redial && seen.now < m.redial[p].at then m.(wake := Sooner(m.wake, m.redial[p].at))
      else Attempt(s, m, seen.now, p, seen.nanos(k), seen.opens(k))
  }

  function Pass(s: Setup, l: Links, seen: Seen, k: nat): Links
    requires k <= |s.peers|
    decreases |s.peers| - k
  {
    if k == |s.peers| then l else Pass(s, Visit(s, l, seen, k), seen, k + 1)
  }

  function Reconcile(s: Setup, l: Links, seen: Seen): Links { Pass(s, l.(wake := None), seen, 0) }

  // ---- Runs -----------------------------------------------------------------------------------------------

  datatype Step =
    | Accept(id: ConnId, built: bool)      // `built`: the record layer could be constructed
    | Close(id: ConnId)                    // for whatever reason
    | Tick(seen: Seen)

  /** The coordinator hands out connection ids that are not in use. */
  ghost predicate FreshIds(l: Links, seen: Seen) {
    && (forall k :: seen.opens(k).Some? ==> seen.opens(k).value !in l.conns)
    && forall j, k :: j != k && seen.opens(j).Some? ==> seen.opens(k) != seen.opens(j)
  }

  ghost predicate Enabled(l: Links, step: Step) {
    match step
    case Accept(id, _) => id !in l.conns
    case Close(_) => true
    case Tick(seen) => FreshIds(l, seen)
  }

  function Next(s: Setup, l: Links, step: Step): Links {
    match step
    case Accept(id, built) => if |l.conns| >= s.maxConns || !built then l else l.(conns := l.conns[id := None])
    case Close(id) => l.(conns := l.conns - {id})
    case Tick(seen) => Reconcile(s, l, seen)
  }

  ghost predicate Behavior(s: Setup, run: seq<Links>, steps: seq<Step>) {
    && |run| == |steps| + 1 && run[0] == NONE
    && forall k :: 0 <= k < |steps| ==> Enabled(run[k], steps[k]) && Next(s, run[k], steps[k]) == run[k + 1]
  }

  // ---- The schedule ------------------------------------------------------------------------------------------

  /** The stored delay is the law's next one. */
  ghost predicate OnSchedule(s: Setup, l: Links) {
    && l.redial.Keys == l.counts.Keys
    && (forall p :: p in l.redial ==> l.redial[p].backoff == Law(s.timing, l.counts[p]))
    && forall i :: 0 <= i < |l.dials| ==> Lawful(s.timing, l.dials[i])
  }

  predicate Lawful(c: Config, d: Dial) {
    && d.delay == Law(c, d.nth) && d.now + d.delay <= d.at && 4 * (d.at - d.now - d.delay) < d.delay
  }

  lemma VisitOnSchedule(s: Setup, l: Links, seen: Seen, k: nat)
    requires OnSchedule(s, l) && Validated(s.timing) && k < |s.peers|
    ensures OnSchedule(s, Visit(s, l, seen, k))
  {
    var p := s.peers[k];
    var m := Unstable(l, p);
    if p !in seen.bound && !DialedTo(m.conns, p) && !(p in m.redial && seen.now < m.redial[p].at) {
      var nth := if p in m.counts then m.counts[p] else 0;
      LawDoubles(s.timing, nth);
      LawBounds(s.timing, nth);
      JitterIsBounded(Law(s.timing, nth), seen.nanos(k));
    }
  }

  lemma {:induction false} PassOnSchedule(s: Setup, l: Links, seen: Seen, k: nat)
    requires OnSchedule(s, l) && Validated(s.timing) && k <= |s.peers|
    ensures OnSchedule(s, Pass(s, l, seen, k))
    decreases |s.peers| - k
  {
    if k < |s.peers| {
      VisitOnSchedule(s, l, seen, k);
      PassOnSchedule(s, Visit(s, l, seen, k), seen, k + 1);
    }
  }

  lemma {:induction false} AlwaysOnSchedule(s: Setup, run: seq<Links>, steps: seq<Step>, n: nat)
    requires Behavior(s, run, steps) && Validated(s.timing) && n < |run|
    ensures OnSchedule(s, run[n])
  {
    if n > 0 {
      AlwaysOnSchedule(s, run, steps, n - 1);
      assert Next(s, run[n - 1], steps[n - 1]) == run[n - 1 + 1];
      if steps[n - 1].Tick? { PassOnSchedule(s, run[n - 1].(wake := None), steps[n - 1].seen, 0); }
    }
  }

  /**
    In every run, the k-th dial to a peer since its history was cleared arms an unjittered
    wait of min(base * 2^k, cap), jittered by less than a quarter.
  */
  lemma DialsFollowTheLaw(s: Setup, run: seq<Links>, steps: seq<Step>, n: nat, i: nat)
    requires Behavior(s, run, steps) && Validated(s.timing) && n < |run| && i < |run[n].dials|
    ensures Lawful(s.timing, run[n].dials[i])
  {
    AlwaysOnSchedule(s, run, steps, n);
  }

  // ---- The connection table -------------------------------------------------------------------------------------

  function IsAccepted(): Option<Peer> -> nat { (d: Option<Peer>) => if d.None? then 1 else 0 }

  function IsDialed(): Option<Peer> -> nat { (d: Option<Peer>) => if d.Some? then 1 else 0 }

  ghost predicate OneDialEach(conns: map<ConnId, Option<Peer>>) {
    forall i, j :: i in conns && j in conns && conns[i].Some? && conns[i] == conns[j] ==> i == j
  }

  ghost predicate DialsTheBook(conns: map<ConnId, Option<Peer>>, book: set<Peer>) {
    forall i :: i in conns && conns[i].Some? ==> conns[i].value in book
  }

  ghost predicate TableOk(s: Setup, conns: map<ConnId, Option<Peer>>) {
    OneDialEach(conns) && DialsTheBook(conns, Elems(s.peers)) && Total(conns, IsAccepted()) <= s.maxConns
  }

  lemma {:induction false} DialedAtMost(conns: map<ConnId, Option<Peer>>, book: set<Peer>)
    requires OneDialEach(conns) && DialsTheBook(conns, book)
    ensures Total(conns, IsDialed()) <= |book|
    decreases |conns|
  {
    if conns != map[] {
      var id := Pick(conns);
      TotalRemove(conns, IsDialed(), id);
      if conns[id].Some? {
        DialedAtMost(conns - {id}, book - {conns[id].value});
      } else {
        DialedAtMost(conns - {id}, book);
      }
    }
  }

  lemma {:induction false} TableSize(conns: map<ConnId, Option<Peer>>)
    ensures |conns| == Total(conns, IsAccepted()) + Total(conns, IsDialed())
    decreases |conns|
  {
    if conns != map[] {
      var id := Pick(conns);
      TotalRemove(conns, IsAccepted(), id);
      TotalRemove(conns, IsDialed(), id);
      TableSize(conns - {id});
    }
  }

  lemma VisitTable(s: Setup, l: Links, seen: Seen, k: nat)
    requires TableOk(s, l.conns) && k < |s.peers|
    requires seen.opens(k).Some? ==> seen.opens(k).value !in l.conns
    ensures TableOk(s, Visit(s, l, seen, k).conns)
    ensures forall id :: id in Visit(s, l, seen, k).conns ==> id in l.conns || seen.opens(k) == Some(id)
  {
    if seen.opens(k).Some? {
      TotalInsert(l.conns, IsAccepted(), seen.opens(k).value, Some(s.peers[k]));
    }
  }

  lemma {:induction false} PassTable(s: Setup, l: Links, seen: Seen, k: nat)
    requires TableOk(s, l.conns) && k <= |s.peers|
    requires forall j :: k <= j && seen.opens(j).Some? ==> seen.opens(j).value !in l.conns
    requires forall i, j :: i != j && seen.opens(i).Some? ==> seen.opens(j) != seen.opens(i)
    ensures TableOk(s, Pass(s, l, seen, k).conns)
    decreases |s.peers| - k
  {
    if k < |s.peers| {
      VisitTable(s, l, seen, k);
      PassTable(s, Visit(s, l, seen, k), seen, k + 1);
    }
  }

  lemma NextTable(s: Setup, l: Links, step: Step)
    requires TableOk(s, l.conns) && Enabled(l, step)
    ensures TableOk(s, Next(s, l, step).conns)
  {
    match step {
      case Accept(id, _) => TableSize(l.conns); TotalInsert(l.conns, IsAccepted(), id, None);
      case Close(id) => if id in l.conns { TotalRemove(l.conns, IsAccepted(), id); } else { assert l.conns - {id} == l.conns; }
      case Tick(seen) => PassTable(s, l.(wake := None), seen, 0);
    }
  }

  lemma {:induction false} AlwaysTableOk(s: Setup, run: seq<Links>, steps: seq<Step>, n: nat)
    requires Behavior(s, run, steps) && n < |run|
    ensures TableOk(s, run[n].conns)
  {
    if n > 0 {
      AlwaysTableOk(s, run, steps, n - 1);
      assert Next(s, run[n - 1], steps[n - 1]) == run[n - 1 + 1];
      NextTable(s, run[n - 1], steps[n - 1]);
    }
  }

  /**
    In every run of accepts, dials, closes and passes each peer has at most one dialed
    connection, and the table holds at most `maxConns` plus the peer book.
  */
  lemma TableIsBounded(s: Setup, run: seq<Links>, steps: seq<Step>, n: nat)
    requires Behavior(s, run, steps) && n < |run|
    ensures OneDialEach(run[n].conns)
    ensures |run[n].conns| <= s.maxConns + |Elems(s.peers)|
  {
    AlwaysTableOk(s, run, steps, n);
    TableSize(run[n].conns);
    DialedAtMost(run[n].conns, Elems(s.peers));
  }

  // ---- The wake -------------------------------------------------------------------------------------------------

  /** This peer will be retried, later than now, and the wake is armed no later than that. */
  ghost predicate Covered(l: Links, now: nat, p: Peer) {
    p in l.redial && now < l.redial[p].at && l.wake.Some? && l.wake.value <= l.redial[p].at
  }

  ghost predicate WakeAhead(l: Links, now: nat) { l.wake.Some? ==> now < l.wake.value }

  /** Later visits of the same pass neither postpone a covered peer nor lose its wake. */
  lemma VisitKeepsCovered(s: Setup, l: Links, seen: Seen, k: nat, p: Peer)
    requires k < |s.peers| && p !in seen.bound && Covered(l, seen.now, p)
    ensures Covered(Visit(s, l, seen, k), seen.now, p)
  {}

  lemma VisitCovers(s: Setup, l: Links, seen: Seen, k: nat)
    requires Validated(s.timing) && OnSchedule(s, l) && WakeAhead(l, seen.now) && k < |s.peers|
    ensures WakeAhead(Visit(s, l, seen, k), seen.now)
    ensures s.peers[k] !in seen.bound && !DialedTo(l.conns, s.peers[k]) ==> Covered(Visit(s, l, seen, k), seen.now, s.peers[k])
  {
    var p := s.peers[k];
    var m := Unstable(l, p);
    if p !in seen.bound && !DialedTo(m.conns, p) && !(p in m.redial && seen.now < m.redial[p].at) {
      var nth := if p in m.counts then m.counts[p] else 0;
      LawDoubles(s.timing, nth);
      LawBounds(s.timing, nth);
      JitterIsBounded(Law(s.timing, nth), seen.nanos(k));
    }
  }

  lemma {:induction false} PassKeepsCovered(s: Setup, l: Links, seen: Seen, k: nat, p: Peer)
    requires k <= |s.peers| && p !in seen.bound && Covered(l, seen.now, p)
    ensures Covered(Pass(s, l, seen, k), seen.now, p)
    decreases |s.peers| - k
  {
    if k < |s.peers| {
      VisitKeepsCovered(s, l, seen, k, p);
      PassKeepsCovered(s, Visit(s, l, seen, k), seen, k + 1, p);
    }
  }

  /** A visit dials its own peer only. */
  lemma VisitDialsItsPeer(s: Setup, l: Links, seen: Seen, k: nat, p: Peer)
    requires k < |s.peers| && s.peers[k] != p && !DialedTo(l.conns, p)
    requires seen.opens(k).Some? ==> seen.opens(k).value !in l.conns
    ensures !DialedTo(Visit(s, l, seen, k).conns, p)
  {}

  lemma {:induction false} PassCovers(s: Setup, l: Links, seen: Seen, k: nat, p: Peer)
    requires Validated(s.timing) && OnSchedule(s, l) && WakeAhead(l, seen.now) && TableOk(s, l.conns) && k <= |s.peers|
    requires forall j :: k <= j && seen.opens(j).Some? ==> seen.opens(j).value !in l.conns
    requires forall i, j :: i != j && seen.opens(i).Some? ==> seen.opens(j) != seen.opens(i)
    ensures WakeAhead(Pass(s, l, seen, k), seen.now)
    ensures p in s.peers[k..] && p !in seen.bound && !DialedTo(l.conns, p) ==> Covered(Pass(s, l, seen, k), seen.now, p)
    decreases |s.peers| - k
  {
    if k < |s.peers| {
      var v := Visit(s, l, seen, k);
      VisitOnSchedule(s, l, seen, k);
      VisitTable(s, l, seen, k);
      VisitCovers(s, l, seen, k);
      PassCovers(s, v, seen, k + 1, p);
      if p in s.peers[k..] && p !in seen.bound && !DialedTo(l.conns, p) {
        if p == s.peers[k] {
          PassKeepsCovered(s, v, seen, k + 1, p);
        } else {
          VisitDialsItsPeer(s, l, seen, k, p);
          assert p in s.peers[k + 1..];
        }
      }
    }
  }

  /**
    After a pass the wake is strictly ahead, and no later than the retry time of every
    peer of the book that had neither a binding nor a dial in flight.
  */
  lemma WakeCoversEveryRetry(s: Setup, run: seq<Links>, steps: seq<Step>, n: nat, seen: Seen, p: Peer)
    requires Behavior(s, run, steps) && Validated(s.timing) && n < |run| && FreshIds(run[n], seen)
    ensures var l := Reconcile(s, run[n], seen);
            && (l.wake.Some? ==> seen.now < l.wake.value)
            && (p in s.peers && p !in seen.bound && !DialedTo(run[n].conns, p) ==>
                  p in l.redial && l.wake.Some? && l.wake.value <= l.redial[p].at)
  {
    AlwaysOnSchedule(s, run, steps, n);
    AlwaysTableOk(s, run, steps, n);
    assert s.peers[0..] == s.peers;
    PassCovers(s, run[n].(wake := None), seen, 0, p);
  }

  // ---- The driver's fields -----------------------------------------------------------------------------------------

  class Reconciler {
    const setup: Setup
    var conns: map<ConnId, Option<Peer>>
    var redial: map<Peer, Redial>
    var redialWake: Option<nat>
    ghost var counts: map<Peer, nat>
    ghost var dials: seq<Dial>

    ghost function View(): Links
      reads this
    { Links(conns, redial, redialWake, counts, dials) }

    constructor (configuredConns: nat, timing: Config, peers: seq<Peer>)
      ensures View() == NONE
      ensures setup == Setup(timing, if configuredConns > 2 * |peers| then configuredConns else 2 * |peers|, peers)
    {
      setup := Setup(timing, if configuredConns > 2 * |peers| then configuredConns else 2 * |peers|, peers);
      conns, redial, redialWake := map[], map[], None;
      counts, dials := map[], [];
    }

    method HandleAccept(id: ConnId, built: bool)
      modifies this`conns
      ensures View() == Next(setup, old(View()), Accept(id, built))
    {
      if |conns| >= setup.maxConns {
        return;
      }
      if !built {
        return;
      }
      conns := conns[id := None];
    }

    method CloseConn(id: ConnId)
      modifies this`conns
      ensures View() == Next(setup, old(View()), Close(id))
    {
      conns := conns - {id};
    }

    /** One peer of the book that is bound now. */
    method SeeBound(p: Peer, now: nat)
      modifies this
      ensures View() == VisitBound(setup, old(View()), now, p)
    {
      if p in redial {
        var since := if redial[p].boundSince.Some? then redial[p].boundSince.value else now;
        redial := redial[p := redial[p].(boundSince := Some(since))];
        if Since(now, since) >= setup.timing.base {
          redial := redial - {p};
          counts := counts - {p};
        }
        assert redial == VisitBound(setup, old(View()), now, p).redial;
      }
    }

    method ArmAndDial(p: Peer, now: nat, nanos: nat, opens: Option<ConnId>) returns (at: nat)
      modifies this
      ensures View().(wake := Sooner(redialWake, at)) == Attempt(setup, old(View()), now, p, nanos, opens)
      ensures redialWake == old(redialWake) && p in redial && redial[p].at == at
    {
      var delay := if p in redial then redial[p].backoff else setup.timing.base;
      at := now + Jittered(delay, nanos);
      redial := redial[p := Redial(at, Doubled(setup.timing, delay), None)];
      dials := dials + [Dial(p, if p in counts then counts[p] else 0, delay, now, at)];
      counts := counts[p := (if p in counts then counts[p] else 0) + 1];
      if opens.Some? {
        conns := conns[opens.value := Some(p)];
      }
    }

    method ReconcilePeerLinks(seen: Seen)
      modifies this
      ensures View() == Reconcile(setup, old(View()), seen)
    {
      hide Attempt, VisitBound;
      var wake: Option<nat> := None;
      for k := 0 to |setup.peers|
        invariant Pass(setup, View().(wake := wake), seen, k) == Reconcile(setup, old(View()), seen)
      {
        ghost var l := View().(wake := wake);
        var p := setup.peers[k];
        if p in seen.bound {
          VisitBoundKeepsWake(setup, View(), wake, seen.now, p);
          SeeBound(p, seen.now);
        } else {
          if p in redial {
            redial := redial[p := redial[p].(boundSince := None)];
          }
          if !DialedTo(conns, p) {
            if p in redial && seen.now < redial[p].at {
              wake := Sooner(wake, redial[p].at);
            } else {
              AttemptKeepsWake(setup, View(), wake, seen.now, p, seen.nanos(k), seen.opens(k));
              var at := ArmAndDial(p, seen.now, seen.nanos(k), seen.opens(k));
              wake := Sooner(wake, at);
            }
          }
        }
        assert View().(wake := wake) == Visit(setup, l, seen, k);
      }
      redialWake := wake;
    }
  }

  lemma VisitBoundKeepsWake(s: Setup, l: Links, wake: Option<nat>, now: nat, p: Peer)
    ensures VisitBound(s, l.(wake := wake), now, p) == VisitBound(s, l, now, p).(wake := wake)
  {}

  lemma AttemptKeepsWake(s: Setup, l: Links, wake: Option<nat>, now: nat, p: Peer, nanos: nat, opens: Option<ConnId>)
    ensures var a := Attempt(s, l, now, p, nanos, opens);
            && p in a.redial
            && Attempt(s, l.(wake := wake), now, p, nanos, opens) == a.(wake := Sooner(wake, a.redial[p].at))
  {}
}
