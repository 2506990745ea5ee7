/** The QUIC driver's reconciler: it stores the delay it last waited, not the next one. */
module QuicLinks {
  import opened Wrappers
  import opened Backoff
  import opened StreamLinks

  datatype LastWait = LastWait(at: nat, backoff: nat)

  datatype Redials = Redials(redial: map<Peer, LastWait>, wake: Option<nat>, counts: map<Peer, nat>, dials: seq<Dial>)

  const IDLE := Redials(map[], None, map[], [])

  function Connect(c: Config, l: Redials, now: nat, p: Peer, nanos: nat): Redials {
    var delay := if p in l.redial then Doubled(c, l.redial[p].backoff) else c.base;
    var at := now + Jittered(delay, nanos);
    var nth := if p in l.counts then l.counts[p] else 0;
    l.(redial := l.redial[p := LastWait(at, delay)], counts := l.counts[p := nth + 1],
       dials := l.dials + [Dial(p, nth, delay, now, at)], wake := Sooner(l.wake, at))
  }

  function VisitPeer(c: Config, l: Redials, now: nat, bound: set<Peer>, p: Peer, nanos: nat): Redials {
    if p in bound then l.(redial := l.redial - {p}, counts := l.counts - {p})
    else if p in l.redial && now < l.redial[p].at then l.(wake := Sooner(l.wake, l.redial[p].at))
    else Connect(c, l, now, p, nanos)
  }

  function PassPeers(c: Config, l: Redials, now: nat, bound: set<Peer>, peers: seq<Peer>, nanos: nat -> nat, k: nat): Redials
    requires k <= |peers|
    decreases |peers| - k
  {
    if k == |peers| then l
    else PassPeers(c, VisitPeer(c, l, now, bound, peers[k], nanos(k)), now, bound, peers, nanos, k + 1)
  }

  class Reconciler {
    const timing: Config
    const peers: seq<Peer>
    var redial: map<Peer, LastWait>
    var redialWake: Option<nat>
    ghost var counts: map<Peer, nat>
    ghost var dials: seq<Dial>

    ghost function View(): Redials
      reads this
    { Redials(redial, redialWake, counts, dials) }

    constructor (timing: Config, peers: seq<Peer>)
      ensures View() == IDLE && this.timing == timing && this.peers == peers
    {
      this.timing, this.peers := timing, peers;
      redial, redialWake := map[], None;
      counts, dials := map[], [];
    }

    method ConnectAndArm(p: Peer, now: nat, nanos: nat) returns (at: nat)
      modifies this
      ensures View().(wake := Sooner(redialWake, at)) == Connect(timing, old(View()), now, p, nanos)
      ensures redialWake == old(redialWake) && p in redial && redial[p].at == at
    {
      var delay := if p in redial then Doubled(timing, redial[p].backoff) else timing.base;
      at := now + Jittered(delay, nanos);
      redial := redial[p := LastWait(at, delay)];
      dials := dials + [Dial(p, if p in counts then counts[p] else 0, delay, now, at)];
      counts := counts[p := (if p in counts then counts[p] else 0) + 1];
    }

    method ReconcilePeerLinks(now: nat, bound: set<Peer>, nanos: nat -> nat)
      modifies this
      ensures View() == PassPeers(timing, old(View()).(wake := None), now, bound, peers, nanos, 0)
    {
      hide Connect;
      var wake: Option<nat> := None;
      for k := 0 to |peers|
        invariant PassPeers(timing, View().(wake := wake), now, bound, peers, nanos, k)
               == PassPeers(timing, old(View()).(wake := None), now, bound, peers, nanos, 0)
      {
        ghost var l := View().(wake := wake);
        var p := peers[k];
        if p in bound {
          redial := redial - {p};
          counts := counts - {p};
        } else if p in redial && now < redial[p].at {
          wake := Sooner(wake, redial[p].at);
        } else {
          ConnectKeepsWake(timing, View(), wake, now, p, nanos(k));
          var at := ConnectAndArm(p, now, nanos(k));
          wake := Sooner(wake, at);
        }
        assert View().(wake := wake) == VisitPeer(timing, l, now, bound, p, nanos(k));
      }
      redialWake := wake;
    }
  }

  // ---- The schedule -----------------------------------------------------------------------------------------------

  ghost predicate Timed(c: Config, l: Redials) {
    && l.redial.Keys == l.counts.Keys
    && (forall p :: p in l.redial ==> l.counts[p] >= 1 && l.redial[p].backoff == Law(c, l.counts[p] - 1))
    && forall i :: 0 <= i < |l.dials| ==> Lawful(c, l.dials[i])
  }

  lemma ConnectKeepsWake(c: Config, l: Redials, wake: Option<nat>, now: nat, p: Peer, nanos: nat)
    ensures var a := Connect(c, l, now, p, nanos);
            p in a.redial && Connect(c, l.(wake := wake), now, p, nanos) == a.(wake := Sooner(wake, a.redial[p].at))
  {}

  lemma ConnectTimed(c: Config, l: Redials, now: nat, p: Peer, nanos: nat)
    requires Validated(c) && Timed(c, l)
    ensures Timed(c, Connect(c, l, now, p, nanos))
  {
    var nth := if p in l.counts then l.counts[p] else 0;
    LawDoubles(c, if nth == 0 then 0 else nth - 1);
    LawBounds(c, nth);
    JitterIsBounded(Law(c, nth), nanos);
    hide Law, Jittered, Doubled;
  }

  lemma VisitTimed(c: Config, l: Redials, now: nat, bound: set<Peer>, p: Peer, nanos: nat)
    requires Validated(c) && Timed(c, l)
    ensures Timed(c, VisitPeer(c, l, now, bound, p, nanos))
  {
    hide Connect, Lawful, Law;
    ConnectTimed(c, l, now, p, nanos);
  }

  lemma {:induction false} PassTimed(c: Config, l: Redials, now: nat, bound: set<Peer>, peers: seq<Peer>, nanos: nat -> nat, k: nat)
    requires Validated(c) && Timed(c, l) && k <= |peers|
    ensures Timed(c, PassPeers(c, l, now, bound, peers, nanos, k))
    decreases |peers| - k
  {
    if k < |peers| {
      VisitTimed(c, l, now, bound, peers[k], nanos(k));
      PassTimed(c, VisitPeer(c, l, now, bound, peers[k], nanos(k)), now, bound, peers, nanos, k + 1);
    }
  }

  /** What each pass of a run finds. */
  datatype Found = Found(now: nat, bound: set<Peer>, nanos: nat -> nat)

  ghost predicate Passes(c: Config, peers: seq<Peer>, run: seq<Redials>, found: seq<Found>) {
    && |run| == |found| + 1 && run[0] == IDLE
    && forall k :: 0 <= k < |found| ==>
         run[k + 1] == PassPeers(c, run[k].(wake := None), found[k].now, found[k].bound, peers, found[k].nanos, 0)
  }

  lemma {:induction false} AlwaysTimed(c: Config, peers: seq<Peer>, run: seq<Redials>, found: seq<Found>, n: nat)
    requires Validated(c) && Passes(c, peers, run, found) && n < |run|
    ensures Timed(c, run[n])
  {
    if n > 0 {
      AlwaysTimed(c, peers, run, found, n - 1);
      var f := found[n - 1];
      assert run[n - 1 + 1] == PassPeers(c, run[n - 1].(wake := None), f.now, f.bound, peers, f.nanos, 0);
      PassTimed(c, run[n - 1].(wake := None), f.now, f.bound, peers, f.nanos, 0);
    }
  }

  /** The same law as the stream driver's, from a different stored value. */
  lemma DialsFollowTheLaw(c: Config, peers: seq<Peer>, run: seq<Redials>, found: seq<Found>, n: nat, i: nat)
    requires Validated(c) && Passes(c, peers, run, found) && n < |run| && i < |run[n].dials|
    ensures Lawful(c, run[n].dials[i])
  {
    AlwaysTimed(c, peers, run, found, n);
  }

  // ---- The wake ---------------------------------------------------------------------------------------------------

  ghost predicate RetryCovered(l: Redials, now: nat, p: Peer) {
    p in l.redial && now < l.redial[p].at && l.wake.Some? && l.wake.value <= l.redial[p].at
  }

  ghost predicate RetryAhead(l: Redials, now: nat) { l.wake.Some? ==> now < l.wake.value }

  lemma VisitKeepsRetry(c: Config, l: Redials, now: nat, bound: set<Peer>, q: Peer, nanos: nat, p: Peer)
    requires p !in bound && RetryCovered(l, now, p)
    ensures RetryCovered(VisitPeer(c, l, now, bound, q, nanos), now, p)
  {}

  lemma VisitCoversRetry(c: Config, l: Redials, now: nat, bound: set<Peer>, p: Peer, nanos: nat)
    requires Validated(c) && Timed(c, l) && RetryAhead(l, now)
    ensures RetryAhead(VisitPeer(c, l, now, bound, p, nanos), now)
    ensures p !in bound ==> RetryCovered(VisitPeer(c, l, now, bound, p, nanos), now, p)
  {
    var nth := if p in l.counts then l.counts[p] else 0;
    LawDoubles(c, if nth == 0 then 0 else nth - 1);
    LawBounds(c, nth);
    JitterIsBounded(Law(c, nth), nanos);
    hide Law, Jittered, Doubled;
  }

  lemma {:induction false} PassKeepsRetry(c: Config, l: Redials, now: nat, bound: set<Peer>, peers: seq<Peer>,
                                          nanos: nat -> nat, k: nat, p: Peer)
    requires k <= |peers| && p !in bound && RetryCovered(l, now, p)
    ensures RetryCovered(PassPeers(c, l, now, bound, peers, nanos, k), now, p)
    decreases |peers| - k
  {
    if k < |peers| {
      VisitKeepsRetry(c, l, now, bound, peers[k], nanos(k), p);
      PassKeepsRetry(c, VisitPeer(c, l, now, bound, peers[k], nanos(k)), now, bound, peers, nanos, k + 1, p);
    }
  }

  lemma {:induction false} PassCoversRetries(c: Config, l: Redials, now: nat, bound: set<Peer>, peers: seq<Peer>,
                                             nanos: nat -> nat, k: nat, p: Peer)
    requires Validated(c) && Timed(c, l) && RetryAhead(l, now) && k <= |peers|
    ensures RetryAhead(PassPeers(c, l, now, bound, peers, nanos, k), now)
    ensures p in peers[k..] && p !in bound ==> RetryCovered(PassPeers(c, l, now, bound, peers, nanos, k), now, p)
    decreases |peers| - k
  {
    if k < |peers| {
      var v := VisitPeer(c, l, now, bound, peers[k], nanos(k));
      VisitTimed(c, l, now, bound, peers[k], nanos(k));
      VisitCoversRetry(c, l, now, bound, peers[k], nanos(k));
      PassCoversRetries(c, v, now, bound, peers, nanos, k + 1, p);
      if p in peers[k..] && p !in bound && p == peers[k] {
        PassKeepsRetry(c, v, now, bound, peers, nanos, k + 1, p);
      }
    }
  }

  /**
    After a pass the wake is strictly ahead, and no later than the retry time of every
    peer of the book that is not bound.
  */
  lemma WakeCoversEveryRetry(c: Config, peers: seq<Peer>, run: seq<Redials>, found: seq<Found>, n: nat, f: Found, p: Peer)
    requires Validated(c) && Passes(c, peers, run, found) && n < |run|
    ensures var l := PassPeers(c, run[n].(wake := None), f.now, f.bound, peers, f.nanos, 0);
            && (l.wake.Some? ==> f.now < l.wake.value)
            && (p in peers && p !in f.bound ==> p in l.redial && l.wake.Some? && l.wake.value <= l.redial[p].at)
  {
    AlwaysTimed(c, peers, run, found, n);
    assert peers[0..] == peers;
    PassCoversRetries(c, run[n].(wake := None), f.now, f.bound, peers, f.nanos, 0, p);
  }
}
