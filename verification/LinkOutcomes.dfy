/**
  Which peers a reconciler pass dials and when it forgets a peer's history: exactly the
  idle ones that are due, and only after the binding has lasted.
*/
module LinkOutcomes {
  import opened Wrappers
  import opened Backoff
  import opened StreamLinks
  import Quic = QuicLinks

  // ---- Who is dialed -----------------------------------------------------------------------------------

  predicate Due(l: Links, now: nat, p: Peer) { p !in l.redial || l.redial[p].at <= now }

  /** The ids of the visits still to come are unused and distinct. */
  ghost predicate FreshFrom(l: Links, seen: Seen, k: nat) {
    && (forall j :: k <= j && seen.opens(j).Some? ==> seen.opens(j).value !in l.conns)
    && forall i, j :: i != j && seen.opens(i).Some? ==> seen.opens(j) != seen.opens(i)
  }

  ghost predicate Keeps(before: map<ConnId, Option<Peer>>, after: map<ConnId, Option<Peer>>) {
    forall id :: id in before ==> id in after && after[id] == before[id]
  }

  lemma VisitKeepsConns(s: Setup, l: Links, seen: Seen, k: nat)
    requires k < |s.peers| && FreshFrom(l, seen, k)
    ensures Keeps(l.conns, Visit(s, l, seen, k).conns) && FreshFrom(Visit(s, l, seen, k), seen, k + 1)
  {}

  /** A pass closes nothing. */
  lemma {:induction false} PassKeepsConns(s: Setup, l: Links, seen: Seen, k: nat)
    requires k <= |s.peers| && FreshFrom(l, seen, k)
    ensures Keeps(l.conns, Pass(s, l, seen, k).conns)
    decreases |s.peers| - k
  {
    if k < |s.peers| {
      VisitKeepsConns(s, l, seen, k);
      PassKeepsConns(s, Visit(s, l, seen, k), seen, k + 1);
    }
  }

  /** Visiting one peer changes nothing about another. */
  lemma VisitLeavesOthers(s: Setup, l: Links, seen: Seen, k: nat, p: Peer)
    requires k < |s.peers| && s.peers[k] != p && FreshFrom(l, seen, k)
    ensures var v := Visit(s, l, seen, k);
            && (p in v.redial <==> p in l.redial) && (p in l.redial ==> v.redial[p] == l.redial[p])
            && (DialedTo(v.conns, p) <==> DialedTo(l.conns, p))
  {
    var v := Visit(s, l, seen, k);
    VisitKeepsConns(s, l, seen, k);
    if id :| id in l.conns && l.conns[id] == Some(p) { assert v.conns[id] == Some(p); }
  }

  /** The first visit to an idle peer that is due dials it, and the connection stays. */
  lemma {:induction false} PassDials(s: Setup, l: Links, seen: Seen, j: nat, k: nat)
    requires j <= k < |s.peers| && s.peers[k] !in s.peers[j..k] && FreshFrom(l, seen, j)
    requires var p := s.peers[k]; p !in seen.bound && !DialedTo(l.conns, p) && Due(l, seen.now, p)
    requires seen.opens(k).Some?
    ensures var l' := Pass(s, l, seen, j);
            seen.opens(k).value in l'.conns && l'.conns[seen.opens(k).value] == Some(s.peers[k])
    decreases k - j
  {
    var v := Visit(s, l, seen, j);
    VisitKeepsConns(s, l, seen, j);
    if j == k {
      assert v.conns[seen.opens(k).value] == Some(s.peers[k]);
      PassKeepsConns(s, v, seen, j + 1);
    } else {
      assert s.peers[j] in s.peers[j..k];
      assert forall x :: x in s.peers[j + 1..k] ==> x in s.peers[j..k];
      VisitLeavesOthers(s, l, seen, j, s.peers[k]);
      PassDials(s, v, seen, j + 1, k);
    }
  }

  /** A peer that is bound or not due yet is not dialed. */
  lemma {:induction false} PassSpares(s: Setup, l: Links, seen: Seen, k: nat, p: Peer)
    requires k <= |s.peers| && FreshFrom(l, seen, k) && !DialedTo(l.conns, p)
    requires p in seen.bound || !Due(l, seen.now, p)
    ensures !DialedTo(Pass(s, l, seen, k).conns, p)
    decreases |s.peers| - k
  {
    if k < |s.peers| {
      VisitKeepsConns(s, l, seen, k);
      if s.peers[k] != p { VisitLeavesOthers(s, l, seen, k, p); }
      PassSpares(s, Visit(s, l, seen, k), seen, k + 1, p);
    }
  }

  /**
    In every run, a pass keeps every connection it finds, dials an idle unbound peer that
    is due whenever the record layer gives it an id, and dials nobody else.
  */
  lemma DuePeersAreDialed(s: Setup, run: seq<Links>, steps: seq<Step>, n: nat, seen: Seen, k: nat)
    requires Behavior(s, run, steps) && n < |run| && FreshIds(run[n], seen)
    requires k < |s.peers| && s.peers[k] !in s.peers[..k] && !DialedTo(run[n].conns, s.peers[k])
    ensures var p, l := s.peers[k], Reconcile(s, run[n], seen);
            && Keeps(run[n].conns, l.conns)
            && (p !in seen.bound && Due(run[n], seen.now, p) ==>
                  seen.opens(k).Some? ==> seen.opens(k).value in l.conns && l.conns[seen.opens(k).value] == Some(p))
            && (p in seen.bound || !Due(run[n], seen.now, p) ==> !DialedTo(l.conns, p))
  {
    var l := run[n].(wake := None);
    PassKeepsConns(s, l, seen, 0);
    assert s.peers[0..k] == s.peers[..k];
    var p := s.peers[k];
    if p in seen.bound || !Due(l, seen.now, p) { PassSpares(s, l, seen, 0, p); }
    else if seen.opens(k).Some? { PassDials(s, l, seen, 0, k); }
  }

  /** A connection is accepted exactly while there is room and its record layer can be built; a close takes that one. */
  lemma AcceptsIff(s: Setup, l: Links, id: ConnId, built: bool)
    requires id !in l.conns
    ensures var a := Next(s, l, Accept(id, built));
            a.conns == if built && |l.conns| < s.maxConns then l.conns[id := None] else l.conns
    ensures Next(s, Next(s, l, Accept(id, built)), Close(id)) == l
  {
    hide Reconcile;
    assert l.conns[id := None] - {id} == l.conns;
    assert l.conns - {id} == l.conns;
  }

  // ---- When a history goes --------------------------------------------------------------------------------

  /** Since when every pass has found the peer bound. */
  function BoundSince(steps: seq<Step>, n: nat, p: Peer): Option<nat>
    requires n <= |steps|
  {
    if n == 0 then None
    else if !steps[n - 1].Tick? then BoundSince(steps, n - 1, p)
    else if p !in steps[n - 1].seen.bound then None
    else if BoundSince(steps, n - 1, p).Some? then BoundSince(steps, n - 1, p)
    else Some(steps[n - 1].seen.now)
  }

  function SinceOr(since: Option<nat>, now: nat): nat { if since.Some? then since.value else now }

  /** What a pass does with the history of a peer it finds bound. */
  ghost predicate BoundOutcome(s: Setup, l: Links, now: nat, l': Links, p: Peer) {
    p in l.redial ==>
      var since := SinceOr(l.redial[p].boundSince, now);
      if Since(now, since) >= s.timing.base then p !in l'.redial
      else p in l'.redial && l'.redial[p] == l.redial[p].(boundSince := Some(since))
  }

  lemma {:induction false} PassForgets(s: Setup, l: Links, seen: Seen, k: nat, p: Peer)
    requires k <= |s.peers| && p in seen.bound && FreshFrom(l, seen, k)
    ensures p !in l.redial ==> p !in Pass(s, l, seen, k).redial
    ensures p in s.peers[k..] ==> BoundOutcome(s, l, seen.now, Pass(s, l, seen, k), p)
    ensures p !in s.peers[k..] && p in l.redial ==>
              p in Pass(s, l, seen, k).redial && Pass(s, l, seen, k).redial[p] == l.redial[p]
    decreases |s.peers| - k
  {
    if k < |s.peers| {
      VisitKeepsConns(s, l, seen, k);
      var v := Visit(s, l, seen, k);
      if s.peers[k] != p { VisitLeavesOthers(s, l, seen, k, p); }
      PassForgets(s, v, seen, k + 1, p);
      assert s.peers[k..] == [s.peers[k]] + s.peers[k + 1..];
    }
  }

  /** A peer found unbound has lost any claim to stability, and its history stays. */
  lemma {:induction false} PassUnbound(s: Setup, l: Links, seen: Seen, k: nat, p: Peer)
    requires k <= |s.peers| && p !in seen.bound && FreshFrom(l, seen, k)
    ensures p in l.redial ==> p in Pass(s, l, seen, k).redial
    ensures (p in s.peers[k..] || (p in l.redial ==> l.redial[p].boundSince.None?)) && p in Pass(s, l, seen, k).redial ==>
              Pass(s, l, seen, k).redial[p].boundSince.None?
    ensures p !in s.peers[k..] ==> (p in Pass(s, l, seen, k).redial <==> p in l.redial)
    decreases |s.peers| - k
  {
    if k < |s.peers| {
      VisitKeepsConns(s, l, seen, k);
      if s.peers[k] != p { VisitLeavesOthers(s, l, seen, k, p); }
      PassUnbound(s, Visit(s, l, seen, k), seen, k + 1, p);
      assert s.peers[k..] == [s.peers[k]] + s.peers[k + 1..];
    }
  }

  ghost predicate Tracked(l: Links, steps: seq<Step>, n: nat, book: seq<Peer>)
    requires n <= |steps|
  {
    forall p :: p in l.redial ==> p in book && l.redial[p].boundSince == BoundSince(steps, n, p)
  }

  lemma TickTracked(s: Setup, l: Links, steps: seq<Step>, n: nat)
    requires n < |steps| && steps[n].Tick? && FreshIds(l, steps[n].seen) && Tracked(l, steps, n, s.peers)
    ensures Tracked(Reconcile(s, l, steps[n].seen), steps, n + 1, s.peers)
  {
    var seen, l0 := steps[n].seen, l.(wake := None);
    var l' := Reconcile(s, l, seen);
    assert s.peers[0..] == s.peers;
    forall p | p in l'.redial
      ensures p in s.peers && l'.redial[p].boundSince == BoundSince(steps, n + 1, p)
    {
      if p in seen.bound { PassForgets(s, l0, seen, 0, p); } else { PassUnbound(s, l0, seen, 0, p); }
    }
  }

  lemma {:induction false} AlwaysTracked(s: Setup, run: seq<Links>, steps: seq<Step>, n: nat)
    requires Behavior(s, run, steps) && n < |run|
    ensures Tracked(run[n], steps, n, s.peers)
  {
    if n > 0 {
      AlwaysTracked(s, run, steps, n - 1);
      assert Next(s, run[n - 1], steps[n - 1]) == run[n - 1 + 1];
      if steps[n - 1].Tick? { TickTracked(s, run[n - 1], steps, n - 1); }
    }
  }

  /**
    In every run, a pass forgets the redial history of a peer exactly when it finds it
    bound and every pass for at least the base delay has: a flapping peer keeps its backoff.
  */
  lemma HistoryGoesIff(s: Setup, run: seq<Links>, steps: seq<Step>, n: nat, p: Peer)
    requires Behavior(s, run, steps) && n < |steps| && steps[n].Tick? && p in run[n].redial
    ensures p !in run[n + 1].redial <==>
              && p in steps[n].seen.bound
              && Since(steps[n].seen.now, BoundSince(steps, n + 1, p).value) >= s.timing.base
  {
    AlwaysTracked(s, run, steps, n);
    assert Next(s, run[n], steps[n]) == run[n + 1] && Enabled(run[n], steps[n]);
    assert s.peers[0..] == s.peers;
    var seen, l := steps[n].seen, run[n].(wake := None);
    if p in seen.bound { PassForgets(s, l, seen, 0, p); } else { PassUnbound(s, l, seen, 0, p); }
  }

  // ---- What the wake is for ------------------------------------------------------------------------------

  ghost predicate Retries(l: Links, seen: Seen, p: Peer, at: nat) {
    p !in seen.bound && p in l.redial && l.redial[p].at == at && seen.now < at
  }

  /** An armed wake is some unbound peer's retry time. */
  ghost predicate WakeIsARetry(l: Links, seen: Seen) {
    l.wake.Some? ==> exists p :: Retries(l, seen, p, l.wake.value)
  }

  lemma VisitWakes(s: Setup, l: Links, seen: Seen, k: nat)
    requires Validated(s.timing) && OnSchedule(s, l) && k < |s.peers| && FreshFrom(l, seen, k) && WakeIsARetry(l, seen)
    ensures WakeIsARetry(Visit(s, l, seen, k), seen)
  {
    var v, q := Visit(s, l, seen, k), s.peers[k];
    if l.wake.Some? {
      var p :| Retries(l, seen, p, l.wake.value);
      if p != q { VisitLeavesOthers(s, l, seen, k, p); }
      assert Retries(v, seen, p, l.wake.value);
    }
    if v.wake != l.wake {
      VisitCovers(s, l.(wake := None), seen, k);
      assert Retries(v, seen, q, v.wake.value);
    }
  }

  lemma {:induction false} PassWakes(s: Setup, l: Links, seen: Seen, k: nat)
    requires Validated(s.timing) && OnSchedule(s, l) && k <= |s.peers| && FreshFrom(l, seen, k) && WakeIsARetry(l, seen)
    ensures WakeIsARetry(Pass(s, l, seen, k), seen)
    decreases |s.peers| - k
  {
    if k < |s.peers| {
      VisitWakes(s, l, seen, k);
      VisitOnSchedule(s, l, seen, k);
      VisitKeepsConns(s, l, seen, k);
      PassWakes(s, Visit(s, l, seen, k), seen, k + 1);
    }
  }

  /** In every run a pass arms its wake for the retry of some unbound peer, or not at all: it never wakes for nothing. */
  lemma WakesForARetry(s: Setup, run: seq<Links>, steps: seq<Step>, n: nat, seen: Seen)
    requires Behavior(s, run, steps) && Validated(s.timing) && n < |run| && FreshIds(run[n], seen)
    ensures WakeIsARetry(Reconcile(s, run[n], seen), seen)
  {
    AlwaysOnSchedule(s, run, steps, n);
    PassWakes(s, run[n].(wake := None), seen, 0);
  }

  // ---- The QUIC twin ----------------------------------------------------------------------------------------

  /** A dial to the peer was made since. */
  ghost predicate DialedSince(before: seq<Dial>, after: seq<Dial>, p: Peer) {
    before <= after && exists i :: |before| <= i < |after| && after[i].peer == p
  }

  predicate RetryDue(l: Quic.Redials, now: nat, p: Peer) { p !in l.redial || l.redial[p].at <= now }

  lemma DialedSinceThen(a: seq<Dial>, b: seq<Dial>, c: seq<Dial>, p: Peer)
    requires a <= b <= c
    ensures DialedSince(a, c, p) <==> DialedSince(a, b, p) || DialedSince(b, c, p)
  {
    if DialedSince(a, c, p) {
      var i :| |a| <= i < |c| && c[i].peer == p;
      if i < |b| { assert b[i].peer == p; }
    }
    if DialedSince(a, b, p) {
      var i :| |a| <= i < |b| && b[i].peer == p;
      assert c[i].peer == p;
    }
  }

  lemma QuicVisit(c: Config, l: Quic.Redials, now: nat, bound: set<Peer>, q: Peer, nanos: nat, p: Peer)
    ensures var v := Quic.VisitPeer(c, l, now, bound, q, nanos);
            && l.dials <= v.dials
            && (DialedSince(l.dials, v.dials, p) <==> p == q && p !in bound && RetryDue(l, now, p))
            && (q != p || (p !in bound && !RetryDue(l, now, p)) ==>
                  (p in v.redial <==> p in l.redial) && (p in l.redial ==> v.redial[p] == l.redial[p]))
            && (q == p && p in bound ==> p !in v.redial)
            && (p !in bound && (q == p || p in l.redial) ==> p in v.redial)
  {
    var v := Quic.VisitPeer(c, l, now, bound, q, nanos);
    if |v.dials| > |l.dials| { assert v.dials[|l.dials|].peer == q; }
  }

  lemma {:induction false} QuicPass(c: Config, l: Quic.Redials, now: nat, bound: set<Peer>, peers: seq<Peer>,
                                    nanos: nat -> nat, k: nat, p: Peer)
    requires k <= |peers|
    ensures var l' := Quic.PassPeers(c, l, now, bound, peers, nanos, k);
            && l.dials <= l'.dials
            && (DialedSince(l.dials, l'.dials, p) <==> p in peers[k..] && p !in bound && RetryDue(l, now, p))
            && (p in l'.redial <==> if p in peers[k..] then p !in bound else p in l.redial)
    decreases |peers| - k
  {
    if k < |peers| {
      var v := Quic.VisitPeer(c, l, now, bound, peers[k], nanos(k));
      var l' := Quic.PassPeers(c, v, now, bound, peers, nanos, k + 1);
      QuicVisit(c, l, now, bound, peers[k], nanos(k), p);
      QuicPass(c, v, now, bound, peers, nanos, k + 1, p);
      DialedSinceThen(l.dials, v.dials, l'.dials, p);
      assert peers[k..] == [peers[k]] + peers[k + 1..];
    }
  }

  /**
    In every run of passes, a pass dials exactly the peers of the book that are unbound and
    due, and remembers a retry for exactly those that are unbound.
  */
  lemma QuicDialsIff(c: Config, peers: seq<Peer>, run: seq<Quic.Redials>, found: seq<Quic.Found>, n: nat, p: Peer)
    requires Quic.Passes(c, peers, run, found) && n < |found|
    ensures DialedSince(run[n].dials, run[n + 1].dials, p)
        <==> p in peers && p !in found[n].bound && RetryDue(run[n], found[n].now, p)
    ensures p in peers ==> (p in run[n + 1].redial <==> p !in found[n].bound)
  {
    var f := found[n];
    assert peers[0..] == peers;
    assert run[n + 1] == Quic.PassPeers(c, run[n].(wake := None), f.now, f.bound, peers, f.nanos, 0);
    QuicPass(c, run[n].(wake := None), f.now, f.bound, peers, f.nanos, 0, p);
  }
}
