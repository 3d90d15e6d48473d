/** Several instances, one key: the mutex as a machine of timed steps. The key records no owner, so
    only time keeps two instances apart. */
module Lease {
  import opened Basics
  import opened Mutex

  type Instance = nat

  /** `held` maps each instance that believes it holds the lock to the time of its last successful
      write of the key; `refreshing` are those whose refreshing has not failed. */
  datatype Lease = Lease(life: int, now: int, expiry: Option<int>, held: map<Instance, int>, refreshing: set<Instance>)
  {
    predicate Live() { LiveAt(expiry, now) }
  }

  datatype Act =
    | Wait(d: nat)
    | TryLock(i: Instance, lockFails: bool)
    | Refresh(i: Instance, refreshFails: bool)
    | Unlock(i: Instance, deleteFails: bool)

  /** An instance takes its process-wide mutex first, so it never tries for a lock it holds; only a
      holder refreshes or unlocks. */
  predicate Can(l: Lease, a: Act) {
    match a
    case Wait(_) => true
    case TryLock(i, _) => i !in l.held
    case Refresh(i, _) => i in l.held && i in l.refreshing
    case Unlock(i, _) => i in l.held
  }

  function Do(l: Lease, a: Act): Lease
    requires Can(l, a)
  {
    match a
    case Wait(d) => l.(now := l.now + d)
    case TryLock(i, fails) =>
      var (expiry, ok) := KeySet(l.expiry, l.now, false, l.life, fails);
      if ok then l.(expiry := expiry, held := l.held[i := l.now], refreshing := l.refreshing + {i}) else l
    case Refresh(i, fails) =>
      var (expiry, ok) := KeySet(l.expiry, l.now, true, l.life, fails);
      if ok then l.(expiry := expiry, held := l.held[i := l.now]) else l.(refreshing := l.refreshing - {i})
    case Unlock(i, fails) =>
      l.(expiry := if fails then l.expiry else None, held := l.held - {i}, refreshing := l.refreshing - {i})
  }

  /** No holder has let the life of the key pass since its last write of it. */
  predicate Timely(l: Lease) {
    forall i | i in l.held :: l.now < l.held[i] + l.life
  }

  ghost predicate Run(life: int, now: int, trace: seq<Lease>, acts: seq<Act>) {
    && |trace| == |acts| + 1 && trace[0] == Lease(life, now, None, map[], {})
    && forall i | 0 <= i < |acts| :: Can(trace[i], acts[i]) && trace[i + 1] == Do(trace[i], acts[i])
  }

  /** One holder at most, and the key expires one life after its last write. */
  predicate Exclusive(l: Lease) {
    forall i | i in l.held :: l.held.Keys == {i} && l.expiry == Some(l.held[i] + l.life) && l.held[i] <= l.now
  }

  lemma HeldIsLive(l: Lease)
    requires Exclusive(l) && Timely(l)
    ensures l.held != map[] ==> l.Live()
  {
    if l.held != map[] { var i :| i in l.held; }
  }

  lemma StepExclusive(l: Lease, a: Act)
    requires Exclusive(l) && Timely(l) && Can(l, a)
    ensures Exclusive(Do(l, a)) && Do(l, a).life == l.life && Do(l, a).now >= l.now
  {
  }

  lemma {:induction false} RunExclusive(life: int, now: int, trace: seq<Lease>, acts: seq<Act>, n: nat)
    requires Run(life, now, trace, acts) && n < |trace|
    requires forall m | 0 <= m < n :: Timely(trace[m])
    ensures Exclusive(trace[n]) && trace[n].life == life
  {
    if n > 0 {
      RunExclusive(life, now, trace, acts, n - 1);
      StepExclusive(trace[n - 1], acts[n - 1]);
    }
  }

  /** Safety: while every holder's refresh or unlock lands before the key expires, at most one
      instance holds the lock and the key is live while it is held. */
  lemma TimelySafety(life: int, now: int, trace: seq<Lease>, acts: seq<Act>, n: nat)
    requires Run(life, now, trace, acts) && n < |trace|
    requires forall m | 0 <= m <= n :: Timely(trace[m])
    ensures forall i, j | i in trace[n].held && j in trace[n].held :: i == j
    ensures trace[n].held != map[] ==> trace[n].Live()
  {
    RunExclusive(life, now, trace, acts, n);
    forall i, j | i in trace[n].held && j in trace[n].held ensures i == j {
      assert trace[n].held.Keys == {i};
    }
    HeldIsLive(trace[n]);
  }

  /** And timing is all there is: after a timely past a second instance gets the lock beside the
      holder exactly when the holder is late. */
  lemma LateIffTwoHolders(life: int, now: int, trace: seq<Lease>, acts: seq<Act>, n: nat, i: Instance, j: Instance)
    requires Run(life, now, trace, acts) && n < |trace|
    requires forall m | 0 <= m < n :: Timely(trace[m])
    requires i in trace[n].held && j !in trace[n].held
    ensures j in Do(trace[n], TryLock(j, false)).held <==> !Timely(trace[n])
  {
    RunExclusive(life, now, trace, acts, n);
    assert trace[n].held.Keys == {i};
  }

  /** A late holder's unlock then frees the key of the other, and a third instance gets in. */
  lemma UnlockOfALateHolder(life: int, now: int, trace: seq<Lease>, acts: seq<Act>, n: nat, i: Instance, j: Instance,
                            k: Instance)
    requires Run(life, now, trace, acts) && n < |trace| && life > 0
    requires (forall m | 0 <= m < n :: Timely(trace[m])) && !Timely(trace[n])
    requires i in trace[n].held && j !in trace[n].held && k !in trace[n].held && j != k
    ensures var l1 := Do(trace[n], TryLock(j, false));
      var l2 := Do(l1, Unlock(i, false));
      Timely(l2) && j in l2.held && k in Do(l2, TryLock(k, false)).held
  {
    LateIffTwoHolders(life, now, trace, acts, n, i, j);
    RunExclusive(life, now, trace, acts, n);
    assert trace[n].held.Keys == {i};
  }

  // ---- how late a holder may be ----

  /** A holder that writes the key or unlocks within the refresh interval and some delay of its
      last write. */
  predicate WithinDelay(l: Lease, refresh: int, delay: int) {
    forall i | i in l.held :: l.now <= l.held[i] + refresh + delay
  }

  /** For a valid configuration the delay a refresh may suffer is what the truncated life leaves
      over; there is some exactly when the TTL is a second or more. */
  lemma Slack(c: Config, delay: int, l: Lease)
    requires c.IsValid() && l.life == c.ExpireInSeconds() * SECOND
    requires WithinDelay(l, c.refreshInterval, delay) && delay < l.life - c.refreshInterval
    ensures Timely(l)
    ensures c.ttl >= SECOND <==> l.life - c.refreshInterval > 0
  {
    LifeExceedsRefresh(c);
  }

  /** The call lock tolerates delays below three seconds. */
  lemma CallLockSlack(l: Lease, delay: int)
    requires l.life == CALL_LOCK.ExpireInSeconds() * SECOND && delay < 3 * SECOND
    requires WithinDelay(l, CALL_LOCK.refreshInterval, delay)
    ensures CALL_LOCK.IsValid() && Timely(l)
  {
    Slack(CALL_LOCK, delay, l);
  }
}
