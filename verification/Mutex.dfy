/** The cluster mutex: a key with a limited life, set only if absent, with no owner recorded
    (server/cluster/mutex.go). */
module Mutex {
  import opened Basics

  // ---- configuration; durations in nanoseconds ----

  const SECOND := 1_000_000_000
  const MAX_POLL := SECOND

  datatype Config = Config(ttl: int, refreshInterval: int, pollInterval: int)
  {
    function WithDefaults(): Config {
      Config(if ttl == 0 then 10 * SECOND else ttl,
             if refreshInterval == 0 then 10 * SECOND / 2 else refreshInterval,
             if pollInterval == 0 then SECOND / 2 else pollInterval)
    }

    predicate IsValid() {
      && ttl > 0 && refreshInterval > 0 && 0 < pollInterval <= MAX_POLL
      && refreshInterval <= ttl / 2
    }

    /** The life of the key: whole seconds, the rest cut off. */
    function ExpireInSeconds(): int { ttl / SECOND }
  }

  /** The key outlives the wait for the next refresh exactly when the TTL is a second or more. */
  lemma LifeExceedsRefresh(c: Config)
    requires c.IsValid()
    ensures c.ExpireInSeconds() * SECOND > c.refreshInterval <==> c.ttl >= SECOND
  {
  }

  /** The defaults alone are a valid configuration; one default may clash with a given value. */
  lemma Defaults(c: Config)
    requires c.ttl == 0 && c.pollInterval == 0
    ensures c.WithDefaults().IsValid() <==> 0 <= c.refreshInterval <= 5 * SECOND
  {
  }

  const CALL_LOCK := Config(4 * SECOND, SECOND, SECOND / 20)

  // ---- the key-value store ----

  predicate LiveAt(expiry: Option<int>, now: int) { expiry.Some? && now < expiry.value }

  /** An atomic set that demands the absence or the presence of a live key and gives it a new life;
      an error leaves the key alone. */
  function KeySet(expiry: Option<int>, now: int, present: bool, life: int, fails: bool): (Option<int>, bool) {
    if !fails && LiveAt(expiry, now) == present then (Some(now + life), true) else (expiry, false)
  }

  /** One key of the shared store; its clock is that of the store. */
  class Key {
    var now: int
    var expiry: Option<int>

    constructor (now: int)
      ensures this.now == now && expiry == None
    {
      this.now, expiry := now, None;
    }

    predicate Live()
      reads this
    {
      LiveAt(expiry, now)
    }

    method Set(present: bool, seconds: int, fails: bool) returns (ok: bool)
      modifies this`expiry
      ensures (expiry, ok) == KeySet(old(expiry), now, present, seconds * SECOND, fails)
    {
      ok := !fails && Live() == present;
      if ok { expiry := Some(now + seconds * SECOND); }
    }

    method Delete(fails: bool)
      modifies this`expiry
      ensures expiry == if fails then old(expiry) else None
    {
      if !fails { expiry := None; }
    }

    /** Time passes while others use the key. */
    method Pass(wait: int, left: Option<int>)
      requires wait >= 0
      modifies this
      ensures now == old(now) + wait && expiry == left
    {
      now, expiry := now + wait, left;
    }
  }

  /** What happens around one attempt to lock: whether the store fails, the random delay, and what
      others make of the key during the wait that follows. */
  datatype Turn = Turn(fails: bool, jitter: int, left: Option<int>)

  function PollTime(c: Config, retries: nat): int {
    if c.pollInterval * retries > MAX_POLL then MAX_POLL else c.pollInterval * retries
  }

  /** Waiting for the call lock the pauses grow by 50 ms up to one second at the twentieth retry. */
  lemma CallLockPolls(n: nat)
    ensures PollTime(CALL_LOCK, n) == if n < 20 then n * 50_000_000 else SECOND
  {
  }

  /** rand.Int63n(pollTime) is not negative and below its argument. */
  predicate GoodJitter(c: Config, t: Turn, retries: nat) {
    0 <= t.jitter < PollTime(c, retries)
  }

  class Mutex {
    const config: Config
    const key: Key
    /** m.mut: taken for as long as this process holds or awaits the lock. */
    var held: bool
    /** The goroutine that refreshes the key; it runs until told to stop or until a refresh fails. */
    var refreshing: bool
    var lastLockedAt: int

    predicate Valid()
      reads this
    {
      config.IsValid() && (refreshing ==> held)
    }

    constructor (config: Config, key: Key)
      requires config.IsValid()
      ensures Valid() && this.config == config && this.key == key && !held && !refreshing
    {
      this.config, this.key := config, key;
      held, refreshing, lastLockedAt := false, false, 0;
    }

    method TryLock(fails: bool) returns (ok: bool)
      modifies key`expiry
      ensures (key.expiry, ok) == KeySet(old(key.expiry), key.now, false, config.ExpireInSeconds() * SECOND, fails)
    {
      ok := key.Set(false, config.ExpireInSeconds(), fails);
    }

    /** A refresh that fails ends the refreshing, not the holding. */
    method Refresh(fails: bool)
      requires Valid() && refreshing
      modifies key`expiry, this`refreshing
      ensures Valid() && held == old(held)
      ensures (key.expiry, refreshing) == KeySet(old(key.expiry), key.now, true, config.ExpireInSeconds() * SECOND,
                                                 fails)
    {
      refreshing := key.Set(true, config.ExpireInSeconds(), fails);
    }

    /** The pause after a failed attempt, cut short by the deadline; at a tie either may win. */
    method Pause(deadline: int, retries: nat, turn: Turn) returns (expired: bool)
      requires config.IsValid() && retries > 0 && GoodJitter(config, turn, retries)
      modifies key
      ensures expired ==> key.now == if old(key.now) < deadline then deadline else old(key.now)
      ensures !expired ==> old(key.now) + config.pollInterval <= key.now <= deadline
      ensures !expired ==> key.now < old(key.now) + 2 * MAX_POLL
    {
      PollAtLeast(config, retries);
      var wait := PollTime(config, retries) + turn.jitter;
      var tie: bool := *;
      expired := deadline < key.now + wait || (deadline == key.now + wait && tie);
      if !expired {
        key.Pass(wait, turn.left);
      } else if key.now < deadline {
        key.Pass(deadline - key.now, turn.left);
      }
    }

    /** Tries until it succeeds or the deadline passes, and so always returns. It succeeds only at a
        moment when the key is not live, at once or by the deadline; between two attempts it waits
        at least the poll interval. `seen` is the key as the last attempt found it. */
    method Lock(deadline: int, world: nat -> Turn) returns (locked: bool, retries: nat, ghost seen: Option<int>)
      requires Valid() && !held
      requires forall n: nat :: n > 0 ==> GoodJitter(config, world(n), n)
      modifies this, key
      ensures Valid() && held == locked == refreshing
      ensures locked ==> (seen.None? || seen.value <= key.now) && lastLockedAt == key.now
      ensures locked ==> key.expiry == Some(key.now + config.ExpireInSeconds() * SECOND)
      ensures locked ==> if retries == 0 then key.now == old(key.now) else key.now <= deadline
      ensures locked ==> config.pollInterval * retries <= key.now - old(key.now)
      ensures !locked ==> key.now == if old(key.now) < deadline then deadline else old(key.now)
    {
      held := true;
      retries := 0;
      ghost var waited := 0;
      while true
        invariant held && !refreshing && key.now >= old(key.now)
        invariant if retries == 0 then key.now == old(key.now) else key.now <= deadline
        invariant waited == config.pollInterval * retries && waited <= key.now - old(key.now)
        decreases deadline - key.now
      {
        seen := key.expiry;
        var ok := TryLock(world(retries).fails);
        if ok {
          lastLockedAt := key.now;
          refreshing := true;
          return true, retries, seen;
        }
        retries := retries + 1;
        waited := waited + config.pollInterval;
        OneMore(config.pollInterval, retries - 1);
        var expired := Pause(deadline, retries, world(retries));
        if expired {
          held := false;
          return false, retries, seen;
        }
      }
    }

    /** Deletes the key without asking whose it is; harmless when the mutex is not locked. */
    method Unlock(fails: bool)
      requires Valid()
      modifies this, key`expiry
      ensures Valid() && !held && !refreshing
      ensures key.expiry == if old(held) && !fails then None else old(key.expiry)
    {
      if !held { return; }
      refreshing := false;
      key.Delete(fails);
      held := false;
    }
  }

  /** NewMutex refuses an empty name, and a configuration that is invalid once completed. */
  method NewMutex(name: string, config: Config, key: Key) returns (m: Mutex?)
    ensures m != null <==> name != "" && config.WithDefaults().IsValid()
    ensures m != null ==> fresh(m) && m.Valid() && m.config == config.WithDefaults() && m.key == key && !m.held
  {
    if name == "" || !config.WithDefaults().IsValid() { return null; }
    m := new Mutex(config.WithDefaults(), key);
  }

  lemma OneMore(x: int, n: int)
    ensures x * n + x == x * (n + 1)
  {
  }

  lemma NotNegative(x: int, n: nat)
    requires x >= 0
    ensures x * n >= 0
  {
  }

  lemma PollAtLeast(c: Config, retries: nat)
    requires c.IsValid() && retries > 0
    ensures c.pollInterval <= PollTime(c, retries) <= MAX_POLL
  {
    OneMore(c.pollInterval, retries - 1);
    NotNegative(c.pollInterval, retries - 1);
  }
}
