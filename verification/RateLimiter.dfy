/** The token bucket, with and without eviction of idle buckets. */
module RateLimiter {
  import opened Basics
  import opened Counting

  /** `last` is in seconds, like the rate. */
  datatype Bucket = Bucket(tokens: real, last: real)

  datatype Config = Config(rate: real, burst: real) {
    /** What configurations are made of: a non-negative rate and a burst of at least one. */
    ghost predicate Valid() {
      rate >= 0.0 && burst >= 1.0
    }
  }

  /** What elapsed time adds to a bucket. */
  function Gain(rate: real, elapsed: real): real { elapsed * rate }

  function Refill(cfg: Config, b: Bucket, now: real): real {
    MinReal(cfg.burst, b.tokens + Gain(cfg.rate, now - b.last))
  }

  /** The bucket after a request, and whether the request is allowed. */
  function Draw(cfg: Config, b: Option<Bucket>, now: real): (Bucket, bool) {
    match b
    case None => (Bucket(cfg.burst - 1.0, now), true)
    case Some(b) =>
      var tokens := Refill(cfg, b, now);
      if tokens < 1.0 then (Bucket(tokens, now), false) else (Bucket(tokens - 1.0, now), true)
  }

  function Find(m: map<string, Bucket>, key: string): Option<Bucket> {
    if key in m then Some(m[key]) else None
  }

  function Evict(m: map<string, Bucket>, cut: real): map<string, Bucket> {
    map k | k in m && !(m[k].last < cut) :: m[k]
  }

  class Limiter {
    const cfg: Config
    var buckets: map<string, Bucket>

    constructor (events: int, per: real, burst: int)
      requires per > 0.0
      ensures cfg == Config(events as real / per, burst as real) && buckets == map[]
    {
      cfg := Config(events as real / per, burst as real);
      buckets := map[];
    }

    method Allow(key: string, now: real) returns (ok: bool)
      modifies this`buckets
      ensures var (bucket, allowed) := Draw(cfg, Find(old(buckets), key), now);
        ok == allowed && buckets == old(buckets)[key := bucket]
    {
      if key !in buckets {
        buckets := buckets[key := Bucket(cfg.burst - 1.0, now)];
        return true;
      }
      var b := buckets[key];
      b := b.(tokens := b.tokens + Gain(cfg.rate, now - b.last));
      if b.tokens > cfg.burst {
        b := b.(tokens := cfg.burst);
      }
      b := b.(last := now);
      if b.tokens < 1.0 {
        buckets := buckets[key := b];
        return false;
      }
      b := b.(tokens := b.tokens - 1.0);
      buckets := buckets[key := b];
      ok := true;
    }

    /** Visits the buckets one by one and deletes those that have been idle too long. */
    method Cleanup(maxIdle: real, now: real)
      modifies this`buckets
      ensures buckets == Evict(old(buckets), now - maxIdle)
    {
      var cut := now - maxIdle;
      var keys := buckets.Keys;
      while keys != {}
        invariant keys <= old(buckets).Keys
        invariant forall k | k in old(buckets) ::
          if k in keys || !(old(buckets)[k].last < cut) then k in buckets && buckets[k] == old(buckets)[k] else k !in buckets
        invariant buckets.Keys <= old(buckets).Keys
        decreases |keys|
      {
        var k :| k in keys;
        if buckets[k].last < cut {
          buckets := buckets - {k};
        }
        keys := keys - {k};
      }
    }
  }

  // ---------------------------------------------------------------- runs

  datatype Event =
    | Request(key: string, now: real)
    | Sweep(maxIdle: real, now: real)

  function After(cfg: Config, m: map<string, Bucket>, e: Event): map<string, Bucket> {
    match e
    case Request(key, now) => m[key := Draw(cfg, Find(m, key), now).0]
    case Sweep(maxIdle, now) => Evict(m, now - maxIdle)
  }

  /** The buckets just before event `k`. */
  function At(cfg: Config, events: seq<Event>, k: nat): map<string, Bucket>
    requires k <= |events|
  {
    if k == 0 then map[] else After(cfg, At(cfg, events, k - 1), events[k - 1])
  }

  predicate Answer(cfg: Config, events: seq<Event>, k: nat)
    requires k < |events| && events[k].Request?
  {
    Draw(cfg, Find(At(cfg, events, k), events[k].key), events[k].now).1
  }

  /** The limiter that never evicts, given the same requests. */
  function NeverEvicting(cfg: Config, events: seq<Event>, k: nat): map<string, Bucket>
    requires k <= |events|
  {
    if k == 0 then map[]
    else
      var before := NeverEvicting(cfg, events, k - 1);
      if events[k - 1].Request? then After(cfg, before, events[k - 1]) else before
  }

  predicate IdealAnswer(cfg: Config, events: seq<Event>, k: nat)
    requires k < |events| && events[k].Request?
  {
    Draw(cfg, Find(NeverEvicting(cfg, events, k), events[k].key), events[k].now).1
  }

  ghost predicate ClockForward(events: seq<Event>) {
    forall i, j | 0 <= i < j < |events| :: events[i].now <= events[j].now
  }

  /** Every sweep waits at least as long as an empty bucket needs to fill up. */
  ghost predicate PatientSweeps(cfg: Config, events: seq<Event>) {
    forall i | 0 <= i < |events| :: events[i].Sweep? ==> Gain(cfg.rate, events[i].maxIdle) >= cfg.burst
  }

  ghost predicate BucketOk(cfg: Config, b: Bucket, now: real) {
    0.0 <= b.tokens <= cfg.burst && b.last <= now
  }

  lemma GainGrows(rate: real, elapsed: real, more: real)
    requires rate >= 0.0 && elapsed <= more
    ensures Gain(rate, elapsed) <= Gain(rate, more)
    ensures Gain(rate, more) == Gain(rate, elapsed) + Gain(rate, more - elapsed)
    ensures elapsed >= 0.0 ==> Gain(rate, elapsed) >= 0.0
  {
    ProductMonotone(elapsed, more, rate);
    if elapsed >= 0.0 {
      ProductNonNegative(elapsed, rate);
    }
  }

  lemma DrawKeepsOk(cfg: Config, b: Option<Bucket>, now: real)
    requires cfg.Valid() && (b.Some? ==> BucketOk(cfg, b.value, now))
    ensures BucketOk(cfg, Draw(cfg, b, now).0, now)
  {
    if b.Some? {
      GainGrows(cfg.rate, now - b.value.last, now - b.value.last);
    }
  }

  /** Idle for longer than it takes to fill, a bucket is full. */
  lemma IdleIsFull(cfg: Config, b: Bucket, now: real, maxIdle: real)
    requires cfg.Valid() && BucketOk(cfg, b, now)
    requires Gain(cfg.rate, maxIdle) >= cfg.burst && now - b.last >= maxIdle
    ensures Refill(cfg, b, now) == cfg.burst
  {
    GainGrows(cfg.rate, maxIdle, now - b.last);
  }

  /** The real bucket is the ideal one, or it has been evicted and the ideal one would by now be full. */
  ghost predicate Matches(cfg: Config, kept: Option<Bucket>, ideal: Option<Bucket>, now: real) {
    && (ideal.Some? ==> BucketOk(cfg, ideal.value, now))
    && (kept == ideal || (kept.None? && ideal.Some? && Refill(cfg, ideal.value, now) == cfg.burst))
  }

  lemma MatchesLater(cfg: Config, kept: Option<Bucket>, ideal: Option<Bucket>, now: real, later: real)
    requires cfg.Valid() && Matches(cfg, kept, ideal, now) && now <= later
    ensures Matches(cfg, kept, ideal, later)
  {
    if ideal.Some? {
      GainGrows(cfg.rate, now - ideal.value.last, later - ideal.value.last);
    }
  }

  lemma MatchesAnswers(cfg: Config, kept: Option<Bucket>, ideal: Option<Bucket>, now: real)
    requires cfg.Valid() && Matches(cfg, kept, ideal, now)
    ensures Draw(cfg, kept, now) == Draw(cfg, ideal, now)
  {
  }

  ghost predicate AllMatch(cfg: Config, events: seq<Event>, k: nat, now: real)
    requires k <= |events|
  {
    forall key: string :: MatchesAt(cfg, events, k, key, now)
  }

  ghost predicate MatchesAt(cfg: Config, events: seq<Event>, k: nat, key: string, now: real)
    requires k <= |events|
  {
    Matches(cfg, Find(At(cfg, events, k), key), Find(NeverEvicting(cfg, events, k), key), now)
  }

  lemma MatchStep(cfg: Config, events: seq<Event>, k: nat, key: string)
    requires cfg.Valid() && k < |events| && PatientSweeps(cfg, events)
    requires MatchesAt(cfg, events, k, key, events[k].now)
    ensures MatchesAt(cfg, events, k + 1, key, events[k].now)
  {
    var kept, ideal, e := Find(At(cfg, events, k), key), Find(NeverEvicting(cfg, events, k), key), events[k];
    if e.Request? && e.key == key {
      MatchesAnswers(cfg, kept, ideal, e.now);
      DrawKeepsOk(cfg, ideal, e.now);
    } else if e.Sweep? && kept.Some? && kept.value.last < e.now - e.maxIdle {
      IdleIsFull(cfg, ideal.value, e.now, e.maxIdle);
    }
  }

  lemma {:induction false} AlwaysMatch(cfg: Config, events: seq<Event>, k: nat)
    requires cfg.Valid() && k < |events| && ClockForward(events) && PatientSweeps(cfg, events)
    ensures AllMatch(cfg, events, k, events[k].now)
  {
    if k > 0 {
      AlwaysMatch(cfg, events, k - 1);
      assert events[k - 1].now <= events[k].now;
      forall key: string
        ensures MatchesAt(cfg, events, k, key, events[k].now)
      {
        MatchStep(cfg, events, k - 1, key);
        MatchesLater(cfg, Find(At(cfg, events, k), key), Find(NeverEvicting(cfg, events, k), key),
                     events[k - 1].now, events[k].now);
      }
    }
  }

  /** Eviction is invisible: interleaved in any way with sweeps that are patient enough, requests are
      answered as if nothing were ever evicted. */
  lemma EvictionIsInvisible(cfg: Config, events: seq<Event>, k: nat)
    requires cfg.Valid() && ClockForward(events) && PatientSweeps(cfg, events)
    requires k < |events| && events[k].Request?
    ensures Answer(cfg, events, k) == IdealAnswer(cfg, events, k)
  {
    AlwaysMatch(cfg, events, k);
    assert MatchesAt(cfg, events, k, events[k].key, events[k].now);
    MatchesAnswers(cfg, Find(At(cfg, events, k), events[k].key), Find(NeverEvicting(cfg, events, k), events[k].key), events[k].now);
  }

  // ---------------------------------------------------------------- what is granted

  lemma GainIs(rate: real, elapsed: real)
    ensures Gain(rate, elapsed) == rate * elapsed
  {
  }

  /** A key that was never seen has a full bucket; another gains `rate` tokens a second up to `burst`. A
      request is granted exactly if there is a whole token, which it takes. */
  lemma DrawTable(cfg: Config, b: Option<Bucket>, now: real)
    requires cfg.Valid()
    ensures var filled := if b.None? then cfg.burst else b.value.tokens + cfg.rate * (now - b.value.last);
            var level := if filled > cfg.burst then cfg.burst else filled;
            var (b', granted) := Draw(cfg, b, now);
      (granted <==> level >= 1.0) && b' == Bucket(if granted then level - 1.0 else level, now)
  {
    if b.Some? {
      var gain := cfg.rate * (now - b.value.last);
      assert Gain(cfg.rate, now - b.value.last) == gain by {
        GainIs(cfg.rate, now - b.value.last);
      }
      assert Refill(cfg, b.value, now) == MinReal(cfg.burst, b.value.tokens + gain);
    }
  }

  /** Exactly the keys not asked for since before `now - maxIdle` are forgotten. */
  lemma SweepTable(cfg: Config, m: map<string, Bucket>, maxIdle: real, now: real, key: string)
    ensures Find(After(cfg, m, Sweep(maxIdle, now)), key) ==
      if key in m && m[key].last < now - maxIdle then None else Find(m, key)
  {
  }

  /** A bucket was last touched by some request for its key, and holds no less than nothing. */
  lemma {:induction false} LastRequest(cfg: Config, events: seq<Event>, key: string, k: nat)
    requires cfg.Valid() && ClockForward(events) && k <= |events|
    ensures var b := Find(At(cfg, events, k), key);
      b.Some? ==> b.value.tokens >= 0.0 && exists i | 0 <= i < k :: events[i] == Request(key, b.value.last)
  {
    if k > 0 {
      LastRequest(cfg, events, key, k - 1);
      var e, before := events[k - 1], Find(At(cfg, events, k - 1), key);
      if e.Request? && e.key == key {
        assert events[k - 1] == Request(key, e.now);
        if before.Some? {
          var i :| 0 <= i < k - 1 && events[i] == Request(key, before.value.last);
          assert events[i].now <= e.now;
          GainGrows(cfg.rate, e.now - before.value.last, e.now - before.value.last);
        }
      } else if Find(At(cfg, events, k), key).Some? {
        assert Find(At(cfg, events, k), key) == before;
      }
    }
  }

  /** Who asks no faster than the rate is never refused, whatever others ask and whatever is swept. */
  lemma SteadyRequestsAreGranted(cfg: Config, events: seq<Event>, key: string, k: nat)
    requires cfg.Valid() && ClockForward(events) && k < |events| && events[k].Request? && events[k].key == key
    requires forall i | 0 <= i < k && events[i].Request? && events[i].key == key :: cfg.rate * (events[k].now - events[i].now) >= 1.0
    ensures Answer(cfg, events, k)
  {
    LastRequest(cfg, events, key, k);
    var b, now := Find(At(cfg, events, k), key), events[k].now;
    if b.Some? {
      var i :| 0 <= i < k && events[i] == Request(key, b.value.last);
      assert events[i].now == b.value.last;
      EnoughGained(cfg, b.value, now);
    }
  }

  /** After the time of one token there is a whole one. */
  lemma EnoughGained(cfg: Config, b: Bucket, now: real)
    requires cfg.Valid() && b.tokens >= 0.0 && cfg.rate * (now - b.last) >= 1.0
    ensures Draw(cfg, Some(b), now).1
  {
    GainIs(cfg.rate, now - b.last);
    assert Refill(cfg, b, now) >= 1.0;
  }

  // ---------------------------------------------------------------- how much a window admits

  /** Which events were granted requests for `key`. */
  ghost function Grants(cfg: Config, events: seq<Event>, key: string): seq<bool> {
    seq(|events|, k requires 0 <= k < |events| => events[k].Request? && events[k].key == key && Answer(cfg, events, k))
  }

  ghost function IdealGrants(cfg: Config, events: seq<Event>, key: string): seq<bool> {
    seq(|events|, k requires 0 <= k < |events| => events[k].Request? && events[k].key == key && IdealAnswer(cfg, events, k))
  }

  /** What a bucket could grant at once at `now`. */
  function Level(cfg: Config, b: Option<Bucket>, now: real): real {
    if b.None? then cfg.burst else Refill(cfg, b.value, now)
  }

  lemma LevelRises(cfg: Config, b: Option<Bucket>, now: real, later: real)
    requires cfg.Valid() && now <= later
    ensures Level(cfg, b, later) <= Level(cfg, b, now) + Gain(cfg.rate, later - now)
  {
    GainGrows(cfg.rate, 0.0, later - now);
    if b.Some? {
      GainGrows(cfg.rate, now - b.value.last, later - b.value.last);
      assert later - b.value.last - (now - b.value.last) == later - now;
    }
  }

  lemma LevelNonNegative(cfg: Config, b: Option<Bucket>, now: real)
    requires cfg.Valid() && (b.Some? ==> BucketOk(cfg, b.value, now))
    ensures Level(cfg, b, now) >= 0.0
  {
    if b.Some? {
      GainGrows(cfg.rate, now - b.value.last, now - b.value.last);
    }
  }

  lemma DrawTakesOne(cfg: Config, b: Option<Bucket>, now: real)
    requires cfg.Valid()
    ensures var (b', granted) := Draw(cfg, b, now);
      Level(cfg, Some(b'), now) == Level(cfg, b, now) - (if granted then 1.0 else 0.0)
  {
    assert Gain(cfg.rate, now - now) == 0.0;
  }

  /** Up to event `j`, grants and what is left to grant are bounded by the burst and the elapsed time. */
  lemma {:induction false} GrantsBounded(cfg: Config, events: seq<Event>, key: string, i: nat, j: nat, start: real, now: real)
    requires cfg.Valid() && ClockForward(events) && i <= j <= |events|
    requires start <= now
    requires forall k | i <= k < j :: start <= events[k].now <= now
    ensures Count(IdealGrants(cfg, events, key), i, j) as real + Level(cfg, Find(NeverEvicting(cfg, events, j), key), now)
         <= cfg.burst + Gain(cfg.rate, now - start)
    decreases j - i
  {
    if i == j {
      GainGrows(cfg.rate, 0.0, now - start);
    } else {
      var e := events[j - 1];
      var before, after := Find(NeverEvicting(cfg, events, j - 1), key), Find(NeverEvicting(cfg, events, j), key);
      forall k | i <= k < j - 1
        ensures events[k].now <= e.now
      {
      }
      GrantsBounded(cfg, events, key, i, j - 1, start, e.now);
      if e.Request? && e.key == key {
        DrawTakesOne(cfg, before, e.now);
      }
      LevelRises(cfg, after, e.now, now);
      GainGrows(cfg.rate, e.now - start, now - start);
      assert now - start - (e.now - start) == now - e.now;
    }
  }

  lemma {:induction false} BucketsOk(cfg: Config, events: seq<Event>, key: string, k: nat, now: real)
    requires cfg.Valid() && ClockForward(events) && k <= |events|
    requires k > 0 ==> events[k - 1].now <= now
    ensures var b := Find(NeverEvicting(cfg, events, k), key); b.Some? ==> BucketOk(cfg, b.value, now)
  {
    if k > 0 {
      assert k > 1 ==> events[k - 2].now <= events[k - 1].now;
      BucketsOk(cfg, events, key, k - 1, events[k - 1].now);
      DrawKeepsOk(cfg, Find(NeverEvicting(cfg, events, k - 1), key), events[k - 1].now);
    }
  }

  lemma GrantsAgree(cfg: Config, events: seq<Event>, key: string)
    requires cfg.Valid() && ClockForward(events) && PatientSweeps(cfg, events)
    ensures Grants(cfg, events, key) == IdealGrants(cfg, events, key)
  {
    forall k | 0 <= k < |events|
      ensures Grants(cfg, events, key)[k] == IdealGrants(cfg, events, key)[k]
    {
      if events[k].Request? {
        EvictionIsInvisible(cfg, events, k);
      }
    }
  }

  /** Any window of length `window` grants one key at most `burst + rate * window` requests, as long as
      all sweeps are patient. */
  lemma WindowBound(cfg: Config, events: seq<Event>, key: string, i: nat, j: nat, start: real, window: real)
    requires cfg.Valid() && ClockForward(events) && PatientSweeps(cfg, events)
    requires i <= j <= |events| && window >= 0.0
    requires forall k | i <= k < j :: start <= events[k].now <= start + window
    ensures Count(Grants(cfg, events, key), i, j) as real <= cfg.burst + cfg.rate * window
  {
    GainIs(cfg.rate, window);
    GrantsAgree(cfg, events, key);
    var end := start + window;
    assert end - start == window;
    GrantsBounded(cfg, events, key, i, j, start, end);
    if i < j {
      BucketsOk(cfg, events, key, j, end);
      LevelNonNegative(cfg, Find(NeverEvicting(cfg, events, j), key), end);
    } else {
      GainGrows(cfg.rate, window, window);
    }
  }

  // ---------------------------------------------------------------- impatient sweeps are visible

  function Requests(key: string, now: real, n: nat): seq<Event> {
    seq(n, _ => Request(key, now))
  }

  /** Drain a bucket, sweep, and ask for a full burst again. */
  function DrainSweepAsk(n: nat, maxIdle: real, now: real): seq<Event> {
    Requests("k", 0.0, n) + [Sweep(maxIdle, now)] + Requests("k", now, n)
  }

  lemma {:induction false} Drained(cfg: Config, n: nat, maxIdle: real, now: real, k: nat)
    requires cfg.Valid() && cfg.burst == n as real && 1 <= k <= n
    ensures var events := DrainSweepAsk(n, maxIdle, now);
      && At(cfg, events, k) == map["k" := Bucket((n - k) as real, 0.0)]
      && NeverEvicting(cfg, events, k) == map["k" := Bucket((n - k) as real, 0.0)]
  {
    assert Gain(cfg.rate, 0.0 - 0.0) == 0.0;
    var events := DrainSweepAsk(n, maxIdle, now);
    assert events[k - 1] == Request("k", 0.0);
    if k > 1 {
      Drained(cfg, n, maxIdle, now, k - 1);
    }
  }

  /** After the sweep the evicting limiter grants a full burst, the other one less. */
  lemma {:induction false} Asked(cfg: Config, n: nat, maxIdle: real, now: real, k: nat)
    requires cfg.Valid() && cfg.burst == n as real && k < n
    requires 0.0 <= maxIdle < now && Gain(cfg.rate, now) < cfg.burst
    ensures var events := DrainSweepAsk(n, maxIdle, now);
      && Level(cfg, Find(At(cfg, events, n + 1 + k), "k"), now) == (n - k) as real
      && Level(cfg, Find(NeverEvicting(cfg, events, n + 1 + k), "k"), now) < (n - k) as real
  {
    var events := DrainSweepAsk(n, maxIdle, now);
    if k == 0 {
      Drained(cfg, n, maxIdle, now, n);
      assert events[n] == Sweep(maxIdle, now);
      assert now - 0.0 == now;
    } else {
      Asked(cfg, n, maxIdle, now, k - 1);
      assert events[n + k] == Request("k", now);
      DrawTakesOne(cfg, Find(At(cfg, events, n + k), "k"), now);
      DrawTakesOne(cfg, Find(NeverEvicting(cfg, events, n + k), "k"), now);
    }
  }

  ghost predicate SweepsAfter(events: seq<Event>, maxIdle: real) {
    forall i | 0 <= i < |events| :: events[i].Sweep? ==> events[i].maxIdle == maxIdle
  }

  lemma DrainSweepAskTimes(n: nat, maxIdle: real, now: real)
    requires 0.0 <= now
    ensures ClockForward(DrainSweepAsk(n, maxIdle, now)) && SweepsAfter(DrainSweepAsk(n, maxIdle, now), maxIdle)
    ensures forall k | 0 <= k < 2 * n + 1 :: 0.0 <= DrainSweepAsk(n, maxIdle, now)[k].now <= now
  {
  }

  /** A request is granted exactly if the bucket holds a whole token. */
  lemma GrantedIffLevel(cfg: Config, b: Option<Bucket>, now: real)
    requires cfg.Valid()
    ensures Draw(cfg, b, now).1 <==> Level(cfg, b, now) >= 1.0
  {
  }

  /** Patience is necessary too: for a whole burst, any sweep at `now` that forgets buckets after
      `maxIdle` although they cannot yet have refilled, changes some answer. */
  lemma ImpatientSweepIsVisible(cfg: Config, n: nat, maxIdle: real, now: real)
    requires cfg.Valid() && cfg.burst == n as real
    requires 0.0 <= maxIdle < now && Gain(cfg.rate, now) < cfg.burst
    ensures var events := DrainSweepAsk(n, maxIdle, now);
      && ClockForward(events) && events[2 * n] == Request("k", now)
      && Answer(cfg, events, 2 * n) && !IdealAnswer(cfg, events, 2 * n)
  {
    var events := DrainSweepAsk(n, maxIdle, now);
    DrainSweepAskTimes(n, maxIdle, now);
    Asked(cfg, n, maxIdle, now, n - 1);
    GrantedIffLevel(cfg, Find(At(cfg, events, 2 * n), "k"), now);
    GrantedIffLevel(cfg, Find(NeverEvicting(cfg, events, 2 * n), "k"), now);
  }

  /** Every request is answered as if nothing were ever evicted. */
  ghost predicate Invisible(cfg: Config, events: seq<Event>) {
    forall k | 0 <= k < |events| && events[k].Request? :: Answer(cfg, events, k) == IdealAnswer(cfg, events, k)
  }

  /** If buckets cannot have refilled after `maxIdle`, then not a little later either. */
  lemma NotYetRefilled(cfg: Config, maxIdle: real) returns (now: real)
    requires cfg.Valid() && Gain(cfg.rate, maxIdle) < cfg.burst
    ensures maxIdle < now && Gain(cfg.rate, now) < cfg.burst
  {
    if cfg.rate == 0.0 {
      now := maxIdle + 1.0;
    } else {
      var missing := cfg.burst - Gain(cfg.rate, maxIdle);
      now := maxIdle + missing / (2.0 * cfg.rate);
      assert missing / (2.0 * cfg.rate) * cfg.rate == missing / 2.0;
    }
  }

  /** Sweeping with a given idle time is invisible in every run if and only if an empty bucket refills
      within it. */
  lemma InvisibleIffPatient(cfg: Config, n: nat, maxIdle: real)
    requires cfg.Valid() && cfg.burst == n as real && maxIdle >= 0.0
    ensures (forall events: seq<Event> | ClockForward(events) && SweepsAfter(events, maxIdle) :: Invisible(cfg, events))
       <==> cfg.rate * maxIdle >= cfg.burst
  {
    GainIs(cfg.rate, maxIdle);
    if Gain(cfg.rate, maxIdle) >= cfg.burst {
      forall events: seq<Event> | ClockForward(events) && SweepsAfter(events, maxIdle)
        ensures Invisible(cfg, events)
      {
        forall k | 0 <= k < |events| && events[k].Request?
          ensures Answer(cfg, events, k) == IdealAnswer(cfg, events, k)
        {
          EvictionIsInvisible(cfg, events, k);
        }
      }
    } else {
      var now := NotYetRefilled(cfg, maxIdle);
      ImpatientSweepIsVisible(cfg, n, maxIdle, now);
      var events := DrainSweepAsk(n, maxIdle, now);
      assert SweepsAfter(events, maxIdle);
      assert !Invisible(cfg, events);
    }
  }

  // ---------------------------------------------------------------- and break the window bound

  /** Every window of the run grants every key at most `burst + rate * length` requests. */
  ghost predicate WindowsBounded(cfg: Config, events: seq<Event>) {
    forall key, i: nat, j: nat, start, window |
      i <= j <= |events| && window >= 0.0 && (forall k | i <= k < j :: start <= events[k].now <= start + window) ::
      InBound(cfg, events, key, i, j, start, window)
  }

  ghost predicate InBound(cfg: Config, events: seq<Event>, key: string, i: nat, j: nat, start: real, window: real)
    requires i <= j <= |events|
  {
    AtMost(cfg, Count(Grants(cfg, events, key), i, j), window)
  }

  /** No more than a full bucket and what a window of that length refills. */
  predicate AtMost(cfg: Config, count: nat, window: real) { count as real <= cfg.burst + cfg.rate * window }

  lemma PatientIsBounded(cfg: Config, events: seq<Event>)
    requires cfg.Valid() && ClockForward(events) && PatientSweeps(cfg, events)
    ensures WindowsBounded(cfg, events)
  {
    forall key, i: nat, j: nat, start, window |
      i <= j <= |events| && window >= 0.0 && (forall k | i <= k < j :: start <= events[k].now <= start + window)
      ensures InBound(cfg, events, key, i, j, start, window)
    {
      WindowBound(cfg, events, key, i, j, start, window);
    }
  }

  /** Before and after an impatient sweep a full burst is granted. */
  lemma GrantedTwice(cfg: Config, n: nat, maxIdle: real, now: real, k: nat)
    requires cfg.Valid() && cfg.burst == n as real && k < 2 * n + 1 && k != n
    requires 0.0 <= maxIdle < now && Gain(cfg.rate, now) < cfg.burst
    ensures Grants(cfg, DrainSweepAsk(n, maxIdle, now), "k")[k]
  {
    var events := DrainSweepAsk(n, maxIdle, now);
    if k < n {
      assert events[k] == Request("k", 0.0);
      if k > 0 {
        Drained(cfg, n, maxIdle, now, k);
        assert Gain(cfg.rate, 0.0 - 0.0) == 0.0;
      }
    } else {
      assert events[k] == Request("k", now);
      Asked(cfg, n, maxIdle, now, k - n - 1);
    }
  }

  lemma ImpatientSweepBreaksWindow(cfg: Config, n: nat, maxIdle: real, now: real)
    requires cfg.Valid() && cfg.burst == n as real
    requires 0.0 <= maxIdle < now && Gain(cfg.rate, now) < cfg.burst
    ensures var events := DrainSweepAsk(n, maxIdle, now);
            var count := Count(Grants(cfg, events, "k"), 0, |events|);
      |events| == 2 * n + 1 && count >= 2 * n && !AtMost(cfg, count, now)
  {
    var events := DrainSweepAsk(n, maxIdle, now);
    GrantsTwice(cfg, n, maxIdle, now);
    TooMany(cfg, Count(Grants(cfg, events, "k"), 0, |events|), n, now);
  }

  lemma TooMany(cfg: Config, count: nat, n: nat, now: real)
    requires count >= 2 * n && cfg.burst == n as real && Gain(cfg.rate, now) < cfg.burst
    ensures !AtMost(cfg, count, now)
  {
    GainIs(cfg.rate, now);
    assert (2 * n) as real == n as real + n as real;
  }

  lemma GrantsTwice(cfg: Config, n: nat, maxIdle: real, now: real)
    requires cfg.Valid() && cfg.burst == n as real
    requires 0.0 <= maxIdle < now && Gain(cfg.rate, now) < cfg.burst
    ensures var events := DrainSweepAsk(n, maxIdle, now);
      |events| == 2 * n + 1 && Count(Grants(cfg, events, "k"), 0, |events|) >= 2 * n
  {
    var events := DrainSweepAsk(n, maxIdle, now);
    var grants := Grants(cfg, events, "k");
    forall k | 0 <= k < 2 * n + 1 && k != n
      ensures grants[k]
    {
      GrantedTwice(cfg, n, maxIdle, now, k);
    }
    CountAllButOne(grants, n);
  }

  /** The window bound holds in every run that sweeps with a given idle time if and only if an empty
      bucket refills within it. */
  lemma WindowBoundIffPatient(cfg: Config, n: nat, maxIdle: real)
    requires cfg.Valid() && cfg.burst == n as real && maxIdle >= 0.0
    ensures (forall events: seq<Event> | ClockForward(events) && SweepsAfter(events, maxIdle) :: WindowsBounded(cfg, events))
       <==> cfg.rate * maxIdle >= cfg.burst
  {
    GainIs(cfg.rate, maxIdle);
    if Gain(cfg.rate, maxIdle) >= cfg.burst {
      forall events: seq<Event> | ClockForward(events) && SweepsAfter(events, maxIdle)
        ensures WindowsBounded(cfg, events)
      {
        PatientIsBounded(cfg, events);
      }
    } else {
      var now := NotYetRefilled(cfg, maxIdle);
      ImpatientSweepBreaksWindow(cfg, n, maxIdle, now);
      var events := DrainSweepAsk(n, maxIdle, now);
      DrainSweepAskTimes(n, maxIdle, now);
      assert !InBound(cfg, events, "k", 0, |events|, 0.0, now);
      assert !WindowsBounded(cfg, events);
    }
  }
}
