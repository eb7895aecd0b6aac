/** The browser's estimate of the server's clock: midpoint samples, the lowest round trips kept, the
    median of the best, and a slewed offset. */
module ClockSynchronizer {
  import opened Basics
  import opened Sorting

  datatype Sample = Sample(rtt: real, offset: real)

  datatype Pong = Pong(clientMono: real, serverRecv: real, serverSend: real)

  const MAX_SAMPLES := 12
  const BEST_SAMPLES := 5
  const MAX_VALID_RTT_MS := 5000.0
  const OFFSET_NOISE_FLOOR_MS := 8.0
  const MAX_OFFSET_STEP_MS := 25.0
  const OFFSET_SMOOTHING := 0.2

  function Min(a: nat, b: nat): nat { if a <= b then a else b }

  // ---------------------------------------------------------------- the estimator

  datatype Clock = Clock(samples: seq<Sample>, pending: set<real>, offset: real)

  function Rtt(s: Sample): real { s.rtt }

  function Identity(x: real): real { x }

  /** The sample a pong yields when it arrives at `now`, if its round trip is plausible. */
  function SampleOf(p: Pong, now: real): Option<Sample> {
    var rtt := now - p.clientMono - (p.serverSend - p.serverRecv);
    if rtt < 0.0 || rtt > MAX_VALID_RTT_MS then None
    else Some(Sample(rtt, (p.serverRecv - p.clientMono + (p.serverSend - now)) / 2.0))
  }

  function Retain(samples: seq<Sample>, s: Sample): (r: seq<Sample>)
    ensures |r| == Min(MAX_SAMPLES, |samples| + 1)
  {
    var sorted := StableSort(samples + [s], Rtt);
    sorted[..Min(MAX_SAMPLES, |sorted|)]
  }

  function Offsets(samples: seq<Sample>): seq<real> {
    seq(|samples|, i requires 0 <= i < |samples| => samples[i].offset)
  }

  function Median(values: seq<real>): real
    requires values != []
  {
    StableSort(values, Identity)[|values| / 2]
  }

  /** The median offset of the five lowest round trips. */
  function Candidate(samples: seq<Sample>): real
    requires samples != []
  {
    Median(Offsets(samples[..Min(BEST_SAMPLES, |samples|)]))
  }

  /** Moving the estimate toward the candidate, in small steps. */
  function Slew(offset: real, candidate: real): real {
    var delta := candidate - offset;
    if AbsReal(delta) <= OFFSET_NOISE_FLOOR_MS then offset
    else offset + MaxReal(-MAX_OFFSET_STEP_MS, MinReal(MAX_OFFSET_STEP_MS, delta * OFFSET_SMOOTHING))
  }

  function Ping(c: Clock, now: real): Clock {
    c.(pending := c.pending + {now})
  }

  function Absorbed(c: Clock, s: Sample): (r: Clock)
    ensures r.samples == Retain(c.samples, s) && r.pending == c.pending
  {
    var samples := Retain(c.samples, s);
    var candidate := Candidate(samples);
    c.(samples := samples, offset := if |samples| == 1 then candidate else Slew(c.offset, candidate))
  }

  function Accepted(c: Clock, p: Pong, now: real): Clock {
    if p.clientMono !in c.pending then c
    else
      var answered := c.(pending := c.pending - {p.clientMono});
      match SampleOf(p, now)
      case None => answered
      case Some(s) => Absorbed(answered, s)
  }

  class Synchronizer {
    var samples: seq<Sample>
    var pending: set<real>
    var offset: real

    constructor (wallNow: real, monoNow: real)
      ensures View() == Clock([], {}, wallNow - monoNow)
    {
      samples, pending, offset := [], {}, wallNow - monoNow;
    }

    ghost function View(): Clock
      reads this
    {
      Clock(samples, pending, offset)
    }

    method PingPayload(monoNow: real) returns (clientMonoMs: real)
      modifies this`pending
      ensures clientMonoMs == monoNow && View() == Ping(old(View()), monoNow)
    {
      pending := pending + {monoNow};
      clientMonoMs := monoNow;
    }

    method Keep(s: Sample)
      modifies this`samples
      ensures samples == Retain(old(samples), s)
    {
      samples := samples + [s];
      samples := StableSort(samples, Rtt);
      samples := samples[..Min(MAX_SAMPLES, |samples|)];
    }

    /** The first sample establishes the clock, later ones slew it. */
    method Follow(candidate: real)
      modifies this`offset
      ensures offset == if |samples| == 1 then candidate else Slew(old(offset), candidate)
    {
      if |samples| == 1 {
        offset := candidate;
        return;
      }
      var delta := candidate - offset;
      if AbsReal(delta) <= OFFSET_NOISE_FLOOR_MS {
        return;
      }
      var step := MaxReal(-MAX_OFFSET_STEP_MS, MinReal(MAX_OFFSET_STEP_MS, delta * OFFSET_SMOOTHING));
      offset := offset + step;
    }

    method Absorb(s: Sample)
      modifies this`samples, this`offset
      ensures View() == Absorbed(old(View()), s)
    {
      Keep(s);
      var candidate := Candidate(samples);
      Follow(candidate);
    }

    method AcceptPong(payload: Pong, monoNow: real)
      modifies this
      ensures View() == Accepted(old(View()), payload, monoNow)
    {
      if payload.clientMono !in pending {
        return;
      }
      pending := pending - {payload.clientMono};
      var sample := Measure(payload, monoNow);
      if sample.Some? {
        Absorb(sample.value);
      }
    }

    /** Round trip and midpoint of an expected pong, unless the round trip is implausible. */
    method Measure(payload: Pong, monoNow: real) returns (sample: Option<Sample>)
      ensures sample == SampleOf(payload, monoNow)
    {
      var serverProcessing := payload.serverSend - payload.serverRecv;
      var rtt := monoNow - payload.clientMono - serverProcessing;
      if rtt < 0.0 || rtt > MAX_VALID_RTT_MS {
        return None;
      }
      var midpoint := (payload.serverRecv - payload.clientMono + (payload.serverSend - monoNow)) / 2.0;
      sample := Some(Sample(rtt, midpoint));
    }

    function ServerNow(monoNow: real): real
      reads this
    {
      monoNow + offset
    }

    method Reset(wallNow: real, monoNow: real)
      modifies this
      ensures View() == Clock([], {}, wallNow - monoNow)
    {
      samples, pending, offset := [], {}, wallNow - monoNow;
    }
  }

  // ---------------------------------------------------------------- streaming selection

  function Shortest(history: seq<Sample>): (r: seq<Sample>)
    ensures |r| == Min(MAX_SAMPLES, |history|)
  {
    StableSort(history, Rtt)[..Min(MAX_SAMPLES, |history|)]
  }

  /** Keeping only the best twelve while samples stream in loses nothing: the retained list is the
      head of the stable sort of the entire history. */
  lemma RetainIsShortest(history: seq<Sample>, s: Sample)
    ensures Retain(Shortest(history), s) == Shortest(history + [s])
  {
    var all, n := StableSort(history, Rtt), Min(MAX_SAMPLES, |history|);
    var kept := Shortest(history);
    StableSortIsStable(history, Rtt, 0.0);
    SortAppend(history, s, Rtt);
    SortOfSorted(kept, Rtt);
    SortAppend(kept, s, Rtt);
    if |history| < MAX_SAMPLES {
      assert kept == all;
    } else {
      InsertPrefix(all, s, Rtt, MAX_SAMPLES);
      assert all[..MAX_SAMPLES] == kept;
    }
  }

  // ---------------------------------------------------------------- runs

  /** A pong in flight: the server's clock reads `theta` more than the client's; the server's read
      returned `up` after the ping was sent, its receive stamp is `early` before that, because it is
      taken before the read blocks, and the pong arrives `down` after its send stamp. */
  datatype Flight = Flight(sent: real, up: real, early: real, send: real, down: real) {
    function Stamped(theta: real): Pong {
      Pong(sent, sent + theta + up - early, send)
    }

    function Arrival(theta: real): real {
      send + down - theta
    }

    ghost predicate Physical() {
      up >= 0.0 && early >= 0.0 && down >= 0.0
    }
  }

  /** What a flight measures: the true offset, shifted by half of what the way there took longer than the
      way back, less the early stamp; taken exactly if the measured round trip is between 0 and 5 seconds. */
  lemma SampleIs(f: Flight, theta: real)
    ensures var rtt := f.up + f.down - f.early;
      SampleOf(f.Stamped(theta), f.Arrival(theta)) ==
        if 0.0 <= rtt <= 5000.0 then Some(Sample(rtt, theta + (f.up - f.down - f.early) / 2.0)) else None
  {
  }

  /** Where every accepted sample lies. */
  lemma SampleErrorBound(f: Flight, theta: real)
    requires f.Physical()
    ensures var s := SampleOf(f.Stamped(theta), f.Arrival(theta));
      s.Some? ==> theta - f.down <= s.value.offset <= theta + (f.up - f.down) / 2.0
  {
  }

  /** The textbook bound of half the round trip holds exactly when the receive stamp was not taken
      before the ping was even sent. */
  lemma TextbookBoundIff(f: Flight, theta: real)
    requires f.Physical() && SampleOf(f.Stamped(theta), f.Arrival(theta)).Some?
    ensures var s := SampleOf(f.Stamped(theta), f.Arrival(theta)).value;
      AbsReal(s.offset - theta) <= s.rtt / 2.0 <==> f.early <= f.up
  {
  }

  /** The stamp of a read that has been waiting can break it: ten milliseconds off on a round trip of
      zero. */
  lemma TextbookBoundFails()
    ensures var f := Flight(0.0, 10.0, 20.0, 1010.0, 10.0);
      f.Physical() && SampleOf(f.Stamped(1000.0), f.Arrival(1000.0)) == Some(Sample(0.0, 990.0))
  {
  }

  ghost predicate Within(offset: real, theta: real, delay: real) {
    theta - delay <= offset <= theta + delay / 2.0
  }

  lemma MedianIsMember(values: seq<real>)
    requires values != []
    ensures Median(values) in values
  {
    StableSortIsStable(values, Identity, 0.0);
    assert Median(values) in multiset(StableSort(values, Identity));
  }

  lemma CandidateIsAnOffset(samples: seq<Sample>)
    requires samples != []
    ensures exists i | 0 <= i < |samples| :: Candidate(samples) == samples[i].offset
  {
    var best := samples[..Min(BEST_SAMPLES, |samples|)];
    MedianIsMember(Offsets(best));
    var i :| 0 <= i < |best| && Offsets(best)[i] == Candidate(samples);
    assert samples[i].offset == Candidate(samples);
  }

  /** An update moves at most 25 ms, and never past the candidate. */
  lemma SlewBound(offset: real, candidate: real)
    ensures AbsReal(Slew(offset, candidate) - offset) <= MAX_OFFSET_STEP_MS
    ensures MinReal(offset, candidate) <= Slew(offset, candidate) <= MaxReal(offset, candidate)
  {
  }

  /** An update that finds its candidate more than 8 ms away moves toward it by exactly a fifth of the
      way, but at most 25 ms; a nearer candidate moves nothing. */
  lemma SlewProgress(offset: real, candidate: real)
    ensures var gap := AbsReal(candidate - offset);
            var step := if gap <= 8.0 then 0.0 else if gap >= 125.0 then 25.0 else gap / 5.0;
      && Slew(offset, candidate) == (if candidate >= offset then offset + step else offset - step)
      && AbsReal(candidate - Slew(offset, candidate)) == gap - step
  {
  }

  /** How far a gap of 125 ms has shrunk after `n` updates. */
  function Shrunk(n: nat): real { if n == 0 then 125.0 else 0.8 * Shrunk(n - 1) }

  lemma ShrunkEnough()
    ensures Shrunk(13) <= 8.0
  {
    assert Shrunk(3) == 64.0;
    assert Shrunk(6) == 32.768;
    assert Shrunk(9) <= 16.778;
    assert Shrunk(12) <= 8.591;
  }

  lemma {:induction false} ShrunkSmall(n: nat)
    ensures 0.0 < Shrunk(n) <= 125.0
  {
    if n > 0 {
      ShrunkSmall(n - 1);
    }
  }

  /** A bound on the gap after `n` updates, if it was at most 125 + 25 k at first. */
  function GapBound(k: nat, n: nat): real {
    if n < k then 125.0 + 25.0 * (k - n) as real else Shrunk(n - k)
  }

  lemma GapShrinks(offset: real, candidate: real, k: nat, n: nat)
    requires AbsReal(candidate - offset) <= MaxReal(8.0, GapBound(k, n))
    ensures AbsReal(candidate - Slew(offset, candidate)) <= MaxReal(8.0, GapBound(k, n + 1))
  {
    SlewProgress(offset, candidate);
    if n >= k {
      ShrunkSmall(n - k);
      assert Shrunk(n + 1 - k) == 0.8 * Shrunk(n - k);
    }
  }

  lemma RetainedFromBefore(samples: seq<Sample>, s: Sample, i: nat)
    requires i < |Retain(samples, s)|
    ensures Retain(samples, s)[i] == s || Retain(samples, s)[i] in samples
  {
    StableSortIsStable(samples + [s], Rtt, 0.0);
    assert Retain(samples, s)[i] in multiset(StableSort(samples + [s], Rtt));
  }

  /** Pings, and pongs of flights that each took at most `delay` in either direction. */
  datatype Event = Sent(now: real) | Arrived(f: Flight)

  ghost predicate DelayAtMost(e: Event, delay: real) {
    e.Arrived? ==> e.f.Physical() && e.f.up <= delay && e.f.down <= delay
  }

  function After(c: Clock, e: Event, theta: real): Clock {
    match e
    case Sent(now) => Ping(c, now)
    case Arrived(f) => Accepted(c, f.Stamped(theta), f.Arrival(theta))
  }

  function Run(c: Clock, events: seq<Event>, theta: real): Clock {
    if events == [] then c else After(Run(c, events[..|events| - 1], theta), events[|events| - 1], theta)
  }

  /** The sample an event contributes, if its pong is expected and plausible. */
  function Contribution(c: Clock, e: Event, theta: real): seq<Sample> {
    if e.Sent? || e.f.sent !in c.pending then []
    else match SampleOf(e.f.Stamped(theta), e.f.Arrival(theta))
      case None => []
      case Some(s) => [s]
  }

  /** The accepted samples of a run, in order. */
  function History(c: Clock, events: seq<Event>, theta: real): seq<Sample> {
    if events == [] then []
    else
      var init := events[..|events| - 1];
      History(c, init, theta) + Contribution(Run(c, init, theta), events[|events| - 1], theta)
  }

  lemma SamplesAfter(c: Clock, e: Event, theta: real)
    ensures var added := Contribution(c, e, theta);
      After(c, e, theta).samples == if added == [] then c.samples else Retain(c.samples, added[0])
    ensures |Contribution(c, e, theta)| <= 1
  {
  }

  /** Streaming selection is whole-history selection: after any run since a reset, the retained
      samples are the twelve lowest round trips of all accepted ones, ties in order of arrival. */
  lemma {:induction false} StreamingSelection(offset: real, pending: set<real>, events: seq<Event>, theta: real)
    ensures var start := Clock([], pending, offset);
            var history := History(start, events, theta);
      && Run(start, events, theta).samples == Shortest(history)
      && Run(start, events, theta).samples == StableSort(history, Rtt)[..Min(12, |history|)]
  {
    if events != [] {
      var init, e, start := events[..|events| - 1], events[|events| - 1], Clock([], pending, offset);
      var history, before := History(start, init, theta), Run(start, init, theta);
      StreamingSelection(offset, pending, init, theta);
      SamplesAfter(before, e, theta);
      var added := Contribution(before, e, theta);
      if added == [] {
        assert history + added == history;
      } else {
        assert added == [added[0]];
        RetainIsShortest(history, added[0]);
      }
    }
  }

  /** The best five of the retained twelve are the best five of all. */
  lemma BestOfShortest(history: seq<Sample>)
    requires history != []
    ensures Shortest(history) != []
    ensures Candidate(Shortest(history)) == Median(Offsets(StableSort(history, Rtt)[..Min(5, |history|)]))
  {
    HeadOfHead(StableSort(history, Rtt), Min(12, |history|), Min(5, |history|));
  }

  lemma HeadOfHead<T>(s: seq<T>, n: nat, m: nat)
    requires m <= n <= |s|
    ensures s[..n][..m] == s[..m]
  {
  }

  /** Hence the candidate is the median over the five lowest round trips ever accepted. */
  lemma CandidateOverHistory(offset: real, pending: set<real>, events: seq<Event>, theta: real)
    requires History(Clock([], pending, offset), events, theta) != []
    ensures var start := Clock([], pending, offset);
            var history := History(start, events, theta);
      Run(start, events, theta).samples != []
      && Candidate(Run(start, events, theta).samples)
      == Median(Offsets(StableSort(history, Rtt)[..Min(5, |history|)]))
  {
    StreamingSelection(offset, pending, events, theta);
    BestOfShortest(History(Clock([], pending, offset), events, theta));
  }

  /** The median is the middle of the sorted values. */
  lemma MedianSplits(values: seq<real>, i: nat)
    requires i < |values|
    ensures var sorted := StableSort(values, Identity);
      && multiset(sorted) == multiset(values)
      && (if i <= |values| / 2 then sorted[i] <= Median(values) else sorted[i] >= Median(values))
  {
    StableSortIsStable(values, Identity, 0.0);
    if i <= |values| / 2 {
      SortedAt(StableSort(values, Identity), Identity, i, |values| / 2);
    } else {
      SortedAt(StableSort(values, Identity), Identity, |values| / 2, i);
    }
  }

  ghost predicate Accurate(c: Clock, theta: real, delay: real) {
    && (forall i | 0 <= i < |c.samples| :: Within(c.samples[i].offset, theta, delay))
    && (c.samples != [] ==> Within(c.offset, theta, delay))
  }

  lemma AccurateStep(c: Clock, e: Event, theta: real, delay: real)
    requires Accurate(c, theta, delay) && DelayAtMost(e, delay)
    ensures Accurate(After(c, e, theta), theta, delay)
  {
    if e.Arrived? && e.f.sent in c.pending && SampleOf(e.f.Stamped(theta), e.f.Arrival(theta)).Some? {
      var s := SampleOf(e.f.Stamped(theta), e.f.Arrival(theta)).value;
      SampleErrorBound(e.f, theta);
      assert Within(s.offset, theta, delay);
      var samples := Retain(c.samples, s);
      forall i | 0 <= i < |samples|
        ensures Within(samples[i].offset, theta, delay)
      {
        RetainedFromBefore(c.samples, s, i);
      }
      CandidateIsAnOffset(samples);
      SlewBound(c.offset, Candidate(samples));
    }
  }

  /** Once there is a sample, no event moves the estimate by more than 25 ms. */
  lemma EstimateMovesSlowly(c: Clock, e: Event, theta: real)
    requires c.samples != []
    ensures AbsReal(After(c, e, theta).offset - c.offset) <= MAX_OFFSET_STEP_MS
  {
    var added := Contribution(c, e, theta);
    if added != [] {
      SlewBound(c.offset, Candidate(Retain(c.samples, added[0])));
    }
  }

  /** An event that contributes a sample to an established clock slews it toward the new candidate; any
      other leaves the estimate alone. */
  lemma EstimateFollows(c: Clock, e: Event, theta: real)
    requires c.samples != []
    ensures var c' := After(c, e, theta);
      && c'.samples != []
      && c'.offset == if Contribution(c, e, theta) == [] then c.offset else Slew(c.offset, Candidate(c'.samples))
  {
    var added := Contribution(c, e, theta);
    if added != [] {
      assert |Retain(c.samples, added[0])| >= 2;
    }
  }

  /** If the event contributes a sample, the candidate is then `candidate`. */
  ghost predicate Proposes(c: Clock, e: Event, theta: real, candidate: real) {
    Contribution(c, e, theta) != [] ==>
      var samples := After(c, e, theta).samples; samples != [] && Candidate(samples) == candidate
  }

  /** Wherever a run accepts a sample, the candidate is `candidate`. */
  ghost predicate CandidateStays(c: Clock, events: seq<Event>, theta: real, candidate: real) {
    events != [] ==>
      var init := events[..|events| - 1];
      CandidateStays(c, init, theta, candidate) && Proposes(Run(c, init, theta), events[|events| - 1], theta, candidate)
  }

  /** An established clock that is as near to `candidate` as `n` updates bring it. */
  ghost predicate Approached(c: Clock, candidate: real, k: nat, n: nat) {
    c.samples != [] && AbsReal(candidate - c.offset) <= MaxReal(8.0, GapBound(k, n))
  }

  lemma EstimateStep(c: Clock, e: Event, theta: real, candidate: real, k: nat, n: nat)
    requires Approached(c, candidate, k, n) && Proposes(c, e, theta, candidate)
    ensures Approached(After(c, e, theta), candidate, k, n + |Contribution(c, e, theta)|)
  {
    EstimateFollows(c, e, theta);
    SamplesAfter(c, e, theta);
    if Contribution(c, e, theta) != [] {
      GapShrinks(c.offset, candidate, k, n);
    }
  }

  lemma RunNext(c: Clock, events: seq<Event>, theta: real)
    requires events != []
    ensures var init, e := events[..|events| - 1], events[|events| - 1];
      && Run(c, events, theta) == After(Run(c, init, theta), e, theta)
      && |History(c, events, theta)| == |History(c, init, theta)| + |Contribution(Run(c, init, theta), e, theta)|
  {
  }

  lemma {:induction false} EstimateApproaches(c: Clock, events: seq<Event>, theta: real, candidate: real, k: nat)
    requires CandidateStays(c, events, theta, candidate) && Approached(c, candidate, k, 0)
    ensures Approached(Run(c, events, theta), candidate, k, |History(c, events, theta)|)
  {
    if events != [] {
      var init, e := events[..|events| - 1], events[|events| - 1];
      EstimateApproaches(c, init, theta, candidate, k);
      EstimateStep(Run(c, init, theta), e, theta, candidate, k, |History(c, init, theta)|);
      RunNext(c, events, theta);
    }
  }

  /** The estimate does follow: while the candidate stays the same, from a gap of at most 125 + 25 k ms
      the estimate is within 8 ms of it after k + 13 accepted samples. */
  lemma EstimateReaches(c: Clock, events: seq<Event>, theta: real, candidate: real, k: nat)
    requires c.samples != [] && CandidateStays(c, events, theta, candidate)
    requires AbsReal(candidate - c.offset) <= 125.0 + 25.0 * k as real
    requires |History(c, events, theta)| >= k + 13
    ensures AbsReal(candidate - Run(c, events, theta).offset) <= 8.0
  {
    EstimateApproaches(c, events, theta, candidate, k);
    ShrunkEnough();
    ShrunkShrinks(13, |History(c, events, theta)| - k);
  }

  lemma {:induction false} ShrunkShrinks(m: nat, n: nat)
    requires m <= n
    ensures Shrunk(n) <= Shrunk(m)
    decreases n
  {
    if m < n {
      ShrunkShrinks(m, n - 1);
      ShrunkSmall(n - 1);
    }
  }

  /** A ping is remembered until its pong arrives, which is then counted at most once: after it another
      pong of that ping changes nothing. */
  lemma PongCountsOnce(c: Clock, f: Flight, g: Flight, theta: real)
    requires f.sent == g.sent
    ensures f.sent in After(c, Sent(f.sent), theta).pending
    ensures var c' := After(c, Arrived(f), theta);
      c'.pending == c.pending - {f.sent} && After(c', Arrived(g), theta) == c'
    ensures f.sent !in c.pending ==> After(c, Arrived(f), theta) == c
  {
  }

  /** Clock error bound: if no way took longer than `delay`, then from the first accepted sample on,
      the estimate lies between `delay` below and half of it above the truth, always. */
  lemma {:induction false} ClockErrorBound(offset: real, pending: set<real>, events: seq<Event>, theta: real, delay: real)
    requires forall i | 0 <= i < |events| :: DelayAtMost(events[i], delay)
    ensures var c := Run(Clock([], pending, offset), events, theta);
      Accurate(c, theta, delay) && (c.samples != [] ==> Within(c.offset, theta, delay))
  {
    if events != [] {
      ClockErrorBound(offset, pending, events[..|events| - 1], theta, delay);
      AccurateStep(Run(Clock([], pending, offset), events[..|events| - 1], theta), events[|events| - 1], theta, delay);
    }
  }
}
