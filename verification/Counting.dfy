/** Counting how often a condition holds along a run. */
module Counting {

  ghost function Count(flags: seq<bool>, i: nat, j: nat): nat
    requires i <= j <= |flags|
    decreases j - i
  {
    if i == j then 0 else Count(flags, i, j - 1) + (if flags[j - 1] then 1 else 0)
  }

  lemma {:induction false} CountPositive(flags: seq<bool>, i: nat, j: nat)
    requires i <= j <= |flags|
    ensures Count(flags, i, j) > 0 <==> exists k | i <= k < j :: flags[k]
    decreases j - i
  {
    if i < j {
      CountPositive(flags, i, j - 1);
    }
  }

  lemma {:induction false} CountFull(flags: seq<bool>, i: nat, j: nat)
    requires i <= j <= |flags| && forall k | i <= k < j :: flags[k]
    ensures Count(flags, i, j) == j - i
    decreases j - i
  {
    if i < j {
      CountFull(flags, i, j - 1);
    }
  }

  lemma {:induction false} CountSplit(flags: seq<bool>, i: nat, m: nat, j: nat)
    requires i <= m <= j <= |flags|
    ensures Count(flags, i, j) == Count(flags, i, m) + Count(flags, m, j)
    decreases j - m
  {
    if m < j {
      CountSplit(flags, i, m, j - 1);
    }
  }

  lemma CountAllButOne(flags: seq<bool>, m: nat)
    requires m < |flags| && forall k | 0 <= k < |flags| && k != m :: flags[k]
    ensures Count(flags, 0, |flags|) >= |flags| - 1
  {
    CountFull(flags, 0, m);
    CountFull(flags, m + 1, |flags|);
    CountSplit(flags, 0, m, |flags|);
    CountSplit(flags, m, m + 1, |flags|);
  }

  lemma CountEmpty(flags: seq<bool>, i: nat, j: nat)
    requires i <= j <= |flags| && forall k | i <= k < j :: !flags[k]
    ensures Count(flags, i, j) == 0
  {
    CountPositive(flags, i, j);
  }

  /** Values that go up by one exactly where the flags are set. */
  ghost predicate CountsUp(values: seq<int>, flags: seq<bool>) {
    |values| == |flags| + 1 && forall k | 0 <= k < |flags| :: UpBy(values[k], values[k + 1], flags[k])
  }

  predicate UpBy(before: int, after: int, flag: bool) { after == before + if flag then 1 else 0 }

  lemma {:induction false} CountedUp(values: seq<int>, flags: seq<bool>, i: nat, j: nat)
    requires CountsUp(values, flags) && i <= j <= |flags|
    ensures values[j] == values[i] + Count(flags, i, j)
    decreases j
  {
    if i < j {
      CountedUp(values, flags, i, j - 1);
      assert UpBy(values[j - 1], values[j - 1 + 1], flags[j - 1]);
    }
  }

  /** The last flag set before `k` is the one at `m`. */
  ghost predicate LastIs(flags: seq<bool>, m: nat, k: nat)
    requires m < k <= |flags|
  {
    flags[m] && forall n | m < n < k :: !flags[n]
  }

  lemma {:induction false} FindLast(flags: seq<bool>, j: nat, k: nat) returns (m: nat)
    requires j <= k <= |flags| && Count(flags, j, k) > 0
    ensures j <= m < k && LastIs(flags, m, k)
    ensures Count(flags, j, k) == Count(flags, j, m) + 1
    ensures forall m' | j <= m' < k && LastIs(flags, m', k) :: m' == m
    decreases k
  {
    m := k - 1;
    if !flags[k - 1] {
      m := FindLast(flags, j, k - 1);
    }
  }

  /** Something began at `j`, and nothing has ended it before `k`. */
  ghost predicate Since(begins: seq<bool>, ends: seq<bool>, j: nat, k: nat)
    requires j < k <= |ends| == |begins|
  {
    begins[j] && forall m | j < m < k :: !ends[m]
  }

  lemma SinceStep(begins: seq<bool>, ends: seq<bool>, j: nat, k: nat)
    requires j < k < |ends| == |begins| && Since(begins, ends, j, k) && !ends[k]
    ensures Since(begins, ends, j, k + 1)
  {
  }

  predicate LastsStep(before: bool, after: bool, begins: bool, ends: bool) {
    after ==> if before then !ends else begins
  }

  /** A condition along a run that begins only where `begins` says and ends wherever `ends` says. */
  ghost predicate Lasts(holds: seq<bool>, begins: seq<bool>, ends: seq<bool>) {
    && |holds| == |begins| + 1 == |ends| + 1 && !holds[0]
    && forall k | 0 <= k < |ends| :: LastsStep(holds[k], holds[k + 1], begins[k], ends[k])
  }

  /** Where it holds, it has begun, and has not been ended since. */
  lemma {:induction false} HoldsSince(holds: seq<bool>, begins: seq<bool>, ends: seq<bool>, k: nat)
    requires Lasts(holds, begins, ends) && k <= |ends| && holds[k]
    ensures exists j | 0 <= j < k :: Since(begins, ends, j, k)
  {
    assert LastsStep(holds[k - 1], holds[k - 1 + 1], begins[k - 1], ends[k - 1]);
    if holds[k - 1] {
      HoldsSince(holds, begins, ends, k - 1);
      var j :| 0 <= j < k - 1 && Since(begins, ends, j, k - 1);
      SinceStep(begins, ends, j, k - 1);
    } else {
      assert Since(begins, ends, k - 1, k);
    }
  }

  /** The flags say exactly where the values change. */
  ghost predicate ChangesAre<T>(values: seq<T>, flags: seq<bool>) {
    |values| == |flags| + 1 && forall k | 0 <= k < |flags| :: values[k + 1] != values[k] <==> flags[k]
  }

  lemma {:induction false} KeptWithoutChange<T>(values: seq<T>, flags: seq<bool>, i: nat, j: nat)
    requires ChangesAre(values, flags) && i <= j <= |flags| && Count(flags, i, j) == 0
    ensures values[j] == values[i]
    decreases j
  {
    if i < j {
      KeptWithoutChange(values, flags, i, j - 1);
      assert values[j - 1 + 1] == values[j - 1];
    }
  }

  /** An event is allowed only if the previous one is at least `gap` ago, and is then remembered. */
  predicate PacedStep(event: bool, time: int, before: int, after: int, gap: nat) {
    if event then after == time && (before > 0 ==> after >= before + gap) else after == before
  }

  /** Events at given times, each of which is allowed only if the previous one, remembered in `last`,
      is at least `gap` ago. */
  ghost predicate Paced(flags: seq<bool>, times: seq<int>, last: seq<int>, gap: nat) {
    && |times| == |flags| && |last| == |flags| + 1
    && forall k | 0 <= k < |flags| ::
         PacedStep(flags[k], times[k], last[k], last[k + 1], gap)
  }

  lemma {:induction false} PacedKept(flags: seq<bool>, times: seq<int>, last: seq<int>, gap: nat, j: nat, k: nat)
    requires Paced(flags, times, last, gap) && j < k <= |flags| && flags[j] && times[j] > 0
    ensures last[k] >= times[j]
    decreases k
  {
    if j < k - 1 {
      PacedKept(flags, times, last, gap, j, k - 1);
    }
    assert last[k - 1 + 1] == last[k];
  }

  /** After `n` events none of which is before `t`, the last is no earlier than `t + gap * (n - 1)`. */
  lemma {:induction false} PacedSpread(flags: seq<bool>, times: seq<int>, last: seq<int>, gap: nat, i: nat, j: nat, t: int)
    requires Paced(flags, times, last, gap) && i <= j <= |flags| && t > 0
    requires forall k | i <= k < j && flags[k] :: times[k] >= t
    ensures Count(flags, i, j) > 0 ==> last[j] >= t + gap * (Count(flags, i, j) - 1)
    decreases j - i
  {
    if i < j {
      PacedSpread(flags, times, last, gap, i, j - 1, t);
      assert last[j - 1 + 1] == last[j];
      var n := Count(flags, i, j - 1);
      if flags[j - 1] && n > 0 {
        assert gap * n == gap * (n - 1) + gap;
        assert gap * (n - 1) >= 0;
      }
    }
  }

  lemma {:induction false} PacedLast(flags: seq<bool>, times: seq<int>, last: seq<int>, gap: nat, i: nat, j: nat)
    requires Paced(flags, times, last, gap) && i <= j <= |flags| && Count(flags, i, j) > 0
    ensures exists k | i <= k < j :: flags[k] && times[k] == last[j]
    decreases j - i
  {
    assert last[j - 1 + 1] == last[j];
    if !flags[j - 1] {
      PacedLast(flags, times, last, gap, i, j - 1);
    }
  }

  /** A window of `w` holds at most `w / gap + 1` paced events. */
  lemma PacedRateLimit(flags: seq<bool>, times: seq<int>, last: seq<int>, gap: nat, i: nat, j: nat, t: int, w: nat)
    requires Paced(flags, times, last, gap) && gap > 0 && i <= j <= |flags| && t > 0
    requires forall k | i <= k < j && flags[k] :: t <= times[k] <= t + w
    ensures Count(flags, i, j) <= w / gap + 1
  {
    var n := Count(flags, i, j);
    if n > 0 {
      PacedSpread(flags, times, last, gap, i, j, t);
      PacedLast(flags, times, last, gap, i, j);
      assert gap * (n - 1) <= w;
      QuotientAtLeast(w, gap, n - 1);
    }
  }

  lemma PositiveFactor(gap: nat, x: int)
    requires gap * x > 0
    ensures x > 0
  {
  }

  lemma QuotientAtLeast(w: nat, gap: nat, m: nat)
    requires gap > 0 && gap * m <= w
    ensures m <= w / gap
  {
    var q := w / gap;
    assert w == gap * q + w % gap;
    assert gap * (q + 1 - m) == gap * q + gap - gap * m;
    PositiveFactor(gap, q + 1 - m);
  }
}
