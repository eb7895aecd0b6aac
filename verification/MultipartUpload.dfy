/** Uploading a film in parts: the browser's batches and byte ranges, the server's check of what it
    is told, and the two together. */
module MultipartUpload {
  import opened Basics
  import opened Sorting

  const PART_SIZE_BYTES := 32 * 1024 * 1024
  const BATCH := 10
  const MAX_PARTS := 10000

  datatype Part = Part(partNumber: int, etag: string)

  datatype Signed = Signed(partNumber: int, url: string)

  datatype Error = WrongCount | InvalidPart | DuplicatePart | BadPartSize | TooManyParts | RequestFailed | BadSignatures | MissingEtag | Aborted

  datatype Result<+T> = Ok(value: T) | Err(error: Error)

  /** 1, 2, ..., n */
  function UpTo(n: nat): seq<int> { seq(n, i => i + 1) }

  function PartNumbers(parts: seq<Part>): seq<int> {
    seq(|parts|, i requires 0 <= i < |parts| => parts[i].partNumber)
  }

  function NumberOf(p: Part): real { p.partNumber as real }

  /** White space as Unicode defines it, which is what the server trims. */
  predicate IsSpace(c: char) {
    var code := c as int;
    || 0x09 <= code <= 0x0D || code in {0x20, 0x85, 0xA0, 0x1680, 0x2028, 0x2029, 0x202F, 0x205F, 0x3000}
    || 0x2000 <= code <= 0x200A
  }

  /** The white space of Unicode, one by one. */
  lemma Spaces(c: char)
    ensures IsSpace(c) <==>
      c as int in {9, 10, 11, 12, 13, 32, 133, 160, 5760, 8192, 8193, 8194, 8195, 8196, 8197, 8198, 8199, 8200, 8201, 8202,
                   8232, 8233, 8239, 8287, 12288}
  {
  }

  /** Nothing is left of it once white space is trimmed. */
  predicate Blank(s: string) { forall i | 0 <= i < |s| :: IsSpace(s[i]) }

  // ---------------------------------------------------------------- pigeonhole

  ghost predicate Distinct(s: seq<int>) {
    forall i, j | 0 <= i < j < |s| :: s[i] != s[j]
  }

  ghost predicate InRange(s: seq<int>, n: nat) {
    forall i | 0 <= i < |s| :: 1 <= s[i] <= n
  }

  lemma {:induction false} IncreasingFromBelow(s: seq<int>, n: nat, i: nat)
    requires InRange(s, n) && i < |s| && forall a, b | 0 <= a < b < |s| :: s[a] < s[b]
    ensures s[i] >= i + 1
  {
    if i > 0 {
      IncreasingFromBelow(s, n, i - 1);
    }
  }

  lemma {:induction false} IncreasingFromAbove(s: seq<int>, n: nat, i: nat)
    requires InRange(s, n) && i < |s| && forall a, b | 0 <= a < b < |s| :: s[a] < s[b]
    ensures s[i] <= n - (|s| - 1 - i)
    decreases |s| - i
  {
    if i < |s| - 1 {
      IncreasingFromAbove(s, n, i + 1);
    }
  }

  /** `n` increasing numbers between 1 and `n` are all of them. */
  lemma IncreasingIsUpTo(s: seq<int>, n: nat)
    requires |s| == n && InRange(s, n) && forall a, b | 0 <= a < b < |s| :: s[a] < s[b]
    ensures s == UpTo(n)
  {
    forall i | 0 <= i < n
      ensures s[i] == i + 1
    {
      IncreasingFromBelow(s, n, i);
      IncreasingFromAbove(s, n, i);
    }
  }

  lemma {:induction false} DistinctIsMultiset(s: seq<int>)
    ensures Distinct(s) <==> forall x :: multiset(s)[x] <= 1
    decreases |s|
  {
    if s != [] {
      var init, last := s[..|s| - 1], s[|s| - 1];
      assert s == init + [last];
      DistinctIsMultiset(init);
      if Distinct(s) {
        assert last !in init;
      } else if Distinct(init) {
        var i, j :| 0 <= i < j < |s| && s[i] == s[j];
        assert s[i] in init && s[i] == last;
        assert multiset(s)[last] >= 2;
      } else {
        var x :| multiset(init)[x] > 1;
        assert multiset(s)[x] > 1;
      }
    }
  }

  lemma RearrangedRange(s: seq<int>, t: seq<int>, n: nat)
    requires multiset(s) == multiset(t) && InRange(s, n)
    ensures InRange(t, n)
  {
    forall i | 0 <= i < |t|
      ensures 1 <= t[i] <= n
    {
      assert t[i] in multiset(t);
      assert t[i] in s;
    }
  }

  lemma RearrangedDistinct(s: seq<int>, t: seq<int>)
    requires multiset(s) == multiset(t) && Distinct(s)
    ensures Distinct(t)
  {
    DistinctIsMultiset(s);
    DistinctIsMultiset(t);
  }

  lemma UpToIsDistinct(n: nat)
    ensures Distinct(UpTo(n)) && InRange(UpTo(n), n)
  {
  }

  lemma NumbersAppend(parts: seq<Part>, x: Part)
    ensures PartNumbers(parts + [x]) == PartNumbers(parts) + [x.partNumber]
  {
  }

  lemma {:induction false} InsertNumbers(sorted: seq<Part>, x: Part)
    ensures multiset(PartNumbers(Insert(sorted, x, NumberOf))) == multiset(PartNumbers(sorted)) + multiset{x.partNumber}
    decreases |sorted|
  {
    if sorted == [] || NumberOf(sorted[|sorted| - 1]) <= NumberOf(x) {
      NumbersAppend(sorted, x);
    } else {
      var init, last := sorted[..|sorted| - 1], sorted[|sorted| - 1];
      assert sorted == init + [last];
      InsertNumbers(init, x);
      NumbersAppend(init, last);
      NumbersAppend(Insert(init, x, NumberOf), last);
    }
  }

  /** Sorting rearranges the part numbers. */
  lemma {:induction false} SortNumbers(parts: seq<Part>)
    ensures multiset(PartNumbers(StableSort(parts, NumberOf))) == multiset(PartNumbers(parts))
    decreases |parts|
  {
    if parts != [] {
      var init, last := parts[..|parts| - 1], parts[|parts| - 1];
      assert parts == init + [last];
      SortNumbers(init);
      NumbersAppend(init, last);
      InsertNumbers(StableSort(init, NumberOf), last);
    }
  }

  // ---------------------------------------------------------------- the server's check

  function ExpectedParts(size: nat): nat {
    (size + PART_SIZE_BYTES - 1) / PART_SIZE_BYTES
  }

  ghost predicate Acceptable(parts: seq<Part>, n: nat) {
    && |parts| == n
    && (forall i | 0 <= i < n :: 1 <= parts[i].partNumber <= n && !Blank(parts[i].etag))
    && (forall i, j | 0 <= i < j < n :: parts[i].partNumber != parts[j].partNumber)
  }

  /** What is accepted is sorted into 1, 2, ..., n. */
  lemma SortedParts(parts: seq<Part>, n: nat)
    requires Acceptable(parts, n)
    ensures PartNumbers(StableSort(parts, NumberOf)) == UpTo(n)
  {
    var sorted := StableSort(parts, NumberOf);
    StableSortIsStable(parts, NumberOf, 0.0);
    SortNumbers(parts);
    AcceptableNumbers(parts, n);
    RearrangedRange(PartNumbers(parts), PartNumbers(sorted), n);
    RearrangedDistinct(PartNumbers(parts), PartNumbers(sorted));
    SortedNumbersIncrease(sorted);
    IncreasingIsUpTo(PartNumbers(sorted), n);
  }

  lemma AcceptableNumbers(parts: seq<Part>, n: nat)
    requires Acceptable(parts, n)
    ensures InRange(PartNumbers(parts), n) && Distinct(PartNumbers(parts))
  {
  }

  /** Sorted numbers that are distinct increase. */
  lemma SortedNumbersIncrease(sorted: seq<Part>)
    requires SortedBy(sorted, NumberOf) && Distinct(PartNumbers(sorted))
    ensures forall a, b | 0 <= a < b < |sorted| :: PartNumbers(sorted)[a] < PartNumbers(sorted)[b]
  {
    forall a, b | 0 <= a < b < |sorted|
      ensures PartNumbers(sorted)[a] < PartNumbers(sorted)[b]
    {
      SortedAt(sorted, NumberOf, a, b);
    }
  }

  /** The check accepts exactly the rearrangements of 1, ..., n with a tag each. */
  lemma AcceptableIffPermutation(parts: seq<Part>, n: nat)
    ensures Acceptable(parts, n)
       <==> multiset(PartNumbers(parts)) == multiset(UpTo(n)) && forall i | 0 <= i < |parts| :: !Blank(parts[i].etag)
  {
    if Acceptable(parts, n) {
      SortedParts(parts, n);
      StableSortIsStable(parts, NumberOf, 0.0);
      SortNumbers(parts);
    } else if multiset(PartNumbers(parts)) == multiset(UpTo(n)) {
      assert |PartNumbers(parts)| == |multiset(PartNumbers(parts))| == |UpTo(n)|;
      UpToIsDistinct(n);
      RearrangedRange(UpTo(n), PartNumbers(parts), n);
      RearrangedDistinct(UpTo(n), PartNumbers(parts));
      forall i | 0 <= i < n
        ensures 1 <= parts[i].partNumber <= n
      {
        assert PartNumbers(parts)[i] == parts[i].partNumber;
      }
      forall i, j | 0 <= i < j < n
        ensures parts[i].partNumber != parts[j].partNumber
      {
        assert PartNumbers(parts)[i] != PartNumbers(parts)[j];
      }
    }
  }

  /** The loop over the reported parts: what is wrong with the first faulty one. */
  method CheckParts(parts: seq<Part>, expectedParts: nat) returns (ok: bool, error: Error)
    requires |parts| == expectedParts
    ensures ok <==> Acceptable(parts, expectedParts)
    ensures !ok ==> error.InvalidPart? || error.DuplicatePart?
    ensures !ok && error.DuplicatePart? ==> exists i, j | 0 <= i < j < |parts| :: parts[i].partNumber == parts[j].partNumber
  {
    error := InvalidPart;
    var seen: set<int> := {};
    var k := 0;
    while k < |parts|
      invariant 0 <= k <= |parts|
      invariant forall i | 0 <= i < k :: parts[i].partNumber in seen
      invariant forall x | x in seen :: exists i | 0 <= i < k :: parts[i].partNumber == x
      invariant forall i | 0 <= i < k :: 1 <= parts[i].partNumber <= expectedParts && !Blank(parts[i].etag)
      invariant forall i, j | 0 <= i < j < k :: parts[i].partNumber != parts[j].partNumber
    {
      var part := parts[k];
      if part.partNumber < 1 || part.partNumber > expectedParts || Blank(part.etag) {
        return false, InvalidPart;
      }
      if part.partNumber in seen {
        return false, DuplicatePart;
      }
      seen := seen + {part.partNumber};
      k := k + 1;
    }
    ok := true;
  }

  /** The validation that precedes completing a multipart upload: on success the list that is passed
      on to the object store. */
  method CompleteParts(sizeBytes: nat, parts: seq<Part>) returns (r: Result<seq<Part>>)
    ensures r.Ok? <==> Acceptable(parts, ExpectedParts(sizeBytes))
    ensures r.Ok? ==> multiset(r.value) == multiset(parts) && PartNumbers(r.value) == UpTo(ExpectedParts(sizeBytes))
    ensures r == Err(WrongCount) <==> |parts| != ExpectedParts(sizeBytes)
  {
    var expectedParts := ExpectedParts(sizeBytes);
    if |parts| != expectedParts {
      return Err(WrongCount);
    }
    var ok, error := CheckParts(parts, expectedParts);
    if !ok {
      return Err(error);
    }
    SortedParts(parts, expectedParts);
    StableSortIsStable(parts, NumberOf, 0.0);
    r := Ok(StableSort(parts, NumberOf));
  }

  // ---------------------------------------------------------------- the browser's upload

  /** Rounding a quotient up, as the browser does it on fractions. */
  function CeilDiv(a: nat, b: nat): int
    requires b > 0
  {
    -((-(a as real / b as real)).Floor)
  }

  lemma RoundedUpBounds(a: nat, b: nat)
    requires b > 0
    ensures var n := (a + b - 1) / b; (n - 1) * b < a <= n * b
  {
    var n := (a + b - 1) / b;
    assert a + b - 1 == n * b + (a + b - 1) % b;
  }

  lemma LessByProduct(x: real, y: real, b: real)
    requires b > 0.0
    ensures x * b < y * b <==> x < y
  {
    if x < y {
      assert (y - x) * b > 0.0;
    } else {
      assert (x - y) * b >= 0.0;
    }
  }

  lemma QuotientBetween(a: nat, b: nat, n: int)
    requires b > 0 && (n - 1) * b < a <= n * b
    ensures (n - 1) as real < a as real / b as real <= n as real
  {
    var x := a as real / b as real;
    assert x * b as real == a as real;
    assert (n - 1) as real * b as real == ((n - 1) * b) as real;
    assert n as real * b as real == (n * b) as real;
    LessByProduct((n - 1) as real, x, b as real);
    LessByProduct(n as real, x, b as real);
  }

  lemma CeilOf(x: real, n: int)
    requires (n - 1) as real < x <= n as real
    ensures -((-x).Floor) == n
  {
  }

  /** The browser and the server count the same number of parts. */
  lemma CeilDivIsRoundedUp(a: nat, b: nat)
    requires b > 0
    ensures CeilDiv(a, b) == (a + b - 1) / b
  {
    RoundedUpBounds(a, b);
    QuotientBetween(a, b, (a + b - 1) / b);
    CeilOf(a as real / b as real, (a + b - 1) / b);
  }

  function SignedNumber(p: Signed): real { p.partNumber as real }

  /** The numbers asked for in the batch that starts after `offset`. */
  function BatchOf(offset: nat, count: nat): seq<int>
    requires offset <= count
  {
    seq(if count - offset < BATCH then count - offset else BATCH, i => offset + i + 1)
  }

  /** The answer of the signer, in whatever order, covers the batch exactly. */
  predicate WellSigned(batch: seq<int>, signed: seq<Signed>) {
    var ordered := StableSort(signed, SignedNumber);
    |ordered| == |batch| && forall i | 0 <= i < |ordered| :: ordered[i].partNumber == batch[i] && ordered[i].url != ""
  }

  /** Conversely an answer that is taken has, for every number of the batch and for none other, an address. */
  lemma TakenIsComplete(batch: seq<int>, signed: seq<Signed>)
    requires WellSigned(batch, signed)
    ensures |signed| == |batch|
    ensures forall k | 0 <= k < |signed| :: signed[k].url != "" && signed[k].partNumber in batch
    ensures forall i | 0 <= i < |batch| :: exists k | 0 <= k < |signed| :: signed[k].partNumber == batch[i]
  {
    var ordered := StableSort(signed, SignedNumber);
    StableSortIsStable(signed, SignedNumber, 0.0);
    forall k | 0 <= k < |signed|
      ensures signed[k].url != "" && signed[k].partNumber in batch
    {
      assert signed[k] in multiset(signed);
      assert signed[k] in ordered;
      var i :| 0 <= i < |ordered| && ordered[i] == signed[k];
      assert ordered[i].partNumber == batch[i];
    }
    forall i | 0 <= i < |batch|
      ensures exists k | 0 <= k < |signed| :: signed[k].partNumber == batch[i]
    {
      SignedBefore(signed, i);
      assert ordered[i].partNumber == batch[i];
    }
  }

  /** The browser does not depend on the order of the signatures: any rearrangement of a complete
      answer is accepted. */
  lemma AnyOrderIsWellSigned(batch: seq<int>, complete: seq<Signed>, signed: seq<Signed>)
    requires |complete| == |batch| && forall i | 0 <= i < |batch| :: complete[i].partNumber == batch[i] && complete[i].url != ""
    requires forall i, j | 0 <= i < j < |batch| :: batch[i] < batch[j]
    requires multiset(signed) == multiset(complete)
    ensures WellSigned(batch, signed)
  {
    StableSortIsStable(signed, SignedNumber, 0.0);
    forall i, j | 0 <= i < j < |complete|
      ensures SignedNumber(complete[i]) < SignedNumber(complete[j])
    {
      assert batch[i] < batch[j];
    }
    StrictlySortedIsUnique(StableSort(signed, SignedNumber), complete, SignedNumber);
  }

  /** The byte range of part `k`. */
  function SliceOf(fileSize: nat, size: nat, k: int): (int, int) {
    ((k - 1) * size, if fileSize < k * size then fileSize else k * size)
  }

  ghost function Slices(fileSize: nat, size: nat, n: nat): seq<(int, int)> {
    seq(n, i => SliceOf(fileSize, size, i + 1))
  }

  /** Asking for signatures; None if the request fails, runs into its deadline or is aborted. */
  type Sign = seq<int> -> Option<seq<Signed>>

  /** What becomes of storing a range under a signed address: it fails, runs into its deadline or is
      aborted, or the store answers, with a tag or without. */
  datatype Stored = Failed | Answered(etag: Option<string>)

  type Put = (string, (int, int)) -> Stored

  predicate Tagged(answer: Stored) { answer.Answered? && answer.etag.Some? && answer.etag.value != "" }

  /** The tag that part number `batch[i]` of a batch gets. */
  ghost function TagIn(fileSize: nat, size: nat, ordered: seq<Signed>, put: Put, i: nat): Stored
    requires i < |ordered|
  {
    put(ordered[i].url, SliceOf(fileSize, size, ordered[i].partNumber))
  }

  /** Batch number `b` is signed completely, and all its parts are stored. */
  ghost predicate BatchSucceeds(fileSize: nat, size: nat, count: nat, sign: Sign, put: Put, b: nat)
    requires b * BATCH <= count
  {
    var offset := b * BATCH;
    var batch := BatchOf(offset, count);
    && sign(batch).Some? && WellSigned(batch, sign(batch).value)
    && var ordered := StableSort(sign(batch).value, SignedNumber);
       forall i | 0 <= i < |ordered| :: Tagged(TagIn(fileSize, size, ordered, put, i))
  }

  /** The part carries the tag that the store answered with for its own byte range, under an address that
      was signed for its own number in the batch of ten it belongs to. */
  ghost predicate StoredTag(fileSize: nat, size: nat, count: nat, sign: Sign, put: Put, part: Part) {
    && 1 <= part.partNumber <= count
    && var signed := sign(BatchOf((part.partNumber - 1) / 10 * 10, count));
    && signed.Some?
    && exists k | 0 <= k < |signed.value| ::
         && signed.value[k].partNumber == part.partNumber
         && put(signed.value[k].url, SliceOf(fileSize, size, part.partNumber)) == Answered(Some(part.etag))
  }

  /** Parts are asked for in batches of ten, the last one shorter. */
  lemma BatchesOfTen(b: nat, count: nat, i: nat)
    requires 10 * b < count
    ensures |BatchOf(10 * b, count)| == (if count - 10 * b < 10 then count - 10 * b else 10)
    ensures i < |BatchOf(10 * b, count)| ==> BatchOf(10 * b, count)[i] == 10 * b + i + 1
  {
  }

  /** A signature of the sorted answer is one of the answer. */
  lemma SignedBefore(signed: seq<Signed>, i: nat)
    requires i < |signed|
    ensures exists k | 0 <= k < |signed| :: signed[k] == StableSort(signed, SignedNumber)[i]
  {
    StableSortIsStable(signed, SignedNumber, 0.0);
    assert StableSort(signed, SignedNumber)[i] in multiset(StableSort(signed, SignedNumber));
    assert StableSort(signed, SignedNumber)[i] in signed;
  }

  lemma TagIsStored(fileSize: nat, size: nat, count: nat, sign: Sign, put: Put, b: nat, i: nat)
    requires b * BATCH < count && sign(BatchOf(b * BATCH, count)).Some?
    requires WellSigned(BatchOf(b * BATCH, count), sign(BatchOf(b * BATCH, count)).value)
    requires i < |BatchOf(b * BATCH, count)|
    requires Tagged(TagIn(fileSize, size, StableSort(sign(BatchOf(b * BATCH, count)).value, SignedNumber), put, i))
    ensures var ordered := StableSort(sign(BatchOf(b * BATCH, count)).value, SignedNumber);
      StoredTag(fileSize, size, count, sign, put,
                Part(ordered[i].partNumber, TagIn(fileSize, size, ordered, put, i).etag.value))
  {
    var signed := sign(BatchOf(b * BATCH, count)).value;
    var p := StableSort(signed, SignedNumber)[i];
    SignedBefore(signed, i);
    var k :| 0 <= k < |signed| && signed[k] == p;
    assert p.partNumber == b * 10 + i + 1;
    assert (p.partNumber - 1) / 10 * 10 == b * 10;
  }

  ghost predicate Numbered(parts: seq<Part>) {
    forall i | 0 <= i < |parts| :: parts[i].partNumber == i + 1 && parts[i].etag != ""
  }

  /** One part: its own byte range is stored under its own address, and reported with the answered tag. */
  method StorePart(fileSize: nat, size: nat, count: nat, b: nat, sign: Sign, put: Put, ordered: seq<Signed>, k: nat)
    returns (r: Result<Part>)
    requires b * BATCH < count && sign(BatchOf(b * BATCH, count)).Some?
    requires WellSigned(BatchOf(b * BATCH, count), sign(BatchOf(b * BATCH, count)).value)
    requires ordered == StableSort(sign(BatchOf(b * BATCH, count)).value, SignedNumber) && k < |ordered|
    ensures r.Ok? <==> Tagged(TagIn(fileSize, size, ordered, put, k))
    ensures r.Ok? ==> r.value.partNumber == b * BATCH + k + 1 && r.value.etag != ""
    ensures r.Ok? ==> StoredTag(fileSize, size, count, sign, put, r.value)
    ensures r.Err? ==> r.error == if TagIn(fileSize, size, ordered, put, k).Failed? then RequestFailed else MissingEtag
  {
    var p := ordered[k];
    var answer := put(p.url, SliceOf(fileSize, size, p.partNumber));
    if answer.Failed? {
      return Err(RequestFailed);
    }
    if answer.etag.None? || answer.etag.value == "" {
      return Err(MissingEtag);
    }
    TagIsStored(fileSize, size, count, sign, put, b, k);
    r := Ok(Part(p.partNumber, answer.etag.value));
  }

  /** One batch: its parts are stored in order of their numbers. */
  method UploadBatch(fileSize: nat, size: nat, count: nat, b: nat, sign: Sign, put: Put,
                     parts: seq<Part>, slices: seq<(int, int)>)
    returns (r: Result<seq<Part>>, slices': seq<(int, int)>)
    requires size > 0 && b * BATCH < count && |parts| == b * BATCH
    requires Numbered(parts) && slices == Slices(fileSize, size, |parts|)
    ensures r.Err? ==> r.error in {RequestFailed, BadSignatures, MissingEtag}
    ensures r.Ok? <==> BatchSucceeds(fileSize, size, count, sign, put, b)
    ensures r.Ok? ==> parts <= r.value && |r.value| == |parts| + |BatchOf(b * BATCH, count)| && Numbered(r.value)
    ensures r.Ok? ==> slices' == Slices(fileSize, size, |r.value|)
    ensures r.Ok? ==> forall i | |parts| <= i < |r.value| :: StoredTag(fileSize, size, count, sign, put, r.value[i])
    ensures var signed := sign(BatchOf(b * BATCH, count));
      && (signed.None? ==> r == Err(RequestFailed))
      && (r == Err(BadSignatures) <==> signed.Some? && !WellSigned(BatchOf(b * BATCH, count), signed.value))
  {
    var batch := BatchOf(b * BATCH, count);
    slices' := slices;
    var signed := sign(batch);
    if signed.None? {
      return Err(RequestFailed), slices';
    }
    var ordered := StableSort(signed.value, SignedNumber);
    if !WellSigned(batch, signed.value) {
      return Err(BadSignatures), slices';
    }
    var stored := StoreBatch(fileSize, size, count, b, sign, put, ordered);
    if stored.Err? {
      return Err(stored.error), slices';
    }
    slices' := slices + RangesOf(fileSize, size, stored.value);
    r := Ok(parts + stored.value);
  }

  function RangesOf(fileSize: nat, size: nat, parts: seq<Part>): seq<(int, int)> {
    seq(|parts|, i requires 0 <= i < |parts| => SliceOf(fileSize, size, parts[i].partNumber))
  }

  /** The parts of a completely signed batch, one after the other. */
  method StoreBatch(fileSize: nat, size: nat, count: nat, b: nat, sign: Sign, put: Put, ordered: seq<Signed>)
    returns (r: Result<seq<Part>>)
    requires b * BATCH < count && sign(BatchOf(b * BATCH, count)).Some?
    requires WellSigned(BatchOf(b * BATCH, count), sign(BatchOf(b * BATCH, count)).value)
    requires ordered == StableSort(sign(BatchOf(b * BATCH, count)).value, SignedNumber)
    ensures r.Ok? <==> forall i | 0 <= i < |ordered| :: Tagged(TagIn(fileSize, size, ordered, put, i))
    ensures r.Err? ==> r.error in {RequestFailed, MissingEtag}
    ensures r.Ok? ==> |r.value| == |ordered| && forall i | 0 <= i < |ordered| ::
      && r.value[i].partNumber == b * BATCH + i + 1 && r.value[i].etag != ""
      && StoredTag(fileSize, size, count, sign, put, r.value[i])
  {
    var parts: seq<Part> := [];
    var k := 0;
    while k < |ordered|
      invariant 0 <= k <= |ordered| && |parts| == k
      invariant forall i | 0 <= i < k :: Tagged(TagIn(fileSize, size, ordered, put, i))
      invariant forall i | 0 <= i < k ::
        && parts[i].partNumber == b * BATCH + i + 1 && parts[i].etag != ""
        && StoredTag(fileSize, size, count, sign, put, parts[i])
    {
      var part := StorePart(fileSize, size, count, b, sign, put, ordered, k);
      if part.Err? {
        return Err(part.error);
      }
      parts := parts + [part.value];
      k := k + 1;
    }
    r := Ok(parts);
  }

  /** The multipart branch of the upload. It succeeds exactly when every batch does, for whatever
      order the signatures come in, and nobody has aborted it by the end; then it has stored the parts
      1, 2, ..., n of the file, each its own byte range, in order. */
  method UploadParts(fileSize: nat, size: int, sign: Sign, put: Put, aborted: bool)
    returns (r: Result<seq<Part>>, slices: seq<(int, int)>)
    ensures r.Ok? <==>
      && size > 0 && CeilDiv(fileSize, size) <= 10000 && !aborted
      && forall b: nat | b * BATCH < CeilDiv(fileSize, size) ::
           BatchSucceeds(fileSize, size, CeilDiv(fileSize, size), sign, put, b)
    ensures r.Ok? ==> |r.value| == CeilDiv(fileSize, size) && Numbered(r.value)
    ensures r.Ok? ==> slices == Slices(fileSize, size, |r.value|)
    ensures r.Ok? ==> forall i | 0 <= i < |r.value| ::
      StoredTag(fileSize, size, CeilDiv(fileSize, size), sign, put, r.value[i])
    ensures r == Err(BadPartSize) <==> size <= 0
    ensures r == Err(TooManyParts) <==> size > 0 && CeilDiv(fileSize, size) > 10000
    ensures r == Err(Aborted) ==> aborted
  {
    slices := [];
    if size <= 0 {
      return Err(BadPartSize), slices;
    }
    CeilDivIsRoundedUp(fileSize, size);
    var count := CeilDiv(fileSize, size);
    if count > MAX_PARTS {
      return Err(TooManyParts), slices;
    }
    var parts: seq<Part> := [];
    var b := 0;
    while b * BATCH < count
      invariant b >= 0
      invariant |parts| == (if b * BATCH < count then b * BATCH else count) && Numbered(parts)
      invariant slices == Slices(fileSize, size, |parts|)
      invariant forall i | 0 <= i < |parts| :: StoredTag(fileSize, size, count, sign, put, parts[i])
      invariant forall b': nat | b' < b && b' * BATCH < count :: BatchSucceeds(fileSize, size, count, sign, put, b')
      decreases count - b * BATCH
    {
      var batch;
      batch, slices := UploadBatch(fileSize, size, count, b, sign, put, parts, slices);
      if batch.Err? {
        return batch, slices;
      }
      parts := batch.value;
      b := b + 1;
    }
    if aborted {
      return Err(Aborted), slices;
    }
    r := Ok(parts);
  }

  // ---------------------------------------------------------------- the ranges tile the file

  ghost function Bytes<T>(file: seq<T>, size: nat, n: nat): seq<T>
    requires size > 0
    requires n > 0 ==> (n - 1) * size <= |file|
  {
    if n == 0 then []
    else
      var (lo, hi) := SliceOf(|file|, size, n);
      assert (n - 1) * size <= n * size && (n > 1 ==> (n - 2) * size <= (n - 1) * size);
      Bytes(file, size, n - 1) + file[lo..hi]
  }

  lemma {:induction false} BytesArePrefix<T>(file: seq<T>, size: nat, n: nat)
    requires size > 0 && (n > 0 ==> (n - 1) * size <= |file|)
    ensures Bytes(file, size, n) == file[..if |file| < n * size then |file| else n * size]
  {
    if n > 0 {
      assert n > 1 ==> (n - 2) * size <= (n - 1) * size;
      BytesArePrefix(file, size, n - 1);
    }
  }

  /** Part `k` has a non-empty range of at most `size` bytes within the file, ... */
  ghost predicate ProperSlice(fileSize: nat, size: nat, k: int) {
    var range := SliceOf(fileSize, size, k);
    0 <= range.0 < range.1 <= fileSize && range.1 - range.0 <= size
  }

  /** ... and the next one starts where it ends. */
  ghost predicate Adjoins(fileSize: nat, size: nat, k: int) {
    SliceOf(fileSize, size, k).1 == SliceOf(fileSize, size, k + 1).0
  }

  lemma SliceBounds(fileSize: nat, size: nat, n: nat, k: nat)
    requires size > 0 && 1 <= k <= n && (n - 1) * size < fileSize <= n * size
    ensures ProperSlice(fileSize, size, k)
    ensures k < n ==> Adjoins(fileSize, size, k)
  {
    assert (k - 1) * size <= (n - 1) * size;
    assert k * size == (k - 1) * size + size;
    if k < n {
      assert k * size <= (n - 1) * size;
    }
  }

  /** The byte ranges of parts 1 to `n` are contiguous and disjoint and together are the file. */
  ghost predicate Tiles<T>(file: seq<T>, size: nat, n: nat) {
    && size > 0 && (n > 0 ==> (n - 1) * size < |file|)
    && Bytes(file, size, n) == file
    && (forall k | 1 <= k <= n :: ProperSlice(|file|, size, k))
    && (forall k | 1 <= k < n :: Adjoins(|file|, size, k))
  }

  lemma EnoughPartsTile<T>(file: seq<T>, size: nat, n: nat)
    requires size > 0 && |file| <= n * size && (n > 0 ==> (n - 1) * size < |file|)
    ensures Tiles(file, size, n)
  {
    BytesArePrefix(file, size, n);
    forall k | 1 <= k <= n
      ensures ProperSlice(|file|, size, k)
      ensures k < n ==> Adjoins(|file|, size, k)
    {
      SliceBounds(|file|, size, n, k);
    }
  }

  lemma SlicesTileFile<T>(file: seq<T>, size: nat)
    requires size > 0
    ensures CeilDiv(|file|, size) >= 0 && Tiles(file, size, CeilDiv(|file|, size))
  {
    CeilDivIsRoundedUp(|file|, size);
    RoundedUpBounds(|file|, size);
    EnoughPartsTile(file, size, (|file| + size - 1) / size);
  }

  // ---------------------------------------------------------------- end to end

  /** What a successful upload reports, the server accepts, and passes on as it is. */
  lemma UploadIsAccepted(parts: seq<Part>, fileSize: nat)
    requires |parts| == CeilDiv(fileSize, PART_SIZE_BYTES) && Numbered(parts)
    requires forall i | 0 <= i < |parts| :: !Blank(parts[i].etag)
    ensures Acceptable(parts, ExpectedParts(fileSize))
    ensures StableSort(parts, NumberOf) == parts
  {
    CeilDivIsRoundedUp(fileSize, PART_SIZE_BYTES);
    SortOfSorted(parts, NumberOf);
  }

  /** Uploading and completing. The upload is completed exactly if every batch succeeds, nobody aborts it
      and no tag is blank; what is then passed on to the object store is what was reported: the parts
      1, 2, ..., n of the file, each with the tag that the store itself gave to the byte range of that
      number. */
  method UploadAndComplete(fileSize: nat, sign: Sign, put: Put, aborted: bool)
    returns (reported: Result<seq<Part>>, r: Result<seq<Part>>)
    ensures reported.Ok? <==>
      && ExpectedParts(fileSize) <= 10000 && !aborted
      && forall b: nat | b * BATCH < ExpectedParts(fileSize) ::
           BatchSucceeds(fileSize, 33554432, ExpectedParts(fileSize), sign, put, b)
    ensures r.Ok? <==> reported.Ok? && forall i | 0 <= i < |reported.value| :: !Blank(reported.value[i].etag)
    ensures r.Ok? ==> r == reported && |r.value| == ExpectedParts(fileSize)
    ensures r.Ok? ==> forall i | 0 <= i < |r.value| ::
      r.value[i].partNumber == i + 1
      && StoredTag(fileSize, 33554432, ExpectedParts(fileSize), sign, put, r.value[i])
  {
    CeilDivIsRoundedUp(fileSize, PART_SIZE_BYTES);
    ghost var slices;
    reported, slices := UploadParts(fileSize, PART_SIZE_BYTES, sign, put, aborted);
    if reported.Err? {
      return reported, reported;
    }
    r := CompleteParts(fileSize, reported.value);
    if r.Ok? {
      SamePartsInOrder(r.value, reported.value);
    }
  }

  /** The same parts under increasing numbers are the same list. */
  lemma SamePartsInOrder(a: seq<Part>, b: seq<Part>)
    requires multiset(a) == multiset(b) && PartNumbers(a) == UpTo(|a|) && Numbered(b)
    ensures a == b
  {
    assert |a| == |multiset(a)| == |b|;
    forall i, j | 0 <= i < j < |a|
      ensures NumberOf(a[i]) < NumberOf(a[j])
    {
      assert PartNumbers(a)[i] == i + 1 && PartNumbers(a)[j] == j + 1;
    }
    assert forall i, j | 0 <= i < j < |b| :: NumberOf(b[i]) < NumberOf(b[j]);
    StrictlySortedIsUnique(a, b, NumberOf);
  }
}
