/** The sharding client's side of an assignment: what the sharding server sends in chunks is
    validated, stripped of overlapping slices, and completed to a gap-free partition of the key space. */
module Sharding {

  import opened Wrappers
  import opened ByteOrder

  /** Endpoint names and hostnames. */
  type Name = Bytes

  const MAX_KEY_LEN := 512

  /** A slice as sent by the server; a missing end key means "up to the end of the key space". */
  datatype ServerSlice = ServerSlice(start: Bytes, end: Option<Bytes>, endpoints: seq<int>)

  datatype Chunk = Chunk(endpoints: seq<Name>, slices: seq<ServerSlice>)

  datatype Slice = Slice(start: Bytes, endpoints: seq<int>, fallbackDisabled: bool)

  datatype Assignment = Assignment(slices: seq<Slice>, names: seq<Name>, generation: int)

  // ---------------------------------------------------------------- what a slice means

  ghost predicate Covers(s: ServerSlice, k: Bytes) {
    AtMost(s.start, k) && (s.end.Some? ==> Less(k, s.end.value))
  }

  ghost predicate Overlap(s: ServerSlice, t: ServerSlice) {
    exists k :: Covers(s, k) && Covers(t, k)
  }

  predicate IndicesBelow(es: seq<int>, n: nat) {
    forall i :: 0 <= i < |es| ==> 0 <= es[i] < n
  }

  predicate Valid(s: ServerSlice, n: nat) {
    && |s.start| <= MAX_KEY_LEN
    && (s.end.Some? ==> |s.end.value| <= MAX_KEY_LEN && Less(s.start, s.end.value))
    && IndicesBelow(s.endpoints, n)
  }

  /** A valid slice has keys within the limit, covers some key, and names only endpoints that were sent. */
  lemma ValidMeans(s: ServerSlice, n: nat)
    ensures Valid(s, n) <==>
              && |s.start| <= 512 && (s.end.Some? ==> |s.end.value| <= 512)
              && (exists k :: Covers(s, k))
              && (forall e :: e in s.endpoints ==> 0 <= e && e < n)
  {
    hide Less;
    TotalOrder();
    if s.end.None? || Less(s.start, s.end.value) {
      assert Covers(s, s.start);
    }
    if k :| Covers(s, k) {
      assert s.start == k || Less(s.start, k);
    }
    assert forall i :: 0 <= i < |s.endpoints| ==> s.endpoints[i] in s.endpoints;
  }

  predicate Before(s: ServerSlice, t: ServerSlice) {
    s.end.Some? && AtMost(s.end.value, t.start)
  }

  /** Two valid slices share a key exactly when neither ends before the other starts. */
  lemma OverlapIff(s: ServerSlice, t: ServerSlice, n: nat)
    requires Valid(s, n) && Valid(t, n)
    ensures Overlap(s, t) <==> !Before(s, t) && !Before(t, s)
  {
    hide Less;
    TotalOrder();
    if !Before(s, t) && !Before(t, s) {
      var k := if Less(s.start, t.start) then t.start else s.start;
      assert Covers(s, k) && Covers(t, k);
    }
  }

  // ---------------------------------------------------------------- validation

  function AllNames(chunks: seq<Chunk>): seq<Name> {
    if chunks == [] then [] else AllNames(chunks[..|chunks| - 1]) + chunks[|chunks| - 1].endpoints
  }

  function AllSlices(chunks: seq<Chunk>): seq<ServerSlice> {
    if chunks == [] then [] else AllSlices(chunks[..|chunks| - 1]) + chunks[|chunks| - 1].slices
  }

  function ValidOnes(xs: seq<ServerSlice>, n: nat): (r: seq<ServerSlice>)
    ensures forall i :: 0 <= i < |r| ==> Valid(r[i], n)
  {
    if xs == [] then []
    else ValidOnes(xs[..|xs| - 1], n) + (if Valid(xs[|xs| - 1], n) then [xs[|xs| - 1]] else [])
  }

  /** Names and slices of an update are those of its chunks, one after the other. */
  lemma {:induction false} ChunksConcatenate(a: seq<Chunk>, b: seq<Chunk>)
    ensures AllNames(a + b) == AllNames(a) + AllNames(b) && AllSlices(a + b) == AllSlices(a) + AllSlices(b)
    ensures |a| == 1 ==> AllNames(a) == a[0].endpoints && AllSlices(a) == a[0].slices
  {
    NamesConcatenate(a, b);
    SlicesConcatenate(a, b);
  }

  lemma {:induction false} NamesConcatenate(a: seq<Chunk>, b: seq<Chunk>)
    ensures AllNames(a + b) == AllNames(a) + AllNames(b)
  {
    if b == [] {
      assert a + b == a;
    } else {
      var c, last := b[..|b| - 1], b[|b| - 1];
      NamesConcatenate(a, c);
      assert (a + b)[..|a + b| - 1] == a + c && (a + b)[|a + b| - 1] == last;
      assert AllNames(a) + AllNames(c) + last.endpoints == AllNames(a) + (AllNames(c) + last.endpoints);
    }
  }

  lemma {:induction false} SlicesConcatenate(a: seq<Chunk>, b: seq<Chunk>)
    ensures AllSlices(a + b) == AllSlices(a) + AllSlices(b)
  {
    if b == [] {
      assert a + b == a;
    } else {
      var c, last := b[..|b| - 1], b[|b| - 1];
      SlicesConcatenate(a, c);
      assert (a + b)[..|a + b| - 1] == a + c && (a + b)[|a + b| - 1] == last;
      assert AllSlices(a) + AllSlices(c) + last.slices == AllSlices(a) + (AllSlices(c) + last.slices);
    }
  }

  /** Nothing valid is lost, and nothing else kept. */
  lemma {:induction false} ValidOnesMeans(xs: seq<ServerSlice>, n: nat, s: ServerSlice)
    ensures multiset(ValidOnes(xs, n))[s] == if Valid(s, n) then multiset(xs)[s] else 0
  {
    hide Valid;
    if xs != [] {
      ValidOnesMeans(xs[..|xs| - 1], n, s);
      assert xs == xs[..|xs| - 1] + [xs[|xs| - 1]];
    }
  }

  predicate SortedByStart(xs: seq<ServerSlice>) {
    forall i, j :: 0 <= i < j < |xs| ==> AtMost(xs[i].start, xs[j].start)
  }

  method SortByStart(xs: seq<ServerSlice>) returns (ys: seq<ServerSlice>)
    ensures SortedByStart(ys) && multiset(ys) == multiset(xs)
  {
    ys := [];
    for n := 0 to |xs|
      invariant SortedByStart(ys) && multiset(ys) == multiset(xs[..n])
    {
      var i := 0;
      while i < |ys| && AtMost(ys[i].start, xs[n].start)
        invariant 0 <= i <= |ys|
        invariant forall j :: 0 <= j < i ==> AtMost(ys[j].start, xs[n].start)
      {
        i := i + 1;
      }
      assert ys == ys[..i] + ys[i..] && xs[..n + 1] == xs[..n] + [xs[n]];
      InsertKeepsSorted(ys, i, xs[n]);
      ys := ys[..i] + [xs[n]] + ys[i..];
    }
    assert xs[..|xs|] == xs;
  }

  lemma InsertKeepsSorted(ys: seq<ServerSlice>, i: nat, x: ServerSlice)
    requires SortedByStart(ys) && i <= |ys|
    requires forall j :: 0 <= j < i ==> AtMost(ys[j].start, x.start)
    requires i < |ys| ==> !AtMost(ys[i].start, x.start)
    ensures SortedByStart(ys[..i] + [x] + ys[i..])
  {
    hide Less;
    TotalOrder();
  }

  /** Slice `i` shares no key with any other slice of the list. */
  predicate Alone(xs: seq<ServerSlice>, i: nat)
    requires i < |xs|
  {
    forall j :: 0 <= j < |xs| && j != i ==> Before(xs[i], xs[j]) || Before(xs[j], xs[i])
  }

  function AloneOnes(xs: seq<ServerSlice>, n: nat): seq<ServerSlice>
    requires n <= |xs|
  {
    if n == 0 then [] else AloneOnes(xs, n - 1) + (if Alone(xs, n - 1) then [xs[n - 1]] else [])
  }

  /** The bookkeeping of the sweep: the largest end key so far, and whether a slice without one was seen. */
  ghost predicate Swept(xs: seq<ServerSlice>, n: nat, maxEnd: Bytes, seenNilEnd: bool)
    requires n <= |xs|
  {
    && (seenNilEnd <==> exists j :: 0 <= j < n && xs[j].end.None?)
    && (forall j :: 0 <= j < n && xs[j].end.Some? ==> AtMost(xs[j].end.value, maxEnd))
    && (maxEnd == [] || exists j :: 0 <= j < n && xs[j].end == Some(maxEnd))
  }

  /** Comparing with the largest end so far and with the next start finds every overlap. */
  lemma SweepIsExact(xs: seq<ServerSlice>, n: nat, i: nat, maxEnd: Bytes, seenNilEnd: bool)
    requires i < |xs| && SortedByStart(xs) && Swept(xs, i, maxEnd, seenNilEnd)
    requires forall j :: 0 <= j < |xs| ==> Valid(xs[j], n)
    ensures Alone(xs, i) <==>
              && !(seenNilEnd || Less(xs[i].start, maxEnd))
              && !(i + 1 < |xs| && (xs[i].end.None? || Less(xs[i + 1].start, xs[i].end.value)))
  {
    hide Less;
    TotalOrder();
    forall j | 0 <= j < |xs| && j != i
      ensures j < i ==> !Before(xs[i], xs[j])
      ensures j > i ==> !Before(xs[j], xs[i])
    {
    }
    if i + 1 < |xs| && (xs[i].end.None? || Less(xs[i + 1].start, xs[i].end.value)) {
      assert !Before(xs[i], xs[i + 1]);
    }
  }

  /** A slice of the update that is valid, was sent once, and shares no key with any other valid slice. */
  ghost predicate Survives(chunks: seq<Chunk>, s: ServerSlice) {
    var valid := ValidOnes(AllSlices(chunks), |AllNames(chunks)|);
    multiset(valid)[s] == 1 && forall t :: t in valid && t != s ==> !Overlap(s, t)
  }

  method ValidateAssignment(chunks: seq<Chunk>) returns (kept: seq<ServerSlice>, names: seq<Name>)
    ensures names == AllNames(chunks)
    ensures Usable(kept, |names|)
    // Exactly the valid slices that share no key with another slice of the update survive.
    ensures forall s :: s in kept <==> Survives(chunks, s)
  {
    names := [];
    var all := [];
    for i := 0 to |chunks|
      invariant names == AllNames(chunks[..i]) && all == AllSlices(chunks[..i])
    {
      names := names + chunks[i].endpoints;
      all := all + chunks[i].slices;
      assert chunks[..i + 1][..i] == chunks[..i];
    }
    assert chunks[..|chunks|] == chunks;
    var valid := [];
    for i := 0 to |all|
      invariant valid == ValidOnes(all[..i], |names|)
    {
      if Valid(all[i], |names|) {
        valid := valid + [all[i]];
      }
      assert all[..i + 1][..i] == all[..i];
    }
    assert all[..|all|] == all;
    var sorted := SortByStart(valid);
    SameValid(sorted, valid, |names|);
    kept := DropOverlapping(sorted, |names|);
    AloneMeansUnshared(sorted, valid, |names|);
  }

  lemma SameElements(xs: seq<ServerSlice>, ys: seq<ServerSlice>)
    requires multiset(xs) == multiset(ys)
    ensures forall x :: x in xs <==> x in ys
  {
    assert forall x :: x in xs <==> x in multiset(xs);
    assert forall x :: x in ys <==> x in multiset(ys);
  }

  lemma SameValid(xs: seq<ServerSlice>, valid: seq<ServerSlice>, n: nat)
    requires multiset(xs) == multiset(valid)
    requires forall j :: 0 <= j < |valid| ==> Valid(valid[j], n)
    ensures forall j :: 0 <= j < |xs| ==> Valid(xs[j], n)
  {
    hide Valid;
    SameElements(xs, valid);
    assert forall j :: 0 <= j < |xs| ==> xs[j] in valid;
  }

  lemma AloneUsable(xs: seq<ServerSlice>, n: nat)
    requires SortedByStart(xs) && forall j :: 0 <= j < |xs| ==> Valid(xs[j], n)
    ensures Usable(AloneOnes(xs, |xs|), n)
  {
    AloneOnesUsable(xs, |xs|, n);
  }

  method DropOverlapping(xs: seq<ServerSlice>, n: nat) returns (kept: seq<ServerSlice>)
    requires SortedByStart(xs)
    requires forall j :: 0 <= j < |xs| ==> Valid(xs[j], n)
    ensures kept == AloneOnes(xs, |xs|)
    ensures Usable(kept, n)
  {
    hide Less, Alone, Usable, Valid, SortedByStart;
    kept := [];
    var maxEnd: Bytes, seenNilEnd := [], false;
    AloneUsable(xs, n);
    for i := 0 to |xs|
      invariant Swept(xs, i, maxEnd, seenNilEnd)
      invariant kept == AloneOnes(xs, i)
    {
      SweepIsExact(xs, n, i, maxEnd, seenNilEnd);
      var overlapsEarlier := seenNilEnd || Less(xs[i].start, maxEnd);
      var overlapsLater := i + 1 < |xs| && (xs[i].end.None? || Less(xs[i + 1].start, xs[i].end.value));
      if !overlapsEarlier && !overlapsLater {
        kept := kept + [xs[i]];
      }
      maxEnd, seenNilEnd := Sweep(xs, i, maxEnd, seenNilEnd);
    }
  }

  method Sweep(xs: seq<ServerSlice>, i: nat, maxEnd: Bytes, seenNilEnd: bool)
    returns (maxEnd': Bytes, seenNilEnd': bool)
    requires i < |xs| && Swept(xs, i, maxEnd, seenNilEnd)
    ensures Swept(xs, i + 1, maxEnd', seenNilEnd')
  {
    SweepAdvances(xs, i, maxEnd, seenNilEnd);
    hide Swept, Less;
    maxEnd', seenNilEnd' := maxEnd, seenNilEnd;
    if xs[i].end.None? {
      seenNilEnd' := true;
    } else if Less(maxEnd, xs[i].end.value) {
      maxEnd' := xs[i].end.value;
    }
  }

  lemma SweepAdvances(xs: seq<ServerSlice>, i: nat, maxEnd: Bytes, seenNilEnd: bool)
    requires i < |xs| && Swept(xs, i, maxEnd, seenNilEnd)
    ensures xs[i].end.None? ==> Swept(xs, i + 1, maxEnd, true)
    ensures xs[i].end.Some? ==>
              Swept(xs, i + 1, if Less(maxEnd, xs[i].end.value) then xs[i].end.value else maxEnd, seenNilEnd)
  {
    hide Less;
    TotalOrder();
  }

  /** What `buildAssignment` relies on: valid slices, one after the other, none reaching into the next. */
  predicate Usable(kept: seq<ServerSlice>, n: nat) {
    && (forall i :: 0 <= i < |kept| ==> Valid(kept[i], n))
    && (forall i, j :: 0 <= i < j < |kept| ==> Before(kept[i], kept[j]))
  }

  lemma AloneOrdered(xs: seq<ServerSlice>, i: nat, j: nat, n: nat)
    requires i < j < |xs| && SortedByStart(xs) && Alone(xs, i) && Valid(xs[j], n)
    ensures Before(xs[i], xs[j])
  {
    hide Less;
    TotalOrder();
  }

  lemma {:induction false} AloneOnesUsable(xs: seq<ServerSlice>, m: nat, n: nat)
    requires m <= |xs| && SortedByStart(xs)
    requires forall j :: 0 <= j < |xs| ==> Valid(xs[j], n)
    ensures Usable(AloneOnes(xs, m), n)
    ensures forall s :: s in AloneOnes(xs, m) <==> exists j :: 0 <= j < m && Alone(xs, j) && xs[j] == s
    decreases m
  {
    hide Less, Alone, Before, Valid;
    if m > 0 {
      AloneOnesUsable(xs, m - 1, n);
      var before := AloneOnes(xs, m - 1);
      forall i | 0 <= i < |before|
        ensures Before(before[i], xs[m - 1])
      {
        assert before[i] in before;
        var j :| 0 <= j < m - 1 && Alone(xs, j) && xs[j] == before[i];
        AloneOrdered(xs, j, m - 1, n);
      }
    }
  }

  lemma AloneMeansUnshared(xs: seq<ServerSlice>, valid: seq<ServerSlice>, n: nat)
    requires SortedByStart(xs) && multiset(xs) == multiset(valid)
    requires forall j :: 0 <= j < |valid| ==> Valid(valid[j], n)
    ensures forall s :: s in AloneOnes(xs, |xs|) <==>
              multiset(valid)[s] == 1 && forall t :: t in valid && t != s ==> !Overlap(s, t)
  {
    SameElements(xs, valid);
    assert forall j :: 0 <= j < |xs| ==> xs[j] in valid;
    AloneOnesUsable(xs, |xs|, n);
    forall s
      ensures s in AloneOnes(xs, |xs|) <==>
                multiset(valid)[s] == 1 && forall t :: t in valid && t != s ==> !Overlap(s, t)
    {
      if s in xs {
        var i :| 0 <= i < |xs| && xs[i] == s;
        AloneAt(xs, i, n);
        if s in AloneOnes(xs, |xs|) {
          var j :| 0 <= j < |xs| && Alone(xs, j) && xs[j] == s;
          AloneAt(xs, j, n);
        }
      }
    }
  }

  lemma AloneAt(xs: seq<ServerSlice>, i: nat, n: nat)
    requires i < |xs| && forall j :: 0 <= j < |xs| ==> Valid(xs[j], n)
    ensures Alone(xs, i) <==>
              multiset(xs)[xs[i]] == 1 && forall t :: t in xs && t != xs[i] ==> !Overlap(xs[i], t)
  {
    forall j | 0 <= j < |xs|
      ensures Overlap(xs[i], xs[j]) <==> !Before(xs[i], xs[j]) && !Before(xs[j], xs[i])
      ensures !Before(xs[j], xs[j])
    {
      OverlapIff(xs[i], xs[j], n);
      Trichotomy(xs[j].start, if xs[j].end.Some? then xs[j].end.value else []);
    }
    assert xs == xs[..i] + [xs[i]] + xs[i + 1..];
    assert multiset(xs)[xs[i]] == multiset(xs[..i])[xs[i]] + 1 + multiset(xs[i + 1..])[xs[i]];
  }

  // ---------------------------------------------------------------- filling the gaps

  /** The promise the rest of the policy relies on: the slices partition the whole key space. */
  ghost predicate WellFormed(a: Assignment) {
    && a.slices != [] && a.slices[0].start == []
    && (forall i, j :: 0 <= i < j < |a.slices| ==> Less(a.slices[i].start, a.slices[j].start))
    && (forall i :: 0 <= i < |a.slices| ==> IndicesBelow(a.slices[i].endpoints, |a.names|))
  }

  /** Key `k` falls into slice `i` of the assignment. */
  ghost predicate Owns(slices: seq<Slice>, i: int, k: Bytes) {
    && 0 <= i < |slices|
    && AtMost(slices[i].start, k)
    && (i + 1 < |slices| ==> Less(k, slices[i + 1].start))
  }

  /** `sl` says about key `k` what the server said: the endpoints of the slice that covers it, with
      fallback switched off when there are none; and nothing at all where no slice covers it. */
  ghost predicate Agrees(sl: Slice, kept: seq<ServerSlice>, k: Bytes) {
    && (forall s :: s in kept && Covers(s, k) ==>
          sl.endpoints == s.endpoints && (sl.fallbackDisabled <==> s.endpoints == []))
    && ((forall s :: s in kept ==> !Covers(s, k)) ==> sl.endpoints == [] && !sl.fallbackDisabled)
  }

  /** Where slice of the output came from: `2 * j + 1` is server slice `j`, `2 * j` the gap before it. */
  ghost predicate Entry(sl: Slice, kept: seq<ServerSlice>, o: int) {
    && 0 <= o <= 2 * |kept|
    && (if o % 2 == 1
        then sl == Slice(kept[o / 2].start, kept[o / 2].endpoints, kept[o / 2].endpoints == [])
        else sl.endpoints == [] && !sl.fallbackDisabled &&
             if o == 0 then sl.start == [] else kept[o / 2 - 1].end == Some(sl.start))
  }

  ghost function EndOf(kept: seq<ServerSlice>, o: int): Option<Bytes>
  {
    if o < 0 || o / 2 >= |kept| then None
    else if o % 2 == 1 then kept[o / 2].end else Some(kept[o / 2].start)
  }

  ghost predicate Entries(out: seq<Slice>, origin: seq<int>, kept: seq<ServerSlice>) {
    && |out| == |origin|
    && (forall i :: 0 <= i < |out| ==> Entry(out[i], kept, origin[i]))
    && (forall i :: 0 < i < |out| ==> EndOf(kept, origin[i - 1]) == Some(out[i].start))
  }

  ghost predicate Ascending(out: seq<Slice>) {
    && (forall i, j :: 0 <= i < j < |out| ==> Less(out[i].start, out[j].start))
    && (out != [] ==> out[0].start == [])
  }

  ghost predicate Chain(out: seq<Slice>, origin: seq<int>, kept: seq<ServerSlice>) {
    Entries(out, origin, kept) && Ascending(out)
  }

  lemma ExtendAscending(out: seq<Slice>, sl: Slice)
    requires Ascending(out) && if out == [] then sl.start == [] else Less(out[|out| - 1].start, sl.start)
    ensures Ascending(out + [sl])
  {
    hide Less;
    forall i | 0 <= i < |out|
      ensures Less(out[i].start, sl.start)
    {
      Transitive(out[i].start, out[|out| - 1].start, sl.start);
    }
  }

  lemma Extend(out: seq<Slice>, origin: seq<int>, kept: seq<ServerSlice>, sl: Slice, o: int)
    requires Chain(out, origin, kept) && Entry(sl, kept, o)
    requires if out == [] then sl.start == []
             else EndOf(kept, origin[|origin| - 1]) == Some(sl.start) && Less(out[|out| - 1].start, sl.start)
    ensures Chain(out + [sl], origin + [o], kept)
  {
    hide Less, Entry, EndOf, Ascending;
    ExtendAscending(out, sl);
  }

  lemma ChainAgrees(out: seq<Slice>, origin: seq<int>, kept: seq<ServerSlice>, n: nat, i: nat, k: Bytes)
    requires Chain(out, origin, kept) && Usable(kept, n) && i < |out|
    requires AtMost(out[i].start, k)
    requires EndOf(kept, origin[i]).Some? ==> Less(k, EndOf(kept, origin[i]).value)
    ensures Agrees(out[i], kept, k)
  {
    hide Less;
    TotalOrder();
    var o := origin[i];
    forall j | 0 <= j < |kept|
      ensures Covers(kept[j], k) <==> o % 2 == 1 && j == o / 2
    {
      assert Valid(kept[j], n);
      if o % 2 == 1 {
        assert j < o / 2 ==> Before(kept[j], kept[o / 2]);
        assert j > o / 2 ==> Before(kept[o / 2], kept[j]);
      } else {
        assert j < o / 2 - 1 ==> Before(kept[j], kept[o / 2 - 1]) && Valid(kept[o / 2 - 1], n);
        assert j > o / 2 ==> Before(kept[o / 2], kept[j]) && Valid(kept[o / 2], n);
      }
    }
  }

  lemma ChainInRange(out: seq<Slice>, origin: seq<int>, kept: seq<ServerSlice>, n: nat)
    requires Chain(out, origin, kept) && Usable(kept, n)
    ensures forall i :: 0 <= i < |out| ==> IndicesBelow(out[i].endpoints, n)
  {
    hide Less;
    forall i | 0 <= i < |out|
      ensures IndicesBelow(out[i].endpoints, n)
    {
      assert Entry(out[i], kept, origin[i]);
      if origin[i] % 2 == 1 {
        assert Valid(kept[origin[i] / 2], n);
      }
    }
  }

  lemma OwnedAgrees(out: seq<Slice>, origin: seq<int>, kept: seq<ServerSlice>, n: nat, i: nat, k: Bytes)
    requires Chain(out, origin, kept) && Usable(kept, n) && Owns(out, i, k)
    requires EndOf(kept, origin[|origin| - 1]).None?
    ensures Agrees(out[i], kept, k)
  {
    hide Less, Agrees, Usable;
    assert i + 1 < |out| ==> EndOf(kept, origin[i + 1 - 1]) == Some(out[i + 1].start);
    ChainAgrees(out, origin, kept, n, i, k);
  }

  lemma ChainComplete(out: seq<Slice>, origin: seq<int>, kept: seq<ServerSlice>, names: seq<Name>, gen: int)
    requires Chain(out, origin, kept) && Usable(kept, |names|) && out != []
    requires EndOf(kept, origin[|origin| - 1]).None?
    ensures WellFormed(Assignment(out, names, gen))
    ensures forall i, k :: Owns(out, i, k) ==> Agrees(out[i], kept, k)
  {
    ChainInRange(out, origin, kept, |names|);
    forall i, k | Owns(out, i, k)
      ensures Agrees(out[i], kept, k)
    {
      hide *;
      OwnedAgrees(out, origin, kept, |names|, i, k);
    }
  }

  method BuildAssignment(kept: seq<ServerSlice>, names: seq<Name>, gen: int) returns (a: Assignment)
    requires kept != [] && Usable(kept, |names|)
    ensures WellFormed(a) && a.names == names && a.generation == gen
    ensures forall i, k :: Owns(a.slices, i, k) ==> Agrees(a.slices[i], kept, k)
  {
    hide Chain, Usable, Less, Agrees, Owns, WellFormed;
    var out: seq<Slice> := [];
    ghost var origin: seq<int> := [];
    assert Chain(out, origin, kept) by { ChainStart(kept); }
    for i := 0 to |kept|
      invariant |out| == |origin| && Chain(out, origin, kept)
      invariant if i == 0 then out == []
                else out != [] && origin[|origin| - 1] == 2 * (i - 1) + 1 && out[|out| - 1].start == kept[i - 1].start
    {
      NextStart(kept, i, |names|);
      if i == 0 && |kept[i].start| != 0 {
        Extend(out, origin, kept, Slice([], [], false), 0);
        out, origin := out + [Slice([], [], false)], origin + [0];
      }
      if i > 0 {
        var prevEnd := if kept[i - 1].end.Some? then kept[i - 1].end.value else [];
        if Less(prevEnd, kept[i].start) {
          Extend(out, origin, kept, Slice(prevEnd, [], false), 2 * i);
          out, origin := out + [Slice(prevEnd, [], false)], origin + [2 * i];
        }
      }
      var sl := Slice(kept[i].start, kept[i].endpoints, |kept[i].endpoints| == 0);
      Extend(out, origin, kept, sl, 2 * i + 1);
      out, origin := out + [sl], origin + [2 * i + 1];
    }
    var lastEnd := kept[|kept| - 1].end;
    NextStart(kept, |kept| - 1, |names|);
    if lastEnd.Some? {
      Extend(out, origin, kept, Slice(lastEnd.value, [], false), 2 * |kept|);
      out, origin := out + [Slice(lastEnd.value, [], false)], origin + [2 * |kept|];
    }
    a := Assignment(out, names, gen);
    ChainComplete(out, origin, kept, names, gen);
  }

  lemma ChainStart(kept: seq<ServerSlice>)
    ensures Chain([], [], kept)
  {
  }

  /** Consecutive kept slices: the previous one has an end key, and it is not past the next start. */
  lemma NextStart(kept: seq<ServerSlice>, i: nat, n: nat)
    requires Usable(kept, n) && i < |kept|
    ensures i > 0 ==>
              && kept[i - 1].end.Some? && Less(kept[i - 1].start, kept[i - 1].end.value)
              && (Less(kept[i - 1].end.value, kept[i].start) || kept[i - 1].end.value == kept[i].start)
    ensures kept[i].end.Some? ==> Less(kept[i].start, kept[i].end.value)
    ensures |kept[i].start| != 0 ==> Less([], kept[i].start)
  {
    hide Less;
    TotalOrder();
    if i > 0 {
      assert Before(kept[i - 1], kept[i]) && Valid(kept[i - 1], n);
    }
    Trichotomy([], kept[i].start);
  }

  // ---------------------------------------------------------------- the client

  /** What the slice that owns key `k` must say, straight from what the server sent. */
  ghost predicate FromServer(sl: Slice, chunks: seq<Chunk>, k: Bytes) {
    && (forall s :: Survives(chunks, s) && Covers(s, k) ==>
          sl.endpoints == s.endpoints && (sl.fallbackDisabled <==> s.endpoints == []))
    && ((forall s :: Survives(chunks, s) ==> !Covers(s, k)) ==> sl.endpoints == [] && !sl.fallbackDisabled)
  }

  datatype Message = ChunkMsg(chunk: Chunk) | Metadata(generation: int) | StreamRestart

  class Client {
    var chunksReceived: seq<Chunk>
    var latestGeneration: int

    constructor ()
      ensures chunksReceived == [] && latestGeneration == 0
    {
      chunksReceived, latestGeneration := [], 0;
    }

    /** `handleMetadata`: an assignment is reported only for a newer generation, and then it is a
        gap-free partition that says, key by key, what the server's surviving slices say. */
    method HandleMetadata(gen: int) returns (r: Option<Assignment>)
      modifies this
      ensures chunksReceived == []
      ensures r.None? ==> latestGeneration == old(latestGeneration)
      ensures r.Some? ==>
                && old(latestGeneration) < gen == latestGeneration == r.value.generation
                && WellFormed(r.value) && r.value.names == AllNames(old(chunksReceived))
                && forall i, k :: Owns(r.value.slices, i, k) ==> FromServer(r.value.slices[i], old(chunksReceived), k)
      ensures r.None? <==>
                gen <= old(latestGeneration) || !exists s :: Survives(old(chunksReceived), s)
    {
      var chunks := chunksReceived;
      chunksReceived := [];
      if gen <= latestGeneration {
        return None;
      }
      if |chunks| == 0 {
        return None;
      }
      var kept, names := ValidateAssignment(chunks);
      if |kept| == 0 {
        return None;
      }
      assert Survives(chunks, kept[0]);
      latestGeneration := gen;
      var a := BuildAssignment(kept, names, gen);
      r := Some(a);
    }
  }

  /** What the server sent for one generation. */
  datatype Update = Update(chunks: seq<Chunk>, generation: int)

  /** The chunks since the last metadata message or reconnect. */
  function Pending(msgs: seq<Message>): seq<Chunk> {
    if msgs == [] then []
    else
      match msgs[|msgs| - 1]
      case ChunkMsg(chunk) => Pending(msgs[..|msgs| - 1]) + [chunk]
      case _ => []
  }

  /** Chunks count from the last metadata message or reconnect on, all of them and in order. */
  lemma {:induction false} PendingMeans(msgs: seq<Message>)
    ensures |Pending(msgs)| <= |msgs|
    ensures var first := |msgs| - |Pending(msgs)|;
            && (forall i :: first <= i < |msgs| ==> msgs[i] == ChunkMsg(Pending(msgs)[i - first]))
            && (first > 0 ==> !msgs[first - 1].ChunkMsg?)
  {
    if msgs != [] {
      PendingMeans(msgs[..|msgs| - 1]);
    }
  }

  function Latest(due: seq<Update>): int {
    if due == [] then 0 else due[|due| - 1].generation
  }

  /** The updates of a stream that have to be reported: those newer than all before that leave some slice. */
  ghost function Due(msgs: seq<Message>): seq<Update> {
    if msgs == [] then []
    else
      var before, last := msgs[..|msgs| - 1], msgs[|msgs| - 1];
      if last.Metadata? && Latest(Due(before)) < last.generation && (exists s :: Survives(Pending(before), s))
      then Due(before) + [Update(Pending(before), last.generation)]
      else Due(before)
  }

  /** The assignment says of every key what the update says. */
  ghost predicate Reports(a: Assignment, u: Update) {
    && WellFormed(a) && a.generation == u.generation && a.names == AllNames(u.chunks)
    && forall i, k :: Owns(a.slices, i, k) ==> FromServer(a.slices[i], u.chunks, k)
  }

  /** Every stream of messages, over any number of reconnects: exactly the updates that are due are reported, in order,
      each as a well-formed assignment that says what the server said, with generations that strictly increase. */
  method AnyStream(msgs: seq<Message>) returns (reported: seq<Assignment>)
    ensures |reported| == |Due(msgs)| && forall i :: 0 <= i < |reported| ==> Reports(reported[i], Due(msgs)[i])
    ensures forall i, j :: 0 <= i < j < |reported| ==> reported[i].generation < reported[j].generation
  {
    hide WellFormed, Owns, FromServer, Survives, AllNames;
    var c := new Client();
    reported := [];
    for n := 0 to |msgs|
      invariant fresh(c) && c.chunksReceived == Pending(msgs[..n]) && c.latestGeneration == Latest(Due(msgs[..n]))
      invariant |reported| == |Due(msgs[..n])| && forall i :: 0 <= i < |reported| ==>
                  Reports(reported[i], Due(msgs[..n])[i])
      invariant forall i :: 0 <= i < |reported| ==> reported[i].generation <= c.latestGeneration
      invariant forall i, j :: 0 <= i < j < |reported| ==> reported[i].generation < reported[j].generation
    {
      assert msgs[..n + 1][..n] == msgs[..n];
      match msgs[n] {
        case ChunkMsg(chunk) => c.chunksReceived := c.chunksReceived + [chunk];
        case StreamRestart => c.chunksReceived := [];
        case Metadata(gen) =>
          var r := c.HandleMetadata(gen);
          if r.Some? {
            reported := reported + [r.value];
          }
      }
    }
    assert msgs[..|msgs|] == msgs;
  }
}
