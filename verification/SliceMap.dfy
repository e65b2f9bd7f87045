/** The index from request keys to endpoints (`slice_map.go`) and the picker built on it (`picker.go`). */
module SliceMap {

  import opened Wrappers
  import opened ByteOrder
  import Sharding

  type Name = Sharding.Name

  // ---------------------------------------------------------------- building the index

  datatype Entry = Entry(start: Bytes, endpoints: seq<nat>, fallbackDisabled: bool)

  /** `fallbackPool` lists every endpoint of the resolver. */
  datatype SliceMap = SliceMap(slices: seq<Entry>, fallbackPool: seq<nat>, generation: int)

  /** The positions, in the resolver's list, of the named endpoints that the resolver knows. */
  function Known(index: map<Name, nat>, names: seq<Name>, es: seq<int>): seq<nat>
    requires Sharding.IndicesBelow(es, |names|)
  {
    if es == [] then []
    else
      var h := names[es[|es| - 1]];
      Known(index, names, es[..|es| - 1]) + (if h in index then [index[h]] else [])
  }

  function EntryFor(index: map<Name, nat>, names: seq<Name>, sl: Sharding.Slice): Entry
    requires Sharding.IndicesBelow(sl.endpoints, |names|)
  {
    Entry(sl.start, Known(index, names, sl.endpoints), sl.fallbackDisabled)
  }

  /** Endpoint indices in range: the part of the validated form that building needs. */
  predicate InRange(a: Sharding.Assignment) {
    forall i :: 0 <= i < |a.slices| ==> Sharding.IndicesBelow(a.slices[i].endpoints, |a.names|)
  }

  /** What a build from scratch gives.  It depends on the positions of the hostnames and on the
      assignment, on nothing else. */
  function FromScratch(index: map<Name, nat>, a: Option<Sharding.Assignment>): SliceMap
    requires a.Some? ==> InRange(a.value)
  {
    var pool := seq(|index|, i => i);
    if a.None? then SliceMap([], pool, 0)
    else SliceMap(
        seq(|a.value.slices|, i requires 0 <= i < |a.value.slices| =>
            EntryFor(index, a.value.names, a.value.slices[i])),
        pool, a.value.generation)
  }

  method BuildSliceMap(index: map<Name, nat>, a: Option<Sharding.Assignment>) returns (sm: SliceMap)
    requires a.Some? ==> InRange(a.value)
    ensures sm == FromScratch(index, a)
  {
    var pool: seq<nat> := [];
    for i := 0 to |index|
      invariant pool == seq(i, j => j)
    {
      pool := pool + [i];
    }
    if a.None? {
      return SliceMap([], pool, 0);
    }
    var slices: seq<Entry> := [];
    for i := 0 to |a.value.slices|
      invariant slices == FromScratch(index, a).slices[..i]
    {
      var s := a.value.slices[i];
      var endpoints: seq<nat> := [];
      for j := 0 to |s.endpoints|
        invariant endpoints == Known(index, a.value.names, s.endpoints[..j])
      {
        var h := a.value.names[s.endpoints[j]];
        if h in index {
          endpoints := endpoints + [index[h]];
        }
        assert s.endpoints[..j + 1][..j] == s.endpoints[..j];
      }
      assert s.endpoints[..|s.endpoints|] == s.endpoints;
      slices := slices + [Entry(s.start, endpoints, s.fallbackDisabled)];
    }
    sm := SliceMap(slices, pool, a.value.generation);
  }

  /** A named endpoint is listed exactly when the resolver knows it; order is the assignment's. */
  lemma {:induction false} KnownMeans(index: map<Name, nat>, names: seq<Name>, es: seq<int>)
    requires Sharding.IndicesBelow(es, |names|)
    ensures forall p :: p in Known(index, names, es) <==>
              exists i :: 0 <= i < |es| && names[es[i]] in index && index[names[es[i]]] == p
  {
    if es != [] {
      var before := es[..|es| - 1];
      KnownMeans(index, names, before);
      assert forall i :: 0 <= i < |before| ==> before[i] == es[i];
    }
  }

  // ---------------------------------------------------------------- looking up a key

  ghost predicate Owns(slices: seq<Entry>, i: int, k: Bytes) {
    && 0 <= i < |slices|
    && AtMost(slices[i].start, k)
    && (i + 1 < |slices| ==> Less(k, slices[i + 1].start))
  }

  ghost predicate Partition(slices: seq<Entry>) {
    && (slices != [] ==> slices[0].start == [])
    && forall i, j :: 0 <= i < j < |slices| ==> Less(slices[i].start, slices[j].start)
  }

  /** `lookup`, with the binary search of `slices.BinarySearchFunc` written out. */
  method Lookup(sm: SliceMap, k: Bytes) returns (r: int)
    requires Partition(sm.slices)
    ensures sm.slices == [] <==> r == -1
    ensures sm.slices != [] ==> Owns(sm.slices, r, k)
  {
    hide Less;
    TotalOrder();
    if |sm.slices| == 0 {
      return -1;
    }
    var lo, hi := 0, |sm.slices|;
    while lo < hi
      invariant 0 <= lo <= hi <= |sm.slices|
      invariant forall i :: 0 <= i < lo ==> Less(sm.slices[i].start, k)
      invariant forall i :: hi <= i < |sm.slices| ==> !Less(sm.slices[i].start, k)
    {
      var mid := (lo + hi) / 2;
      if Less(sm.slices[mid].start, k) {
        lo := mid + 1;
      } else {
        hi := mid;
      }
    }
    if lo < |sm.slices| && sm.slices[lo].start == k {
      return lo;
    }
    return lo - 1;
  }

  lemma OwnerIsUnique(slices: seq<Entry>, i: int, j: int, k: Bytes)
    requires Partition(slices) && Owns(slices, i, k) && Owns(slices, j, k)
    ensures i == j
  {
    hide Less;
    TotalOrder();
  }

  // ---------------------------------------------------------------- pickers

  datatype Connectivity = Idle | Connecting | Ready | TransientFailure | Shutdown

  /** A child's picker and its way out of idle are opaque; nil is `None` and `false`. */
  datatype EndpointState = EndpointState(index: nat, state: Connectivity, picker: Option<int>, exitIdle: bool)

  datatype PickerEndpoint = PickerEndpoint(state: Connectivity, picker: Option<int>, exitIdle: bool)

  datatype Picker = Picker(sm: SliceMap, endpoints: seq<PickerEndpoint>, inFallback: seq<bool>, enableFallback: bool)

  function Indexes(m: map<Name, EndpointState>): map<Name, nat> {
    map h | h in m :: m[h].index
  }

  /** Indices are a bijection onto `0..|m|-1`; being onto is `IndicesOnto`. */
  ghost predicate Bijective(m: map<Name, EndpointState>) {
    && (forall h :: h in m ==> m[h].index < |m|)
    && (forall g, h :: g in m && h in m && m[g].index == m[h].index ==> g == h)
  }

  lemma {:induction false} InjectiveImage(m: map<Name, EndpointState>, hs: set<Name>)
    requires Bijective(m) && hs <= m.Keys
    ensures |set h | h in hs :: m[h].index| == |hs|
    decreases |hs|
  {
    if hs != {} {
      var h :| h in hs;
      InjectiveImage(m, hs - {h});
      assert (set g | g in hs :: m[g].index) == (set g | g in hs - {h} :: m[g].index) + {m[h].index};
      assert m[h].index !in (set g | g in hs - {h} :: m[g].index);
    }
  }

  function Below(n: nat): (r: set<nat>)
    ensures |r| == n && forall i: nat :: i in r <==> i < n
  {
    if n == 0 then {} else Below(n - 1) + {n - 1}
  }

  lemma {:induction false} SubsetOfSameSize<T>(a: set<T>, b: set<T>)
    requires a <= b && |a| == |b|
    ensures a == b
  {
    assert |b - a| == |b| - |a|;
  }

  lemma IndicesOnto(m: map<Name, EndpointState>, i: nat)
    requires Bijective(m) && i < |m|
    ensures exists h :: h in m && m[h].index == i
  {
    var image := set h | h in m.Keys :: m[h].index;
    InjectiveImage(m, m.Keys);
    SubsetOfSameSize(image, Below(|m|));
    assert i in image;
  }

  /** Every pool of endpoint positions the picker can scan stays inside its endpoint list. */
  ghost predicate PoolsInRange(sm: SliceMap, n: nat) {
    && (forall i :: 0 <= i < |sm.fallbackPool| ==> sm.fallbackPool[i] < n)
    && (forall i, j :: 0 <= i < |sm.slices| && 0 <= j < |sm.slices[i].endpoints| ==> sm.slices[i].endpoints[j] < n)
  }

  ghost predicate Mirrors(endpoints: seq<PickerEndpoint>, m: map<Name, EndpointState>, hs: set<Name>) {
    && |endpoints| == |m|
    && forall h :: h in hs && h in m && m[h].index < |endpoints| ==>
         endpoints[m[h].index] == PickerEndpoint(m[h].state, m[h].picker, m[h].exitIdle)
  }

  predicate AllFailing(pool: seq<nat>, endpoints: seq<PickerEndpoint>) {
    forall i :: 0 <= i < |pool| && pool[i] < |endpoints| ==> endpoints[pool[i]].state == TransientFailure
  }

  method IsPoolInFallback(pool: seq<nat>, endpoints: seq<PickerEndpoint>) returns (r: bool)
    requires forall i :: 0 <= i < |pool| ==> pool[i] < |endpoints|
    ensures r <==> AllFailing(pool, endpoints)
  {
    for i := 0 to |pool|
      invariant AllFailing(pool[..i], endpoints)
    {
      if endpoints[pool[i]].state != TransientFailure {
        return false;
      }
    }
    return true;
  }

  /** `newPicker`: whatever order the map is walked in, position `i` of the snapshot is the endpoint
      with index `i`, and each slice's fallback status is that of its own pool. */
  method NewPicker(m: map<Name, EndpointState>, sm: SliceMap, enableFallback: bool) returns (p: Picker)
    requires Bijective(m) && PoolsInRange(sm, |m|)
    ensures p.sm == sm && p.enableFallback == enableFallback
    ensures Mirrors(p.endpoints, m, m.Keys)
    ensures |p.inFallback| == |sm.slices|
    ensures forall i :: 0 <= i < |sm.slices| ==> p.inFallback[i] == AllFailing(sm.slices[i].endpoints, p.endpoints)
  {
    var endpoints := seq(|m|, i => PickerEndpoint(Idle, None, false));
    var rest := m.Keys;
    while rest != {}
      invariant rest <= m.Keys
      invariant Mirrors(endpoints, m, m.Keys - rest)
    {
      var h :| h in rest;
      endpoints := endpoints[m[h].index := PickerEndpoint(m[h].state, m[h].picker, m[h].exitIdle)];
      rest := rest - {h};
    }
    var inFallback := [];
    for i := 0 to |sm.slices|
      invariant |inFallback| == i
      invariant forall j :: 0 <= j < i ==> inFallback[j] == AllFailing(sm.slices[j].endpoints, endpoints)
    {
      var b := IsPoolInFallback(sm.slices[i].endpoints, endpoints);
      inFallback := inFallback + [b];
    }
    p := Picker(sm, endpoints, inFallback, enableFallback);
  }

  // ---------------------------------------------------------------- picking

  /** `Delegate` hands the call to an endpoint's own picker; `Queue` waits for a new picker. */
  datatype Outcome = Delegate(endpoint: nat) | Queue | NoKey | NoAssignment | FallbackDisabled | NoEndpoints

  ghost predicate Has(p: Picker, pool: seq<nat>, c: Connectivity) {
    exists i :: 0 <= i < |pool| && pool[i] < |p.endpoints| && p.endpoints[pool[i]].state == c
  }

  /** What a scan of `pool` may answer: a ready endpoint if there is one; else wait if a connection is
      under way or could be started, having woken an idle endpoint if there is one; else the error of
      an endpoint of the pool. */
  ghost predicate Scanned(p: Picker, pool: seq<nat>, out: Outcome, woken: Option<nat>) {
    && (pool == [] ==> out == NoEndpoints && woken.None?)
    && (Has(p, pool, Ready) ==>
          out.Delegate? && out.endpoint < |p.endpoints| && p.endpoints[out.endpoint].state == Ready)
    && (pool != [] && !Has(p, pool, Ready) ==>
          if Has(p, pool, Idle) || Has(p, pool, Connecting) then out == Queue else out.Delegate?)
    && (out.Delegate? ==> out.endpoint in pool)
    && (woken.Some? ==> woken.value in pool && woken.value < |p.endpoints| && p.endpoints[woken.value].state == Idle)
    && (Has(p, pool, Idle) && !Has(p, pool, Ready) ==> woken.Some?)
  }

  lemma Wrap(first: nat, i: nat, n: nat)
    requires first < n && i < n
    ensures (first + i) % n == if first + i < n then first + i else first + i - n
  {
    if first + i >= n {
      assert (first + i - n) % n == first + i - n;
      assert (first + i) == (first + i - n) + n;
    }
  }

  /** The first `n` positions of the circular scan from `first`. */
  ghost predicate Visited(first: nat, n: nat, len: nat, j: nat)
    requires first < len
  {
    if j >= first then j < first + n else j + len < first + n
  }

  /** `pickFromEndpointIndices`, for every random start. */
  method PickFromPool(p: Picker, pool: seq<nat>, rnd: nat) returns (out: Outcome, woken: Option<nat>)
    requires forall i :: 0 <= i < |pool| ==> pool[i] < |p.endpoints|
    ensures Scanned(p, pool, out, woken)
  {
    woken := None;
    if |pool| == 0 {
      return NoEndpoints, woken;
    }
    var first := rnd % |pool|;
    var foundConnecting := false;
    for i := 0 to |pool|
      invariant forall j :: 0 <= j < |pool| && Visited(first, i, |pool|, j) ==>
                  && p.endpoints[pool[j]].state != Ready
                  && (p.endpoints[pool[j]].state == Connecting ==> foundConnecting)
                  && (p.endpoints[pool[j]].state == Idle ==> woken.Some?)
      invariant foundConnecting ==> Has(p, pool, Connecting)
      invariant woken.Some? ==> woken.value in pool && p.endpoints[woken.value].state == Idle
    {
      Wrap(first, i, |pool|);
      var epIdx := pool[(first + i) % |pool|];
      var ep := p.endpoints[epIdx];
      if ep.state == Ready {
        return Delegate(epIdx), woken;
      }
      if ep.state == Connecting {
        foundConnecting := true;
      }
      if woken.None? && ep.state == Idle {
        woken := Some(epIdx);
      }
    }
    if woken.Some? || foundConnecting {
      return Queue, woken;
    }
    return Delegate(pool[first]), woken;
  }

  ghost predicate UsablePicker(p: Picker) {
    && PoolsInRange(p.sm, |p.endpoints|) && Partition(p.sm.slices)
    && |p.inFallback| == |p.sm.slices|
    && (forall i :: 0 <= i < |p.endpoints| ==> p.endpoints[i].exitIdle)
  }

  /** The answer for a key that slice `i` owns. */
  ghost predicate PickedIn(p: Picker, i: int, out: Outcome, woken: Option<nat>)
    requires 0 <= i < |p.sm.slices|
  {
    if p.sm.slices[i].fallbackDisabled then out == FallbackDisabled
    else
      i < |p.inFallback| &&
      var pool := if p.inFallback[i] && p.enableFallback then p.sm.fallbackPool else p.sm.slices[i].endpoints;
      Scanned(p, pool, out, woken)
  }

  method Pick(p: Picker, key: Option<Bytes>, rnd: nat) returns (out: Outcome, woken: Option<nat>)
    requires UsablePicker(p)
    ensures out == NoKey <==> key.None?
    ensures key.Some? && p.sm.slices == [] ==>
              if p.enableFallback then Scanned(p, p.sm.fallbackPool, out, woken) else out == NoAssignment
    ensures key.Some? && p.sm.slices != [] ==> exists i :: Owns(p.sm.slices, i, key.value) && PickedIn(p, i, out, woken)
  {
    hide Less;
    woken := None;
    if key.None? {
      return NoKey, woken;
    }
    var i := Lookup(p.sm, key.value);
    if i < 0 {
      if p.enableFallback {
        out, woken := PickFromPool(p, p.sm.fallbackPool, rnd);
        return;
      }
      return NoAssignment, woken;
    }
    if p.sm.slices[i].fallbackDisabled {
      return FallbackDisabled, woken;
    }
    if p.inFallback[i] && p.enableFallback {
      out, woken := PickFromPool(p, p.sm.fallbackPool, rnd);
      return;
    }
    out, woken := PickFromPool(p, p.sm.slices[i].endpoints, rnd);
  }

  // ---------------------------------------------------------------- from assignment to picker

  lemma {:induction false} KnownBelow(index: map<Name, nat>, names: seq<Name>, es: seq<int>, n: nat)
    requires Sharding.IndicesBelow(es, |names|) && forall h :: h in index ==> index[h] < n
    ensures forall i :: 0 <= i < |Known(index, names, es)| ==> Known(index, names, es)[i] < n
  {
    if es != [] {
      KnownBelow(index, names, es[..|es| - 1], n);
    }
  }

  /** An index built from a validated assignment can be searched and stays in range. */
  lemma FromScratchUsable(index: map<Name, nat>, a: Option<Sharding.Assignment>)
    requires a.Some? ==> Sharding.WellFormed(a.value)
    requires forall h :: h in index ==> index[h] < |index|
    ensures Partition(FromScratch(index, a).slices)
    ensures PoolsInRange(FromScratch(index, a), |index|)
    ensures FromScratch(index, a).slices == [] <==> a.None?
  {
    if a.Some? {
      forall i | 0 <= i < |a.value.slices|
        ensures forall j :: 0 <= j < |FromScratch(index, a).slices[i].endpoints| ==>
                  FromScratch(index, a).slices[i].endpoints[j] < |index|
      {
        KnownBelow(index, a.value.names, a.value.slices[i].endpoints, |index|);
      }
    }
  }
}
