/** The autosharding balancer: it filters the resolver's endpoints, keeps an index that is rebuilt only
    when a flag says so, owns the channel and the client to the sharding service, and publishes pickers. */
module Autosharding {

  import opened Wrappers
  import opened ByteOrder
  import opened SliceMap
  import EM = EndpointMap
  import ES = EndpointSharding
  import S = Sharding

  /** The endpoint map, by hostname. */
  type Endpoints = map<Name, EndpointState>

  // ---------------------------------------------------------------- filtering endpoints

  /** The endpoint map lists exactly the filtered endpoints, each at its position. */
  ghost predicate Lists(m: Endpoints, es: seq<ES.Endpoint>) {
    && |m| == |es|
    && (forall i :: 0 <= i < |es| ==> es[i].addrs != [] && ES.Host(es[i]) in m && m[ES.Host(es[i])].index == i)
    && (forall h :: h in m ==> m[h].index < |es| && es[m[h].index].addrs != [] && ES.Host(es[m[h].index]) == h)
  }

  /** Some listed endpoint is new or has moved. */
  ghost predicate Moved(m: Endpoints, was: Endpoints) {
    exists h :: h in m && (h !in was || was[h].index != m[h].index)
  }

  lemma UnmovedAndSameSize(m: Endpoints, was: Endpoints)
    ensures Moved(m, was) || |m| != |was| <==> Indexes(m) != Indexes(was)
  {
    if Indexes(m) == Indexes(was) {
      assert m.Keys == Indexes(m).Keys == Indexes(was).Keys == was.Keys;
      forall h | h in m
        ensures h in was && was[h].index == m[h].index
      {
        assert Indexes(m)[h] == Indexes(was)[h];
      }
      assert |m| == |m.Keys| == |was.Keys| == |was|;
    } else if !Moved(m, was) && |m| == |was| {
      assert m.Keys <= was.Keys;
      SubsetOfSameSize(m.Keys, was.Keys);
    }
  }

  function Carried(was: Endpoints, h: Name, i: nat): EndpointState {
    if h in was then was[h].(index := i) else EndpointState(i, Idle, None, false)
  }

  /** An earlier endpoint has the hostname or the addresses. */
  predicate Clashes(f: seq<ES.Endpoint>, e: ES.Endpoint)
    requires e.addrs != []
  {
    exists i :: 0 <= i < |f| && f[i].addrs != [] &&
        (ES.Host(f[i]) == ES.Host(e) || EM.Key(f[i].addrs) == EM.Key(e.addrs))
  }

  /** The endpoints with addresses, without those that clash with an earlier one that is kept. */
  function Filtered(es: seq<ES.Endpoint>): (f: seq<ES.Endpoint>)
    ensures forall i :: 0 <= i < |f| ==> f[i].addrs != []
  {
    if es == [] then []
    else
      var f, e := Filtered(es[..|es| - 1]), es[|es| - 1];
      if e.addrs == [] || Clashes(f, e) then f else f + [e]
  }

  /** Of the endpoints with addresses, one is left out exactly if it clashes with one that is kept; those kept come
      from the list, in its order. */
  lemma {:induction false} FilteredMeans(es: seq<ES.Endpoint>)
    ensures forall e :: e in es && e.addrs != [] && e !in Filtered(es) ==> Clashes(Filtered(es), e)
    ensures forall e :: e in Filtered(es) ==> e in es
    ensures forall i, j :: 0 <= i < j < |Filtered(es)| ==> !Clashes([Filtered(es)[i]], Filtered(es)[j])
  {
    hide ES.Host, EM.Key;
    if es != [] {
      var before, last := es[..|es| - 1], es[|es| - 1];
      FilteredMeans(before);
      assert forall e :: e in es <==> e in before || e == last;
      var f := Filtered(before);
      if last.addrs != [] && !Clashes(f, last) {
        assert forall i :: 0 <= i < |f| ==> (f + [last])[i] == f[i];
        forall e | e in before && e.addrs != [] && e !in f
          ensures Clashes(f + [last], e)
        {
          var i :| && 0 <= i < |f| && f[i].addrs != []
                   && (ES.Host(f[i]) == ES.Host(e) || EM.Key(f[i].addrs) == EM.Key(e.addrs));
          assert (f + [last])[i] == f[i];
        }
        forall i | 0 <= i < |f|
          ensures !Clashes([f[i]], last)
        {
          assert [f[i]][0] == f[i];
        }
      }
    }
  }

  /** A known endpoint keeps its state, at its new position; a new one is idle and cannot leave idle yet. */
  lemma CarriedMeans(was: Endpoints, h: Name, i: nat)
    ensures var e := Carried(was, h, i);
            && e.index == i
            && (h in was ==> e.state == was[h].state && e.picker == was[h].picker && e.exitIdle == was[h].exitIdle)
            && (h !in was ==> e.state == Idle && e.picker.None? && !e.exitIdle)
  {
  }

  /** The endpoint map for these endpoints: their positions, with the states known before. */
  function Listed(was: Endpoints, f: seq<ES.Endpoint>): Endpoints
    requires forall i :: 0 <= i < |f| ==> f[i].addrs != []
  {
    if f == [] then map[]
    else
      var h := ES.Host(f[|f| - 1]);
      Listed(was, f[..|f| - 1])[h := Carried(was, h, |f| - 1)]
  }

  /** What the loop has established about the endpoints it has accepted so far. */
  ghost predicate Accepted(filtered: seq<ES.Endpoint>, m: Endpoints, seen: set<Bytes>, was: Endpoints) {
    && ES.Separable(filtered) && Lists(m, filtered) && m == Listed(was, filtered)
    && (forall i :: 0 <= i < |filtered| ==> EM.Key(filtered[i].addrs) in seen)
    && (forall k :: k in seen ==> exists i :: 0 <= i < |filtered| && EM.Key(filtered[i].addrs) == k)
    && (forall h :: h in m ==> m[h] == Carried(was, h, m[h].index))
  }

  lemma AcceptOne(filtered: seq<ES.Endpoint>, m: Endpoints, seen: set<Bytes>, was: Endpoints, e: ES.Endpoint)
    requires Accepted(filtered, m, seen, was) && e.addrs != []
    requires ES.Host(e) !in m && EM.Key(e.addrs) !in seen
    ensures Accepted(filtered + [e], m[ES.Host(e) := Carried(was, ES.Host(e), |m|)], seen + {EM.Key(e.addrs)}, was)
  {
    hide EM.Key, Lists, ES.Separable, ES.Host;
    AppendListed(m, filtered, e, Carried(was, ES.Host(e), |m|));
    AppendSeparable(filtered, e, seen);
    assert |m| == |filtered| by { ListsSize(m, filtered); }
    var more := filtered + [e];
    assert more[..|filtered|] == filtered && more[|filtered|] == e;
    forall k | k in seen + {EM.Key(e.addrs)}
      ensures exists i :: 0 <= i < |more| && EM.Key(more[i].addrs) == k
    {
      if k in seen {
        var i :| 0 <= i < |filtered| && EM.Key(filtered[i].addrs) == k;
        assert EM.Key(more[i].addrs) == k;
      } else {
        assert EM.Key(more[|filtered|].addrs) == k;
      }
    }
  }

  lemma ListsSize(m: Endpoints, es: seq<ES.Endpoint>)
    requires Lists(m, es)
    ensures |m| == |es|
  {
  }

  /** The two lookups find every clash. */
  lemma ClashIff(filtered: seq<ES.Endpoint>, m: Endpoints, seen: set<Bytes>, was: Endpoints, e: ES.Endpoint)
    requires Accepted(filtered, m, seen, was) && e.addrs != []
    ensures Clashes(filtered, e) <==> ES.Host(e) in m || EM.Key(e.addrs) in seen
  {
    hide EM.Key, Listed, ES.Host;
    if ES.Host(e) in m {
      assert ES.Host(filtered[m[ES.Host(e)].index]) == ES.Host(e);
    }
  }

  /** The loop of `handleNewEndpointsLocked`.  The flag it computes is exact: the positions of the
      hostnames differ from before if and only if it is set. */
  method FilterEndpoints(was: Endpoints, es: seq<ES.Endpoint>)
    returns (filtered: seq<ES.Endpoint>, m: Endpoints, changed: bool)
    ensures filtered == Filtered(es) && m == Listed(was, filtered)
    ensures ES.Separable(filtered) && Lists(m, filtered)
    ensures forall h :: h in m ==> m[h] == Carried(was, h, m[h].index)
    ensures changed <==> Indexes(m) != Indexes(was)
  {
    hide EM.Key, Lists, Moved, ES.Separable, Indexes, Clashes, Listed, Filtered, ES.Host;
    filtered, m, changed := [], map[], false;
    var seen: set<Bytes> := {};
    NothingAccepted(was);
    for n := 0 to |es|
      invariant Accepted(filtered, m, seen, was) && filtered == Filtered(es[..n])
      invariant changed <==> Moved(m, was)
    {
      FilterStep(es, n);
      var ep := es[n];
      if |ep.addrs| == 0 {
        continue;
      }
      ClashIff(filtered, m, seen, was, ep);
      var h := ES.Host(ep);
      if h in m {
        continue;
      }
      var k := EM.EncodeEndpoint(ep.addrs);
      if k in seen {
        continue;
      }
      AcceptOne(filtered, m, seen, was, ep);
      seen := seen + {k};
      filtered := filtered + [ep];
      var state := Carried(was, h, |m|);
      if h !in was || was[h].index != |m| {
        changed := true;
      }
      AppendMoved(m, h, state, was);
      m := m[h := state];
    }
    assert es[..|es|] == es;
    if |m| != |was| {
      changed := true;
    }
    UnmovedAndSameSize(m, was);
  }

  lemma NothingAccepted(was: Endpoints)
    ensures Accepted([], map[], {}, was) && !Moved(map[], was) && Filtered([]) == []
  {
  }

  lemma FilterStep(es: seq<ES.Endpoint>, n: nat)
    requires n < |es|
    ensures var f, e := Filtered(es[..n]), es[n];
            Filtered(es[..n + 1]) == if e.addrs == [] || Clashes(f, e) then f else f + [e]
  {
    assert es[..n + 1][..n] == es[..n];
  }

  lemma GrowsByOne(m: Endpoints, h: Name, s: EndpointState)
    requires h !in m
    ensures |m[h := s]| == |m| + 1
  {
    assert m[h := s].Keys == m.Keys + {h};
    assert |m[h := s]| == |m[h := s].Keys| == |m.Keys| + 1;
  }

  lemma AppendListed(m: Endpoints, es: seq<ES.Endpoint>, e: ES.Endpoint, s: EndpointState)
    requires Lists(m, es) && e.addrs != [] && ES.Host(e) !in m && s.index == |m|
    ensures Lists(m[ES.Host(e) := s], es + [e])
  {
    hide ES.Host;
    var h, m', es' := ES.Host(e), m[ES.Host(e) := s], es + [e];
    GrowsByOne(m, h, s);
    forall i | 0 <= i < |es'|
      ensures es'[i].addrs != [] && ES.Host(es'[i]) in m' && m'[ES.Host(es'[i])].index == i
    {
      assert i < |es| ==> es'[i] == es[i] && ES.Host(es[i]) in m;
    }
    forall g | g in m'
      ensures m'[g].index < |es'| && es'[m'[g].index].addrs != [] && ES.Host(es'[m'[g].index]) == g
    {
      assert g != h ==> g in m && es'[m[g].index] == es[m[g].index];
    }
  }

  lemma AppendMoved(m: Endpoints, h: Name, s: EndpointState, was: Endpoints)
    requires h !in m
    ensures Moved(m[h := s], was) <==> Moved(m, was) || h !in was || was[h].index != s.index
  {
    var m' := m[h := s];
    if Moved(m, was) {
      var g :| g in m && (g !in was || was[g].index != m[g].index);
      assert g in m' && m'[g] == m[g];
    }
    assert h in m' && m'[h] == s;
  }

  lemma AppendSeparable(es: seq<ES.Endpoint>, e: ES.Endpoint, seen: set<Bytes>)
    requires ES.Separable(es) && e.addrs != [] && EM.Key(e.addrs) !in seen
    requires forall i :: 0 <= i < |es| ==> EM.Key(es[i].addrs) in seen
    ensures ES.Separable(es + [e])
  {
    hide EM.Key;
  }

  lemma ListsBijective(m: Endpoints, es: seq<ES.Endpoint>)
    requires Lists(m, es)
    ensures Bijective(m)
  {
  }

  // ---------------------------------------------------------------- aggregated state

  ghost function In(m: Endpoints, hs: set<Name>, c: Connectivity): set<Name> {
    set h | h in hs && h in m && m[h].state == c
  }

  /** The rules by which endpoint states add up to the state of the policy. */
  function Aggregate(ready: nat, failing: nat, connecting: nat, idle: nat, total: nat): Connectivity {
    if ready > 0 then Ready
    else if failing > 1 then TransientFailure
    else if connecting > 0 then Connecting
    else if failing == 1 && total > 1 then Connecting
    else if idle > 0 then Idle
    else TransientFailure
  }

  /** The state follows from the counts; an idle endpoint, the first of the resolver's list, is woken exactly when
      the policy is failing or connecting and no endpoint is connecting. */
  ghost predicate AddsUp(m: Endpoints, agg: Connectivity, wake: Option<Name>) {
    && agg == Aggregate(|In(m, m.Keys, Ready)|, |In(m, m.Keys, TransientFailure)|,
                        |In(m, m.Keys, Connecting)|, |In(m, m.Keys, Idle)|, |m|)
    && (wake.Some? ==>
          && wake.value in m && m[wake.value].state == Idle
          && forall h :: h in m && m[h].state == Idle ==> m[wake.value].index <= m[h].index)
    && (wake.Some? <==>
          && (agg == Connecting || agg == TransientFailure)
          && |In(m, m.Keys, Connecting)| == 0
          && exists h :: h in m && m[h].state == Idle)
  }

  ghost predicate Any(m: Endpoints, c: Connectivity) {
    exists h :: h in m && m[h].state == c
  }

  ghost predicate Two(m: Endpoints, c: Connectivity) {
    exists g, h :: g in m && h in m && g != h && m[g].state == c && m[h].state == c
  }

  /** What the state of the policy says about its endpoints: READY if one is; else failing if two fail, or if none
      connects or is idle and no other is left to try; connecting if one connects, or if one of several fails; idle
      if one is and none fails. */
  ghost predicate Summarizes(agg: Connectivity, m: Endpoints) {
    && (agg == Ready <==> Any(m, Ready))
    && (agg == Connecting <==>
          !Any(m, Ready) && !Two(m, TransientFailure) && (Any(m, Connecting) || (Any(m, TransientFailure) && |m| > 1)))
    && (agg == Idle <==> !Any(m, Ready) && !Any(m, Connecting) && !Any(m, TransientFailure) && Any(m, Idle))
    && (agg == TransientFailure <==>
          && !Any(m, Ready)
          && (|| Two(m, TransientFailure)
              || (!Any(m, Connecting) && if Any(m, TransientFailure) then |m| == 1 else !Any(m, Idle))))
  }

  lemma CountMeans(m: Endpoints, c: Connectivity)
    ensures var n := |In(m, m.Keys, c)|;
            (n > 0 <==> Any(m, c)) && (n > 1 <==> Two(m, c)) && n <= |m|
  {
    var s := In(m, m.Keys, c);
    assert forall h :: h in s <==> h in m && m[h].state == c;
    assert s <= m.Keys;
    CountAtMost(s, m.Keys);
    assert |m| == |m.Keys|;
    if g :| g in s {
      assert |s| == |s - {g}| + 1;
      if h :| h in s - {g} {
        assert |s - {g}| == |s - {g} - {h}| + 1;
      } else {
        assert s == {g};
      }
    }
  }

  lemma {:induction false} CountAtMost(a: set<Name>, b: set<Name>)
    requires a <= b
    ensures |a| <= |b|
  {
    assert |b| == |a| + |b - a| by { assert b == a + (b - a); }
  }

  /** The counts lead to that state. */
  lemma AggregateMeans(m: Endpoints, agg: Connectivity, wake: Option<Name>)
    requires AddsUp(m, agg, wake)
    ensures Summarizes(agg, m)
  {
    hide In, Any, Two;
    CountMeans(m, Ready);
    CountMeans(m, TransientFailure);
    CountMeans(m, Connecting);
    CountMeans(m, Idle);
    if |m| == 1 {
      OneState(m);
    }
  }

  /** A single endpoint is in one state. */
  lemma OneState(m: Endpoints)
    requires |m| == 1
    ensures Any(m, TransientFailure) ==> !Any(m, Idle) && !Any(m, Connecting)
  {
    assert |m.Keys| == 1;
    forall g, h | g in m && h in m
      ensures g == h
    {
      assert |m.Keys - {g}| == 0;
    }
  }

  /** The loop over the endpoint map: the counts do not depend on the order of the walk, and the idle
      endpoint that is kicked, if any, is the first one of the resolver's list. */
  method AggregateStates(m: Endpoints) returns (agg: Connectivity, wake: Option<Name>)
    ensures AddsUp(m, agg, wake) && Summarizes(agg, m)
  {
    var ready, failing, connecting, idle := 0, 0, 0, 0;
    var first: Option<Name> := None;
    var rest := m.Keys;
    while rest != {}
      invariant rest <= m.Keys
      invariant ready == |In(m, m.Keys - rest, Ready)| && failing == |In(m, m.Keys - rest, TransientFailure)|
      invariant connecting == |In(m, m.Keys - rest, Connecting)| && idle == |In(m, m.Keys - rest, Idle)|
      invariant first.Some? ==> first.value in m && first.value !in rest && m[first.value].state == Idle
      invariant forall h :: h in m && h !in rest && m[h].state == Idle ==>
                  first.Some? && m[first.value].index <= m[h].index
    {
      var h :| h in rest;
      CountOne(m, rest, h, Ready);
      CountOne(m, rest, h, TransientFailure);
      CountOne(m, rest, h, Connecting);
      CountOne(m, rest, h, Idle);
      hide In;
      match m[h].state {
        case Ready => ready := ready + 1;
        case TransientFailure => failing := failing + 1;
        case Connecting => connecting := connecting + 1;
        case Idle =>
          idle := idle + 1;
          if first.None? || m[h].index < m[first.value].index {
            first := Some(h);
          }
        case Shutdown =>
      }
      rest := rest - {h};
    }
    assert m.Keys - {} == m.Keys;
    agg := Aggregate(ready, failing, connecting, idle, |m|);
    wake := if (agg == Connecting || agg == TransientFailure) && connecting == 0 then first else None;
    AggregateMeans(m, agg, wake);
  }

  lemma CountOne(m: Endpoints, rest: set<Name>, h: Name, c: Connectivity)
    requires rest <= m.Keys && h in rest
    ensures |In(m, m.Keys - (rest - {h}), c)| == |In(m, m.Keys - rest, c)| + (if m[h].state == c then 1 else 0)
  {
    assert In(m, m.Keys - (rest - {h}), c) == In(m, m.Keys - rest, c) + (if m[h].state == c then {h} else {});
    assert h !in In(m, m.Keys - rest, c);
  }

  // ---------------------------------------------------------------- what is published

  /** A picker that fails or queues every call, or a routing picker; the latter with the endpoint map
      and the assignment that were current when it was published. */
  datatype Publication =
    | Failing
    | Queueing
    | Routing(
        picker: Picker, state: Connectivity, endpoints: Endpoints, assignment: Option<S.Assignment>, wake: Option<Name>)

  ghost predicate Exitable(m: Endpoints) {
    forall h :: h in m ==> m[h].exitIdle
  }

  /** The index in the picker is the one a build from scratch would give for the current endpoints and
      assignment, the snapshot mirrors the endpoint map, and fallback is on if there is no assignment. */
  ghost predicate Good(p: Publication) {
    p.Routing? ==>
      && Bijective(p.endpoints) && Exitable(p.endpoints) && AddsUp(p.endpoints, p.state, p.wake)
      && (p.assignment.Some? ==> S.WellFormed(p.assignment.value))
      && (p.assignment.None? ==> p.picker.enableFallback)
      && p.picker.sm == FromScratch(Indexes(p.endpoints), p.assignment)
      && Mirrors(p.picker.endpoints, p.endpoints, p.endpoints.Keys)
      && UsablePicker(p.picker)
      && (forall i :: 0 <= i < |p.picker.sm.slices| ==>
            p.picker.inFallback[i] == AllFailing(p.picker.sm.slices[i].endpoints, p.picker.endpoints))
  }

  /** The cached index: due for a rebuild, up to date, or not needed yet. */
  ghost predicate CacheAgrees(
    due: bool, sm: Option<SliceMap>, m: Endpoints, a: Option<S.Assignment>, failed: bool)
  {
    && (a.Some? ==> S.WellFormed(a.value))
    && (due || (sm.Some? && sm.value == FromScratch(Indexes(m), a)) || (sm.None? && a.None? && !failed))
  }

  /** Once there is an assignment or an error, the cache is either due or up to date. */
  lemma CacheNeeded(due: bool, sm: Option<SliceMap>, m: Endpoints, a: Option<S.Assignment>, failed: bool)
    ensures (a.Some? || failed) && CacheAgrees(due, sm, m, a, failed) ==> CacheAgrees(due, sm, m, a, true)
    ensures CacheAgrees(due, sm, m, a, true) ==> CacheAgrees(due, sm, m, a, failed)
  {
  }

  /** New endpoint states, or new endpoints at the same positions, leave the cache up to date. */
  lemma CacheSurvives(due: bool, sm: Option<SliceMap>, m: Endpoints, m': Endpoints, a: Option<S.Assignment>,
      failed: bool)
    requires CacheAgrees(due, sm, m, a, failed)
    ensures CacheAgrees(due || Indexes(m') != Indexes(m), sm, m', a, failed)
  {
  }

  lemma IndexesSize(m: Endpoints)
    requires Bijective(m)
    ensures |Indexes(m)| == |m| && forall h :: h in Indexes(m) ==> Indexes(m)[h] < |m|
  {
    assert Indexes(m).Keys == m.Keys;
  }

  lemma MirrorsExitable(eps: seq<PickerEndpoint>, m: Endpoints)
    requires Bijective(m) && Exitable(m) && Mirrors(eps, m, m.Keys)
    ensures forall i :: 0 <= i < |eps| ==> eps[i].exitIdle
  {
    forall i | 0 <= i < |eps|
      ensures eps[i].exitIdle
    {
      IndicesOnto(m, i);
    }
  }

  /** `buildSliceMap` if it is due, then `newPicker`. */
  method BuildPicker(m: Endpoints, due: bool, cached: Option<SliceMap>, a: Option<S.Assignment>, enableFallback: bool)
    returns (sm: SliceMap, p: Picker)
    requires Bijective(m) && Exitable(m)
    requires CacheAgrees(due, cached, m, a, true)
    requires a.None? ==> enableFallback
    ensures CacheAgrees(false, Some(sm), m, a, true) && p.enableFallback == enableFallback
    ensures forall c, w :: AddsUp(m, c, w) ==> Good(Routing(p, c, m, a, w))
  {
    hide AddsUp;
    if due {
      sm := BuildSliceMap(Indexes(m), a);
    } else {
      sm := cached.value;
    }
    IndexesSize(m);
    FromScratchUsable(Indexes(m), a);
    p := NewPicker(m, sm, enableFallback);
    MirrorsExitable(p.endpoints, m);
  }

  /** What has to be published: nothing while inhibited; a failure after a bad resolver update, or when the sharding
      service failed and there is no fallback; a queue while there is neither an assignment nor an error; and
      otherwise the good picker for the current endpoints, assignment and configuration.  Whether an index was cached
      plays no part. */
  ghost predicate Shown(
    inhibited: bool, resolverErr: bool, a: Option<S.Assignment>, failed: bool, m: Endpoints, enableFallback: bool,
    out: Option<Publication>)
  {
    if inhibited then out.None?
    else if resolverErr then out == Some(Failing)
    else if a.None? && !failed then out == Some(Queueing)
    else if failed && !enableFallback then out == Some(Failing)
    else
      && out.Some? && out.value.Routing? && Good(out.value)
      && out.value.endpoints == m && out.value.assignment == a && out.value.picker.enableFallback == enableFallback
  }

  /** That leaves no choice. */
  lemma ShownIsUnique(
    inhibited: bool, resolverErr: bool, a: Option<S.Assignment>, failed: bool, m: Endpoints, enableFallback: bool,
    out: Option<Publication>, out': Option<Publication>)
    requires Shown(inhibited, resolverErr, a, failed, m, enableFallback, out)
    requires Shown(inhibited, resolverErr, a, failed, m, enableFallback, out')
    ensures out == out'
  {
    if out.Some? && out.value.Routing? {
      GoodIsUnique(out.value, out'.value);
    }
  }

  lemma GoodIsUnique(p: Publication, q: Publication)
    requires Good(p) && Good(q) && p.Routing? && q.Routing?
    requires p.endpoints == q.endpoints && p.assignment == q.assignment &&
               p.picker.enableFallback == q.picker.enableFallback
    ensures p == q
  {
    hide AddsUp, FromScratch, S.WellFormed, Exitable, AllFailing, Bijective;
    MirrorsUnique(p.picker.endpoints, q.picker.endpoints, p.endpoints);
    AddsUpUnique(p.endpoints, p.state, p.wake, q.state, q.wake);
    assert p.picker.inFallback == q.picker.inFallback;
  }

  lemma MirrorsUnique(eps: seq<PickerEndpoint>, eps': seq<PickerEndpoint>, m: Endpoints)
    requires Bijective(m) && Mirrors(eps, m, m.Keys) && Mirrors(eps', m, m.Keys)
    ensures eps == eps'
  {
    forall i | 0 <= i < |eps|
      ensures eps[i] == eps'[i]
    {
      IndicesOnto(m, i);
    }
  }

  lemma AddsUpUnique(m: Endpoints, agg: Connectivity, wake: Option<Name>, agg': Connectivity, wake': Option<Name>)
    requires Bijective(m) && AddsUp(m, agg, wake) && AddsUp(m, agg', wake')
    ensures agg == agg' && wake == wake'
  {
    hide In, Aggregate;
  }

  // ---------------------------------------------------------------- the balancer

  datatype Config = Config(channelKey: int, enableFallback: bool)

  /** The channel factory in the resolver state: none, one that fails (the client then gets a channel
      that only returns errors), or one that works. */
  datatype Provider = Missing | Fails | Creates

  /** Clients and channels ever created are numbered; `uses` says which channel a client got. */
  datatype Ledger = Ledger(
    clients: set<nat>, openClients: set<nat>, channels: set<nat>, openChannels: set<nat>, uses: map<nat, Option<nat>>)

  /** The balancer's end of it: its configuration, the target and close function of its client, the
      close function of its channel, the client generation, and how many channels were asked for. */
  datatype Life = Life(cfg: Config, target: int, client: Option<nat>, channel: Option<nat>, gen: nat, created: nat)

  const NO_LIFE := Life(Config(0, false), 0, None, None, 0, 0)

  const NO_LEDGER := Ledger({}, {}, {}, {}, map[])

  ghost predicate Balanced(l: Ledger, life: Life) {
    && l.openClients == (if life.client.Some? then {life.client.value} else {})
    && l.openChannels == (if life.channel.Some? then {life.channel.value} else {})
    && l.openClients <= l.clients && l.openChannels <= l.channels && l.clients <= l.uses.Keys
    && (forall g :: g in l.clients ==> g <= life.gen)
    && (forall c :: c in l.channels ==> c < life.created)
    && (life.client.Some? ==> life.client.value == life.gen && l.uses[life.client.value] == life.channel)
    && (life.client.None? ==> life.channel.None?)
  }

  class Balancer {
    var life: Life
    var lastResolverErr: bool
    var assignment: Option<S.Assignment>
    var assignmentErr: bool
    var endpointMap: Endpoints
    var sliceMap: Option<SliceMap>
    var inhibitChildUpdates: bool
    var shouldRegenerateSliceMap: bool
    var closed: bool
    ghost var ledger: Ledger
    ghost var installedGen: nat

    ghost predicate Valid()
      reads this
    {
      && Bijective(endpointMap)
      && CacheAgrees(shouldRegenerateSliceMap, sliceMap, endpointMap, assignment, assignmentErr)
      && (!inhibitChildUpdates ==> Exitable(endpointMap))
      && Balanced(ledger, life)
      && installedGen <= life.gen
      && (closed ==> life.client.None?)
    }

    constructor ()
      ensures Valid() && !closed && !inhibitChildUpdates && !lastResolverErr && assignment.None? && !assignmentErr
      ensures endpointMap == map[] && life == NO_LIFE && ledger == NO_LEDGER && installedGen == 0
      ensures life.client.None? && life.channel.None? && ledger.clients == {} && ledger.channels == {}
    {
      life, lastResolverErr, assignment, assignmentErr := NO_LIFE, false, None, false;
      endpointMap, sliceMap, inhibitChildUpdates, shouldRegenerateSliceMap := map[], None, false, false;
      closed, ledger, installedGen := false, NO_LEDGER, 0;
    }

    /** The first critical section of `UpdateClientConnState`. */
    method HandleNewEndpoints(es: seq<ES.Endpoint>) returns (filtered: seq<ES.Endpoint>)
      requires Valid() && !closed
      modifies this`endpointMap, this`shouldRegenerateSliceMap, this`inhibitChildUpdates
      ensures Valid() && inhibitChildUpdates
      ensures filtered == Filtered(es) && endpointMap == Listed(old(endpointMap), filtered)
      ensures ES.Separable(filtered) && Lists(endpointMap, filtered)
      // The index is marked for a rebuild exactly when the positions of the hostnames changed.
      ensures shouldRegenerateSliceMap <==>
                old(shouldRegenerateSliceMap) || Indexes(endpointMap) != old(Indexes(endpointMap))
    {
      hide Bijective, CacheAgrees, Lists, ES.Separable, Indexes, Balanced;
      inhibitChildUpdates := true;
      var m, changed;
      filtered, m, changed := FilterEndpoints(endpointMap, es);
      ListsBijective(m, filtered);
      CacheSurvives(shouldRegenerateSliceMap, sliceMap, endpointMap, m, assignment, assignmentErr);
      endpointMap := m;
      if changed {
        shouldRegenerateSliceMap := true;
      }
    }

    /** `updateStateAndPickerLocked`. */
    method Publish() returns (out: Option<Publication>)
      requires Valid() && !closed
      modifies this`sliceMap, this`shouldRegenerateSliceMap
      ensures Valid() && Shown(inhibitChildUpdates, lastResolverErr, assignment, assignmentErr, endpointMap,
                life.cfg.enableFallback, out)
    {
      hide Bijective, CacheAgrees, Exitable, Balanced, Good, AddsUp;
      if inhibitChildUpdates {
        return None;
      }
      if lastResolverErr {
        return Some(Failing);
      }
      if assignment.None? && !assignmentErr {
        return Some(Queueing);
      }
      if assignmentErr && !life.cfg.enableFallback {
        return Some(Failing);
      }
      var agg, wake := AggregateStates(endpointMap);
      CacheNeeded(shouldRegenerateSliceMap, sliceMap, endpointMap, assignment, assignmentErr);
      var sm, p := BuildPicker(endpointMap, shouldRegenerateSliceMap, sliceMap, assignment, life.cfg.enableFallback);
      sliceMap, shouldRegenerateSliceMap := Some(sm), false;
      CacheNeeded(false, sliceMap, endpointMap, assignment, assignmentErr);
      out := Some(Routing(p, agg, endpointMap, assignment, wake));
    }

    /** The end of `UpdateClientConnState`. */
    method EndUpdate() returns (out: Option<Publication>)
      requires Valid() && !closed && Exitable(endpointMap)
      modifies this`sliceMap, this`shouldRegenerateSliceMap, this`inhibitChildUpdates
      ensures Valid() && !inhibitChildUpdates
      ensures Shown(false, lastResolverErr, assignment, assignmentErr, endpointMap, life.cfg.enableFallback, out)
    {
      inhibitChildUpdates := false;
      out := Publish();
    }

    /** `UpdateState`, called by the endpoint sharding child. */
    method UpdateState(reports: set<ES.Report>) returns (out: Option<Publication>)
      requires Valid() && forall r :: r in reports ==> r.endpoint.addrs != []
      modifies this`endpointMap, this`sliceMap, this`shouldRegenerateSliceMap
      ensures Valid()
      ensures closed ==> endpointMap == old(endpointMap) && out.None?
      ensures !closed ==> Applied(endpointMap, old(endpointMap), reports)
      ensures !closed ==> Shown(inhibitChildUpdates, lastResolverErr, assignment, assignmentErr, endpointMap,
                life.cfg.enableFallback, out)
    {
      hide Bijective, CacheAgrees, Exitable, Balanced, Shown, Applied;
      if closed {
        return None;
      }
      var m := ApplyReports(endpointMap, reports);
      AppliedKeeps(m, endpointMap, reports);
      CacheSurvives(shouldRegenerateSliceMap, sliceMap, endpointMap, m, assignment, assignmentErr);
      endpointMap := m;
      out := Publish();
    }

    /** The callbacks `onAssignmentUpdate` and `onAssignmentError` of client generation `gen`. */
    method OnAssignment(gen: nat, a: Option<S.Assignment>) returns (out: Option<Publication>)
      requires Valid() && (a.Some? ==> S.WellFormed(a.value))
      modifies this`assignment, this`assignmentErr, this`sliceMap, this`shouldRegenerateSliceMap, this`installedGen
      ensures Valid() && installedGen >= old(installedGen)
      ensures if closed || gen != life.gen
              then assignment == old(assignment) && assignmentErr == old(assignmentErr) &&
                  installedGen == old(installedGen) && out.None?
              else
                && assignment == a && assignmentErr == a.None? && installedGen == gen
                && Shown(inhibitChildUpdates, lastResolverErr, assignment, assignmentErr, endpointMap,
                     life.cfg.enableFallback, out)
    {
      hide Bijective, Exitable, Balanced, Shown, S.WellFormed, FromScratch;
      if closed || gen != life.gen {
        return None;
      }
      assignment, assignmentErr, shouldRegenerateSliceMap := a, a.None?, true;
      installedGen := gen;
      out := Publish();
    }

    method ResolverError()
      requires Valid() && !closed
      modifies this`lastResolverErr
      ensures Valid() && lastResolverErr == (old(lastResolverErr) || endpointMap == map[] || life.client.None?)
    {
      if |endpointMap| == 0 || life.client.None? {
        lastResolverErr := true;
      }
    }

    /** `handleNewConfiguration`. */
    method HandleNewConfiguration(cfg: Config, provider: Provider, newTarget: int)
      requires Valid() && !closed
      modifies this`lastResolverErr, this`life, this`assignment, this`assignmentErr
      modifies this`shouldRegenerateSliceMap, this`ledger
      ensures Valid() && lastResolverErr == Rejected(endpointMap, provider)
      ensures lastResolverErr <==> endpointMap == map[] || provider.Missing?
      ensures life == NextLife(old(life), lastResolverErr, provider, cfg, newTarget)
      ensures Balanced(old(ledger), old(life)) && Succeeds(old(life), life) &&
                ledger == Account(old(ledger), old(life), life)
      ensures if lastResolverErr then assignment.None? && !assignmentErr
                else assignment == old(assignment) && assignmentErr == old(assignmentErr)
    {
      hide Bijective, Exitable, Balanced, CacheAgrees, NextLife, Account;
      CacheReset(sliceMap, endpointMap);
      lastResolverErr := |endpointMap| == 0 || provider.Missing?;
      if lastResolverErr {
        assignment, assignmentErr, shouldRegenerateSliceMap := None, false, true;
      }
      life, ledger := Configure(life, lastResolverErr, provider, cfg, newTarget, ledger);
    }

    method Close()
      requires Valid()
      modifies this
      ensures Valid() && closed && ledger.openClients == {} && ledger.openChannels == {}
      ensures inhibitChildUpdates == old(inhibitChildUpdates) && installedGen == old(installedGen)
      ensures old(closed) ==> Same(old(life), old(ledger), old(lastResolverErr), old(assignment), old(assignmentErr),
                old(endpointMap))
      ensures Balanced(old(ledger), old(life)) && Succeeds(old(life), Ended(old(life)))
      ensures !old(closed) ==> Same(Ended(old(life)), Account(old(ledger), old(life), Ended(old(life))), false, None,
                false, map[])
    {
      hide CacheAgrees, Balanced, Succeeds, Account, Bijective, Exitable;
      EndedSucceeds(ledger, life);
      EmptyMapIsFine();
      if !closed {
        closed := true;
        var clientClose, channelClose := life.client, life.channel;
        HandlesAreOpen(ledger, life);
        life, lastResolverErr := life.(client := None, channel := None), false;
        endpointMap, sliceMap, assignment, assignmentErr := map[], None, None, false;
        CacheReset(None, map[]);
        if clientClose.Some? {
          ledger := CloseClient(ledger, clientClose.value);
        }
        if channelClose.Some? {
          ledger := CloseChannel(ledger, channelClose.value);
        }
      }
      NothingOpen(ledger, life);
    }

    ghost predicate Same(was: Life, l: Ledger, err: bool, a: Option<S.Assignment>, failed: bool, m: Endpoints)
      reads this
    {
      life == was && ledger == l && lastResolverErr == err && assignment == a && assignmentErr == failed &&
          endpointMap == m
    }
  }

  // ---------------------------------------------------------------- clients and channels

  /** An update without endpoints or without a channel factory is rejected. */
  predicate Rejected(m: Endpoints, provider: Provider) {
    |m| == 0 || provider.Missing?
  }

  /** What a configuration update must lead to.  A channel is asked for when there is no client or the channel's key
      changed, and there is none if the factory fails; a client is replaced exactly when its channel or its target
      changed; a rejected update leaves neither client nor channel, and callbacks of the former client come too late. */
  function NextLife(was: Life, rejected: bool, provider: Provider, cfg: Config, target: int): Life {
    var newChannel := was.client.None? || cfg.channelKey != was.cfg.channelKey;
    if rejected then was.(target := 0, client := None, channel := None, gen := was.gen + 1)
    else if newChannel then
      var channel := if provider.Fails? then None else Some(was.created);
      Life(cfg, target, Some(was.gen + 1), channel, was.gen + 1, was.created + 1)
    else if target != was.target then Life(cfg, target, Some(was.gen + 1), was.channel, was.gen + 1, was.created)
    else was.(cfg := cfg)
  }

  /** Said of a configuration update: which client and channel there are after it. */
  lemma NextLifeMeans(was: Life, rejected: bool, provider: Provider, cfg: Config, target: int)
    requires was.client.Some? ==> was.client.value == was.gen
    ensures var life := NextLife(was, rejected, provider, cfg, target);
            && (rejected ==> life.client.None? && life.channel.None? && life.gen > was.gen)
            && (!rejected ==>
                  && life.cfg == cfg && life.target == target && life.client == Some(life.gen)
                  && var sameChannel := was.client.Some? && cfg.channelKey == was.cfg.channelKey;
                     && (life.client == was.client <==> sameChannel && target == was.target)
                     && life.channel == (if sameChannel then was.channel
                                         else if provider.Fails? then None else Some(was.created))
                     && life.created == was.created + if sameChannel then 0 else 1)
  {
  }

  function Ended(was: Life): Life {
    was.(client := None, channel := None)
  }

  /** `handleNewConfigurationInternal`, which hands out what is to be closed, and the closing that follows it.  The
      books are kept in the order of the code: a channel the factory creates is opened, then the client that uses it;
      once they are in place the replaced client is closed, and then the replaced channel. */
  method Configure(was: Life, rejected: bool, provider: Provider, cfg: Config, target: int, ghost ledger: Ledger)
    returns (life: Life, ghost ledger': Ledger)
    requires Balanced(ledger, was) && (!rejected ==> !provider.Missing?)
    ensures life == NextLife(was, rejected, provider, cfg, target) && Succeeds(was, life)
    ensures ledger' == Account(ledger, was, life) && Balanced(ledger', life)
  {
    var clientClose, channelClose: Option<nat> := None, None;
    life, ledger' := was, ledger;
    if rejected {
      clientClose, channelClose := was.client, was.channel;
      life := was.(client := None, channel := None, gen := was.gen + 1, target := 0);
    } else {
      var newChannel := was.client.None? || cfg.channelKey != was.cfg.channelKey;
      var channel := was.channel;
      if newChannel {
        channel := None;
        if provider.Creates? {
          ledger', channel := OpenChannel(ledger', was.created), Some(was.created);
        }
      }
      life := was.(cfg := cfg);
      if newChannel || target != was.target {
        ledger' := OpenClient(ledger', was.gen + 1, channel);
        clientClose := was.client;
        life := life.(client := Some(was.gen + 1), gen := was.gen + 1, target := target);
      }
      if newChannel {
        channelClose := was.channel;
        life := life.(channel := channel, created := was.created + 1);
      }
    }
    if clientClose.Some? {
      ledger' := CloseClient(ledger', clientClose.value);
    }
    if channelClose.Some? {
      ledger' := CloseChannel(ledger', channelClose.value);
    }
  }

  lemma EndedSucceeds(l: Ledger, life: Life)
    requires Balanced(l, life)
    ensures Succeeds(life, Ended(life))
  {
  }

  ghost function OpenChannel(l: Ledger, c: nat): Ledger
    requires c !in l.channels
  {
    l.(channels := l.channels + {c}, openChannels := l.openChannels + {c})
  }

  ghost function OpenClient(l: Ledger, g: nat, c: Option<nat>): Ledger
    requires g !in l.clients && (c.Some? ==> c.value in l.openChannels)
  {
    l.(clients := l.clients + {g}, openClients := l.openClients + {g}, uses := l.uses[g := c])
  }

  /** Only an open client can be closed: no client is closed twice. */
  ghost function CloseClient(l: Ledger, g: nat): Ledger
    requires g in l.openClients
  {
    l.(openClients := l.openClients - {g})
  }

  /** Only an open channel can be closed, and only once no open client uses it. */
  ghost function CloseChannel(l: Ledger, c: nat): Ledger
    requires c in l.openChannels && forall g :: g in l.openClients && g in l.uses ==> l.uses[g] != Some(c)
  {
    l.(openChannels := l.openChannels - {c})
  }

  /** No open client but `client` uses `channel`. */
  ghost predicate Unused(l: Ledger, client: Option<nat>, channel: Option<nat>) {
    forall g :: g in l.openClients && client != Some(g) && g in l.uses && channel.Some? ==> l.uses[g] != channel
  }

  /** Close a client, then a channel. */
  ghost function Retire(l: Ledger, client: Option<nat>, channel: Option<nat>): Ledger
    requires client.Some? ==> client.value in l.openClients
    requires channel.Some? ==> channel.value in l.openChannels
    requires Unused(l, client, channel)
  {
    var l1 := if client.Some? then CloseClient(l, client.value) else l;
    if channel.Some? then CloseChannel(l1, channel.value) else l1
  }

  /** Open a client of generation `g` on `channel`, which is opened first if it is new. */
  ghost function Open(l: Ledger, g: nat, newChannel: bool, channel: Option<nat>): Ledger
    requires g !in l.clients
    requires channel.Some? ==> if newChannel then channel.value !in l.channels else channel.value in l.openChannels
  {
    OpenClient(if newChannel && channel.Some? then OpenChannel(l, channel.value) else l, g, channel)
  }

  /** `now` may come after `was`: clients and channels are new, or kept, or gone. */
  ghost predicate Succeeds(was: Life, now: Life) {
    && now.gen >= was.gen && now.created >= was.created && (now.client.None? ==> now.channel.None?)
    && (if now.client == was.client then now.channel == was.channel && (now.client.Some? ==> now.gen == was.gen)
        else now.client.Some? ==> now.client.value == now.gen == was.gen + 1)
    && (now.channel != was.channel && now.channel.Some? ==>
          now.channel.value == was.created && now.created == was.created + 1)
  }

  /** The books after that: what is new was opened, and what is no longer there was closed, a client before its
      channel.  No client and no channel is closed twice, and no channel while an open client uses it. */
  ghost function Account(l: Ledger, was: Life, now: Life): (l': Ledger)
    requires Balanced(l, was) && Succeeds(was, now)
    ensures Balanced(l', now) && l'.clients >= l.clients && l'.channels >= l.channels
  {
    var newClient, newChannel := now.client != was.client, now.channel != was.channel;
    var l1 := if now.client.Some? && newClient then Open(l, now.gen, newChannel, now.channel) else l;
    Retire(l1, if newClient then was.client else None, if newChannel then was.channel else None)
  }

  /** The handles the balancer holds are those of the open client and channel, and closing them ends both. */
  lemma HandlesAreOpen(l: Ledger, life: Life)
    requires Balanced(l, life) && Succeeds(life, Ended(life))
    ensures life.client.Some? ==> life.client.value in l.openClients
    ensures life.channel.Some? ==> life.channel.value in l.openChannels
    ensures Unused(l, life.client, life.channel)
    ensures Retire(l, life.client, life.channel) == Account(l, life, Ended(life))
  {
  }

  lemma NothingOpen(l: Ledger, life: Life)
    ensures Balanced(l, life) ==> l.openClients <= l.clients && l.openChannels <= l.channels
    ensures Balanced(l, life) && life.client.None? ==> l.openClients == {} && l.openChannels == {}
  {
  }

  lemma EmptyMapIsFine()
    ensures Bijective(map[]) && Exitable(map[])
  {
  }

  lemma CacheReset(sm: Option<SliceMap>, m: Endpoints)
    ensures CacheAgrees(true, sm, m, None, false)
    ensures forall due :: CacheAgrees(due, None, m, None, false)
  {
  }

  // ---------------------------------------------------------------- child reports

  predicate About(r: ES.Report, h: Name) {
    r.endpoint.addrs != [] && ES.Host(r.endpoint) == h
  }

  /** Every endpoint that a report speaks about has the state of one such report and can leave idle; the
      others, and all positions, are as before. */
  ghost predicate Applied(m': Endpoints, m: Endpoints, reports: set<ES.Report>) {
    && m'.Keys == m.Keys
    && forall h :: h in m ==>
         if exists r :: r in reports && About(r, h)
         then exists r :: r in reports && About(r, h) && m'[h] == EndpointState(m[h].index, r.state, r.picker, true)
         else m'[h] == m[h]
  }

  lemma AppliedKeeps(m': Endpoints, m: Endpoints, reports: set<ES.Report>)
    requires Applied(m', m, reports)
    ensures Indexes(m') == Indexes(m)
    ensures Bijective(m) ==> Bijective(m')
    ensures Exitable(m) ==> Exitable(m')
  {
    hide About;
    assert |m'| == |m'.Keys| == |m.Keys| == |m|;
  }

  method ApplyReports(m: Endpoints, reports: set<ES.Report>) returns (m': Endpoints)
    requires forall r :: r in reports ==> r.endpoint.addrs != []
    ensures Applied(m', m, reports)
  {
    hide Applied;
    m' := m;
    var rest := reports;
    NoneApplied(m, reports - rest);
    while rest != {}
      invariant rest <= reports
      invariant Applied(m', m, reports - rest)
    {
      var r :| r in rest;
      AppliedOne(m', m, reports - rest, r);
      assert reports - (rest - {r}) == reports - rest + {r};
      var h := ES.Host(r.endpoint);
      if h in m' {
        m' := m'[h := m'[h].(state := r.state, picker := r.picker, exitIdle := true)];
      }
      rest := rest - {r};
    }
    assert reports - {} == reports;
  }

  lemma NoneApplied(m: Endpoints, none: set<ES.Report>)
    requires none == {}
    ensures Applied(m, m, none)
  {
  }

  lemma AppliedOne(m': Endpoints, m: Endpoints, done: set<ES.Report>, r: ES.Report)
    requires Applied(m', m, done) && r.endpoint.addrs != []
    ensures var h := ES.Host(r.endpoint);
            var m'' := if h in m' then m'[h := m'[h].(state := r.state, picker := r.picker, exitIdle := true)] else m';
            Applied(m'', m, done + {r})
  {
    hide ES.Host;
    var h := ES.Host(r.endpoint);
    var more := done + {r};
    var m'' := if h in m' then m'[h := m'[h].(state := r.state, picker := r.picker, exitIdle := true)] else m';
    forall g | g in m
      ensures if exists x :: x in more && About(x, g)
              then exists x :: x in more && About(x, g) && m''[g] == EndpointState(m[g].index, x.state, x.picker, true)
              else m''[g] == m[g]
    {
      if g == h {
        assert r in more && About(r, g);
      } else if x :| x in done && About(x, g) && m'[g] == EndpointState(m[g].index, x.state, x.picker, true) {
        assert x in more;
      }
    }
  }

  /** No two reports speak about the same endpoint. */
  ghost predicate OneEach(reports: set<ES.Report>) {
    forall h, r, x :: r in reports && x in reports && About(r, h) && About(x, h) ==> r == x
  }

  /** The endpoint map with the states in the reports. */
  ghost function Merged(m: Endpoints, reports: set<ES.Report>): Endpoints {
    map h | h in m ::
      if exists r :: r in reports && About(r, h)
      then var r :| r in reports && About(r, h); EndpointState(m[h].index, r.state, r.picker, true)
      else m[h]
  }

  /** The order of the reports plays no part. */
  lemma AppliedIsMerged(m': Endpoints, m: Endpoints, reports: set<ES.Report>)
    requires Applied(m', m, reports) && OneEach(reports)
    ensures m' == Merged(m, reports)
  {
    hide About;
  }

  /** No two children have the same hostname. */
  ghost predicate Named(children: map<Bytes, ES.Child>) {
    forall k, l ::
      (k in children && l in children && children[k].endpoint.addrs != [] && children[l].endpoint.addrs != [] &&
       ES.Host(children[k].endpoint) == ES.Host(children[l].endpoint)) ==> k == l
  }

  lemma NamedReportOnce(children: map<Bytes, ES.Child>)
    requires Named(children)
    ensures OneEach(ES.ReportsOf(children))
  {
    hide ES.Host;
  }

  lemma ChangedStaysNamed(children: map<Bytes, ES.Child>, k: Bytes, state: Connectivity, picker: Option<int>)
    requires Named(children)
    ensures Named(ES.Changed(children, k, state, picker))
  {
    hide ES.Host;
  }

  lemma ListedAreNamed(m: Endpoints, es: seq<ES.Endpoint>, children: map<Bytes, ES.Child>)
    requires Lists(m, es)
    requires forall k :: k in children ==> children[k].endpoint in es && EM.Key(children[k].endpoint.addrs) == k
    ensures Named(children)
  {
    hide EM.Key, ES.Host;
    forall k, l | k in children && l in children &&
                  children[k].endpoint.addrs != [] && children[l].endpoint.addrs != [] &&
                  ES.Host(children[k].endpoint) == ES.Host(children[l].endpoint)
      ensures k == l
    {
      var i :| 0 <= i < |es| && es[i] == children[k].endpoint;
      var j :| 0 <= j < |es| && es[j] == children[l].endpoint;
      assert m[ES.Host(es[i])].index == i && m[ES.Host(es[j])].index == j;
    }
  }

  // ---------------------------------------------------------------- every run

  /** `Begin`, `Inline`, `Apply` and `End` are the stages of one `UpdateClientConnState`; child states and
      the sharding client's callbacks may come between any two of them. */
  datatype Event =
    | Begin(endpoints: seq<ES.Endpoint>)
    | Inline(rotation: nat, states: map<Bytes, (Connectivity, Option<int>)>)
    | Apply(cfg: Config, provider: Provider, target: int)
    | End
    | ChildChange(key: Bytes, state: Connectivity, picker: Option<int>)
    | AssignmentResult(gen: nat, assignment: Option<S.Assignment>)
    | ResolverFails
    | Shut

  datatype Stage = Quiet | Begun | Reported | Applying

  /** All there is to know about the policy: the index it caches is not part of it. */
  datatype View = View(
    life: Life, ledger: Ledger, installedGen: nat, resolverErr: bool, assignment: Option<S.Assignment>, failed: bool,
    endpoints: Endpoints, closed: bool, stage: Stage, filtered: seq<ES.Endpoint>,
    children: map<Bytes, ES.Child>, nextId: nat, childrenClosed: set<nat>)

  ghost predicate Accounted(v: View) {
    Balanced(v.ledger, v.life) && (forall i :: 0 <= i < |v.filtered| ==> v.filtered[i].addrs != [])
  }

  ghost function Init(): (v: View)
    ensures Accounted(v)
  {
    View(NO_LIFE, NO_LEDGER, 0, false, None, false, map[], false, Quiet, [], map[], 0, {})
  }

  ghost function Configured(v: View, cfg: Config, provider: Provider, target: int): (w: View)
    requires Accounted(v)
    ensures Accounted(w)
  {
    var rejected := Rejected(v.endpoints, provider);
    var life := NextLife(v.life, rejected, provider, cfg, target);
    assert Succeeds(v.life, life) by { NextSucceeds(v.ledger, v.life, rejected, provider, cfg, target); }
    v.(life := life, ledger := Account(v.ledger, v.life, life), resolverErr := rejected,
       assignment := if rejected then None else v.assignment, failed := v.failed && !rejected, stage := Applying)
  }

  lemma NextSucceeds(l: Ledger, was: Life, rejected: bool, provider: Provider, cfg: Config, target: int)
    requires Balanced(l, was)
    ensures Succeeds(was, NextLife(was, rejected, provider, cfg, target))
  {
  }

  ghost function Shutting(v: View): (w: View)
    requires Accounted(v)
    ensures Accounted(w)
  {
    assert Succeeds(v.life, Ended(v.life)) by { EndedSucceeds(v.ledger, v.life); }
    v.(life := Ended(v.life), ledger := Account(v.ledger, v.life, Ended(v.life)), resolverErr := false,
        assignment := None, failed := false,
       endpoints := map[], closed := true, childrenClosed := v.childrenClosed + ES.Ids(v.children, v.children.Keys))
  }

  ghost function Beginning(v: View, es: seq<ES.Endpoint>): View {
    v.(filtered := Filtered(es), endpoints := Listed(v.endpoints, Filtered(es)), stage := Begun)
  }

  ghost function Inlined(v: View, rotation: nat, states: map<Bytes, (Connectivity, Option<int>)>): View
    requires rotation <= |v.filtered|
  {
    var (children, nextId) := ES.ChildrenFor(ES.Rotate(v.filtered, rotation), v.children, states, v.nextId);
    v.(children := children, nextId := nextId, childrenClosed := v.childrenClosed + ES.Dropped(v.children, children),
       endpoints := Merged(v.endpoints, ES.ReportsOf(children)), stage := Reported)
  }

  ghost function ChildChanged(v: View, key: Bytes, state: Connectivity, picker: Option<int>): View {
    var children := ES.Changed(v.children, key, state, picker);
    v.(children := children, endpoints := if v.closed then v.endpoints else Merged(v.endpoints, ES.ReportsOf(children)))
  }

  predicate Current(v: View, gen: nat) {
    !v.closed && gen == v.life.gen
  }

  /** An event that the balancer API rules out at this point changes nothing. */
  ghost function Next(v: View, e: Event): (w: View)
    requires Accounted(v)
    ensures Accounted(w)
  {
    match e
    case Begin(es) => if v.stage == Quiet && !v.closed then Beginning(v, es) else v
    case Inline(rotation, states) =>
      if v.stage == Begun && rotation <= |v.filtered| then Inlined(v, rotation, states) else v
    case Apply(cfg, provider, target) => if v.stage == Reported then Configured(v, cfg, provider, target) else v
    case End => if v.stage == Applying then v.(stage := Quiet) else v
    case ChildChange(key, state, picker) => ChildChanged(v, key, state, picker)
    case AssignmentResult(gen, a) =>
      if Current(v, gen) then v.(assignment := a, failed := a.None?, installedGen := gen) else v
    case ResolverFails =>
      if v.stage == Quiet && !v.closed && (|v.endpoints| == 0 || v.life.client.None?)
      then v.(resolverErr := true)
      else v
    case Shut => if v.stage == Quiet && !v.closed then Shutting(v) else v
  }

  ghost function Run(v: View, events: seq<Event>): (w: View)
    requires Accounted(v)
    ensures Accounted(w)
  {
    if events == [] then v else Next(Run(v, events[..|events| - 1]), events[|events| - 1])
  }

  /** Goes through a list of events one by one. */
  lemma {:induction false} RunNext(v: View, events: seq<Event>, n: nat, before: View)
    requires n < |events| && Accounted(v) && Run(v, events[..n]) == before
    ensures Run(v, events[..n + 1]) == Next(before, events[n])
  {
    hide Next, Accounted;
    assert events[..n + 1][..n] == events[..n];
  }

  /** A resolver update that is let through takes effect: the endpoints are the filtered ones, and there is a client
      exactly if there is an endpoint and a channel factory. */
  lemma UpdateTakesEffect(v: View, es: seq<ES.Endpoint>, rotation: nat, states: map<Bytes, (Connectivity, Option<int>)>,
                          cfg: Config, provider: Provider, target: int)
    requires Accounted(v) && v.stage == Quiet && !v.closed && rotation <= |Filtered(es)|
    ensures var w := Run(v, [Begin(es), Inline(rotation, states), Apply(cfg, provider, target), End]);
            && w.stage == Quiet && !w.closed && w.filtered == Filtered(es)
            && w.endpoints.Keys == Listed(v.endpoints, Filtered(es)).Keys
            && (w.resolverErr <==> w.endpoints == map[] || provider.Missing?)
            && (w.life.client.Some? <==> !w.resolverErr)
            && (!w.resolverErr ==> w.life.cfg == cfg && w.life.target == target && w.assignment == v.assignment)
            && (w.resolverErr ==> w.assignment.None? && !w.failed)
  {
    hide Run, Listed, Filtered, Merged, ES.ChildrenFor, ES.ReportsOf, ES.Dropped, ES.Rotate, Account;
    var events := [Begin(es), Inline(rotation, states), Apply(cfg, provider, target), End];
    RunNone(v, events);
    RunNext(v, events, 0, v);
    var v1 := Next(v, events[0]);
    RunNext(v, events, 1, v1);
    var v2 := Next(v1, events[1]);
    MergedKeys(v1.endpoints, ES.ReportsOf(v2.children));
    RunNext(v, events, 2, v2);
    RunNext(v, events, 3, Next(v2, events[2]));
    assert events[..4] == events;
    assert |v2.endpoints| == 0 <==> v2.endpoints == map[];
  }

  lemma RunNone(v: View, events: seq<Event>)
    requires Accounted(v)
    ensures Run(v, events[..0]) == v
  {
  }

  lemma MergedKeys(m: Endpoints, reports: set<ES.Report>)
    ensures Merged(m, reports).Keys == m.Keys
  {
    hide About;
  }

  /** A result of the current client is installed and answered, any other is not; a resolver's error is kept exactly
      without endpoints or client. */
  lemma ResultTakesEffect(v: View, gen: nat, a: Option<S.Assignment>)
    requires Accounted(v)
    ensures var e := AssignmentResult(gen, a);
            var w := Next(v, e);
            if !v.closed && gen == v.life.gen
            then Speaks(v, e) && w == v.(assignment := a, failed := a.None?, installedGen := gen)
            else !Speaks(v, e) && w == v
    ensures var w := Next(v, ResolverFails);
            && w == v.(resolverErr := w.resolverErr)
            && (v.stage == Quiet && !v.closed ==>
                  (w.resolverErr <==> v.resolverErr || v.endpoints == map[] || v.life.client.None?))
  {
    assert |v.endpoints| == 0 <==> v.endpoints == map[];
  }

  /** A child's new state is the state of its endpoint. */
  lemma ChildTakesEffect(v: View, key: Bytes, state: Connectivity, picker: Option<int>)
    requires Accounted(v) && !v.closed && Named(v.children) && key in v.children
    requires v.children[key].endpoint.addrs != [] && ES.Host(v.children[key].endpoint) in v.endpoints
    ensures var h := ES.Host(v.children[key].endpoint);
            var w := Next(v, ChildChange(key, state, picker));
            && Speaks(v, ChildChange(key, state, picker))
            && w.endpoints.Keys == v.endpoints.Keys
            && w.endpoints[h] == EndpointState(v.endpoints[h].index, state, picker, true)
  {
    hide ES.Host, Named;
    var h := ES.Host(v.children[key].endpoint);
    var children := ES.Changed(v.children, key, state, picker);
    var r := ES.Report(children[key].endpoint, state, picker);
    ChangedStaysNamed(v.children, key, state, picker);
    NamedReportOnce(children);
    assert r in ES.ReportsOf(children) && About(r, h);
    MergedKeys(v.endpoints, ES.ReportsOf(children));
  }

  ghost predicate Final(v: View) {
    && v.closed && v.stage == Quiet && v.endpoints == map[] && v.assignment.None? && v.life.client.None?
    && forall e :: !Speaks(v, e)
  }

  lemma StaysFinal(v: View, e: Event)
    requires Accounted(v) && Final(v)
    ensures Final(Next(v, e)) && Next(v, e).ledger == v.ledger
  {
    hide Account, Accounted;
  }

  /** Nothing is published after Close, whatever happens, and nothing comes back. */
  lemma {:induction false} CloseIsFinal(v: View, events: seq<Event>)
    requires Accounted(v) && v.stage == Quiet && !v.closed
    ensures var w := Run(Next(v, Shut), events);
            Final(w) && w.ledger == Next(v, Shut).ledger
    decreases |events|
  {
    hide Next, Accounted, Final;
    if events == [] {
      ShutIsFinal(v);
    } else {
      CloseIsFinal(v, events[..|events| - 1]);
      StaysFinal(Run(Next(v, Shut), events[..|events| - 1]), events[|events| - 1]);
    }
  }

  lemma ShutIsFinal(v: View)
    requires Accounted(v) && v.stage == Quiet && !v.closed
    ensures Final(Next(v, Shut))
  {
    hide Account;
  }

  /** The events after which the balancer may publish. */
  predicate Speaks(v: View, e: Event) {
    match e
    case Inline(rotation, _) => v.stage == Begun && rotation <= |v.filtered|
    case End => v.stage == Applying
    case ChildChange(_, _, _) => !v.closed
    case AssignmentResult(gen, _) => Current(v, gen)
    case _ => false
  }

  /** What is published after an event. */
  ghost predicate Answers(v: View, e: Event, out: Option<Publication>)
    requires Accounted(v)
  {
    var w := Next(v, e);
    if !Speaks(v, e) then out.None?
    else
      var fallback := w.life.cfg.enableFallback;
      Shown(w.stage != Quiet, w.resolverErr, w.assignment, w.failed, w.endpoints, fallback, out)
  }

  // ---------------------------------------------------------------- the objects take these steps

  lemma ReportedExitable(m': Endpoints, m: Endpoints, es: seq<ES.Endpoint>, children: map<Bytes, ES.Child>)
    requires ES.Separable(es) && Lists(m, es) && Applied(m', m, ES.ReportsOf(children))
    requires forall e :: e in es && e.addrs != [] ==> EM.Key(e.addrs) in children
    requires forall k :: k in children ==> children[k].endpoint in es && EM.Key(children[k].endpoint.addrs) == k
    ensures Exitable(m')
  {
    hide EM.Key, ES.Host;
    forall h | h in m'
      ensures m'[h].exitIdle
    {
      ES.EveryEndpointReported(es, children, m[h].index);
      var r :| r in ES.ReportsOf(children) && r.endpoint == es[m[h].index];
      assert About(r, h);
    }
  }

  /** The balancer together with its child, and the stage of the resolver update in progress. */
  class Policy {
    const b: Balancer
    const child: ES.Balancer
    var stage: Stage
    var filtered: seq<ES.Endpoint>

    ghost predicate Valid()
      reads this, b, child
    {
      && b.Valid() && child.Valid() && Named(child.children) && Accounted(Look())
      && (stage == Quiet <==> !b.inhibitChildUpdates)
      && (stage == Begun ==> ES.Separable(filtered) && Lists(b.endpointMap, filtered))
      && (stage != Begun ==> Exitable(b.endpointMap))
      && (b.closed ==> stage == Quiet) && child.shut == b.closed
    }

    ghost function Look(): View
      reads this, b, child
    {
      View(b.life, b.ledger, b.installedGen, b.lastResolverErr, b.assignment, b.assignmentErr, b.endpointMap, b.closed,
          stage, filtered,
           child.children, child.nextId, child.closed)
    }

    constructor ()
      ensures Valid() && fresh(b) && fresh(child) && Look() == Init()
    {
      b := new Balancer();
      child := new ES.Balancer();
      stage, filtered := Quiet, [];
    }

    /** The child's update with the filtered endpoints, which reports inline. */
    method ReportInline(rotation: nat, states: map<Bytes, (Connectivity, Option<int>)>)
      returns (out: Option<Publication>)
      requires Valid() && stage == Begun && rotation <= |filtered|
      modifies this, b, child
      ensures Valid() && Exitable(b.endpointMap) && Look() == Inlined(old(Look()), rotation, states)
      ensures Shown(stage != Quiet, b.lastResolverErr, b.assignment, b.assignmentErr, b.endpointMap,
                b.life.cfg.enableFallback, out)
    {
      hide Lists, ES.Separable, Exitable, Shown, Bijective, CacheAgrees, Balanced, Applied, ES.Keyed, EM.Key,
        ES.ChildrenFor, ES.ReportsOf, Merged, Named, ES.Inherits, ES.Dropped;
      ghost var before := b.endpointMap;
      var reports := child.UpdateClientConnState(filtered, rotation, states);
      ReportsHaveAddresses(child.children, child.nextId);
      out := b.UpdateState(reports);
      ReportedExitable(b.endpointMap, before, filtered, child.children);
      ListedAreNamed(before, filtered, child.children);
      NamedReportOnce(child.children);
      AppliedIsMerged(b.endpointMap, before, reports);
      stage := Reported;
    }

    /** A child reports a new state of its own. */
    method ReportLater(key: Bytes, state: Connectivity, picker: Option<int>) returns (out: Option<Publication>)
      requires Valid()
      modifies this, b, child
      ensures Valid() && b.closed == old(b.closed) && Look() == ChildChanged(old(Look()), key, state, picker)
      ensures if b.closed then out.None?
              else Shown(stage != Quiet, b.lastResolverErr, b.assignment, b.assignmentErr, b.endpointMap,
                  b.life.cfg.enableFallback, out)
    {
      hide Lists, ES.Separable, Exitable, Shown, Bijective, CacheAgrees, Balanced, Applied, ES.Keyed, EM.Key,
        ES.Changed, ES.ReportsOf, Merged, Named;
      ghost var before := b.endpointMap;
      ChangedStaysNamed(child.children, key, state, picker);
      var reports := child.ChildUpdate(key, state, picker);
      out := None;
      if reports.Some? {
        ReportsHaveAddresses(child.children, child.nextId);
        out := b.UpdateState(reports.value);
        ChildChangeKeeps(b.endpointMap, before, filtered, reports.value);
        NamedReportOnce(child.children);
        AppliedIsMerged(b.endpointMap, before, reports.value);
      }
    }

    /** The first stage of a resolver update. */
    method BeginUpdate(es: seq<ES.Endpoint>)
      requires Valid() && stage == Quiet && !b.closed
      modifies this, b
      ensures Valid() && Look() == Beginning(old(Look()), es)
    {
      hide Lists, ES.Separable, Exitable, Bijective, CacheAgrees, Balanced, ES.Keyed, Named, Filtered, Listed;
      filtered := b.HandleNewEndpoints(es);
      stage := Begun;
    }

    /** The third: the configuration. */
    method ApplyConfig(cfg: Config, provider: Provider, target: int)
      requires Valid() && stage == Reported
      modifies this, b
      ensures Valid() && Look() == Configured(old(Look()), cfg, provider, target)
    {
      hide Lists, ES.Separable, Exitable, Bijective, CacheAgrees, Balanced, ES.Keyed, Named, NextLife, Account,
        Succeeds, Rejected;
      b.HandleNewConfiguration(cfg, provider, target);
      stage := Applying;
    }

    method Shut()
      requires Valid() && stage == Quiet && !b.closed
      modifies this, b, child
      ensures Valid() && Look() == Shutting(old(Look()))
    {
      hide Lists, ES.Separable, Bijective, CacheAgrees, Balanced, ES.Keyed, ES.Accounts, ES.Ids, Named, Account,
        Succeeds;
      b.Close();
      child.Close();
    }

    /** One event: the fields change as `Next` says, and what is published is what `Answers` says. */
    method Handle(e: Event) returns (out: Option<Publication>)
      requires Valid() && (e.AssignmentResult? && e.assignment.Some? ==> S.WellFormed(e.assignment.value))
      modifies this, b, child
      ensures Valid() && Accounted(old(Look())) && Look() == Next(old(Look()), e) && Answers(old(Look()), e, out)
    {
      hide Lists, ES.Separable, Exitable, Shown, Bijective, CacheAgrees, Balanced, ES.Keyed, Named, Beginning, Inlined,
        Configured, ChildChanged, Shutting, S.WellFormed;
      out := None;
      match e {
        case Begin(es) => if stage == Quiet && !b.closed { BeginUpdate(es); }
        case Inline(rotation, states) =>
          if stage == Begun && rotation <= |filtered| { out := ReportInline(rotation, states); }
        case Apply(cfg, provider, target) => if stage == Reported { ApplyConfig(cfg, provider, target); }
        case End => if stage == Applying { out := b.EndUpdate(); stage := Quiet; }
        case ChildChange(key, state, picker) => out := ReportLater(key, state, picker);
        case AssignmentResult(gen, a) => out := b.OnAssignment(gen, a);
        case ResolverFails => if stage == Quiet && !b.closed { b.ResolverError(); }
        case Shut => if stage == Quiet && !b.closed { Shut(); }
      }
    }
  }

  /** Nothing is open that was not opened, and nothing at all once the balancer is closed; every child ever created is
      in use or closed, and all are closed once the balancer is; the results in use do not come from a later client
      than the current one. */
  ghost predicate Safe(v: View) {
    && v.ledger.openClients <= v.ledger.clients && v.ledger.openChannels <= v.ledger.channels &&
         v.installedGen <= v.life.gen
    && (v.closed ==> v.ledger.openClients == {} && v.ledger.openChannels == {})
    && ES.Accounts(v.children, v.nextId, v.childrenClosed, v.closed)
    && (v.closed ==> forall i: nat :: i in v.childrenClosed <==> i < v.nextId)
    && Bijective(v.endpoints) && (v.stage != Begun ==> Exitable(v.endpoints))
  }

  ghost predicate Legal(events: seq<Event>) {
    forall i :: 0 <= i < |events| && events[i].AssignmentResult? && events[i].assignment.Some? ==>
        S.WellFormed(events[i].assignment.value)
  }

  /** Over every sequence of events: `outs[n]`, what is published after event `n`, is exactly what the events up to
      there ask for, and the books are in order. */
  method AnyRun(events: seq<Event>) returns (outs: seq<Option<Publication>>, ghost v: View)
    requires Legal(events)
    ensures v == Run(Init(), events) && Safe(v)
    ensures |outs| == |events| && forall n :: 0 <= n < |events| ==>
              Answers(Run(Init(), events[..n]), events[n], outs[n])
  {
    hide Safe, Next, Answers, Accounted, Balancer.Valid, ES.Balancer.Valid, Policy.Valid, S.WellFormed;
    var p := new Policy();
    outs := [];
    for n := 0 to |events|
      invariant fresh(p) && fresh(p.b) && fresh(p.child) && p.Valid() && p.Look() == Run(Init(), events[..n])
      invariant |outs| == n && forall i :: 0 <= i < n ==> Answers(Run(Init(), events[..i]), events[i], outs[i])
    {
      assert events[..n + 1][..n] == events[..n];
      var out := p.Handle(events[n]);
      outs := outs + [out];
    }
    assert events[..|events|] == events;
    v := p.Look();
    ValidIsSafe(p);
  }

  lemma ValidIsSafe(p: Policy)
    requires p.Valid()
    ensures Safe(p.Look())
  {
    NothingOpen(p.b.ledger, p.b.life);
    if p.b.closed {
      ES.ShutMeansAll(p.child.children, p.child.nextId, p.child.closed);
    }
  }

  /** The events decide what is published. */
  lemma PublishedIsUnique(events: seq<Event>, n: nat, out: Option<Publication>, out': Option<Publication>)
    requires n < |events|
    requires Answers(Run(Init(), events[..n]), events[n], out) && Answers(Run(Init(), events[..n]), events[n], out')
    ensures out == out'
  {
    hide Shown, Run, Accounted;
    var v := Run(Init(), events[..n]);
    if Speaks(v, events[n]) {
      var w := Next(v, events[n]);
      ShownIsUnique(w.stage != Quiet, w.resolverErr, w.assignment, w.failed, w.endpoints, w.life.cfg.enableFallback,
          out, out');
    }
  }

  /** Client generations, and the generation of the client whose result is installed, never go back over a run. */
  lemma {:induction false} GenerationsAdvance(events: seq<Event>, n: nat)
    requires n <= |events|
    ensures var v, w := Run(Init(), events[..n]), Run(Init(), events);
            v.life.gen <= w.life.gen && v.installedGen <= w.installedGen <= w.life.gen
    decreases |events|
  {
    hide Next, Accounted;
    if events == [] {
    } else if n == |events| {
      assert events[..n] == events;
      GenerationsAdvance(events[..n - 1], n - 1);
      GenerationStep(Run(Init(), events[..n - 1]), events[n - 1]);
    } else {
      var last := |events| - 1;
      GenerationsAdvance(events[..last], n);
      assert events[..last][..n] == events[..n];
      GenerationStep(Run(Init(), events[..last]), events[last]);
    }
  }

  lemma GenerationStep(v: View, e: Event)
    requires Accounted(v) && v.installedGen <= v.life.gen
    ensures var w := Next(v, e);
            v.life.gen <= w.life.gen && v.installedGen <= w.installedGen <= w.life.gen
    ensures Next(v, e).installedGen != v.installedGen ==> e.AssignmentResult? && e.gen == v.life.gen
  {
    hide Balanced, Account, Merged, Filtered, Listed;
  }

  lemma ReportsHaveAddresses(children: map<Bytes, ES.Child>, limit: nat)
    requires ES.Keyed(children, limit)
    ensures forall r :: r in ES.ReportsOf(children) ==> r.endpoint.addrs != []
    ensures forall k :: k in children ==> EM.Key(children[k].endpoint.addrs) == k
  {
    hide EM.Key;
  }

  lemma ChildChangeKeeps(m': Endpoints, m: Endpoints, es: seq<ES.Endpoint>, reports: set<ES.Report>)
    ensures (m' == m || Applied(m', m, reports)) && Lists(m, es) ==> Lists(m', es)
    ensures (m' == m || Applied(m', m, reports)) && Exitable(m) ==> Exitable(m')
  {
    hide About, ES.Host;
    assert m'.Keys == m.Keys ==> |m'| == |m'.Keys| == |m.Keys| == |m|;
  }

  // ---------------------------------------------------------------- what a call sees

  /** A call with key `k` through any picker that was ever published.  With an assignment, it goes by
      the one slice that owns `k`: rejected if the server assigned no endpoint to it; otherwise to an
      endpoint of that slice that the resolver knows, or, when all of them are failing and fallback is
      on, to any endpoint.  The "no assignment" answer is never given. */
  method Route(p: Publication, k: Bytes, rnd: nat) returns (out: Outcome, woken: Option<nat>)
    requires Good(p) && p.Routing?
    ensures out != NoAssignment
    ensures p.assignment.None? ==> Scanned(p.picker, seq(|p.endpoints|, i => i), out, woken)
    ensures p.assignment.Some? ==>
              exists i :: S.Owns(p.assignment.value.slices, i, k) && Served(p, i, out, woken)
  {
    RouteFacts(p);
    hide Good, Scanned, S.WellFormed, UsablePicker, Served, PickedIn, Owns, S.Owns;
    out, woken := Pick(p.picker, Some(k), rnd);
    if p.assignment.Some? {
      ghost var i :| Owns(p.picker.sm.slices, i, k) && PickedIn(p.picker, i, out, woken);
      ServedBy(p, k, i, out, woken);
    }
  }

  lemma RouteFacts(p: Publication)
    requires Good(p) && p.Routing?
    ensures UsablePicker(p.picker) && p.picker.sm.fallbackPool == seq(|p.endpoints|, i => i)
    ensures p.picker.sm.slices == [] <==> p.assignment.None?
    ensures p.assignment.None? ==> p.picker.enableFallback
    ensures p.assignment.Some? ==> InRange(p.assignment.value)
  {
    IndexesSize(p.endpoints);
    FromScratchUsable(Indexes(p.endpoints), p.assignment);
  }

  lemma ServedBy(p: Publication, k: Bytes, i: int, out: Outcome, woken: Option<nat>)
    requires Good(p) && p.Routing? && p.assignment.Some? && InRange(p.assignment.value)
    requires Owns(p.picker.sm.slices, i, k) && PickedIn(p.picker, i, out, woken)
    ensures S.Owns(p.assignment.value.slices, i, k) && Served(p, i, out, woken)
    ensures out != NoAssignment
  {
    hide Less, Scanned, Known;
    IndexesSize(p.endpoints);
    var known := Known(Indexes(p.endpoints), p.assignment.value.names, p.assignment.value.slices[i].endpoints);
    assert p.picker.sm.slices[i] == EntryFor(Indexes(p.endpoints), p.assignment.value.names,
        p.assignment.value.slices[i]);
    assert p.picker.inFallback[i] == AllFailing(known, p.picker.endpoints);
    assert out != NoAssignment by { ScannedAssigned(p.picker, out, woken); }
  }

  lemma ScannedAssigned(p: Picker, out: Outcome, woken: Option<nat>)
    ensures forall pool :: Scanned(p, pool, out, woken) ==> out != NoAssignment
  {
  }

  ghost predicate Served(p: Publication, i: int, out: Outcome, woken: Option<nat>)
    requires p.Routing? && p.assignment.Some? && InRange(p.assignment.value) && 0 <= i < |p.assignment.value.slices|
  {
    var sl := p.assignment.value.slices[i];
    var known := Known(Indexes(p.endpoints), p.assignment.value.names, sl.endpoints);
    if sl.fallbackDisabled then out == FallbackDisabled
    else Scanned(p.picker,
                 if AllFailing(known, p.picker.endpoints) && p.picker.enableFallback
                 then seq(|p.endpoints|, j => j)
                 else known,
                 out, woken)
  }

  function Everyone(p: Publication): seq<nat>
    requires p.Routing?
  {
    seq(|p.endpoints|, j => j)
  }

  /** The answer for key `k`, in terms of what the server sent.  Where a slice that survived covers the key: rejected
      if it names no endpoint, and otherwise one of its endpoints that the resolver knows, or any endpoint if all of
      them fail and fallback is on. Where none does: any endpoint if fallback is on, and otherwise none. */
  ghost predicate ServedAs(p: Publication, u: S.Update, k: Bytes, out: Outcome, woken: Option<nat>)
    requires p.Routing?
  {
    var names := S.AllNames(u.chunks);
    && (forall s :: S.Survives(u.chunks, s) && S.Covers(s, k) ==>
          && S.IndicesBelow(s.endpoints, |names|)
          && var known := Known(Indexes(p.endpoints), names, s.endpoints);
             var fallback := AllFailing(known, p.picker.endpoints) && p.picker.enableFallback;
             if s.endpoints == [] then out == FallbackDisabled
             else Scanned(p.picker, if fallback then Everyone(p) else known, out, woken))
    && ((forall s :: S.Survives(u.chunks, s) ==> !S.Covers(s, k)) ==>
          Scanned(p.picker, if p.picker.enableFallback then Everyone(p) else [], out, woken))
  }

  /** From the server's messages to the endpoint of a call: through any published picker whose assignment reports the
      update `u`. */
  method RouteByServer(p: Publication, ghost u: S.Update, k: Bytes, rnd: nat) returns (out: Outcome, woken: Option<nat>)
    requires Good(p) && p.Routing? && p.assignment.Some? && S.Reports(p.assignment.value, u)
    ensures out != NoAssignment && ServedAs(p, u, k, out, woken)
  {
    hide Good, ServedAs, Served, S.Reports, Scanned, Less;
    RouteFacts(p);
    out, woken := Route(p, k, rnd);
    ghost var i :| S.Owns(p.assignment.value.slices, i, k) && Served(p, i, out, woken);
    ServedByServer(p, u, k, i, out, woken);
  }

  lemma ServedByServer(p: Publication, u: S.Update, k: Bytes, i: int, out: Outcome, woken: Option<nat>)
    requires p.Routing? && p.assignment.Some? && InRange(p.assignment.value) && S.Reports(p.assignment.value, u)
    requires S.Owns(p.assignment.value.slices, i, k) && Served(p, i, out, woken)
    ensures ServedAs(p, u, k, out, woken)
  {
    hide Scanned, S.Covers, S.Survives, Less;
    var sl := p.assignment.value.slices[i];
    assert S.FromServer(sl, u.chunks, k);
    assert Known(Indexes(p.endpoints), p.assignment.value.names, []) == [];
  }

  // ---------------------------------------------------------------- from the server to the pickers

  /** All results with an assignment carry one of these. */
  ghost predicate FedBy(events: seq<Event>, reported: seq<S.Assignment>) {
    forall i :: 0 <= i < |events| && events[i].AssignmentResult? && events[i].assignment.Some? ==>
        events[i].assignment.value in reported
  }

  lemma {:induction false} AssignmentWasReported(events: seq<Event>, reported: seq<S.Assignment>)
    requires FedBy(events, reported)
    ensures var a := Run(Init(), events).assignment; a.Some? ==> a.value in reported
  {
    hide Next, Accounted;
    if events != [] {
      var before, last := events[..|events| - 1], events[|events| - 1];
      AssignmentWasReported(before, reported);
      NextAssignment(Run(Init(), before), last);
    }
  }

  lemma NextAssignment(v: View, e: Event)
    requires Accounted(v)
    ensures var a := Next(v, e).assignment; a.None? || a == v.assignment || (e.AssignmentResult? && a == e.assignment)
  {
    hide Balanced, Account, Merged, Filtered, Listed;
  }

  lemma ReportedIsLegal(events: seq<Event>, reported: seq<S.Assignment>, due: seq<S.Update>)
    requires FedBy(events, reported) && |reported| == |due| && forall i :: 0 <= i < |due| ==>
               S.Reports(reported[i], due[i])
    ensures Legal(events)
  {
    hide S.WellFormed;
  }

  lemma PublishedWasReported(events: seq<Event>, reported: seq<S.Assignment>, n: nat, out: Option<Publication>)
    requires FedBy(events, reported) && n < |events| && Answers(Run(Init(), events[..n]), events[n], out)
    requires out.Some? && out.value.Routing? && out.value.assignment.Some?
    ensures out.value.assignment.value in reported
  {
    hide Next, Accounted, Good;
    assert events[..n + 1][..n] == events[..n];
    AssignmentWasReported(events[..n + 1], reported);
  }

  /** Whatever the server sends, and whatever else happens when: every routing picker with an assignment carries what
      one of the server's updates that were due said of every key.  `events` says what happens, given the assignments
      the client reports. */
  method AnyService(msgs: seq<S.Message>, events: seq<S.Assignment> -> seq<Event>)
    returns (reported: seq<S.Assignment>, outs: seq<Option<Publication>>, ghost v: View)
    requires forall r :: FedBy(events(r), r)
    ensures v == Run(Init(), events(reported)) && Safe(v) && |outs| == |events(reported)|
    ensures forall n :: 0 <= n < |outs| ==> Answers(Run(Init(), events(reported)[..n]), events(reported)[n], outs[n])
    ensures forall n :: 0 <= n < |outs| && outs[n].Some? && outs[n].value.Routing? && outs[n].value.assignment.Some? ==>
              exists i :: 0 <= i < |S.Due(msgs)| && S.Reports(outs[n].value.assignment.value, S.Due(msgs)[i])
  {
    hide *;
    reported := S.AnyStream(msgs);
    ReportedIsLegal(events(reported), reported, S.Due(msgs));
    outs, v := AnyRun(events(reported));
    forall n | 0 <= n < |outs| && outs[n].Some? && outs[n].value.Routing? && outs[n].value.assignment.Some?
      ensures exists i :: 0 <= i < |S.Due(msgs)| && S.Reports(outs[n].value.assignment.value, S.Due(msgs)[i])
    {
      PublishedWasReported(events(reported), reported, n, outs[n]);
      var i :| 0 <= i < |reported| && reported[i] == outs[n].value.assignment.value;
      assert S.Reports(outs[n].value.assignment.value, S.Due(msgs)[i]);
    }
  }
}
