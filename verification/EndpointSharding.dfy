/** One child policy per distinct set of addresses (`endpointsharding.go`). */
module EndpointSharding {

  import opened Wrappers
  import opened ByteOrder
  import EM = EndpointMap
  import opened SliceMap

  datatype Endpoint = Endpoint(addrs: seq<Bytes>, hostname: Bytes)

  /** `hostnameFromEndpoint`. */
  function Host(e: Endpoint): Bytes
    requires e.addrs != []
  {
    if e.hostname != [] then e.hostname else e.addrs[0]
  }

  /** An endpoint goes by its hostname if it has one, and by its first address if not. */
  lemma HostMeans(e: Endpoint)
    requires e.addrs != []
    ensures e.hostname != [] ==> Host(e) == e.hostname
    ensures e.hostname == [] ==> Host(e) == e.addrs[0]
  {
  }

  datatype Child = Child(id: nat, endpoint: Endpoint, state: Connectivity, picker: Option<int>)

  /** What the parent is told about a child; `ExitIdle` is always set. */
  datatype Report = Report(endpoint: Endpoint, state: Connectivity, picker: Option<int>)

  function Rotate(es: seq<Endpoint>, r: nat): seq<Endpoint>
    requires r <= |es|
  {
    es[r..] + es[..r]
  }

  /** Endpoints that can have a child of their own: some address each, no address set twice. */
  predicate Separable(es: seq<Endpoint>) {
    && (forall i :: 0 <= i < |es| ==> es[i].addrs != [])
    && (forall i, j :: 0 <= i < j < |es| ==> EM.Key(es[i].addrs) != EM.Key(es[j].addrs))
  }

  /** `updateStateLocked` walks the children in no particular order. */
  function ReportsOf(children: map<Bytes, Child>): set<Report> {
    set k | k in children :: Report(children[k].endpoint, children[k].state, children[k].picker)
  }

  /** Children are keyed by their own addresses and have identities of their own below `limit`. */
  ghost predicate Keyed(children: map<Bytes, Child>, limit: nat) {
    && (forall k :: k in children ==>
          children[k].endpoint.addrs != [] && EM.Key(children[k].endpoint.addrs) == k && children[k].id < limit)
    && (forall k, l :: k in children && l in children && children[k].id == children[l].id ==> k == l)
  }

  /** The identity every child of `next` must have: the old one, or a new one. */
  ghost predicate Inherits(next: map<Bytes, Child>, children: map<Bytes, Child>, first: nat) {
    forall k :: k in next ==> if k in children then next[k].id == children[k].id else first <= next[k].id
  }

  /** The identities of the children under these keys. */
  ghost function Ids(children: map<Bytes, Child>, keys: set<Bytes>): set<nat> {
    set k | k in keys && k in children :: children[k].id
  }

  ghost predicate HasId(children: map<Bytes, Child>, i: nat) {
    i in Ids(children, children.Keys)
  }

  /** All identities from `first` up to `limit` are in use. */
  ghost predicate InUse(children: map<Bytes, Child>, first: nat, limit: nat) {
    forall i: nat :: first <= i < limit ==> HasId(children, i)
  }

  /** The children that no endpoint of the update belongs to. */
  ghost function Dropped(children: map<Bytes, Child>, next: map<Bytes, Child>): set<nat> {
    Ids(children, children.Keys - next.Keys)
  }

  lemma KeyedInsert(next: map<Bytes, Child>, limit: nat, children: map<Bytes, Child>, first: nat, k: Bytes, c: Child)
    requires Keyed(next, limit) && Keyed(children, first) && Inherits(next, children, first) && first <= limit &&
               k !in next
    requires c.endpoint.addrs != [] && EM.Key(c.endpoint.addrs) == k
    requires c.id == if k in children then children[k].id else limit
    ensures Keyed(next[k := c], if k in children then limit else limit + 1)
    ensures Inherits(next[k := c], children, first)
  {
    hide EM.Key;
  }

  /** Every child ever created, and only such, is in use or closed; none that is in use is closed, unless all are. */
  ghost predicate Accounts(children: map<Bytes, Child>, limit: nat, closed: set<nat>, shut: bool) {
    && (forall i: nat :: i < limit ==> i in closed || HasId(children, i))
    && (forall i :: i in closed ==> i < limit)
    && (forall k :: k in children ==> (children[k].id in closed <==> shut))
  }

  lemma StaysAccounted(next: map<Bytes, Child>, limit: nat, children: map<Bytes, Child>, first: nat, closed: set<nat>)
    requires Keyed(children, first) && Accounts(children, first, closed, false)
    requires Keyed(next, limit) && Inherits(next, children, first) && first <= limit
    requires InUse(next, first, limit)
    ensures Accounts(next, limit, closed + Dropped(children, next), false)
  {
    hide EM.Key;
    var now := closed + Dropped(children, next);
    forall i: nat | i < limit
      ensures i in now || HasId(next, i)
    {
      if i < first && i !in now {
        assert HasId(children, i);
        var k :| k in children && children[k].id == i;
        assert k in next && next[k].id == i;
      }
    }
  }

  lemma AllClosed(children: map<Bytes, Child>, limit: nat, closed: set<nat>)
    requires Keyed(children, limit) && Accounts(children, limit, closed, false)
    ensures Accounts(children, limit, closed + Ids(children, children.Keys), true)
  {
    hide EM.Key;
  }

  /** Once all are closed, the closed children are those ever created. */
  lemma ShutMeansAll(children: map<Bytes, Child>, limit: nat, closed: set<nat>)
    requires Accounts(children, limit, closed, true)
    ensures forall i: nat :: i in closed <==> i < limit
  {
  }

  /** The children for these endpoints, in order: at most one per key, the old one if there was one, in the state it
      has come to by then; and the first identity not yet given away. */
  function ChildrenFor(es: seq<Endpoint>, children: map<Bytes, Child>, states: map<Bytes, (Connectivity, Option<int>)>,
      first: nat)
    : (map<Bytes, Child>, nat)
  {
    if es == [] then (map[], first)
    else
      var (next, limit) := ChildrenFor(es[..|es| - 1], children, states, first);
      var e := es[|es| - 1];
      var k := EM.Key(e.addrs);
      if e.addrs == [] || k in next then (next, limit)
      else
        var was := if k in children then children[k] else Child(limit, e, Idle, None);
        var (state, picker) := if k in states then states[k] else (was.state, was.picker);
        (next[k := Child(was.id, e, state, picker)], if k in children then limit else limit + 1)
  }

  lemma {:induction false} OneChildEach(es: seq<Endpoint>, children: map<Bytes, Child>,
      states: map<Bytes, (Connectivity, Option<int>)>, first: nat)
    requires Keyed(children, first)
    ensures var (next, limit) := ChildrenFor(es, children, states, first);
            && limit >= first && Keyed(next, limit) && Inherits(next, children, first)
            && (forall e :: e in es && e.addrs != [] ==> EM.Key(e.addrs) in next)
            && (forall k :: k in next ==> next[k].endpoint in es)
  {
    hide EM.Key;
    if es != [] {
      var before, e := es[..|es| - 1], es[|es| - 1];
      OneChildEach(before, children, states, first);
      assert forall x :: x in es <==> x in before || x == e;
      var (next, limit) := ChildrenFor(before, children, states, first);
      var k := EM.Key(e.addrs);
      if e.addrs != [] && k !in next {
        var was := if k in children then children[k] else Child(limit, e, Idle, None);
        var (state, picker) := if k in states then states[k] else (was.state, was.picker);
        KeyedInsert(next, limit, children, first, k, Child(was.id, e, state, picker));
      }
    }
  }

  /** No identity is given away without a child. */
  lemma {:induction false} NewIdsInUse(es: seq<Endpoint>, children: map<Bytes, Child>,
      states: map<Bytes, (Connectivity, Option<int>)>, first: nat)
    ensures var (next, limit) := ChildrenFor(es, children, states, first); InUse(next, first, limit)
  {
    hide EM.Key;
    if es != [] {
      NewIdsInUse(es[..|es| - 1], children, states, first);
      var (before, limit) := ChildrenFor(es[..|es| - 1], children, states, first);
      var (next, limit') := ChildrenFor(es, children, states, first);
      var k := EM.Key(es[|es| - 1].addrs);
      assert InUse(before, first, limit);
      forall i: nat | first <= i < limit'
        ensures HasId(next, i)
      {
        if i < limit {
          assert HasId(before, i);
          var l :| l in before && before[l].id == i;
          assert l in next && next[l].id == i;
        } else {
          assert k in next && next[k].id == i;
        }
      }
    }
  }

  /** One child in a new state. */
  function Changed(children: map<Bytes, Child>, k: Bytes, state: Connectivity, picker: Option<int>): map<Bytes, Child> {
    if k in children then children[k := children[k].(state := state, picker := picker)] else children
  }

  lemma ChangedIds(children: map<Bytes, Child>, k: Bytes, state: Connectivity, picker: Option<int>)
    ensures var after := Changed(children, k, state, picker);
            after.Keys == children.Keys && Ids(after, after.Keys) == Ids(children, children.Keys)
  {
    var after := Changed(children, k, state, picker);
    assert after.Keys == children.Keys;
    assert forall l :: l in children ==> after[l].id == children[l].id;
  }

  lemma ChangedKeeps(
    children: map<Bytes, Child>, k: Bytes, state: Connectivity, picker: Option<int>, limit: nat, closed: set<nat>,
    shut: bool)
    requires Keyed(children, limit) && Accounts(children, limit, closed, shut)
    ensures var after := Changed(children, k, state, picker);
            Keyed(after, limit) && Accounts(after, limit, closed, shut)
  {
    hide EM.Key, Ids;
    ChangedIds(children, k, state, picker);
    var after := Changed(children, k, state, picker);
    assert forall l :: l in after ==> l in children && after[l].id == children[l].id;
    assert forall l :: l in after ==> after[l].endpoint == children[l].endpoint;
    assert forall i: nat :: HasId(after, i) <==> HasId(children, i);
  }

  class Balancer {
    var children: map<Bytes, Child>
    var nextId: nat

    /** The children that were closed, and whether the balancer itself was. */
    var closed: set<nat>
    var shut: bool

    ghost predicate Valid()
      reads this
    {
      Keyed(children, nextId) && Accounts(children, nextId, closed, shut)
    }

    constructor ()
      ensures Valid() && children == map[] && nextId == 0 && closed == {} && !shut
    {
      children, nextId, closed, shut := map[], 0, {}, false;
    }

    /** Children for endpoints that stay are kept, with the endpoint refreshed; new ones are created;
        the others are closed.  One report about all of them follows. */
    method UpdateClientConnState(es: seq<Endpoint>, r: nat, states: map<Bytes, (Connectivity, Option<int>)>)
      returns (out: set<Report>)
      requires Valid() && !shut && r <= |es|
      modifies this
      ensures Valid() && !shut && out == ReportsOf(children)
      ensures (children, nextId) == ChildrenFor(Rotate(es, r), old(children), states, old(nextId))
      ensures forall e :: e in es && e.addrs != [] ==> EM.Key(e.addrs) in children
      ensures forall k :: k in children ==> children[k].endpoint in es
      ensures Inherits(children, old(children), old(nextId))
      ensures closed == old(closed) + Dropped(old(children), children)
    {
      var next, limit := NextChildren(es, r, states);
      StaysAccounted(next, limit, children, nextId, closed);
      hide EM.Key, Keyed, Inherits, ReportsOf, ChildrenFor, Ids;
      CloseExcept(next.Keys);
      children, nextId := next, limit;
      out := ReportsOf(children);
    }

    /** A child is closed: it was not before. */
    method CloseChild(id: nat)
      requires id !in closed
      modifies this`closed
      ensures closed == old(closed) + {id}
    {
      closed := closed + {id};
    }

    /** The loop that closes every child but those under the keys to keep, each once. */
    method CloseExcept(keep: set<Bytes>)
      requires Keyed(children, nextId) && forall k :: k in children ==> children[k].id !in closed
      modifies this`closed
      ensures closed == old(closed) + Ids(children, children.Keys - keep)
    {
      hide EM.Key;
      var todo := children.Keys;
      while todo != {}
        invariant todo <= children.Keys && closed == old(closed) + Ids(children, children.Keys - keep - todo)
        decreases todo
      {
        var k :| k in todo;
        if k !in keep {
          CloseChild(children[k].id);
        }
        todo := todo - {k};
      }
    }

    /** The balancer is closed, with all of its children; it reports nothing after that. */
    method Close()
      requires Valid() && !shut
      modifies this`closed, this`shut
      ensures Valid() && shut && closed == old(closed) + Ids(children, children.Keys)
      ensures forall i: nat :: i in closed <==> i < nextId
    {
      hide EM.Key, Ids;
      AllClosed(children, nextId, closed);
      shut := true;
      CloseExcept({});
      assert children.Keys - {} == children.Keys;
      ShutMeansAll(children, nextId, closed);
    }

    /** The loop over the rotated endpoints. */
    method NextChildren(es: seq<Endpoint>, r: nat, states: map<Bytes, (Connectivity, Option<int>)>)
      returns (next: map<Bytes, Child>, limit: nat)
      requires Keyed(children, nextId) && r <= |es|
      ensures (next, limit) == ChildrenFor(Rotate(es, r), children, states, nextId)
      ensures limit >= nextId && Keyed(next, limit) && Inherits(next, children, nextId)
      ensures InUse(next, nextId, limit)
      ensures forall e :: e in es && e.addrs != [] ==> EM.Key(e.addrs) in next
      ensures forall k :: k in next ==> next[k].endpoint in es
    {
      hide EM.Key, Keyed, Inherits;
      next, limit := map[], nextId;
      var rotated := Rotate(es, r);
      for i := 0 to |rotated|
        invariant (next, limit) == ChildrenFor(rotated[..i], children, states, nextId)
      {
        var e := rotated[i];
        assert rotated[..i + 1][..i] == rotated[..i];
        if |e.addrs| == 0 {
          continue;
        }
        var k := EM.EncodeEndpoint(e.addrs);
        if k in next {
          continue;
        }
        var was := if k in children then children[k] else Child(limit, e, Idle, None);
        var (state, picker) := if k in states then states[k] else (was.state, was.picker);
        next := next[k := Child(was.id, e, state, picker)];
        if k !in children {
          limit := limit + 1;
        }
      }
      assert rotated[..|rotated|] == rotated;
      OneChildEach(rotated, children, states, nextId);
      NewIdsInUse(rotated, children, states, nextId);
      assert forall e :: e in es <==> e in rotated;
    }

    /** A child changes state on its own. */
    method ChildUpdate(k: Bytes, state: Connectivity, picker: Option<int>) returns (out: Option<set<Report>>)
      requires Valid()
      modifies this`children
      ensures Valid() && out == if shut then None else Some(ReportsOf(children))
      ensures children == Changed(old(children), k, state, picker) && children.Keys == old(children).Keys
      ensures forall l :: l in children ==>
                children[l] == if l == k then old(children)[l].(state := state, picker := picker) else old(children)[l]
    {
      hide EM.Key, Keyed, Accounts, ReportsOf, Ids;
      ChangedIds(children, k, state, picker);
      ChangedKeeps(children, k, state, picker, nextId, closed, shut);
      if k in children {
        children := children[k := children[k].(state := state, picker := picker)];
      }
      out := if shut then None else Some(ReportsOf(children));
    }
  }

  /** Endpoints that are separable are reported one by one, whatever the rotation was. */
  lemma EveryEndpointReported(es: seq<Endpoint>, children: map<Bytes, Child>, i: nat)
    requires Separable(es) && i < |es|
    requires forall e :: e in es && e.addrs != [] ==> EM.Key(e.addrs) in children
    requires forall k :: k in children ==> children[k].endpoint in es && EM.Key(children[k].endpoint.addrs) == k
    ensures exists r :: r in ReportsOf(children) && r.endpoint == es[i]
  {
    hide EM.Key;
    assert es[i] in es;
    var k := EM.Key(es[i].addrs);
    var l :| 0 <= l < |es| && children[k].endpoint == es[l];
    assert l == i;
    assert Report(es[i], children[k].state, children[k].picker) in ReportsOf(children);
  }
}
