/** Endpoints are keyed by their addresses, whatever the order (`resolver/map.go`): each address is
    base64-encoded (section 4 of RFC 4648), the encodings are sorted and joined with spaces. */
module EndpointMap {

  import opened Wrappers
  import opened ByteOrder

  // ---------------------------------------------------------------- base64

  const PAD: Byte := 61
  const SPACE: Byte := 32

  function Letter(v: int): (c: Byte)
    requires 0 <= v < 64
    ensures c != PAD && c != SPACE
  {
    if v < 26 then (65 + v) as Byte
    else if v < 52 then (97 + v - 26) as Byte
    else if v < 62 then (48 + v - 52) as Byte
    else if v == 62 then 43 else 47
  }

  /** The four sextets of the group of bytes `a`, `b`, `c`. */
  function Sextet(i: int, a: int, b: int, c: int): (v: int)
    requires 0 <= a < 256 && 0 <= b < 256 && 0 <= c < 256
    ensures 0 <= v < 64
  {
    if i == 0 then a / 4
    else if i == 1 then a % 4 * 16 + b / 16
    else if i == 2 then b % 16 * 4 + c / 64
    else c % 64
  }

  lemma SextetsDetermine(a: int, b: int, c: int, a': int, b': int, c': int)
    requires 0 <= a < 256 && 0 <= b < 256 && 0 <= c < 256
    requires 0 <= a' < 256 && 0 <= b' < 256 && 0 <= c' < 256
    requires Sextet(0, a, b, c) == Sextet(0, a', b', c') && Sextet(1, a, b, c) == Sextet(1, a', b', c')
    ensures a == a'
    ensures Sextet(2, a, b, c) == Sextet(2, a', b', c') ==> b == b'
    ensures Sextet(2, a, b, c) == Sextet(2, a', b', c') && Sextet(3, a, b, c) == Sextet(3, a', b', c') ==> c == c'
  {
  }

  /** The characters for one group; positions that carry no data are padding. */
  function Group(n: int, a: Byte, b: Byte, c: Byte): (r: Bytes)
    ensures |r| == 4 && SPACE !in r
  {
    [Letter(Sextet(0, a as int, b as int, c as int)),
     Letter(Sextet(1, a as int, b as int, c as int)),
     if n < 2 then PAD else Letter(Sextet(2, a as int, b as int, c as int)),
     if n < 3 then PAD else Letter(Sextet(3, a as int, b as int, c as int))]
  }

  function Encode(s: Bytes): (r: Bytes)
    ensures SPACE !in r
  {
    if |s| == 0 then []
    else if |s| == 1 then Group(1, s[0], 0, 0)
    else if |s| == 2 then Group(2, s[0], s[1], 0)
    else Group(3, s[0], s[1], s[2]) + Encode(s[3..])
  }

  /** The alphabet of section 4 of RFC 4648. */
  lemma LetterMeans(v: int)
    requires 0 <= v < 64
    ensures 'A' as int <= Letter(v) as int <= 'Z' as int <==> v < 26
    ensures 'a' as int <= Letter(v) as int <= 'z' as int <==> 26 <= v < 52
    ensures '0' as int <= Letter(v) as int <= '9' as int <==> 52 <= v < 62
    ensures (Letter(v) as int == '+' as int <==> v == 62) && (Letter(v) as int == '/' as int <==> v == 63)
    ensures v < 63 && v + 1 != 26 && v + 1 != 52 && v + 1 != 62 && v + 1 != 63 ==> Letter(v + 1) == Letter(v) + 1
  {
  }

  /** The four sextets hold the 24 bits of the group, and what carries no data is padded. */
  lemma GroupMeans(n: int, a: Byte, b: Byte, c: Byte)
    requires 1 <= n <= 3 && (n < 2 ==> b == 0) && (n < 3 ==> c == 0)
    ensures var i, j, k := a as int, b as int, c as int;
            0x10000 * i + 0x100 * j + k ==
            0x40000 * Sextet(0, i, j, k) + 0x1000 * Sextet(1, i, j, k) + 0x40 * Sextet(2, i, j, k) + Sextet(3, i, j, k)
    ensures var r := Group(n, a, b, c); (r[2] == PAD <==> n < 2) && (r[3] == PAD <==> n < 3)
  {
    hide Letter;
    var i, j, k := a as int, b as int, c as int;
    assert i == 4 * (i / 4) + i % 4 && j == 16 * (j / 16) + j % 16 && k == 64 * (k / 64) + k % 64;
  }

  lemma LetterInjective(v: int, w: int)
    requires 0 <= v < 64 && 0 <= w < 64 && Letter(v) == Letter(w)
    ensures v == w
  {
  }

  lemma GroupInjective(n: int, a: Byte, b: Byte, c: Byte, n': int, a': Byte, b': Byte, c': Byte)
    requires 1 <= n <= 3 && 1 <= n' <= 3 && (n < 2 ==> b == 0) && (n < 3 ==> c == 0) && (n' < 2 ==> b' == 0) &&
               (n' < 3 ==> c' == 0)
    requires Group(n, a, b, c) == Group(n', a', b', c')
    ensures n == n' && a == a' && b == b' && c == c'
  {
    hide Letter, Sextet;
    var g, g' := Group(n, a, b, c), Group(n', a', b', c');
    assert g[0] == g'[0] && g[1] == g'[1] && g[2] == g'[2] && g[3] == g'[3];
    var x, y, z, x', y', z' := a as int, b as int, c as int, a' as int, b' as int, c' as int;
    LetterInjective(Sextet(0, x, y, z), Sextet(0, x', y', z'));
    LetterInjective(Sextet(1, x, y, z), Sextet(1, x', y', z'));
    if n >= 2 {
      LetterInjective(Sextet(2, x, y, z), Sextet(2, x', y', z'));
    }
    if n >= 3 {
      LetterInjective(Sextet(3, x, y, z), Sextet(3, x', y', z'));
    }
    SextetsDetermine(x, y, z, x', y', z');
  }

  lemma {:induction false} EncodeInjective(s: Bytes, t: Bytes)
    requires Encode(s) == Encode(t)
    ensures s == t
  {
    hide Group;
    if s != [] && t != [] {
      var e, n, m := Encode(s), if |s| > 3 then 3 else |s|, if |t| > 3 then 3 else |t|;
      var b, c := if n < 2 then 0 else s[1], if n < 3 then 0 else s[2];
      var b', c' := if m < 2 then 0 else t[1], if m < 3 then 0 else t[2];
      assert Group(n, s[0], b, c) == e[..4] == Group(m, t[0], b', c');
      GroupInjective(n, s[0], b, c, m, t[0], b', c');
      if n == 3 {
        assert Encode(s[3..]) == e[4..] == Encode(t[3..]);
        EncodeInjective(s[3..], t[3..]);
        assert s == s[..3] + s[3..] && t == t[..3] + t[3..];
      }
    }
  }

  // ---------------------------------------------------------------- sort and join

  predicate Sorted(xs: seq<Bytes>) {
    forall i, j :: 0 <= i < j < |xs| ==> AtMost(xs[i], xs[j])
  }

  function Insert(xs: seq<Bytes>, x: Bytes): seq<Bytes> {
    if xs == [] then [x]
    else if Less(x, xs[0]) then [x] + xs
    else [xs[0]] + Insert(xs[1..], x)
  }

  /** `sort.Strings`; which algorithm is used does not matter, by `SortedUnique`. */
  function Sort(xs: seq<Bytes>): seq<Bytes> {
    if xs == [] then [] else Insert(Sort(xs[..|xs| - 1]), xs[|xs| - 1])
  }

  lemma SortedCons(x: Bytes, xs: seq<Bytes>)
    requires Sorted(xs) && forall y :: y in multiset(xs) ==> AtMost(x, y)
    ensures Sorted([x] + xs)
  {
    hide Less;
    forall i | 0 <= i < |xs|
      ensures AtMost(x, xs[i])
    {
      assert xs[i] in multiset(xs);
    }
  }

  lemma SortedTail(xs: seq<Bytes>)
    requires Sorted(xs) && xs != []
    ensures Sorted(xs[1..]) && xs == [xs[0]] + xs[1..]
    ensures forall y :: y in multiset(xs) ==> AtMost(xs[0], y)
  {
    hide Less;
    TotalOrder();
    assert forall y :: y in multiset(xs) ==> y in xs;
  }

  lemma {:induction false} InsertSpec(xs: seq<Bytes>, x: Bytes)
    requires Sorted(xs)
    ensures Sorted(Insert(xs, x)) && multiset(Insert(xs, x)) == multiset(xs) + multiset{x}
  {
    hide Less, Sorted;
    TotalOrder();
    if xs == [] {
      OneSorted(x);
    } else {
      SortedTail(xs);
      if Less(x, xs[0]) {
        SortedCons(x, xs);
      } else {
        InsertSpec(xs[1..], x);
        SortedCons(xs[0], Insert(xs[1..], x));
      }
    }
  }

  lemma OneSorted(x: Bytes)
    ensures Sorted([x]) && Sorted([])
  {
  }

  lemma {:induction false} SortSpec(xs: seq<Bytes>)
    ensures Sorted(Sort(xs)) && multiset(Sort(xs)) == multiset(xs) && |Sort(xs)| == |xs|
  {
    if xs != [] {
      hide Less, Sorted, Insert;
      SortSpec(xs[..|xs| - 1]);
      assert xs == xs[..|xs| - 1] + [xs[|xs| - 1]];
      InsertSpec(Sort(xs[..|xs| - 1]), xs[|xs| - 1]);
    }
    assert |Sort(xs)| == |multiset(Sort(xs))| == |multiset(xs)| == |xs|;
  }

  lemma {:induction false} SortedUnique(xs: seq<Bytes>, ys: seq<Bytes>)
    requires Sorted(xs) && Sorted(ys) && multiset(xs) == multiset(ys)
    ensures xs == ys
  {
    assert |xs| == |multiset(xs)| == |multiset(ys)| == |ys|;
    if xs != [] {
      hide Less, Sorted;
      SortedTail(xs);
      SortedTail(ys);
      assert xs[0] in multiset(xs) && ys[0] in multiset(ys);
      Trichotomy(xs[0], ys[0]);
      assert multiset(xs[1..]) == multiset(xs) - multiset{xs[0]};
      assert multiset(ys[1..]) == multiset(ys) - multiset{ys[0]};
      SortedUnique(xs[1..], ys[1..]);
    }
  }

  function Join(xs: seq<Bytes>): Bytes {
    if xs == [] then [] else if |xs| == 1 then xs[0] else xs[0] + [SPACE] + Join(xs[1..])
  }

  lemma {:induction false} JoinInjective(xs: seq<Bytes>, ys: seq<Bytes>)
    requires xs != [] && ys != [] && Join(xs) == Join(ys)
    requires forall i :: 0 <= i < |xs| ==> SPACE !in xs[i]
    requires forall i :: 0 <= i < |ys| ==> SPACE !in ys[i]
    ensures xs == ys
  {
    FirstSpace(xs);
    FirstSpace(ys);
    var j, n, m := Join(xs), |xs[0]|, |ys[0]|;
    assert xs[0] == j[..n] && ys[0] == j[..m];
    if |xs| > 1 {
      assert Join(xs[1..]) == j[n + 1..] == Join(ys[1..]);
      JoinInjective(xs[1..], ys[1..]);
      assert xs == [xs[0]] + xs[1..] && ys == [ys[0]] + ys[1..];
    }
  }

  lemma FirstSpace(xs: seq<Bytes>)
    requires xs != [] && SPACE !in xs[0]
    ensures |Join(xs)| >= |xs[0]| && Join(xs)[..|xs[0]|] == xs[0]
    ensures forall i :: 0 <= i < |xs[0]| ==> Join(xs)[i] != SPACE
    ensures |xs| == 1 ==> |Join(xs)| == |xs[0]|
    ensures |xs| > 1 ==> |Join(xs)| > |xs[0]| && Join(xs)[|xs[0]|] == SPACE && Join(xs)[|xs[0]| + 1..] == Join(xs[1..])
  {
    assert forall i :: 0 <= i < |xs[0]| ==> Join(xs)[i] == xs[0][i];
  }

  // ---------------------------------------------------------------- the key

  function EncodeAll(addrs: seq<Bytes>): (r: seq<Bytes>)
    ensures |r| == |addrs| && forall i :: 0 <= i < |r| ==> r[i] == Encode(addrs[i])
  {
    if addrs == [] then [] else EncodeAll(addrs[..|addrs| - 1]) + [Encode(addrs[|addrs| - 1])]
  }

  function Key(addrs: seq<Bytes>): Bytes {
    Join(Sort(EncodeAll(addrs)))
  }

  /** `encodeEndpoint`. */
  method EncodeEndpoint(addrs: seq<Bytes>) returns (k: Bytes)
    ensures k == Key(addrs)
  {
    var out: seq<Bytes> := [];
    for i := 0 to |addrs|
      invariant out == EncodeAll(addrs[..i])
    {
      out := out + [Encode(addrs[i])];
      assert addrs[..i + 1][..i] == addrs[..i];
    }
    assert addrs[..|addrs|] == addrs;
    k := Join(Sort(out));
  }

  lemma {:induction false} EncodeAllCount(addrs: seq<Bytes>, x: Bytes)
    ensures multiset(EncodeAll(addrs))[Encode(x)] == multiset(addrs)[x]
  {
    hide Encode;
    if addrs != [] {
      var before, last := addrs[..|addrs| - 1], addrs[|addrs| - 1];
      EncodeAllCount(before, x);
      assert addrs == before + [last];
      if Encode(last) == Encode(x) {
        EncodeInjective(last, x);
      }
    }
  }

  lemma SameEncodings(a: seq<Bytes>, b: seq<Bytes>)
    ensures multiset(EncodeAll(a)) == multiset(EncodeAll(b)) <==> multiset(a) == multiset(b)
  {
    hide *;
    if multiset(EncodeAll(a)) == multiset(EncodeAll(b)) {
      forall x
        ensures multiset(a)[x] == multiset(b)[x]
      {
        EncodeAllCount(a, x);
        EncodeAllCount(b, x);
      }
    }
    if multiset(a) == multiset(b) {
      forall y
        ensures multiset(EncodeAll(a))[y] == multiset(EncodeAll(b))[y]
      {
        EncodeAllCountOf(a, b, y);
        EncodeAllCountOf(b, a, y);
      }
    }
  }

  lemma EncodeAllCountOf(a: seq<Bytes>, b: seq<Bytes>, y: Bytes)
    requires multiset(a) == multiset(b)
    ensures y in EncodeAll(a) ==> multiset(EncodeAll(a))[y] == multiset(EncodeAll(b))[y]
    ensures y !in EncodeAll(a) ==> multiset(EncodeAll(a))[y] == 0
  {
    hide Encode;
    if y in EncodeAll(a) {
      var i :| 0 <= i < |a| && y == Encode(a[i]);
      EncodeAllCount(a, a[i]);
      EncodeAllCount(b, a[i]);
    }
  }

  /** No addresses at all, or just the empty one: the only two endpoints that share a key. */
  predicate Blank(addrs: seq<Bytes>) {
    addrs == [] || addrs == [[]]
  }

  /** Two endpoints have the same key exactly when their addresses agree as a multiset, or both are blank. */
  lemma KeyIff(a: seq<Bytes>, b: seq<Bytes>)
    ensures Key(a) == Key(b) <==> multiset(a) == multiset(b) || (Blank(a) && Blank(b))
  {
    SameEncodings(a, b);
    SortSpec(EncodeAll(a));
    SortSpec(EncodeAll(b));
    hide Sort, Sorted, Encode, Join, Less;
    var sa, sb := Sort(EncodeAll(a)), Sort(EncodeAll(b));
    assert multiset(a) == multiset(b) ==> Key(a) == Key(b) by {
      if multiset(a) == multiset(b) {
        SortedUnique(sa, sb);
      }
    }
    SortedSpaceFree(a);
    SortedSpaceFree(b);
    if Key(a) == Key(b) {
      if a != [] && b != [] {
        JoinInjective(sa, sb);
      } else {
        EmptyKey(a);
        EmptyKey(b);
      }
    } else if Blank(a) && Blank(b) {
      EmptyKey(a);
      EmptyKey(b);
    }
  }

  lemma SortedSpaceFree(a: seq<Bytes>)
    ensures forall i :: 0 <= i < |Sort(EncodeAll(a))| ==> SPACE !in Sort(EncodeAll(a))[i]
  {
    SortSpec(EncodeAll(a));
    hide Sort, Sorted;
    var s := Sort(EncodeAll(a));
    forall i | 0 <= i < |s|
      ensures SPACE !in s[i]
    {
      assert s[i] in multiset(EncodeAll(a));
      assert s[i] in EncodeAll(a);
    }
  }

  lemma EmptyKey(a: seq<Bytes>)
    ensures Key(a) == [] <==> Blank(a)
  {
    var s := Sort(EncodeAll(a));
    SortSpec(EncodeAll(a));
    hide Sort, Sorted, Encode;
    if |a| == 1 {
      assert s[0] in multiset(EncodeAll(a));
      assert s[0] == Encode(a[0]);
      assert Encode([]) == [] by { EncodeEmpty(); }
      if Encode(a[0]) == [] {
        EncodeInjective(a[0], []);
      }
    } else if |a| > 1 {
      assert |Join(s)| > 0;
    }
  }

  lemma EncodeEmpty()
    ensures Encode([]) == []
  {
  }

  // ---------------------------------------------------------------- the map

  /** `EndpointMap`.  `At` is the map as its users see it: keyed by the multiset of addresses. */
  class EndpointMap<T> {
    var endpoints: map<Bytes, (seq<Bytes>, T)>

    ghost function At(addrs: seq<Bytes>): Option<T>
      reads this
    {
      if Key(addrs) in endpoints then Some(endpoints[Key(addrs)].1) else None
    }

    constructor ()
      ensures forall addrs :: At(addrs) == None
    {
      endpoints := map[];
    }

    method Get(addrs: seq<Bytes>) returns (r: Option<T>)
      ensures r == At(addrs)
    {
      var k := EncodeEndpoint(addrs);
      r := if k in endpoints then Some(endpoints[k].1) else None;
    }

    method Set(addrs: seq<Bytes>, value: T)
      modifies this
      ensures forall other ::
                At(other) == if multiset(other) == multiset(addrs) || (Blank(other) && Blank(addrs)) then Some(value)
                    else old(At(other))
    {
      var k := EncodeEndpoint(addrs);
      endpoints := endpoints[k := (addrs, value)];
      forall other
        ensures Key(other) == k <==> multiset(other) == multiset(addrs) || (Blank(other) && Blank(addrs))
      {
        KeyIff(other, addrs);
      }
      hide Key;
    }

    method Delete(addrs: seq<Bytes>)
      modifies this
      ensures forall other ::
                At(other) == if multiset(other) == multiset(addrs) || (Blank(other) && Blank(addrs)) then None
                    else old(At(other))
    {
      var k := EncodeEndpoint(addrs);
      endpoints := endpoints - {k};
      forall other
        ensures Key(other) == k <==> multiset(other) == multiset(addrs) || (Blank(other) && Blank(addrs))
      {
        KeyIff(other, addrs);
      }
      hide Key;
    }
  }
}
