/** Byte strings and their lexicographic order (`bytes.Compare`, Go string comparison). */
module ByteOrder {

  newtype Byte = x: int | 0 <= x < 256

  type Bytes = seq<Byte>

  predicate Less(a: Bytes, b: Bytes) {
    b != [] && (a == [] || a[0] < b[0] || (a[0] == b[0] && Less(a[1..], b[1..])))
  }

  predicate AtMost(a: Bytes, b: Bytes) {
    !Less(b, a)
  }

  /** The strings agree up to `i`, where `a` has ended or has the smaller byte. */
  predicate FirstDifferAt(a: Bytes, b: Bytes, i: nat) {
    i <= |a| && i < |b| && a[..i] == b[..i] && (i == |a| || a[i] < b[i])
  }

  /** The order is the lexicographic one: the first difference decides, and a prefix comes before what it begins. */
  lemma {:induction false} LessMeans(a: Bytes, b: Bytes)
    ensures Less(a, b) <==> exists i: nat :: FirstDifferAt(a, b, i)
  {
    if b != [] && (a == [] || a[0] < b[0]) {
      assert FirstDifferAt(a, b, 0);
    }
    if a != [] && b != [] {
      LessMeans(a[1..], b[1..]);
      if i: nat :| FirstDifferAt(a[1..], b[1..], i) {
        if a[0] == b[0] {
          assert a[..i + 1] == [a[0]] + a[1..][..i] && b[..i + 1] == [b[0]] + b[1..][..i];
          assert FirstDifferAt(a, b, i + 1);
        }
      }
      if i: nat :| FirstDifferAt(a, b, i) {
        if i > 0 {
          assert a[..i][0] == b[..i][0] && a[..i][1..] == a[1..][..i - 1] && b[..i][1..] == b[1..][..i - 1];
          assert FirstDifferAt(a[1..], b[1..], i - 1);
        }
      }
    }
  }

  lemma {:induction false} Trichotomy(a: Bytes, b: Bytes)
    ensures Less(a, b) || a == b || Less(b, a)
    ensures !(Less(a, b) && Less(b, a)) && !Less(a, a)
  {
    if a != [] && b != [] {
      Trichotomy(a[1..], b[1..]);
      assert a == [a[0]] + a[1..] && b == [b[0]] + b[1..];
    }
    Irreflexive(a);
  }

  lemma {:induction false} Irreflexive(a: Bytes)
    ensures !Less(a, a)
  {
    if a != [] {
      Irreflexive(a[1..]);
    }
  }

  lemma {:induction false} Transitive(a: Bytes, b: Bytes, c: Bytes)
    ensures Less(a, b) && Less(b, c) ==> Less(a, c)
  {
    if a != [] && b != [] && c != [] {
      Transitive(a[1..], b[1..], c[1..]);
    }
  }

  /** The strict total order, in the form proofs about keys use it. */
  lemma TotalOrder()
    ensures forall a :: !Less(a, a) && !Less(a, [])
    ensures forall a, b :: Less(a, b) ==> !Less(b, a)
    ensures forall a, b :: a == b || Less(a, b) || Less(b, a)
    ensures forall a, b, c {:trigger Less(a, b), Less(b, c)} {:trigger Less(a, b), Less(a, c)}
                           {:trigger Less(a, c), Less(b, c)} ::
              Less(a, b) && Less(b, c) ==> Less(a, c)
  {
    forall a, b
      ensures a == b || Less(a, b) || Less(b, a)
      ensures !(Less(a, b) && Less(b, a)) && !Less(a, a)
    {
      Trichotomy(a, b);
    }
    forall a, b, c
      ensures Less(a, b) && Less(b, c) ==> Less(a, c)
    {
      Transitive(a, b, c);
    }
  }
}
