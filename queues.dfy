/** Thread queues as sequences: removal of one member and the move of a
    member to the tail, as `tcbEPDequeue` followed by `tcbEPAppend` does. */
module Queues {
  import opened Words

  predicate Distinct(q: seq<Ptr>)
  {
    forall i, j :: 0 <= i < j < |q| ==> q[i] != q[j]
  }

  /** The queue with every occurrence of `x` taken out, the rest in order. */
  function Without(q: seq<Ptr>, x: Ptr): (r: seq<Ptr>)
    ensures forall y :: y in r <==> y in q && y != x
    ensures |r| <= |q|
  {
    if |q| == 0 then [] else (if q[0] == x then [] else [q[0]]) + Without(q[1..], x)
  }

  /** The position of `x` in `q`. */
  function IndexOf(q: seq<Ptr>, x: Ptr): (i: nat)
    requires x in q
    ensures i < |q| && q[i] == x && x !in q[..i]
  {
    if q[0] == x then 0 else 1 + IndexOf(q[1..], x)
  }

  /** A queue without `x` is left as it is. */
  lemma {:induction false} WithoutAbsent(q: seq<Ptr>, x: Ptr)
    requires x !in q
    ensures Without(q, x) == q
  {
    if |q| > 0 {
      WithoutAbsent(q[1..], x);
      assert q == [q[0]] + q[1..];
    }
  }

  /** In a queue without duplicates, taking `x` out cuts the one slot holding it. */
  lemma {:induction false} WithoutCutsSlot(q: seq<Ptr>, x: Ptr)
    requires Distinct(q) && x in q
    ensures Without(q, x) == q[..IndexOf(q, x)] + q[IndexOf(q, x) + 1..]
  {
    if q[0] == x {
      assert x !in q[1..];
      WithoutAbsent(q[1..], x);
    } else {
      assert Distinct(q[1..]);
      WithoutCutsSlot(q[1..], x);
      var i := IndexOf(q[1..], x);
      assert q[..i + 1] == [q[0]] + q[1..][..i];
      assert q[i + 2..] == q[1..][i + 1..];
    }
  }

  /** Removing the member at position `i` of a queue without duplicates. */
  lemma WithoutAt(q: seq<Ptr>, i: nat)
    requires Distinct(q) && i < |q|
    ensures Without(q, q[i]) == q[..i] + q[i + 1..]
  {
    WithoutCutsSlot(q, q[i]);
  }

  lemma DistinctWithout(q: seq<Ptr>, x: Ptr)
    requires Distinct(q) && x in q
    ensures Distinct(Without(q, x)) && |Without(q, x)| == |q| - 1
  {
    WithoutCutsSlot(q, x);
    var i := IndexOf(q, x);
    var r := Without(q, x);
    forall a, b | 0 <= a < b < |r|
      ensures r[a] != r[b]
    {
      var a' := if a < i then a else a + 1;
      var b' := if b < i then b else b + 1;
      assert r[a] == q[a'] && r[b] == q[b'];
    }
  }

  /** `reorderNTFN`'s queue: `x` moved to the tail. */
  function Reordered(q: seq<Ptr>, x: Ptr): (r: seq<Ptr>)
  {
    Without(q, x) + [x]
  }

  /** Moving a member to the tail keeps the members and the length, makes it
      the last element, and leaves the other members in their relative order. */
  lemma ReorderedMovesToTail(q: seq<Ptr>, x: Ptr)
    requires Distinct(q) && x in q
    ensures var r := Reordered(q, x);
      |r| == |q| && r[|r| - 1] == x
      && (forall y :: y in r <==> y in q)
      && Distinct(r)
      && Without(r, x) == Without(q, x)
  {
    var w := Without(q, x);
    DistinctWithout(q, x);
    var r := w + [x];
    assert r[..|w|] == w;
    assert Distinct(r);
    WithoutAt(r, |w|);
    assert r[|w| + 1..] == [];
  }

  /** The multiset of members is unchanged as well. */
  lemma {:induction false} ReorderedSameMembers(q: seq<Ptr>, x: Ptr)
    requires Distinct(q) && x in q
    ensures multiset(Reordered(q, x)) == multiset(q)
  {
    WithoutCutsSlot(q, x);
    var i := IndexOf(q, x);
    assert q == q[..i] + [x] + q[i + 1..];
  }

  /** Moving the tail to the tail changes nothing. */
  lemma ReorderTailIsIdentity(q: seq<Ptr>, x: Ptr)
    requires Distinct(q) && |q| > 0 && q[|q| - 1] == x
    ensures Reordered(q, x) == q
  {
    WithoutAt(q, |q| - 1);
    assert q[|q|..] == [];
    assert q[..|q| - 1] + [x] == q;
  }
}
