/** Element-wise transformations of work lists. The terrain turns each
    pending list into jobs one entry at a time, so the jobs it produces,
    counted as a multiset, depend only on the multiset of entries and not on
    their order. */
module Lists {

  /** f applied to every element, in order. */
  function MapSeq<A, B>(f: A -> B, s: seq<A>): (r: seq<B>)
    ensures |r| == |s|
    ensures forall i :: 0 <= i < |s| ==> r[i] == f(s[i])
  {
    seq(|s|, i requires 0 <= i < |s| => f(s[i]))
  }

  /** The lists f produces for the elements of s, concatenated in order. */
  function FlatMap<A, B>(f: A -> seq<B>, s: seq<A>): seq<B> {
    if s == [] then [] else FlatMap(f, s[..|s| - 1]) + f(s[|s| - 1])
  }

  lemma MapSeqAppend<A, B>(f: A -> B, a: seq<A>, b: seq<A>)
    ensures MapSeq(f, a + b) == MapSeq(f, a) + MapSeq(f, b)
  {
  }

  lemma {:induction false} FlatMapAppend<A, B>(f: A -> seq<B>, a: seq<A>, b: seq<A>)
    ensures FlatMap(f, a + b) == FlatMap(f, a) + FlatMap(f, b)
    decreases |b|
  {
    if b == [] {
      assert a + b == a;
    } else {
      var b', x := b[..|b| - 1], b[|b| - 1];
      assert (a + b)[..|a + b| - 1] == a + b';
      FlatMapAppend(f, a, b');
    }
  }

  lemma {:induction false} FlatMapMember<A, B>(f: A -> seq<B>, s: seq<A>, y: B)
    ensures y in FlatMap(f, s) <==> exists x :: x in s && y in f(x)
  {
    if s != [] {
      var init, x := s[..|s| - 1], s[|s| - 1];
      assert s == init + [x];
      FlatMapMember(f, init, y);
      if y in FlatMap(f, s) && y !in FlatMap(f, init) {
        assert x in s && y in f(x);
      }
    }
  }

  /** Removing the element at index k keeps everything else. */
  lemma RemoveAt<A>(a: seq<A>, k: nat)
    requires k < |a|
    ensures a == a[..k] + [a[k]] + a[k + 1..]
    ensures multiset(a[..k] + a[k + 1..]) == multiset(a) - multiset{a[k]}
  {
    assert a == a[..k] + [a[k]] + a[k + 1..];
  }

  /** The images of a list are those of the list without its k-th entry
      plus the image of that entry. */
  lemma MapSeqRemove<A, B>(f: A -> B, a: seq<A>, k: nat)
    requires k < |a|
    ensures multiset(MapSeq(f, a)) == multiset(MapSeq(f, a[..k] + a[k + 1..])) + multiset{f(a[k])}
  {
    RemoveAt(a, k);
    var l, m, h := MapSeq(f, a[..k]), MapSeq(f, [a[k]]), MapSeq(f, a[k + 1..]);
    MapSeqAppend(f, a[..k], [a[k]]);
    MapSeqAppend(f, a[..k] + [a[k]], a[k + 1..]);
    MapSeqAppend(f, a[..k], a[k + 1..]);
    assert MapSeq(f, a) == l + m + h;
    assert MapSeq(f, a[..k] + a[k + 1..]) == l + h;
    assert m == [f(a[k])];
  }

  lemma {:induction false} MapSeqPermutation<A, B>(f: A -> B, a: seq<A>, b: seq<A>)
    requires multiset(a) == multiset(b)
    ensures multiset(MapSeq(f, a)) == multiset(MapSeq(f, b))
    decreases |b|
  {
    if b != [] {
      var b', x := b[..|b| - 1], b[|b| - 1];
      assert b == b' + [x];
      assert x in multiset(a);
      var k :| 0 <= k < |a| && a[k] == x;
      RemoveAt(a, k);
      MapSeqPermutation(f, a[..k] + a[k + 1..], b');
      MapSeqRemove(f, a, k);
      MapSeqRemove(f, b, |b| - 1);
      assert b[..|b| - 1] + b[|b|..] == b';
    }
  }

  /** The jobs of a list are those of the list without its k-th entry plus
      the jobs of that entry. */
  lemma FlatMapRemove<A, B>(f: A -> seq<B>, a: seq<A>, k: nat)
    requires k < |a|
    ensures multiset(FlatMap(f, a))
         == multiset(FlatMap(f, a[..k] + a[k + 1..])) + multiset(f(a[k]))
  {
    RemoveAt(a, k);
    FlatMapAppend(f, a[..k], [a[k]]);
    FlatMapAppend(f, a[..k] + [a[k]], a[k + 1..]);
    FlatMapAppend(f, a[..k], a[k + 1..]);
    FlatMapSingle(f, a[k]);
  }

  lemma FlatMapSingle<A, B>(f: A -> seq<B>, x: A)
    ensures FlatMap(f, [x]) == f(x)
  {
    assert [x][..0] == [];
  }

  lemma {:induction false} FlatMapPermutation<A, B>(f: A -> seq<B>, a: seq<A>, b: seq<A>)
    requires multiset(a) == multiset(b)
    ensures multiset(FlatMap(f, a)) == multiset(FlatMap(f, b))
    decreases |b|
  {
    if b != [] {
      var b', x := b[..|b| - 1], b[|b| - 1];
      assert b == b' + [x];
      assert x in multiset(a);
      var k :| 0 <= k < |a| && a[k] == x;
      RemoveAt(a, k);
      FlatMapPermutation(f, a[..k] + a[k + 1..], b');
      FlatMapRemove(f, a, k);
    }
  }
}
