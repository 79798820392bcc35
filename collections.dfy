/**
 * Generic sequence operations that the application performs through
 * JavaScript's array methods: `filter`, `map`, `join`, the insertion-ordered
 * `Set` and `flatMap`, together with the facts about them that the rest of
 * the model relies on.
 */
module Collections {

  datatype Option<+T> = None | Some(value: T)

  /** `Array.prototype.filter`: the elements satisfying `p`, in their order. */
  function Filter<T>(s: seq<T>, p: T -> bool): (r: seq<T>)
    ensures |r| <= |s|
    ensures forall x :: x in r ==> x in s && p(x)
    ensures forall i :: 0 <= i < |s| && p(s[i]) ==> s[i] in r
  {
    if s == [] then []
    else (if p(s[0]) then [s[0]] else []) + Filter(s[1..], p)
  }

  /** `Array.prototype.map`. */
  function Map<A, B>(s: seq<A>, f: A -> B): (r: seq<B>)
    ensures |r| == |s|
    ensures forall i :: 0 <= i < |s| ==> r[i] == f(s[i])
  {
    seq(|s|, i requires 0 <= i < |s| => f(s[i]))
  }

  /** `Array.prototype.flatMap`: the images of the elements, concatenated in order. */
  function FlatMap<A, B>(s: seq<A>, f: A -> seq<B>): seq<B>
  {
    if s == [] then [] else FlatMap(s[..|s| - 1], f) + f(s[|s| - 1])
  }

  /** `Array.prototype.join(sep)` on an array of strings. */
  function Join(parts: seq<string>, sep: string): string
  {
    if parts == [] then ""
    else if |parts| == 1 then parts[0]
    else parts[0] + sep + Join(parts[1..], sep)
  }

  ghost predicate NoDuplicates<T>(s: seq<T>)
  {
    forall i, j :: 0 <= i < j < |s| ==> s[i] != s[j]
  }

  /** `a` is `b` with some elements left out and the rest kept in order. */
  ghost predicate IsSubsequence<T>(a: seq<T>, b: seq<T>)
  {
    if a == [] then true
    else if b == [] then false
    else if a[0] == b[0] then IsSubsequence(a[1..], b[1..])
    else IsSubsequence(a, b[1..])
  }

  /** The position of the first occurrence of `x` in `s`. */
  function IndexOf<T(==)>(s: seq<T>, x: T): (i: nat)
    requires x in s
    ensures i < |s| && s[i] == x && x !in s[..i]
  {
    if s[0] == x then 0
    else
      var j := IndexOf(s[1..], x);
      assert s[..j + 1] == [s[0]] + s[1..][..j];
      j + 1
  }

  /**
   * `[...new Set(s)]`: a JavaScript `Set` iterates in insertion order, so the
   * result keeps the first occurrence of every element.
   */
  function Dedup<T(==)>(s: seq<T>): (r: seq<T>)
    ensures forall x :: x in r ==> x in s
    ensures forall i :: 0 <= i < |s| ==> s[i] in r
    ensures NoDuplicates(r)
  {
    if s == [] then []
    else
      var init := s[..|s| - 1];
      var r := Dedup(init);
      assert s == init + [s[|s| - 1]];
      if s[|s| - 1] in r then r else r + [s[|s| - 1]]
  }

  // ---------------------------------------------------------------------
  // Facts about Filter

  /** Filtering commutes with concatenation; this is what "keeps the order" means. */
  lemma {:induction false} FilterConcat<T>(a: seq<T>, b: seq<T>, p: T -> bool)
    ensures Filter(a + b, p) == Filter(a, p) + Filter(b, p)
  {
    if a == [] {
      assert a + b == b;
    } else {
      assert (a + b)[0] == a[0];
      assert (a + b)[1..] == a[1..] + b;
      FilterConcat(a[1..], b, p);
    }
  }

  /** Filtering a non-empty sequence: its head, then its tail. */
  lemma FilterHead<T>(s: seq<T>, p: T -> bool)
    requires s != []
    ensures Filter(s, p) == Filter([s[0]], p) + Filter(s[1..], p)
  {
    var head: seq<T> := if p(s[0]) then [s[0]] else [];
    assert Filter(s, p) == head + Filter(s[1..], p);
    assert [s[0]][0] == s[0] && [s[0]][1..] == [];
    assert Filter([s[0]], p) == head + Filter([], p);
    assert head + [] == head;
  }

  /** Two sequences with the same head whose filtered tails differ by a suffix `u` differ by `u` when filtered. */
  lemma FilterSameHead<T>(s: seq<T>, t: seq<T>, u: seq<T>, p: T -> bool)
    requires s != [] && t != [] && s[0] == t[0]
    requires Filter(s[1..], p) == Filter(t[1..], p) + u
    ensures Filter(s, p) == Filter(t, p) + u
  {
    var head := Filter([t[0]], p);
    calc {
      Filter(s, p);
      { FilterHead(s, p); }
      head + Filter(s[1..], p);
      head + (Filter(t[1..], p) + u);
      { SeqAssoc(head, Filter(t[1..], p), u); }
      (head + Filter(t[1..], p)) + u;
      { FilterHead(t, p); }
      Filter(t, p) + u;
    }
  }

  lemma SeqAssoc<T>(a: seq<T>, b: seq<T>, c: seq<T>)
    ensures a + (b + c) == (a + b) + c
  {
  }

  /** Filtering by a property of the images, then mapping, is mapping, then filtering the images. */
  lemma {:induction false} MapFilter<A, B>(s: seq<A>, f: A -> B, p: A -> bool, q: B -> bool)
    requires forall x :: p(x) == q(f(x))
    ensures Map(Filter(s, p), f) == Filter(Map(s, f), q)
  {
    if s != [] {
      MapFilter(s[1..], f, p, q);
      var images := Map(s, f);
      assert images[0] == f(s[0]) && images[1..] == Map(s[1..], f);
      FilterHead(images, q);
      var head := if p(s[0]) then [s[0]] else [];
      assert Filter([images[0]], q) == Map(head, f);
      MapConcat(head, Filter(s[1..], p), f);
    }
  }

  lemma HeadTail<T>(s: seq<T>)
    requires s != []
    ensures [s[0]] + s[1..] == s
  {
  }

  lemma MapConcat<A, B>(a: seq<A>, b: seq<A>, f: A -> B)
    ensures Map(a + b, f) == Map(a, f) + Map(b, f)
  {
  }

  /** Mapping keeps the subsequence relation. */
  lemma {:induction false} MapSubsequence<A, B>(a: seq<A>, b: seq<A>, f: A -> B)
    requires IsSubsequence(a, b)
    ensures IsSubsequence(Map(a, f), Map(b, f))
  {
    if a != [] && b != [] {
      assert Map(b, f)[1..] == Map(b[1..], f);
      assert Map(a, f)[1..] == Map(a[1..], f);
      if a[0] == b[0] {
        MapSubsequence(a[1..], b[1..], f);
      } else {
        MapSubsequence(a, b[1..], f);
        if Map(a, f)[0] == Map(b, f)[0] {
          SubsequenceDropHead(Map(a, f), Map(b[1..], f));
        }
      }
    }
  }

  /** A filter that accepts nothing leaves nothing. */
  lemma {:induction false} FilterNone<T>(s: seq<T>, p: T -> bool)
    requires forall x :: x in s ==> !p(x)
    ensures Filter(s, p) == []
  {
    if s != [] {
      FilterNone(s[1..], p);
    }
  }

  /** A filter that rejects nothing is the identity. */
  lemma {:induction false} FilterKeepsAll<T>(s: seq<T>, p: T -> bool)
    ensures (forall x :: x in s ==> p(x)) ==> Filter(s, p) == s
  {
    if s != [] {
      FilterKeepsAll(s[1..], p);
    }
  }

  /** Two predicates that agree on the elements of `s` filter it alike. */
  lemma {:induction false} FilterCongruent<T>(s: seq<T>, p: T -> bool, q: T -> bool)
    requires forall x :: x in s ==> p(x) == q(x)
    ensures Filter(s, p) == Filter(s, q)
  {
    if s != [] {
      FilterCongruent(s[1..], p, q);
    }
  }

  /** A filter and its complement split `s`: every element lands in exactly one of them. */
  lemma {:induction false} FilterPartition<T>(s: seq<T>, p: T -> bool, q: T -> bool)
    requires forall x :: q(x) == !p(x)
    ensures multiset(Filter(s, p)) + multiset(Filter(s, q)) == multiset(s)
    ensures |Filter(s, p)| + |Filter(s, q)| == |s|
  {
    if s != [] {
      FilterPartition(s[1..], p, q);
      assert s == [s[0]] + s[1..];
    }
  }

  lemma {:induction false} FilterIsSubsequence<T>(s: seq<T>, p: T -> bool)
    ensures IsSubsequence(Filter(s, p), s)
  {
    if s != [] {
      FilterIsSubsequence(s[1..], p);
      if p(s[0]) {
        assert Filter(s, p) == [s[0]] + Filter(s[1..], p);
      } else {
        assert Filter(s, p) == Filter(s[1..], p);
        SubsequenceOfTail(Filter(s[1..], p), s);
      }
    }
  }

  lemma {:induction false} SubsequenceOfTail<T>(a: seq<T>, b: seq<T>)
    requires b != [] && IsSubsequence(a, b[1..])
    ensures IsSubsequence(a, b)
  {
    if a != [] && a[0] == b[0] {
      assert b[1..] != [];
      if a[0] == b[1..][0] {
        SubsequenceOfTail(a[1..], b[1..]);
      } else {
        SubsequenceOfTail(a, b[1..]);
        SubsequenceDropHead(a, b[1..]);
      }
    }
  }

  lemma {:induction false} SubsequenceDropHead<T>(a: seq<T>, b: seq<T>)
    requires a != [] && IsSubsequence(a, b)
    ensures IsSubsequence(a[1..], b)
  {
    if b != [] {
      if a[0] == b[0] {
        SubsequenceOfTail(a[1..], b);
      } else {
        SubsequenceDropHead(a, b[1..]);
        SubsequenceOfTail(a[1..], b);
      }
    }
  }

  lemma {:induction false} FilterNoDuplicates<T>(s: seq<T>, p: T -> bool)
    requires NoDuplicates(s)
    ensures NoDuplicates(Filter(s, p))
  {
    if s != [] {
      assert NoDuplicates(s[1..]) by {
        forall i, j | 0 <= i < j < |s[1..]| ensures s[1..][i] != s[1..][j] {
          assert s[1..][i] == s[i + 1] && s[1..][j] == s[j + 1];
        }
      }
      FilterNoDuplicates(s[1..], p);
      assert s[0] !in s[1..] by {
        forall k | 0 <= k < |s[1..]| ensures s[1..][k] != s[0] {
          assert s[1..][k] == s[k + 1];
        }
      }
    }
  }

  // ---------------------------------------------------------------------
  // Facts about IndexOf and Dedup

  /** The first occurrence is the only position holding `x` with no `x` before it. */
  lemma IndexOfUnique<T>(s: seq<T>, x: T, k: nat)
    requires k < |s| && s[k] == x && x !in s[..k]
    ensures IndexOf(s, x) == k
  {
    var i := IndexOf(s, x);
    assert s[..k] <= s && s[..i] <= s;
  }

  lemma IndexOfPrefix<T>(a: seq<T>, b: seq<T>, x: T)
    requires x in a
    ensures IndexOf(a + b, x) == IndexOf(a, x)
  {
    var i := IndexOf(a, x);
    assert (a + b)[..i] == a[..i];
    IndexOfUnique(a + b, x, i);
  }

  /**
   * The elements of `Dedup(s)` stand in the order of their first occurrences
   * in `s`.
   */
  lemma {:induction false} DedupFirstOccurrenceOrder<T>(s: seq<T>)
    ensures forall i, j :: 0 <= i < j < |Dedup(s)| ==> IndexOf(s, Dedup(s)[i]) < IndexOf(s, Dedup(s)[j])
  {
    if s != [] {
      var init, last := s[..|s| - 1], s[|s| - 1];
      assert s == init + [last];
      var r := Dedup(init);
      DedupFirstOccurrenceOrder(init);
      forall y | y in r ensures IndexOf(s, y) == IndexOf(init, y) < |init| {
        IndexOfPrefix(init, [last], y);
      }
      if last !in r {
        assert last !in init;
        assert s[..|init|] == init;
        IndexOfUnique(s, last, |init|);
      }
    }
  }

  /** A sequence without repetitions is its own deduplication. */
  lemma {:induction false} DedupOfDistinct<T>(s: seq<T>)
    requires NoDuplicates(s)
    ensures Dedup(s) == s
  {
    if s != [] {
      var init, last := s[..|s| - 1], s[|s| - 1];
      assert NoDuplicates(init);
      DedupOfDistinct(init);
      assert last !in init by {
        forall k | 0 <= k < |init| ensures init[k] != last {
          assert init[k] == s[k];
        }
      }
      assert s == init + [last];
    }
  }

  // ---------------------------------------------------------------------
  // Facts about FlatMap and Join

  lemma FlatMapSnoc<A, B>(s: seq<A>, x: A, f: A -> seq<B>)
    ensures FlatMap(s + [x], f) == FlatMap(s, f) + f(x)
  {
    assert (s + [x])[..|s|] == s;
  }

  /** Every image has two elements: the images of element `i` fill positions `2*i` and `2*i + 1`. */
  lemma {:induction false} FlatMapPairs<A, B>(s: seq<A>, f: A -> seq<B>)
    requires forall x :: x in s ==> |f(x)| == 2
    ensures |FlatMap(s, f)| == 2 * |s|
    ensures forall i :: 0 <= i < |s| ==> FlatMap(s, f)[2 * i] == f(s[i])[0] && FlatMap(s, f)[2 * i + 1] == f(s[i])[1]
  {
    if s != [] {
      var init, last := s[..|s| - 1], s[|s| - 1];
      FlatMapPairs(init, f);
      var front := FlatMap(init, f);
      assert FlatMap(s, f) == front + f(last);
      forall i | 0 <= i < |s|
        ensures FlatMap(s, f)[2 * i] == f(s[i])[0] && FlatMap(s, f)[2 * i + 1] == f(s[i])[1]
      {
        if i < |init| {
          assert s[i] == init[i];
        }
      }
    }
  }
}
