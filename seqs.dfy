/** Sequence helpers shared by the catalog and the resolver: an optional value,
    the order-preserving `Array.prototype.filter`, and the subsequence relation
    that states "order preserved". */
module Seqs {

  datatype Option<+T> = None | Some(value: T)

  /** `r` can be obtained from `s` by deleting elements: every element of `r`
      occurs in `s`, in the same relative order. */
  ghost predicate IsSubsequence<T>(r: seq<T>, s: seq<T>)
    decreases |s|
  {
    if r == [] then true
    else if s == [] then false
    else (r[0] == s[0] && IsSubsequence(r[1..], s[1..])) || IsSubsequence(r, s[1..])
  }

  /** Subsequences of two sequences concatenate to a subsequence of their
      concatenation. */
  lemma {:induction false} SubsequenceConcat<T>(a: seq<T>, x: seq<T>, b: seq<T>, y: seq<T>)
    requires IsSubsequence(a, x) && IsSubsequence(b, y)
    ensures IsSubsequence(a + b, x + y)
    decreases |x|
  {
    if x == [] {
      assert a == [];
      assert a + b == b && x + y == y;
    } else if a + b != [] {
      assert (x + y)[1..] == x[1..] + y;
      if a != [] && a[0] == x[0] && IsSubsequence(a[1..], x[1..]) {
        SubsequenceConcat(a[1..], x[1..], b, y);
        assert (a + b)[1..] == a[1..] + b;
      } else {
        SubsequenceConcat(a, x[1..], b, y);
      }
    }
  }

  /** Every element of a subsequence is an element of the sequence. */
  lemma {:induction false} SubsequenceMembers<T>(r: seq<T>, s: seq<T>)
    requires IsSubsequence(r, s)
    ensures forall x :: x in r ==> x in s
    decreases |s|
  {
    if r != [] {
      if r[0] == s[0] && IsSubsequence(r[1..], s[1..]) {
        SubsequenceMembers(r[1..], s[1..]);
        assert r == [r[0]] + r[1..];
      } else {
        SubsequenceMembers(r, s[1..]);
      }
    }
  }

  /** The one-element sequence `[x]` when `b` holds, and `[]` otherwise: what
      a guarded `push(x)` contributes. */
  function Optional<T>(b: bool, x: T): seq<T>
  {
    if b then [x] else []
  }

  /** Six guarded pushes keep the order of the pushed values ... */
  lemma SixOptionalsInOrder<T>(b0: bool, b1: bool, b2: bool, b3: bool, b4: bool, b5: bool,
                               x0: T, x1: T, x2: T, x3: T, x4: T, x5: T)
    ensures IsSubsequence(Optional(b0, x0) + Optional(b1, x1) + Optional(b2, x2)
                          + Optional(b3, x3) + Optional(b4, x4) + Optional(b5, x5),
                          [x0, x1, x2, x3, x4, x5])
  {
    var p0, p1, p2 := Optional(b0, x0), Optional(b1, x1), Optional(b2, x2);
    var p3, p4, p5 := Optional(b3, x3), Optional(b4, x4), Optional(b5, x5);
    var o0, o1, o2, o3, o4, o5 := [x0], [x1], [x2], [x3], [x4], [x5];
    assert IsSubsequence(p0, o0) && IsSubsequence(p1, o1) && IsSubsequence(p2, o2);
    assert IsSubsequence(p3, o3) && IsSubsequence(p4, o4) && IsSubsequence(p5, o5);
    SubsequenceConcat(p0, o0, p1, o1);
    SubsequenceConcat(p0 + p1, o0 + o1, p2, o2);
    SubsequenceConcat(p0 + p1 + p2, o0 + o1 + o2, p3, o3);
    SubsequenceConcat(p0 + p1 + p2 + p3, o0 + o1 + o2 + o3, p4, o4);
    SubsequenceConcat(p0 + p1 + p2 + p3 + p4, o0 + o1 + o2 + o3 + o4, p5, o5);
    assert [x0, x1, x2, x3, x4, x5] == o0 + o1 + o2 + o3 + o4 + o5;
  }

  /** ... and contain exactly the values whose guard holds. */
  lemma SixOptionalsMembers<T>(b0: bool, b1: bool, b2: bool, b3: bool, b4: bool, b5: bool,
                               x0: T, x1: T, x2: T, x3: T, x4: T, x5: T, y: T)
    ensures y in Optional(b0, x0) + Optional(b1, x1) + Optional(b2, x2)
                 + Optional(b3, x3) + Optional(b4, x4) + Optional(b5, x5)
        <==> (b0 && y == x0) || (b1 && y == x1) || (b2 && y == x2)
             || (b3 && y == x3) || (b4 && y == x4) || (b5 && y == x5)
  {
  }

  /** No element occurs twice. */
  predicate NoDuplicates<T(==)>(s: seq<T>)
  {
    forall i, j :: 0 <= i < j < |s| ==> s[i] != s[j]
  }

  /** `s.filter(p)`: the elements of `s` satisfying `p`, in their order in `s`,
      each occurrence kept as often as it occurs. */
  function Filter<T(!new)>(s: seq<T>, p: T -> bool): (r: seq<T>)
    ensures |r| <= |s|
    ensures forall i :: 0 <= i < |r| ==> p(r[i])
    ensures forall x :: x in r <==> x in s && p(x)
    ensures forall x :: multiset(r)[x] == if p(x) then multiset(s)[x] else 0
    ensures IsSubsequence(r, s)
  {
    if s == [] then []
    else
      var rest := Filter(s[1..], p);
      assert s == [s[0]] + s[1..];
      if p(s[0]) then
        var r := [s[0]] + rest;
        assert r[1..] == rest;
        r
      else
        rest
  }

  /** Filtering keeps everything when every element passes, and nothing when
      none does. */
  lemma {:induction false} FilterAllOrNone<T(!new)>(s: seq<T>, p: T -> bool)
    ensures (forall i :: 0 <= i < |s| ==> p(s[i])) ==> Filter(s, p) == s
    ensures (forall i :: 0 <= i < |s| ==> !p(s[i])) ==> Filter(s, p) == []
  {
    if s != [] {
      FilterAllOrNone(s[1..], p);
      assert forall i :: 1 <= i < |s| ==> s[i] == s[1..][i - 1];
      assert s == [s[0]] + s[1..];
    }
  }

  /** `s.map(f)`. */
  function MapSeq<A, B>(f: A -> B, s: seq<A>): (r: seq<B>)
    ensures |r| == |s|
    ensures forall i :: 0 <= i < |s| ==> r[i] == f(s[i])
  {
    seq(|s|, i requires 0 <= i < |s| => f(s[i]))
  }

  /** The elements of `s.map(f)` are the images of the elements of `s`. */
  lemma MapSeqMembers<A, B>(f: A -> B, s: seq<A>)
    ensures forall x :: x in s ==> f(x) in MapSeq(f, s)
    ensures forall y :: y in MapSeq(f, s) ==> exists x :: x in s && y == f(x)
  {
    var r := MapSeq(f, s);
    forall x | x in s ensures f(x) in r {
      var i :| 0 <= i < |s| && s[i] == x;
      assert r[i] == f(x);
    }
    forall y | y in r ensures exists x :: x in s && y == f(x) {
      var i :| 0 <= i < |r| && r[i] == y;
      assert s[i] in s;
    }
  }

  /** Mapping two permutations of each other gives two permutations of each
      other. */
  lemma {:induction false} MapSeqPermutation<A, B>(f: A -> B, a: seq<A>, b: seq<A>)
    requires multiset(a) == multiset(b)
    ensures multiset(MapSeq(f, a)) == multiset(MapSeq(f, b))
    decreases |a|
  {
    if a != [] {
      var k := RemoveMatching(a, b);
      MapSeqPermutation(f, a[1..], b[..k] + b[k + 1..]);
      MapSeqTail(f, a);
      MapSeqRemoveAt(f, b, k);
      MultisetAddBack(multiset(MapSeq(f, a)), f(a[0]));
      MultisetAddBack(multiset(MapSeq(f, b)), f(a[0]));
    }
  }

  /** The first element of `a` occurs in its permutation `b`, and removing
      one occurrence from each leaves two permutations of each other. */
  lemma RemoveMatching<T>(a: seq<T>, b: seq<T>) returns (k: nat)
    requires a != [] && multiset(a) == multiset(b)
    ensures k < |b| && b[k] == a[0]
    ensures multiset(a[1..]) == multiset(b[..k] + b[k + 1..])
  {
    assert a[0] in multiset(b);
    k :| 0 <= k < |b| && b[k] == a[0];
    MultisetTail(a);
    MultisetRemoveAt(b, k);
  }

  lemma MultisetTail<T>(s: seq<T>)
    requires s != []
    ensures multiset(s[1..]) == multiset(s) - multiset{s[0]}
  {
    assert s == [s[0]] + s[1..];
  }

  /** Removing the element at `k` removes one occurrence of it. */
  lemma MultisetRemoveAt<T>(s: seq<T>, k: nat)
    requires k < |s|
    ensures multiset(s[..k] + s[k + 1..]) == multiset(s) - multiset{s[k]}
  {
    assert s == s[..k] + [s[k]] + s[k + 1..];
  }

  lemma MultisetAddBack<T>(m: multiset<T>, x: T)
    requires x in m
    ensures (m - multiset{x}) + multiset{x} == m
  {
  }

  /** Mapping commutes with dropping the first element ... */
  lemma MapSeqTail<A, B>(f: A -> B, s: seq<A>)
    requires s != []
    ensures f(s[0]) in multiset(MapSeq(f, s))
    ensures multiset(MapSeq(f, s[1..])) == multiset(MapSeq(f, s)) - multiset{f(s[0])}
  {
    var r := MapSeq(f, s);
    assert r[0] == f(s[0]);
    MultisetTail(r);
    assert MapSeq(f, s[1..]) == r[1..];
  }

  /** ... and with removing the element at `k`. */
  lemma MapSeqRemoveAt<A, B>(f: A -> B, s: seq<A>, k: nat)
    requires k < |s|
    ensures f(s[k]) in multiset(MapSeq(f, s))
    ensures multiset(MapSeq(f, s[..k] + s[k + 1..])) == multiset(MapSeq(f, s)) - multiset{f(s[k])}
  {
    var r := MapSeq(f, s);
    assert r[k] == f(s[k]);
    MultisetRemoveAt(r, k);
    assert MapSeq(f, s[..k] + s[k + 1..]) == r[..k] + r[k + 1..];
  }

  /** A subsequence of a sequence without duplicates has none either. */
  lemma {:induction false} SubsequenceNoDuplicates<T>(r: seq<T>, s: seq<T>)
    requires IsSubsequence(r, s) && NoDuplicates(s)
    ensures NoDuplicates(r)
    decreases |s|
  {
    if r != [] {
      assert NoDuplicates(s[1..]) by {
        forall i, j | 0 <= i < j < |s[1..]| ensures s[1..][i] != s[1..][j] {
          assert s[1..][i] == s[i + 1] && s[1..][j] == s[j + 1];
        }
      }
      if r[0] == s[0] && IsSubsequence(r[1..], s[1..]) {
        SubsequenceNoDuplicates(r[1..], s[1..]);
        SubsequenceMembers(r[1..], s[1..]);
        assert s[0] !in s[1..] by {
          forall j | 0 <= j < |s[1..]| ensures s[1..][j] != s[0] {
            assert s[1..][j] == s[j + 1];
          }
        }
        forall i, j | 0 <= i < j < |r| ensures r[i] != r[j] {
          assert r[j] == r[1..][j - 1];
          if i > 0 {
            assert r[i] == r[1..][i - 1];
          }
        }
      } else {
        SubsequenceNoDuplicates(r, s[1..]);
      }
    }
  }
}
