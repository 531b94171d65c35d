/** Sequence operations behind the JavaScript idioms the application uses:
    `[...new Set(xs)]`, `filter`, `orderBy` of a database query and `take`. */
module Lists {
  import opened Wrappers

  predicate NoDuplicates<T(==,!new)>(s: seq<T>) {
    forall i, j :: 0 <= i < j < |s| ==> s[i] != s[j]
  }

  // ---------------------------------------------------------------- first-seen deduplication

  /** `[...new Set(s)]`: a JavaScript Set keeps insertion order and ignores a
      value it already holds. */
  function Dedup<T(==,!new)>(s: seq<T>): (r: seq<T>)
    ensures NoDuplicates(r)
    ensures forall x :: x in r <==> x in s
    ensures |r| <= |s|
  {
    if |s| == 0 then []
    else
      var d := Dedup(s[..|s| - 1]);
      assert forall x :: x in s <==> x in s[..|s| - 1] || x == s[|s| - 1];
      if s[|s| - 1] in d then d else d + [s[|s| - 1]]
  }

  /** Position of the first occurrence of `x` in `s`. */
  function FirstIndex<T(==,!new)>(s: seq<T>, x: T): (i: nat)
    requires x in s
    ensures i < |s| && s[i] == x
    ensures forall j :: 0 <= j < i ==> s[j] != x
  {
    if s[0] == x then 0 else 1 + FirstIndex(s[1..], x)
  }

  lemma {:induction false} FirstIndexExtend<T(!new)>(s: seq<T>, y: T, x: T)
    requires x in s
    ensures FirstIndex(s + [y], x) == FirstIndex(s, x)
  {
    var k := FirstIndex(s, x);
    assert (s + [y])[k] == x;
  }

  /** The deduplicated sequence lists values in the order of their first
      occurrence in the input. */
  lemma {:induction false} DedupFirstSeenOrder<T(!new)>(s: seq<T>, i: nat, j: nat)
    requires i < j < |Dedup(s)|
    ensures FirstIndex(s, Dedup(s)[i]) < FirstIndex(s, Dedup(s)[j])
  {
    var n := |s|;
    var p, y := s[..n - 1], s[n - 1];
    assert s == p + [y];
    var d := Dedup(p);
    var xi, xj := Dedup(s)[i], Dedup(s)[j];
    if y in d {
      FirstIndexExtend(p, y, xi);
      FirstIndexExtend(p, y, xj);
      DedupFirstSeenOrder(p, i, j);
    } else if j < |d| {
      FirstIndexExtend(p, y, xi);
      FirstIndexExtend(p, y, xj);
      DedupFirstSeenOrder(p, i, j);
    } else {
      assert xj == y && y !in p;
      FirstIndexExtend(p, y, xi);
      assert FirstIndex(s, xj) == n - 1;
    }
  }

  /** A sequence without repetitions is its own deduplication. */
  lemma {:induction false} DedupOfDistinct<T(!new)>(s: seq<T>)
    requires NoDuplicates(s)
    ensures Dedup(s) == s
  {
    if |s| > 0 {
      var p := s[..|s| - 1];
      DedupOfDistinct(p);
      assert s[|s| - 1] !in p;
      assert s == p + [s[|s| - 1]];
    }
  }

  /** The elements of `s` that do not occur in `a`, in order. */
  function Unseen<T(==,!new)>(s: seq<T>, a: seq<T>): (r: seq<T>)
    ensures forall x :: x in r <==> x in s && x !in a
  {
    if |s| == 0 then []
    else
      assert forall x :: x in s <==> x in s[..|s| - 1] || x == s[|s| - 1];
      Unseen(s[..|s| - 1], a) + (if s[|s| - 1] in a then [] else [s[|s| - 1]])
  }

  /** Deduplicating a distinct sequence followed by more values keeps the
      first part and appends the new values that it does not already hold. */
  lemma {:induction false} DedupAppend<T(!new)>(a: seq<T>, b: seq<T>)
    requires NoDuplicates(a)
    ensures Dedup(a + b) == a + Dedup(Unseen(b, a))
    decreases |b|
  {
    if |b| == 0 {
      assert a + b == a;
      DedupOfDistinct(a);
    } else {
      DedupAppend(a, b[..|b| - 1]);
      if b[|b| - 1] in a {
        DedupAppendSeen(a, b);
      } else {
        DedupAppendUnseen(a, b);
      }
    }
  }

  lemma DedupAppendSeen<T(!new)>(a: seq<T>, b: seq<T>)
    requires |b| > 0 && b[|b| - 1] in a
    requires Dedup(a + b[..|b| - 1]) == a + Dedup(Unseen(b[..|b| - 1], a))
    ensures Dedup(a + b) == a + Dedup(Unseen(b, a))
  {
    DedupDropsSeen(a, b);
    UnseenDropsSeen(a, b);
  }

  lemma DedupDropsSeen<T(!new)>(a: seq<T>, b: seq<T>)
    requires |b| > 0 && b[|b| - 1] in a
    ensures Dedup(a + b) == Dedup(a + b[..|b| - 1])
  {
    var p, y := b[..|b| - 1], b[|b| - 1];
    assert b == p + [y];
    assert a + b == (a + p) + [y];
    DedupSnoc(a + p, y);
  }

  lemma UnseenDropsSeen<T(!new)>(a: seq<T>, b: seq<T>)
    requires |b| > 0 && b[|b| - 1] in a
    ensures Unseen(b, a) == Unseen(b[..|b| - 1], a)
  {
    assert Unseen(b, a) == Unseen(b[..|b| - 1], a) + [];
  }

  lemma DedupAppendUnseen<T(!new)>(a: seq<T>, b: seq<T>)
    requires |b| > 0 && b[|b| - 1] !in a
    requires Dedup(a + b[..|b| - 1]) == a + Dedup(Unseen(b[..|b| - 1], a))
    ensures Dedup(a + b) == a + Dedup(Unseen(b, a))
  {
    var p, y := b[..|b| - 1], b[|b| - 1];
    var d, w := Dedup(a + p), Unseen(p, a);
    assert Dedup(a + b) == if y in d then d else d + [y] by {
      assert b == p + [y];
      assert a + b == (a + p) + [y];
      DedupSnoc(a + p, y);
    }
    assert Unseen(b, a) == w + [y];
    DedupSnoc(w, y);
    if y in Dedup(w) {
      calc {
        Dedup(a + b);
        { assert y in d; }
        d;
        a + Dedup(w + [y]);
      }
    } else {
      calc {
        Dedup(a + b);
        { assert y !in d; }
        d + [y];
        { AppendAssoc(a, Dedup(w), [y]); }
        a + (Dedup(w) + [y]);
        a + Dedup(w + [y]);
      }
    }
  }

  lemma AppendAt<T>(a: seq<T>, b: seq<T>, i: nat)
    requires i < |b|
    ensures (a + b)[|a| + i] == b[i]
  {
  }

  lemma AppendAssoc<T>(x: seq<T>, y: seq<T>, z: seq<T>)
    ensures (x + y) + z == x + (y + z)
  {
  }

  lemma DedupSnoc<T(!new)>(s: seq<T>, y: T)
    ensures Dedup(s + [y]) == if y in Dedup(s) then Dedup(s) else Dedup(s) + [y]
  {
    assert (s + [y])[..|s|] == s;
  }

  // ---------------------------------------------------------------- removal

  /** `s.filter((r) => r !== x)`. */
  function RemoveAll<T(==,!new)>(s: seq<T>, x: T): (r: seq<T>)
    ensures forall y :: y in r <==> y in s && y != x
    ensures |r| <= |s|
  {
    if |s| == 0 then []
    else
      assert forall y :: y in s <==> y == s[0] || y in s[1..];
      (if s[0] == x then [] else [s[0]]) + RemoveAll(s[1..], x)
  }

  lemma {:induction false} RemoveAbsent<T(!new)>(s: seq<T>, x: T)
    requires x !in s
    ensures RemoveAll(s, x) == s
  {
    if |s| > 0 {
      RemoveAbsent(s[1..], x);
      assert s == [s[0]] + s[1..];
    }
  }

  /** In a sequence without repetitions, removing a present value cuts out
      exactly its one position and keeps the rest in order. */
  lemma {:induction false} RemoveAtPosition<T(!new)>(s: seq<T>, k: nat)
    requires NoDuplicates(s) && k < |s|
    ensures RemoveAll(s, s[k]) == s[..k] + s[k + 1..]
  {
    var x := s[k];
    assert RemoveAll(s, x) == (if s[0] == x then [] else [s[0]]) + RemoveAll(s[1..], x);
    if k == 0 {
      assert forall j :: 1 <= j < |s| ==> s[j] != x;
      assert x !in s[1..];
      RemoveAbsent(s[1..], x);
    } else {
      assert s[0] != x;
      assert s[1..][k - 1] == x;
      assert NoDuplicates(s[1..]);
      RemoveAtPosition(s[1..], k - 1);
      assert s[1..][..k - 1] == s[1..k];
      assert s[1..][k..] == s[k + 1..];
      assert s[..k] == [s[0]] + s[1..k];
    }
  }

  lemma {:induction false} RemoveKeepsDistinct<T(!new)>(s: seq<T>, x: T)
    requires NoDuplicates(s)
    ensures NoDuplicates(RemoveAll(s, x))
  {
    if |s| > 0 {
      RemoveKeepsDistinct(s[1..], x);
      assert s[0] !in s[1..];
    }
  }

  // ---------------------------------------------------------------- ordering and limits

  predicate SortedBy<T>(s: seq<T>, key: T -> int) {
    forall i, j :: 0 <= i < j < |s| ==> key(s[i]) <= key(s[j])
  }

  function Insert<T(==,!new)>(x: T, s: seq<T>, key: T -> int): (r: seq<T>)
    requires SortedBy(s, key)
    ensures SortedBy(r, key)
    ensures multiset(r) == multiset(s) + multiset{x}
    ensures |r| == |s| + 1
    ensures r[0] == x || (|s| > 0 && r[0] == s[0])
  {
    if |s| == 0 || key(x) <= key(s[0]) then [x] + s
    else
      assert s == [s[0]] + s[1..];
      [s[0]] + Insert(x, s[1..], key)
  }

  /** Insertion sort: the rows of a query in ascending order of `key`. Rows
      with the same key keep their relative order. */
  function SortBy<T(==,!new)>(s: seq<T>, key: T -> int): (r: seq<T>)
    ensures SortedBy(r, key)
    ensures multiset(r) == multiset(s)
    ensures |r| == |s|
  {
    if |s| == 0 then []
    else
      assert s == [s[0]] + s[1..];
      Insert(s[0], SortBy(s[1..], key), key)
  }

  lemma SortByMembers<T(!new)>(s: seq<T>, key: T -> int)
    ensures forall x :: x in SortBy(s, key) <==> x in s
  {
    var r := SortBy(s, key);
    assert forall x :: x in r <==> x in multiset(r);
  }

  /** The `take` of a query: at most `n` rows from the front. */
  function Take<T>(s: seq<T>, n: nat): (r: seq<T>)
    ensures |r| == if n < |s| then n else |s|
    ensures forall i :: 0 <= i < |r| ==> r[i] == s[i]
  {
    if n < |s| then s[..n] else s
  }

  /** `s.filter(p)`. */
  function Filter<T(!new)>(s: seq<T>, p: T -> bool): (r: seq<T>)
    ensures forall x :: x in r <==> x in s && p(x)
    ensures forall i :: 0 <= i < |r| ==> p(r[i])
    ensures |r| <= |s|
    decreases |s|
  {
    if |s| == 0 then []
    else
      assert forall y :: y in s <==> y in s[..|s| - 1] || y == s[|s| - 1];
      Filter(s[..|s| - 1], p) + (if p(s[|s| - 1]) then [s[|s| - 1]] else [])
  }

  lemma {:induction false} FilterAllKept<T(!new)>(s: seq<T>, p: T -> bool)
    requires forall i :: 0 <= i < |s| ==> p(s[i])
    ensures Filter(s, p) == s
    decreases |s|
  {
    if |s| > 0 {
      var init := s[..|s| - 1];
      assert forall i :: 0 <= i < |init| ==> p(init[i]) by {
        forall i | 0 <= i < |init| ensures p(init[i]) {
          assert init[i] == s[i];
        }
      }
      FilterAllKept(init, p);
      assert p(s[|s| - 1]);
      assert Filter(s, p) == init + [s[|s| - 1]];
      assert init + [s[|s| - 1]] == s;
    }
  }

  /** Filtering keeps the relative order of first occurrences. */
  lemma {:induction false} FilterFirstIndexOrder<T(!new)>(s: seq<T>, p: T -> bool, a: T, b: T)
    requires a in Filter(s, p) && b in Filter(s, p)
    requires FirstIndex(Filter(s, p), a) < FirstIndex(Filter(s, p), b)
    ensures FirstIndex(s, a) < FirstIndex(s, b)
    decreases |s|
  {
    var q, y := s[..|s| - 1], s[|s| - 1];
    assert s == q + [y];
    var fq := Filter(q, p);
    var f := Filter(s, p);
    assert f == fq + (if p(y) then [y] else []);
    var ib := FirstIndex(f, b);
    var ia := FirstIndex(f, a);
    if ib < |fq| {
      assert f[ib] == fq[ib] && f[ia] == fq[ia];
      assert a in fq && b in fq;
      if p(y) {
        FirstIndexExtend(fq, y, a);
        FirstIndexExtend(fq, y, b);
      } else {
        assert f == fq;
      }
      FilterFirstIndexOrder(q, p, a, b);
      FirstIndexExtend(q, y, a);
      FirstIndexExtend(q, y, b);
    } else {
      assert f[ia] == fq[ia];
      assert a in fq;
      assert p(y) && b == y;
      if b in fq {
        FirstIndexExtend(fq, y, b);
        assert false;
      }
      assert b !in q;
      FirstIndexExtend(q, y, a);
    }
  }

  /** Dropping values before or after a first-seen deduplication gives the
      same sequence. */
  lemma {:induction false} DedupFilterCommute<T(!new)>(s: seq<T>, p: T -> bool)
    ensures Filter(Dedup(s), p) == Dedup(Filter(s, p))
    decreases |s|
  {
    if |s| > 0 {
      var q, y := s[..|s| - 1], s[|s| - 1];
      DedupFilterCommute(q, p);
      var d := Dedup(q);
      if y in d {
        assert Dedup(s) == d;
        if p(y) {
          assert y in Filter(q, p);
          assert Filter(s, p) == Filter(q, p) + [y];
          assert Filter(s, p)[..|Filter(s, p)| - 1] == Filter(q, p);
        } else {
          assert Filter(s, p) == Filter(q, p);
        }
      } else {
        assert Dedup(s) == d + [y];
        assert (d + [y])[..|d + [y]| - 1] == d;
        if p(y) {
          assert y !in Filter(q, p);
          assert Filter(s, p) == Filter(q, p) + [y];
          assert Filter(s, p)[..|Filter(s, p)| - 1] == Filter(q, p);
        } else {
          assert Filter(s, p) == Filter(q, p);
        }
      }
    }
  }

  /** A query already in ascending order of `key` comes back unchanged. */
  lemma {:induction false} SortByOfSorted<T(!new)>(s: seq<T>, key: T -> int)
    requires SortedBy(s, key)
    ensures SortBy(s, key) == s
  {
    if |s| > 0 {
      SortByOfSorted(s[1..], key);
      assert s == [s[0]] + s[1..];
    }
  }

  /** Index of the first row that satisfies `p` (a `findFirst`/`findUnique`). */
  function FindFirst<T>(s: seq<T>, p: T -> bool): (r: Option<nat>)
    ensures r.Some? ==> r.value < |s| && p(s[r.value]) && forall j :: 0 <= j < r.value ==> !p(s[j])
    ensures r.None? ==> forall j :: 0 <= j < |s| ==> !p(s[j])
  {
    if |s| == 0 then None
    else if p(s[0]) then Some(0)
    else match FindFirst(s[1..], p)
      case None => None
      case Some(k) => Some(k + 1)
  }
}
