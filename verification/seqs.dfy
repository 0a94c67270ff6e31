/** Sequence operations the source uses through the document store and
    JavaScript arrays: `findOne` (first match in natural order), `find` /
    `Array.filter` (all matches, order kept) and filtering out one index. */
module Seqs {
  import opened Common

  /** Index of the first element satisfying `p`; a store's `findOne` in natural order. */
  function FindFirst<T>(s: seq<T>, p: T -> bool): (r: Option<nat>)
    ensures r.Some? ==> r.value < |s| && p(s[r.value])
    ensures r.Some? ==> forall j :: 0 <= j < r.value ==> !p(s[j])
    ensures r.None? <==> forall j :: 0 <= j < |s| ==> !p(s[j])
    decreases |s|
  {
    if |s| == 0 then None
    else if p(s[0]) then Some(0)
    else
      match FindFirst(s[1..], p)
      case None => None
      case Some(k) => Some(k + 1)
  }

  /** The elements satisfying `p`, in their original order (`Array.filter`). */
  function Filter<T>(s: seq<T>, p: T -> bool): (r: seq<T>)
    ensures |r| <= |s|
    ensures forall k :: 0 <= k < |r| ==> p(r[k])
    decreases |s|
  {
    if |s| == 0 then []
    else (if p(s[0]) then [s[0]] else []) + Filter(s[1..], p)
  }

  /** Filtering keeps exactly the passing elements: everything it returns
      comes from `s`, and every passing element of `s` is returned. */
  lemma {:induction false} FilterMembers<T>(s: seq<T>, p: T -> bool)
    ensures forall k :: 0 <= k < |Filter(s, p)| ==> Filter(s, p)[k] in s
    ensures forall k :: 0 <= k < |s| && p(s[k]) ==> s[k] in Filter(s, p)
    decreases |s|
  {
    if |s| > 0 {
      FilterMembers(s[1..], p);
      var head := if p(s[0]) then [s[0]] else [];
      var rest := Filter(s[1..], p);
      assert Filter(s, p) == head + rest;
      forall k | 0 <= k < |Filter(s, p)| ensures Filter(s, p)[k] in s {
        if k >= |head| {
          assert Filter(s, p)[k] == rest[k - |head|];
        }
      }
      forall k | 0 <= k < |s| && p(s[k]) ensures s[k] in Filter(s, p) {
        if k > 0 {
          assert s[k] == s[1..][k - 1];
          assert s[k] in rest;
        }
      }
    }
  }

  /** `a` occurs in `b` in order, possibly with gaps. Matching each element
      of `a` at its earliest place in `b` decides the relation exactly. */
  predicate IsSubseq<T(==)>(a: seq<T>, b: seq<T>)
    decreases |b|
  {
    if |a| == 0 then true
    else if |b| == 0 then false
    else if a[0] == b[0] then IsSubseq(a[1..], b[1..])
    else IsSubseq(a, b[1..])
  }

  /** Filtering keeps the passing elements in the order `s` holds them. */
  lemma {:induction false} FilterInOrder<T>(s: seq<T>, p: T -> bool)
    ensures IsSubseq(Filter(s, p), s)
    decreases |s|
  {
    if |s| > 0 {
      FilterInOrder(s[1..], p);
      var rest := Filter(s[1..], p);
      if p(s[0]) {
        assert Filter(s, p) == [s[0]] + rest;
        assert ([s[0]] + rest)[1..] == rest;
      } else {
        assert Filter(s, p) == rest;
        assert rest != [] ==> p(rest[0]);
      }
    }
  }

  /** Filtering keeps every passing element as often as `s` holds it, and no
      other element. */
  lemma {:induction false} FilterCounts<T>(s: seq<T>, p: T -> bool)
    ensures forall x :: multiset(Filter(s, p))[x] == if p(x) then multiset(s)[x] else 0
    decreases |s|
  {
    if |s| > 0 {
      FilterCounts(s[1..], p);
      var head := if p(s[0]) then [s[0]] else [];
      assert s == [s[0]] + s[1..];
      assert multiset(s) == multiset{s[0]} + multiset(s[1..]);
      assert multiset(Filter(s, p)) == multiset(head) + multiset(Filter(s[1..], p));
    }
  }

  /** Filtering distributes over concatenation: it keeps the relative order. */
  lemma {:induction false} FilterAppend<T>(a: seq<T>, b: seq<T>, p: T -> bool)
    ensures Filter(a + b, p) == Filter(a, p) + Filter(b, p)
    decreases |a|
  {
    if |a| == 0 {
      assert a + b == b;
    } else {
      assert (a + b)[1..] == a[1..] + b;
      FilterAppend(a[1..], b, p);
    }
  }

  /** Filtering keeps a sequence whole exactly when every element passes. */
  lemma {:induction false} FilterKeepsAll<T>(s: seq<T>, p: T -> bool)
    requires forall k :: 0 <= k < |s| ==> p(s[k])
    ensures Filter(s, p) == s
    decreases |s|
  {
    if |s| > 0 {
      FilterKeepsAll(s[1..], p);
    }
  }

  /** The conjunction of two tests. */
  function Both<T>(p: T -> bool, q: T -> bool): T -> bool {
    x => p(x) && q(x)
  }

  /** Filtering twice is filtering once by both tests. */
  lemma {:induction false} FilterTwice<T>(s: seq<T>, p: T -> bool, q: T -> bool)
    ensures Filter(Filter(s, p), q) == Filter(s, Both(p, q))
    decreases |s|
  {
    if |s| > 0 {
      FilterTwice(s[1..], p, q);
      var head := if p(s[0]) then [s[0]] else [];
      FilterAppend(head, Filter(s[1..], p), q);
      if p(s[0]) {
        assert Filter(head, q) == (if q(s[0]) then [s[0]] else []) by {
          assert head[1..] == [];
        }
      }
    }
  }

  /** Tests that agree on every element filter alike. */
  lemma {:induction false} FilterAgree<T>(s: seq<T>, p: T -> bool, q: T -> bool)
    requires forall k :: 0 <= k < |s| ==> p(s[k]) == q(s[k])
    ensures Filter(s, p) == Filter(s, q)
    decreases |s|
  {
    if |s| > 0 {
      FilterAgree(s[1..], p, q);
    }
  }

  /** Filtering drops every element when none passes. */
  lemma {:induction false} FilterDropsAll<T>(s: seq<T>, p: T -> bool)
    requires forall k :: 0 <= k < |s| ==> !p(s[k])
    ensures Filter(s, p) == []
    decreases |s|
  {
    if |s| > 0 {
      FilterDropsAll(s[1..], p);
    }
  }

  /** A failing first element is dropped. */
  lemma {:induction false} FilterSkipsHead<T>(x: T, rest: seq<T>, p: T -> bool)
    requires !p(x)
    ensures Filter([x] + rest, p) == Filter(rest, p)
  {
    assert ([x] + rest)[1..] == rest;
  }

  /** Filtering past an element that fails the test. */
  lemma {:induction false} FilterDropOne<T>(a: seq<T>, i: nat, p: T -> bool)
    requires i < |a| && !p(a[i])
    ensures Filter(a, p) == Filter(a[..i], p) + Filter(a[i + 1..], p)
  {
    var rest := a[i + 1..];
    assert a == a[..i] + ([a[i]] + rest);
    FilterAppend(a[..i], [a[i]] + rest, p);
    FilterSkipsHead(a[i], rest, p);
  }

  /** A second test that every element of `s` passes changes no filtering. */
  lemma {:induction false} FilterBothPassing<T>(s: seq<T>, p: T -> bool, q: T -> bool)
    requires forall k :: 0 <= k < |s| ==> q(s[k])
    ensures Filter(s, Both(p, q)) == Filter(s, p)
  {
    FilterAgree(s, Both(p, q), p);
  }

  /** When `q` drops exactly the element at `i`, filtering by `p` and then by
      `q` is filtering by `p` with that element removed. */
  lemma {:induction false} FilterWithoutOne<T>(a: seq<T>, i: nat, p: T -> bool, q: T -> bool)
    requires i < |a| && !q(a[i])
    requires forall k :: 0 <= k < |a| && k != i ==> q(a[k])
    ensures Filter(Filter(a, p), q) == Filter(a[..i] + a[i + 1..], p)
  {
    var before, after := a[..i], a[i + 1..];
    assert forall k :: 0 <= k < |before| ==> q(before[k]) by {
      forall k | 0 <= k < |before| ensures q(before[k]) {
        assert before[k] == a[k];
      }
    }
    assert forall k :: 0 <= k < |after| ==> q(after[k]) by {
      forall k | 0 <= k < |after| ensures q(after[k]) {
        assert after[k] == a[i + 1 + k];
      }
    }
    FilterTwice(a, p, q);
    FilterDropOne(a, i, Both(p, q));
    FilterBothPassing(before, p, q);
    FilterBothPassing(after, p, q);
    FilterAppend(before, after, p);
  }

  /** `s.filter((_, i) => i !== index)`: drops position `index`, if there is one. */
  function WithoutIndex<T>(s: seq<T>, index: int): (r: seq<T>)
    ensures 0 <= index < |s| ==> r == s[..index] + s[index + 1..]
    ensures !(0 <= index < |s|) ==> r == s
    decreases |s|
  {
    if |s| == 0 then []
    else (if index == 0 then [] else [s[0]]) + WithoutIndex(s[1..], index - 1)
  }
}
