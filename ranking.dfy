/** Python's `list.sort(key=..., reverse=True)` / `sorted(..., reverse=True)`:
    a stable sort into non-increasing key order, plus top-k truncation and the
    first-maximum choice `max(xs, key=...)` makes. */
module Ranking {
  import opened PyStrings

  /** Non-increasing by `key`. */
  predicate SortedDesc<T>(xs: seq<T>, key: T -> real) {
    forall i, j :: 0 <= i < j < |xs| ==> key(xs[i]) >= key(xs[j])
  }

  /** Places `x` after every element whose key is at least `key(x)`: where a stable
      descending sort puts the last element of its input. */
  function Insert<T>(s: seq<T>, x: T, key: T -> real): (r: seq<T>)
    ensures |r| == |s| + 1
  {
    if s == [] then [x]
    else if key(s[0]) >= key(x) then [s[0]] + Insert(s[1..], x, key)
    else [x] + s
  }

  /** Insertion adds exactly the inserted element. */
  lemma {:induction false} InsertPermutation<T>(s: seq<T>, x: T, key: T -> real)
    ensures multiset(Insert(s, x, key)) == multiset(s) + multiset{x}
    decreases |s|
  {
    if s != [] {
      assert s == [s[0]] + s[1..];
      if key(s[0]) >= key(x) {
        InsertPermutation(s[1..], x, key);
      }
    }
  }

  /** `sorted(xs, key=key, reverse=True)`. */
  function SortDesc<T>(xs: seq<T>, key: T -> real): (r: seq<T>)
    ensures |r| == |xs|
  {
    if xs == [] then [] else Insert(SortDesc(xs[..|xs| - 1], key), xs[|xs| - 1], key)
  }

  /** Every element of the insertion result is `x` or an element of `s`. */
  lemma InsertMembers<T>(s: seq<T>, x: T, key: T -> real, j: int)
    requires 0 <= j < |Insert(s, x, key)|
    ensures Insert(s, x, key)[j] == x || Insert(s, x, key)[j] in s
  {
    var r := Insert(s, x, key);
    InsertPermutation(s, x, key);
    assert r[j] in multiset(r);
  }

  lemma {:induction false} InsertSorted<T>(s: seq<T>, x: T, key: T -> real)
    requires SortedDesc(s, key)
    ensures SortedDesc(Insert(s, x, key), key)
    decreases |s|
  {
    if s == [] {
    } else if key(s[0]) >= key(x) {
      var t := Insert(s[1..], x, key);
      InsertSorted(s[1..], x, key);
      forall j | 0 <= j < |t|
        ensures key(s[0]) >= key(t[j])
      {
        InsertMembers(s[1..], x, key, j);
        if t[j] != x {
          var m :| 0 <= m < |s[1..]| && s[1..][m] == t[j];
          assert s[m + 1] == t[j];
        }
      }
      var r := [s[0]] + t;
      forall i, j | 0 <= i < j < |r|
        ensures key(r[i]) >= key(r[j])
      {
        assert r[j] == t[j - 1];
        if i > 0 {
          assert r[i] == t[i - 1];
        }
      }
    } else {
      var r := [x] + s;
      forall i, j | 0 <= i < j < |r|
        ensures key(r[i]) >= key(r[j])
      {
        assert r[j] == s[j - 1];
        if i > 0 {
          assert r[i] == s[i - 1];
        } else if j > 1 {
          assert key(s[0]) >= key(s[j - 1]);
        }
      }
    }
  }

  lemma {:induction false} SortDescSorted<T>(xs: seq<T>, key: T -> real)
    ensures SortedDesc(SortDesc(xs, key), key)
    decreases |xs|
  {
    if xs != [] {
      SortDescSorted(xs[..|xs| - 1], key);
      InsertSorted(SortDesc(xs[..|xs| - 1], key), xs[|xs| - 1], key);
    }
  }

  lemma {:induction false} SortDescPermutation<T>(xs: seq<T>, key: T -> real)
    ensures multiset(SortDesc(xs, key)) == multiset(xs)
    decreases |xs|
  {
    if xs != [] {
      SortDescPermutation(xs[..|xs| - 1], key);
      InsertPermutation(SortDesc(xs[..|xs| - 1], key), xs[|xs| - 1], key);
      assert xs == xs[..|xs| - 1] + [xs[|xs| - 1]];
    }
  }

  /** The elements of `xs` whose key is exactly `v`, in order. */
  function KeyFilter<T>(xs: seq<T>, key: T -> real, v: real): (r: seq<T>)
    ensures |r| <= |xs|
  {
    if xs == [] then []
    else (if key(xs[0]) == v then [xs[0]] else []) + KeyFilter(xs[1..], key, v)
  }

  lemma KeyFilterAppend<T>(a: seq<T>, b: seq<T>, key: T -> real, v: real)
    ensures KeyFilter(a + b, key, v) == KeyFilter(a, key, v) + KeyFilter(b, key, v)
  {
    if a != [] {
      var h := if key(a[0]) == v then [a[0]] else [];
      assert (a + b)[0] == a[0];
      assert (a + b)[1..] == a[1..] + b;
      KeyFilterAppend(a[1..], b, key, v);
      calc {
        KeyFilter(a + b, key, v);
        h + KeyFilter(a[1..] + b, key, v);
        h + (KeyFilter(a[1..], key, v) + KeyFilter(b, key, v));
        (h + KeyFilter(a[1..], key, v)) + KeyFilter(b, key, v);
      }
    } else {
      assert a + b == b;
    }
  }

  lemma KeyFilterNone<T>(s: seq<T>, key: T -> real, v: real)
    requires forall i :: 0 <= i < |s| ==> key(s[i]) != v
    ensures KeyFilter(s, key, v) == []
  {
  }

  lemma {:induction false} InsertKeyFilter<T>(s: seq<T>, x: T, key: T -> real, v: real)
    requires SortedDesc(s, key)
    ensures KeyFilter(Insert(s, x, key), key, v)
         == KeyFilter(s, key, v) + (if key(x) == v then [x] else [])
    decreases |s|
  {
    if s == [] {
      assert KeyFilter([x], key, v) == (if key(x) == v then [x] else []) + KeyFilter([], key, v);
    } else if key(s[0]) >= key(x) {
      InsertKeyFilter(s[1..], x, key, v);
      InsertKeyFilterBehind(s, x, key, v);
    } else {
      InsertKeyFilterFront(s, x, key, v);
    }
  }

  /** Inserting behind the head keeps the head in front of the filtered rest. */
  lemma InsertKeyFilterBehind<T>(s: seq<T>, x: T, key: T -> real, v: real)
    requires s != [] && key(s[0]) >= key(x)
    requires KeyFilter(Insert(s[1..], x, key), key, v)
          == KeyFilter(s[1..], key, v) + (if key(x) == v then [x] else [])
    ensures KeyFilter(Insert(s, x, key), key, v)
         == KeyFilter(s, key, v) + (if key(x) == v then [x] else [])
  {
    var rest := Insert(s[1..], x, key);
    var t := [s[0]] + rest;
    var h0 := if key(s[0]) == v then [s[0]] else [];
    assert Insert(s, x, key) == t;
    assert t[0] == s[0] && t[1..] == rest;
    assert KeyFilter(t, key, v) == h0 + KeyFilter(rest, key, v);
    assert KeyFilter(s, key, v) == h0 + KeyFilter(s[1..], key, v);
  }

  /** Inserting in front of a sorted list whose head has a smaller key: nothing of key
      `key(x)` follows. */
  lemma InsertKeyFilterFront<T>(s: seq<T>, x: T, key: T -> real, v: real)
    requires SortedDesc(s, key) && s != [] && key(s[0]) < key(x)
    ensures KeyFilter(Insert(s, x, key), key, v)
         == KeyFilter(s, key, v) + (if key(x) == v then [x] else [])
  {
    assert Insert(s, x, key) == [x] + s;
    KeyFilterAppend([x], s, key, v);
    assert KeyFilter([x], key, v) == (if key(x) == v then [x] else []) + KeyFilter([], key, v);
    if key(x) == v {
      KeyFilterNone(s, key, v);
    }
  }

  /** Every element of the sorted list comes from the input. */
  lemma SortDescMembers<T>(xs: seq<T>, key: T -> real)
    ensures forall y <- SortDesc(xs, key) :: y in xs
  {
    SortDescPermutation(xs, key);
    forall y <- SortDesc(xs, key)
      ensures y in xs
    {
      assert y in multiset(SortDesc(xs, key));
    }
  }

  /** Stability: among elements with equal key the sorted order is the input order. */
  lemma {:induction false} SortDescStable<T>(xs: seq<T>, key: T -> real, v: real)
    ensures KeyFilter(SortDesc(xs, key), key, v) == KeyFilter(xs, key, v)
    decreases |xs|
  {
    if xs != [] {
      var init, x := xs[..|xs| - 1], xs[|xs| - 1];
      assert init + [x] == xs;
      SortDescStable(init, key, v);
      SortDescSorted(init, key);
      assert SortDesc(xs, key) == Insert(SortDesc(init, key), x, key);
      InsertKeyFilter(SortDesc(init, key), x, key, v);
      KeyFilterAppend(init, [x], key, v);
      assert KeyFilter([x], key, v) == if key(x) == v then [x] else [];
    }
  }

  /** The head of the sorted list carries the largest key. */
  lemma SortDescHeadIsMax<T>(xs: seq<T>, key: T -> real)
    requires xs != []
    ensures forall x <- xs :: key(SortDesc(xs, key)[0]) >= key(x)
  {
    var r := SortDesc(xs, key);
    SortDescSorted(xs, key);
    SortDescPermutation(xs, key);
    forall x <- xs
      ensures key(r[0]) >= key(x)
    {
      assert x in multiset(r);
      var j :| 0 <= j < |r| && r[j] == x;
    }
  }

  /** Index of the first element with the largest key: what `max(xs, key=key)` returns. */
  function FirstMaxIndex<T>(xs: seq<T>, key: T -> real): (i: nat)
    requires xs != []
    ensures i < |xs|
    ensures forall j :: 0 <= j < |xs| ==> key(xs[j]) <= key(xs[i])
    ensures forall j :: 0 <= j < i ==> key(xs[j]) < key(xs[i])
  {
    if |xs| == 1 then 0
    else
      var k := FirstMaxIndex(xs[1..], key);
      if key(xs[0]) >= key(xs[1..][k]) then 0 else k + 1
  }

  /** An entry with the 1-based position `rank` that `for i, x in enumerate(xs): x['rank'] = i + 1`
      writes into it. */
  datatype Ranked<T> = Ranked(entry: T, rank: nat)

  /** The ranking loop: ranks are exactly 1, 2, ..., |xs| in list order and the entries
      are untouched. */
  method AssignRanks<T>(xs: seq<T>) returns (r: seq<Ranked<T>>)
    ensures |r| == |xs|
    ensures forall i :: 0 <= i < |r| ==> r[i].entry == xs[i] && r[i].rank == i + 1
  {
    r := [];
    for i := 0 to |xs|
      invariant |r| == i
      invariant forall j :: 0 <= j < i ==> r[j].entry == xs[j] && r[j].rank == j + 1
    {
      r := r + [Ranked(xs[i], i + 1)];
    }
  }

  /** The list `AssignRanks` produces: every entry paired with its 1-based position. */
  function RankedList<T>(xs: seq<T>): (r: seq<Ranked<T>>)
    ensures |r| == |xs| && forall i :: 0 <= i < |r| ==> r[i] == Ranked(xs[i], i + 1)
  {
    seq(|xs|, i requires 0 <= i < |xs| => Ranked(xs[i], i + 1))
  }

  /** A list ranked element by element is the ranked list. */
  lemma RankedListOf<T>(r: seq<Ranked<T>>, xs: seq<T>)
    requires |r| == |xs| && forall i :: 0 <= i < |xs| ==> r[i] == Ranked(xs[i], i + 1)
    ensures r == RankedList(xs)
  {
  }

  /** `sorted(xs, key=key, reverse=True)[:k]` keeps min(k, |xs|) elements of `xs`, and
      each kept element's key is at least that of each element left out. */
  lemma TopKOfSorted<T>(xs: seq<T>, key: T -> real, k: nat)
    ensures var s := SortDesc(xs, key);
      |s[..Min(k, |s|)]| == Min(k, |xs|)
      && multiset(s[..Min(k, |s|)]) <= multiset(xs)
      && forall i, j :: 0 <= i < Min(k, |s|) <= j < |s| ==> key(s[i]) >= key(s[j])
  {
    var s := SortDesc(xs, key);
    SortDescSorted(xs, key);
    SortDescPermutation(xs, key);
    assert s == s[..Min(k, |s|)] + s[Min(k, |s|)..];
  }
}
