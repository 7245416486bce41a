/**
  `SequenceType.groupBy` and the ordered sections the session list is built from:
  elements are put in one bucket per key in the order they are met, and the buckets of
  integer keys (timestamps) are laid out by ascending key.
 */
module Grouping {

  /** The elements of `s` whose key is `k`, in input order. */
  function Bucket<T, U(==)>(s: seq<T>, key: T -> U, k: U): seq<T> {
    if s == [] then []
    else Bucket(s[..|s| - 1], key, k) + (if key(s[|s| - 1]) == k then [s[|s| - 1]] else [])
  }

  /** The positions of `s` whose key is `k`, in increasing order. */
  function BucketIndices<T, U(==)>(s: seq<T>, key: T -> U, k: U): seq<nat> {
    if s == [] then []
    else BucketIndices(s[..|s| - 1], key, k) + (if key(s[|s| - 1]) == k then [|s| - 1] else [])
  }

  /** The keys that occur in `s`. */
  function KeySet<T, U(==)>(s: seq<T>, key: T -> U): set<U> {
    set i | 0 <= i < |s| :: key(s[i])
  }

  /** The dictionary `groupBy` returns: one bucket for each key that occurs. */
  function GroupSpec<T, U(==)>(s: seq<T>, key: T -> U): map<U, seq<T>> {
    map k | k in KeySet(s, key) :: Bucket(s, key, k)
  }

  lemma BucketSnoc<T, U>(s: seq<T>, x: T, key: T -> U, k: U)
    ensures Bucket(s + [x], key, k) == Bucket(s, key, k) + (if key(x) == k then [x] else [])
  {
    assert (s + [x])[..|s|] == s;
  }

  /** A bucket is empty exactly when its key does not occur. */
  lemma {:induction false} BucketEmptyIff<T, U>(s: seq<T>, key: T -> U, k: U)
    ensures Bucket(s, key, k) == [] <==> k !in KeySet(s, key)
  {
    if s != [] {
      var t := s[..|s| - 1];
      BucketEmptyIff(t, key, k);
      assert KeySet(s, key) == KeySet(t, key) + {key(s[|s| - 1])} by {
        forall i | 0 <= i < |t| ensures t[i] == s[i] { }
      }
    }
  }

  lemma GroupSpecSnoc<T, U>(s: seq<T>, x: T, key: T -> U)
    ensures var g := GroupSpec(s, key);
            GroupSpec(s + [x], key) ==
              if key(x) in g then g[key(x) := g[key(x)] + [x]] else g[key(x) := [x]]
  {
    var g, g' := GroupSpec(s, key), GroupSpec(s + [x], key);
    var want := if key(x) in g then g[key(x) := g[key(x)] + [x]] else g[key(x) := [x]];
    assert KeySet(s + [x], key) == KeySet(s, key) + {key(x)} by {
      forall i | 0 <= i < |s| ensures (s + [x])[i] == s[i] { }
      assert (s + [x])[|s|] == x;
    }
    assert g'.Keys == want.Keys;
    BucketEmptyIff(s, key, key(x));
    forall k | k in g'
      ensures g'[k] == want[k]
    {
      BucketSnoc(s, x, key, k);
    }
  }

  /** `groupBy`: walks the sequence once and appends each element to its key's bucket. */
  method GroupBy<T, U(==)>(s: seq<T>, key: T -> U) returns (dict: map<U, seq<T>>)
    ensures dict == GroupSpec(s, key)
  {
    dict := map[];
    for i := 0 to |s|
      invariant dict == GroupSpec(s[..i], key)
    {
      var el := s[i];
      var k := key(el);
      GroupStep(s, i, key);
      if k in dict {
        dict := dict[k := dict[k] + [el]];
      } else {
        dict := dict[k := [el]];
      }
    }
    assert s[..|s|] == s;
  }

  lemma GroupStep<T, U>(s: seq<T>, i: nat, key: T -> U)
    requires i < |s|
    ensures var g, k := GroupSpec(s[..i], key), key(s[i]);
            GroupSpec(s[..i + 1], key) == if k in g then g[k := g[k] + [s[i]]] else g[k := [s[i]]]
  {
    assert s[..i + 1] == s[..i] + [s[i]];
    GroupSpecSnoc(s[..i], s[i], key);
  }

  /**
    Every bucket of `groupBy` is a selection of the input in input order: its elements
    are exactly those at the positions whose key is `k` (and no other), taken in
    increasing position order.
   */
  lemma {:induction false} BucketKeepsInputOrder<T, U>(s: seq<T>, key: T -> U, k: U)
    ensures var b, idx := Bucket(s, key, k), BucketIndices(s, key, k);
            && |idx| == |b|
            && (forall j :: 0 <= j < |idx| ==> idx[j] < |s| && b[j] == s[idx[j]])
            && (forall j, j' :: 0 <= j < j' < |idx| ==> idx[j] < idx[j'])
            && (forall i :: 0 <= i < |s| ==> (key(s[i]) == k <==> i in idx))
  {
    if s != [] {
      var t := s[..|s| - 1];
      BucketKeepsInputOrder(t, key, k);
      var b, idx := Bucket(s, key, k), BucketIndices(s, key, k);
      var bt, it := Bucket(t, key, k), BucketIndices(t, key, k);
      assert forall i :: 0 <= i < |t| ==> t[i] == s[i];
      forall i | 0 <= i < |s| ensures key(s[i]) == k <==> i in idx {
        if i < |t| {
          assert i in idx <==> i in it;
        }
      }
    }
  }

  /** Every element lands in the bucket of its own key, and no bucket is empty or holds a stranger. */
  lemma GroupSpecPlacesEveryElement<T, U>(s: seq<T>, key: T -> U)
    ensures forall i :: 0 <= i < |s| ==> key(s[i]) in GroupSpec(s, key) && s[i] in GroupSpec(s, key)[key(s[i])]
    ensures forall k :: k in GroupSpec(s, key) ==> GroupSpec(s, key)[k] != []
    ensures forall k :: k in GroupSpec(s, key) ==> forall x :: x in GroupSpec(s, key)[k] ==> key(x) == k
  {
    var g := GroupSpec(s, key);
    forall k | k in g
      ensures g[k] != [] && forall x :: x in g[k] ==> key(x) == k
    {
      BucketEmptyIff(s, key, k);
      BucketKeepsInputOrder(s, key, k);
      forall x | x in g[k] ensures key(x) == k {
        var j :| 0 <= j < |g[k]| && g[k][j] == x;
      }
    }
    forall i | 0 <= i < |s|
      ensures key(s[i]) in g && s[i] in g[key(s[i])]
    {
      var k := key(s[i]);
      BucketKeepsInputOrder(s, key, k);
      var idx := BucketIndices(s, key, k);
      var j :| 0 <= j < |idx| && idx[j] == i;
      assert Bucket(s, key, k)[j] == s[i];
    }
  }

  // ---------------------------------------------------------------------------
  // Sorting the keys and laying out the sections
  // ---------------------------------------------------------------------------

  predicate StrictlyIncreasing(xs: seq<int>) {
    forall i, j :: 0 <= i < j < |xs| ==> xs[i] < xs[j]
  }

  lemma Pick(ks: set<int>) returns (x: int)
    requires ks != {}
    ensures x in ks
  {
    if forall y :: y !in ks { assert false; }
    x :| x in ks;
  }

  /** A nonempty finite set of integers has a least element. */
  lemma {:induction false} Minimum(ks: set<int>) returns (m: int)
    requires ks != {}
    ensures m in ks && forall y :: y in ks ==> m <= y
  {
    var x := Pick(ks);
    var rest := ks - {x};
    if rest == {} {
      m := x;
      assert ks == {x};
    } else {
      var r := Minimum(rest);
      m := if r < x then r else x;
      assert ks == rest + {x};
    }
  }

  lemma MinimumExists(ks: set<int>)
    requires ks != {}
    ensures exists m :: m in ks && forall y :: y in ks ==> m <= y
  {
    var m := Minimum(ks);
  }

  lemma ConsIncreasing(m: int, rest: seq<int>)
    requires StrictlyIncreasing(rest)
    requires forall i :: 0 <= i < |rest| ==> m < rest[i]
    ensures StrictlyIncreasing([m] + rest)
  {
    var r := [m] + rest;
    forall i, j | 0 <= i < j < |r| ensures r[i] < r[j] {
      if i > 0 {
        assert r[i] == rest[i - 1] && r[j] == rest[j - 1];
      } else {
        assert r[j] == rest[j - 1];
      }
    }
  }

  /**
    The keys of a dictionary in ascending order, as `sort` with the comparison
    "not descending" orders distinct keys.
   */
  function SortedKeys(ks: set<int>): (r: seq<int>)
    ensures StrictlyIncreasing(r)
    ensures forall x :: x in r <==> x in ks
    ensures |r| == |ks|
    decreases |ks|
  {
    if ks == {} then []
    else
      MinimumExists(ks);
      var m :| m in ks && forall y :: y in ks ==> m <= y;
      assert |ks - {m}| == |ks| - 1;
      var rest := SortedKeys(ks - {m});
      LeastFirst(ks, m, rest);
      [m] + rest
  }

  /** Putting the least key in front of the sorted others sorts the whole set. */
  lemma LeastFirst(ks: set<int>, m: int, rest: seq<int>)
    requires m in ks && forall y :: y in ks ==> m <= y
    requires StrictlyIncreasing(rest)
    requires forall x :: x in rest <==> x in ks - {m}
    requires |rest| == |ks - {m}|
    ensures StrictlyIncreasing([m] + rest)
    ensures forall x :: x in [m] + rest <==> x in ks
    ensures |[m] + rest| == |ks|
  {
    forall i | 0 <= i < |rest| ensures m < rest[i] {
      assert rest[i] in rest;
    }
    ConsIncreasing(m, rest);
  }

  /** A section: a start key and the elements that have it. */
  type Section<T> = (int, seq<T>)

  /** The sections for the keys `ks`, in the order of `ks`. */
  function SectionsOver<T>(s: seq<T>, key: T -> int, ks: seq<int>): seq<Section<T>> {
    seq(|ks|, i requires 0 <= i < |ks| => (ks[i], Bucket(s, key, ks[i])))
  }

  /**
    One section per distinct key of `s`, by strictly ascending key; each section holds
    the elements with its key, in input order, and none is empty.
   */
  function Sections<T>(s: seq<T>, key: T -> int): (r: seq<Section<T>>)
    ensures |r| == |KeySet(s, key)|
    ensures forall i, j :: 0 <= i < j < |r| ==> r[i].0 < r[j].0
    ensures forall t :: t in KeySet(s, key) <==> exists i :: 0 <= i < |r| && r[i].0 == t
    ensures forall i :: 0 <= i < |r| ==> r[i].1 == Bucket(s, key, r[i].0) && r[i].1 != []
  {
    var ks := SortedKeys(KeySet(s, key));
    SectionsOverSorted(s, key, ks);
    SectionsOver(s, key, ks)
  }

  lemma SectionsOverSorted<T>(s: seq<T>, key: T -> int, ks: seq<int>)
    requires StrictlyIncreasing(ks)
    requires forall x :: x in ks <==> x in KeySet(s, key)
    ensures var r := SectionsOver(s, key, ks);
            && (forall i, j :: 0 <= i < j < |r| ==> r[i].0 < r[j].0)
            && (forall t :: t in KeySet(s, key) <==> exists i :: 0 <= i < |r| && r[i].0 == t)
            && (forall i :: 0 <= i < |r| ==> r[i].1 == Bucket(s, key, r[i].0) && r[i].1 != [])
  {
    var r := SectionsOver(s, key, ks);
    forall t | t in ks ensures exists i :: 0 <= i < |r| && r[i].0 == t {
      var i :| 0 <= i < |ks| && ks[i] == t;
      assert r[i].0 == t;
    }
    forall i | 0 <= i < |r| ensures r[i].1 != [] {
      assert ks[i] in ks;
      BucketEmptyIff(s, key, r[i].0);
    }
  }

  /** All section lists, concatenated in section order. */
  function Flatten<T>(secs: seq<Section<T>>): seq<T> {
    if secs == [] then [] else secs[0].1 + Flatten(secs[1..])
  }

  predicate Distinct(ks: seq<int>) {
    forall i, j :: 0 <= i < j < |ks| ==> ks[i] != ks[j]
  }

  lemma SectionsOverCons<T>(s: seq<T>, key: T -> int, ks: seq<int>)
    requires ks != []
    ensures Flatten(SectionsOver(s, key, ks)) == Bucket(s, key, ks[0]) + Flatten(SectionsOver(s, key, ks[1..]))
  {
    assert SectionsOver(s, key, ks)[1..] == SectionsOver(s, key, ks[1..]);
  }

  lemma {:induction false} FlattenOfEmpty<T>(key: T -> int, ks: seq<int>)
    ensures Flatten(SectionsOver([], key, ks)) == []
  {
    if ks != [] {
      SectionsOverCons([], key, ks);
      FlattenOfEmpty(key, ks[1..]);
    }
  }

  lemma {:induction false} FlattenSnoc<T>(s: seq<T>, x: T, key: T -> int, ks: seq<int>)
    requires Distinct(ks)
    ensures multiset(Flatten(SectionsOver(s + [x], key, ks))) ==
            multiset(Flatten(SectionsOver(s, key, ks))) + (if key(x) in ks then multiset{x} else multiset{})
  {
    if ks != [] {
      var k, tail := ks[0], ks[1..];
      var extra: seq<T> := if key(x) == k then [x] else [];
      SectionsOverCons(s + [x], key, ks);
      SectionsOverCons(s, key, ks);
      BucketSnoc(s, x, key, k);
      assert Distinct(tail);
      FlattenSnoc(s, x, key, tail);
      var before := Flatten(SectionsOver(s, key, tail));
      var after := Flatten(SectionsOver(s + [x], key, tail));
      assert Flatten(SectionsOver(s + [x], key, ks)) == Bucket(s, key, k) + extra + after;
      assert Flatten(SectionsOver(s, key, ks)) == Bucket(s, key, k) + before;
      assert key(x) in ks <==> key(x) == k || key(x) in tail;
      assert key(x) == k ==> key(x) !in tail;
      CountStep(Bucket(s, key, k), extra, before, after, x, key(x) == k, key(x) in tail);
    }
  }

  lemma CountStep<T>(b: seq<T>, extra: seq<T>, before: seq<T>, after: seq<T>, x: T, here: bool, later: bool)
    requires multiset(after) == multiset(before) + (if later then multiset{x} else multiset{})
    requires extra == (if here then [x] else [])
    requires !(here && later)
    ensures multiset(b + extra + after) == multiset(b + before) + (if here || later then multiset{x} else multiset{})
  {
  }

  /**
    When `ks` lists every key of `s` once, the sections over `ks` hold every element of
    `s` exactly as often as `s` does.
   */
  lemma {:induction false} FlattenIsPermutation<T>(s: seq<T>, key: T -> int, ks: seq<int>)
    requires Distinct(ks)
    requires forall i :: 0 <= i < |s| ==> key(s[i]) in ks
    ensures multiset(Flatten(SectionsOver(s, key, ks))) == multiset(s)
  {
    if s == [] {
      FlattenOfEmpty(key, ks);
    } else {
      var t, x := s[..|s| - 1], s[|s| - 1];
      assert s == t + [x];
      assert forall i :: 0 <= i < |t| ==> t[i] == s[i];
      assert key(s[|s| - 1]) in ks;
      FlattenIsPermutation(t, key, ks);
      FlattenSnoc(t, x, key, ks);
      assert multiset(s) == multiset(t) + multiset{x};
    }
  }

  /**
    The sections are a regrouping of the input: concatenated they are a permutation of
    it, so their sizes add up to its length.
   */
  lemma SectionsArePermutation<T>(s: seq<T>, key: T -> int)
    ensures multiset(Flatten(Sections(s, key))) == multiset(s)
    ensures |Flatten(Sections(s, key))| == |s|
  {
    var ks := SortedKeys(KeySet(s, key));
    forall i | 0 <= i < |s| ensures key(s[i]) in ks {
      assert key(s[i]) in KeySet(s, key);
    }
    FlattenIsPermutation(s, key, ks);
    assert |multiset(Flatten(Sections(s, key)))| == |multiset(s)|;
  }
}
