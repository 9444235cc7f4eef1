/** `Array.prototype.sort(compare)` with a comparator of the form
    `(a, b) => key(a) - key(b)`. The language standard requires the sort to be
    stable, so its result is fully determined: the stable insertion sort `Sort`.
    `SortInPlace` is that sort done in place on an array. */
module StableSort {
  import opened Seqs
  import opened Grouping

  /** `s` is ordered by non-decreasing `key`. */
  ghost predicate SortedBy<T>(s: seq<T>, key: T -> int)
  {
    forall i, j :: 0 <= i < j < |s| ==> key(s[i]) <= key(s[j])
  }

  /** Insert `x` into `a` after every trailing element whose key exceeds `key(x)`:
      the step in which an insertion sort moves a new element leftwards. */
  function InsertLast<T>(a: seq<T>, x: T, key: T -> int): (r: seq<T>)
    ensures |r| == |a| + 1
  {
    if a == [] || key(a[|a| - 1]) <= key(x) then a + [x]
    else InsertLast(a[..|a| - 1], x, key) + [a[|a| - 1]]
  }

  /** The stable sort of `s` by `key`. */
  function Sort<T>(s: seq<T>, key: T -> int): (r: seq<T>)
    ensures |r| == |s|
  {
    if s == [] then [] else InsertLast(Sort(s[..|s| - 1], key), s[|s| - 1], key)
  }

  /** Where `InsertLast` puts `x`. */
  function InsertPos<T>(a: seq<T>, x: T, key: T -> int): (p: nat)
    ensures p <= |a|
    ensures forall k :: p <= k < |a| ==> key(a[k]) > key(x)
    ensures p > 0 ==> key(a[p - 1]) <= key(x)
  {
    if a == [] || key(a[|a| - 1]) <= key(x) then |a| else InsertPos(a[..|a| - 1], x, key)
  }

  /** Inserting at a position whose left neighbour is not greater and whose right
      part is all greater is what `InsertLast` does. */
  lemma {:induction false} InsertLastAt<T>(a: seq<T>, x: T, key: T -> int, j: nat)
    requires j <= |a|
    requires forall k :: j <= k < |a| ==> key(a[k]) > key(x)
    requires j > 0 ==> key(a[j - 1]) <= key(x)
    ensures InsertLast(a, x, key) == a[..j] + [x] + a[j..]
  {
    if j < |a| {
      var init := a[..|a| - 1];
      InsertLastAt(init, x, key, j);
      assert init[..j] == a[..j];
      assert init[j..] + [a[|a| - 1]] == a[j..];
    } else {
      assert a[..j] == a;
    }
  }

  lemma InsertLastSplit<T>(a: seq<T>, x: T, key: T -> int)
    ensures InsertLast(a, x, key) ==
            a[..InsertPos(a, x, key)] + [x] + a[InsertPos(a, x, key)..]
  {
    InsertLastAt(a, x, key, InsertPos(a, x, key));
  }

  /** The result is ordered by key. */
  lemma {:induction false} SortSorted<T>(s: seq<T>, key: T -> int)
    ensures SortedBy(Sort(s, key), key)
  {
    if s != [] {
      SortSorted(s[..|s| - 1], key);
      InsertLastSorted(Sort(s[..|s| - 1], key), s[|s| - 1], key);
    }
  }

  /** Inserting into an ordered list keeps it ordered. */
  lemma InsertLastSorted<T>(a: seq<T>, x: T, key: T -> int)
    requires SortedBy(a, key)
    ensures SortedBy(InsertLast(a, x, key), key)
  {
    var p := InsertPos(a, x, key);
    InsertLastSplit(a, x, key);
    var r := a[..p] + [x] + a[p..];
    assert forall k :: 0 <= k < p ==> r[k] == a[k];
    assert forall k :: p < k < |r| ==> r[k] == a[k - 1];
    forall i, j | 0 <= i < j < |r| ensures key(r[i]) <= key(r[j]) {
      if i < p && j == p {
        assert key(a[i]) <= key(a[p - 1]);
      }
    }
  }

  /** `InsertLast` adds exactly `x`. */
  lemma {:induction false} InsertLastMultiset<T>(a: seq<T>, x: T, key: T -> int)
    ensures multiset(InsertLast(a, x, key)) == multiset(a) + multiset{x}
  {
    if a != [] && key(a[|a| - 1]) > key(x) {
      var init := a[..|a| - 1];
      InsertLastMultiset(init, x, key);
      assert a == init + [a[|a| - 1]];
    }
  }

  /** The result is a permutation of the input. */
  lemma {:induction false} SortPermutes<T>(s: seq<T>, key: T -> int)
    ensures multiset(Sort(s, key)) == multiset(s)
  {
    if s != [] {
      var init := s[..|s| - 1];
      var x := s[|s| - 1];
      SortPermutes(init, key);
      InsertLastMultiset(Sort(init, key), x, key);
      assert s == init + [x];
    }
  }

  /** The predicate "has key `v`". */
  function HasKey<T>(key: T -> int, v: int): T -> bool
  {
    t => key(t) == v
  }

  /** Stability: the elements sharing any one key keep their input order, so a
      comparator that never separates two elements leaves the order unchanged. */
  lemma {:induction false} SortStable<T>(s: seq<T>, key: T -> int, v: int)
    ensures Filter(Sort(s, key), HasKey(key, v)) == Filter(s, HasKey(key, v))
  {
    if s != [] {
      var init := s[..|s| - 1];
      var a := Sort(init, key);
      var x := s[|s| - 1];
      SortStable(init, key, v);
      FilterInsertLast(a, x, key, v);
      assert s == init + [x];
    }
  }

  /** Inserting `x` puts it after every element of its own key. */
  lemma {:induction false} FilterInsertLast<T>(a: seq<T>, x: T, key: T -> int, v: int)
    ensures Filter(InsertLast(a, x, key), HasKey(key, v)) ==
            Filter(a, HasKey(key, v)) + (if key(x) == v then [x] else [])
  {
    if a == [] || key(a[|a| - 1]) <= key(x) {
      assert (a + [x])[..|a|] == a;
    } else {
      var init, last := a[..|a| - 1], a[|a| - 1];
      var b := InsertLast(init, x, key);
      FilterInsertLast(init, x, key, v);
      assert (b + [last])[..|b|] == b;
    }
  }

  /** A key every element shares leaves the input as it is. */
  lemma SortConstantKey<T>(s: seq<T>, key: T -> int, v: int)
    requires forall i :: 0 <= i < |s| ==> key(s[i]) == v
    ensures Sort(s, key) == s
  {
    SortStable(s, key, v);
    SortPermutes(s, key);
    var r := Sort(s, key);
    FilterAll(s, HasKey(key, v));
    forall i | 0 <= i < |r| ensures HasKey(key, v)(r[i]) {
      assert r[i] in multiset(s);
    }
    FilterAll(r, HasKey(key, v));
  }

  /** Sorting changes no sum. */
  lemma {:induction false} SortSumBy<T>(s: seq<T>, key: T -> int, f: T -> int)
    ensures SumBy(Sort(s, key), f) == SumBy(s, f)
  {
    if s != [] {
      var init := s[..|s| - 1];
      var a := Sort(init, key);
      var x := s[|s| - 1];
      SortSumBy(init, key, f);
      InsertLastSplit(a, x, key);
      SumByInsert(a, x, f, InsertPos(a, x, key));
    }
  }

  lemma SumByInsert<T>(a: seq<T>, x: T, f: T -> int, p: nat)
    requires p <= |a|
    ensures SumBy(a[..p] + [x] + a[p..], f) == SumBy(a, f) + f(x)
  {
    var left, right := a[..p], a[p..];
    assert a == left + right;
    SumByAppend(left, right, f);
    SumByAppend(left + [x], right, f);
    SumByAppend(left, [x], f);
    assert SumBy([x], f) == f(x) by {
      assert [x][..0] == [];
    }
  }

  lemma InsertKeepsDistinct<K>(a: seq<Entry<K>>, p: nat, x: Entry<K>)
    requires p <= |a|
    requires NoDup(KeysOf(a))
    requires forall k :: 0 <= k < |a| ==> a[k].key != x.key
    ensures NoDup(KeysOf(a[..p] + [x] + a[p..]))
  {
    var r := a[..p] + [x] + a[p..];
    forall i, j | 0 <= i < j < |r| ensures r[i].key != r[j].key {
      if i < p && j > p {
        assert r[j] == a[j - 1];
      } else if i > p {
        assert r[i] == a[i - 1] && r[j] == a[j - 1];
      } else if i == p {
        assert r[j] == a[j - 1];
      }
    }
  }

  /** Sorting grouped entries keeps their keys distinct. */
  lemma {:induction false} SortKeepsDistinctKeys<K>(s: seq<Entry<K>>, key: Entry<K> -> int)
    requires NoDup(KeysOf(s))
    ensures NoDup(KeysOf(Sort(s, key)))
  {
    if s != [] {
      var init := s[..|s| - 1];
      var a := Sort(init, key);
      var x := s[|s| - 1];
      assert KeysOf(init) == KeysOf(s)[..|s| - 1];
      SortKeepsDistinctKeys(init, key);
      SortPermutes(init, key);
      forall k | 0 <= k < |a| ensures a[k].key != x.key {
        assert a[k] in multiset(init);
        var i :| 0 <= i < |init| && init[i] == a[k];
        assert KeysOf(s)[i] != KeysOf(s)[|s| - 1];
      }
      InsertLastSplit(a, x, key);
      InsertKeepsDistinct(a, InsertPos(a, x, key), x);
    }
  }

  /** The sorted list holds the same elements as the input. */
  lemma SortMembers<T>(s: seq<T>, key: T -> int)
    ensures forall i :: 0 <= i < |Sort(s, key)| ==> Sort(s, key)[i] in s
    ensures forall i :: 0 <= i < |s| ==> s[i] in Sort(s, key)
  {
    SortPermutes(s, key);
    var r := Sort(s, key);
    forall i | 0 <= i < |r| ensures r[i] in s {
      assert r[i] in multiset(r);
    }
    forall i | 0 <= i < |s| ensures s[i] in r {
      assert s[i] in multiset(s);
    }
  }

  /** A sorted grouping keeps everything `GroupSpec` promises except the
      first-occurrence order, which the sort replaces by key order. */
  lemma SortGroupSpec<K>(s: seq<Entry<K>>, key: Entry<K> -> int)
    ensures NoDup(KeysOf(Sort(Group(s), key)))
    ensures forall i :: 0 <= i < |s| ==> s[i].key in KeysOf(Sort(Group(s), key))
    ensures forall i :: 0 <= i < |Sort(Group(s), key)| ==> Sort(Group(s), key)[i].key in KeysOf(s)
    ensures forall i :: 0 <= i < |Sort(Group(s), key)| ==>
              Sort(Group(s), key)[i].value == SumFor(s, Sort(Group(s), key)[i].key)
    ensures Total(Sort(Group(s), key)) == Total(s)
    ensures SortedBy(Sort(Group(s), key), key)
    ensures |Sort(Group(s), key)| <= |s|
  {
    var g := Group(s);
    GroupSpec(s);
    SortKeepsDistinctKeys(g, key);
    SortSorted(g, key);
    SortEntries(s, g, key);
    SortTotal(g, key);
  }

  /** A sorted breakdown of items by `key`: one entry per distinct key that
      some item has and no other, each holding the sum of that key's values,
      all adding up to the total, in order of `sortKey`. */
  lemma {:induction false} SortKeyedGroupSpec<T, K>(xs: seq<T>, key: T -> K, value: T -> int,
                                                    sortKey: Entry<K> -> int)
    ensures NoDup(KeysOf(Sort(Group(KeyedBy(xs, key, value)), sortKey)))
    ensures forall i :: 0 <= i < |xs| ==> key(xs[i]) in KeysOf(Sort(Group(KeyedBy(xs, key, value)), sortKey))
    ensures forall i :: 0 <= i < |Sort(Group(KeyedBy(xs, key, value)), sortKey)| ==>
              exists j :: 0 <= j < |xs| && key(xs[j]) == Sort(Group(KeyedBy(xs, key, value)), sortKey)[i].key
    ensures forall i :: 0 <= i < |Sort(Group(KeyedBy(xs, key, value)), sortKey)| ==>
              Sort(Group(KeyedBy(xs, key, value)), sortKey)[i].value ==
              SumWhere(xs, KeyIs(key, Sort(Group(KeyedBy(xs, key, value)), sortKey)[i].key), value)
    ensures Total(Sort(Group(KeyedBy(xs, key, value)), sortKey)) == SumBy(xs, value)
    ensures SortedBy(Sort(Group(KeyedBy(xs, key, value)), sortKey), sortKey)
  {
    var s := KeyedBy(xs, key, value);
    var r := Sort(Group(s), sortKey);
    SortGroupSpec(s, sortKey);
    TotalKeyedBy(xs, key, value);
    forall i | 0 <= i < |xs| ensures key(xs[i]) in KeysOf(r) {
      assert s[i].key == key(xs[i]);
    }
    forall i | 0 <= i < |r| ensures exists j :: 0 <= j < |xs| && key(xs[j]) == r[i].key {
      KeyedByKeyOf(xs, key, value, r[i].key);
    }
    forall i | 0 <= i < |r| ensures r[i].value == SumWhere(xs, KeyIs(key, r[i].key), value) {
      SumForKeyedBy(xs, key, value, r[i].key);
    }
  }

  /** Sorting a list of entries keeps the set of keys, and any property of each
      entry's key and value. */
  lemma SortEntries<K>(s: seq<Entry<K>>, g: seq<Entry<K>>, key: Entry<K> -> int)
    requires forall i :: 0 <= i < |s| ==> s[i].key in KeysOf(g)
    requires forall i :: 0 <= i < |g| ==> g[i].key in KeysOf(s) && g[i].value == SumFor(s, g[i].key)
    ensures forall i :: 0 <= i < |s| ==> s[i].key in KeysOf(Sort(g, key))
    ensures forall i :: 0 <= i < |Sort(g, key)| ==>
              Sort(g, key)[i].key in KeysOf(s) && Sort(g, key)[i].value == SumFor(s, Sort(g, key)[i].key)
  {
    var r := Sort(g, key);
    SortMembers(g, key);
    forall i | 0 <= i < |s| ensures s[i].key in KeysOf(r) {
      var j :| 0 <= j < |g| && KeysOf(g)[j] == s[i].key;
      var k :| 0 <= k < |r| && r[k] == g[j];
      assert KeysOf(r)[k] == s[i].key;
    }
    forall i | 0 <= i < |r| ensures r[i].key in KeysOf(s) && r[i].value == SumFor(s, r[i].key) {
      var j :| 0 <= j < |g| && g[j] == r[i];
    }
  }

  /** Sorting a list of entries keeps its total. */
  lemma SortTotal<K>(g: seq<Entry<K>>, key: Entry<K> -> int)
    ensures Total(Sort(g, key)) == Total(g)
  {
    SortSumBy(g, key, ValueOf);
    TotalIsSumBy(g);
    TotalIsSumBy(Sort(g, key));
  }

  /** Sorts `a` in place by insertion: each new element is swapped leftwards past
      the elements with a greater key. */
  method SortInPlace<T>(a: array<T>, key: T -> int)
    modifies a
    ensures a[..] == Sort(old(a[..]), key)
  {
    ghost var input := a[..];
    var i := 0;
    while i < a.Length
      invariant 0 <= i <= a.Length
      invariant a[..i] == Sort(input[..i], key)
      invariant forall k :: i <= k < a.Length ==> a[k] == input[k]
    {
      SiftDown(a, i, key);
      assert input[..i + 1][..i] == input[..i];
      i := i + 1;
    }
    assert input[..a.Length] == input;
  }

  /** One insertion step: moves `a[i]` leftwards past the greater keys before it. */
  method SiftDown<T>(a: array<T>, i: nat, key: T -> int)
    requires i < a.Length
    modifies a
    ensures a[..i + 1] == InsertLast(old(a[..i]), old(a[i]), key)
    ensures forall k :: i < k < a.Length ==> a[k] == old(a[k])
  {
    ghost var done := a[..i];
    var x := a[i];
    var j := i;
    while j > 0 && key(a[j - 1]) > key(x)
      invariant 0 <= j <= i
      invariant forall k :: 0 <= k < j ==> a[k] == done[k]
      invariant a[j] == x
      invariant forall k :: j < k <= i ==> a[k] == done[k - 1]
      invariant forall k :: i < k < a.Length ==> a[k] == old(a[k])
      invariant forall k :: j <= k < i ==> key(done[k]) > key(x)
    {
      a[j - 1], a[j] := a[j], a[j - 1];
      j := j - 1;
    }
    InsertLastAt(done, x, key, j);
    assert a[..i + 1] == done[..j] + [x] + done[j..];
  }
}
