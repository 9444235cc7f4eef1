/** Group-by-key summation, the pattern behind every breakdown and chart series:
    each input item contributes `(key, amount)`, and the output holds one entry per
    distinct key, in order of first occurrence, carrying the sum of that key's amounts.

    The specification is the function `Group`. The components build it in two
    imperative ways, each proved equal to `Group`:
    - `GroupByFind`: `reduce` over an accumulator array, `acc.find` on the key,
      then `found.value += amount` or `acc.push(...)`;
    - `GroupByDictionary`: `forEach` filling a dictionary with
      `map[key] = (map[key] || 0) + amount`, read back as `Object.entries(map)`,
      whose order is the order in which keys were first inserted. */
module Grouping {
  import opened Wrappers
  import opened Seqs

  /** A grouping key with an amount: one input item, or one output row. */
  datatype Entry<K> = Entry(key: K, value: int)

  function KeysOf<K(==)>(s: seq<Entry<K>>): (r: seq<K>)
    ensures |r| == |s|
    ensures forall i :: 0 <= i < |s| ==> r[i] == s[i].key
  {
    seq(|s|, i requires 0 <= i < |s| => s[i].key)
  }

  /** The sum of all values, folded from the left. */
  function Total<K(==)>(s: seq<Entry<K>>): int
  {
    if s == [] then 0 else Total(s[..|s| - 1]) + s[|s| - 1].value
  }

  /** The sum of the values carried by key `k`. */
  function SumFor<K(==)>(s: seq<Entry<K>>, k: K): int
  {
    if s == [] then 0
    else SumFor(s[..|s| - 1], k) + (if s[|s| - 1].key == k then s[|s| - 1].value else 0)
  }

  /** The entries an input list contributes: `(key(x), value(x))` per item, in order. */
  function KeyedBy<T, K>(xs: seq<T>, key: T -> K, value: T -> int): (r: seq<Entry<K>>)
    ensures |r| == |xs|
    ensures forall i :: 0 <= i < |xs| ==> r[i] == Entry(key(xs[i]), value(xs[i]))
  {
    if xs == [] then [] else KeyedBy(xs[..|xs| - 1], key, value) + [Entry(key(xs[|xs| - 1]), value(xs[|xs| - 1]))]
  }

  /** Every key among the contributed entries is the key of some item. */
  lemma {:induction false} KeyedByKeyOf<T, K>(xs: seq<T>, key: T -> K, value: T -> int, k: K)
    requires k in KeysOf(KeyedBy(xs, key, value))
    ensures exists j :: 0 <= j < |xs| && key(xs[j]) == k
  {
  }

  /** The predicate "has key `k`". */
  function KeyIs<T, K(==)>(key: T -> K, k: K): T -> bool
  {
    x => key(x) == k
  }

  /** All entries together carry the sum of all values. */
  lemma {:induction false} TotalKeyedBy<T, K>(xs: seq<T>, key: T -> K, value: T -> int)
    ensures Total(KeyedBy(xs, key, value)) == SumBy(xs, value)
  {
    if xs != [] {
      TotalKeyedBy(xs[..|xs| - 1], key, value);
    }
  }

  /** Key `k` carries the sum of the values of the items whose key is `k`. */
  lemma {:induction false} SumForKeyedBy<T, K>(xs: seq<T>, key: T -> K, value: T -> int, k: K)
    ensures SumFor(KeyedBy(xs, key, value), k) == SumWhere(xs, KeyIs(key, k), value)
  {
    if xs != [] {
      SumForKeyedBy(xs[..|xs| - 1], key, value, k);
    }
  }

  ghost predicate NoDup<K>(ks: seq<K>)
  {
    forall i, j :: 0 <= i < j < |ks| ==> ks[i] != ks[j]
  }

  /** The position of the first occurrence of `k` in `ks`. */
  function FirstIndex<K(==)>(ks: seq<K>, k: K): (i: nat)
    requires k in ks
    ensures i < |ks| && ks[i] == k
    ensures forall j :: 0 <= j < i ==> ks[j] != k
  {
    if ks[0] == k then 0 else 1 + FirstIndex(ks[1..], k)
  }

  /** The distinct elements of `ks` in order of first occurrence: the iteration
      order of a JavaScript `Set`, and of the keys of an object or `Map`. */
  function Dedup<K(==)>(ks: seq<K>): (r: seq<K>)
    ensures NoDup(r)
    ensures |r| <= |ks|
    ensures forall i :: 0 <= i < |r| ==> r[i] in ks
    ensures forall i :: 0 <= i < |ks| ==> ks[i] in r
  {
    if ks == [] then []
    else
      var init := ks[..|ks| - 1];
      var p := Dedup(init);
      assert forall i :: 0 <= i < |init| ==> init[i] == ks[i];
      if ks[|ks| - 1] in p then p else p + [ks[|ks| - 1]]
  }

  /** Keys come out in the order in which they first occur in the input. */
  lemma {:induction false} DedupFirstOccurrence<K>(ks: seq<K>)
    ensures forall i, j :: 0 <= i < j < |Dedup(ks)| ==>
              FirstIndex(ks, Dedup(ks)[i]) < FirstIndex(ks, Dedup(ks)[j])
  {
    if ks != [] {
      var init := ks[..|ks| - 1];
      var x := ks[|ks| - 1];
      DedupFirstOccurrence(init);
      var p := Dedup(init);
      forall k | k in init
        ensures FirstIndex(ks, k) == FirstIndex(init, k)
      {
        FirstIndexPrefix(init, ks, k);
      }
      if x !in p {
        assert forall j :: 0 <= j < |init| ==> ks[j] == init[j] && init[j] in p;
        assert FirstIndex(ks, x) == |init|;
      }
    }
  }

  lemma {:induction false} FirstIndexPrefix<K>(p: seq<K>, ks: seq<K>, k: K)
    requires k in p
    requires |p| <= |ks| && p == ks[..|p|]
    ensures FirstIndex(ks, k) == FirstIndex(p, k)
  {
    var i, j := FirstIndex(ks, k), FirstIndex(p, k);
    assert ks[j] == k;
    assert i <= j;
    assert p[i] == k;
  }

  /** `acc.find(i => i.key === k)`, as the index of the first entry carrying `k`. */
  function Find<K(==)>(acc: seq<Entry<K>>, k: K): (r: Option<nat>)
    ensures r.None? ==> forall i :: 0 <= i < |acc| ==> acc[i].key != k
    ensures r.Some? ==> r.value < |acc| && acc[r.value].key == k
    ensures r.Some? ==> forall i :: 0 <= i < r.value ==> acc[i].key != k
  {
    if acc == [] then None
    else if acc[0].key == k then Some(0)
    else match Find(acc[1..], k)
      case None => None
      case Some(i) => Some(i + 1)
  }

  /** One step of the grouping: add `e.value` to the entry for `e.key`, or append a new entry. */
  function Add<K(==)>(acc: seq<Entry<K>>, e: Entry<K>): (r: seq<Entry<K>>)
  {
    match Find(acc, e.key)
    case Some(i) => acc[i := Entry(e.key, acc[i].value + e.value)]
    case None => acc + [e]
  }

  /** The grouped sums of `s`, one step per input item, from the first to the last. */
  function Group<K(==)>(s: seq<Entry<K>>): (r: seq<Entry<K>>)
    ensures |r| <= |s|
  {
    if s == [] then [] else Add(Group(s[..|s| - 1]), s[|s| - 1])
  }

  /** The finished dictionary: each key that occurs, mapped to its sum. */
  function Tally<K(==)>(s: seq<Entry<K>>): (m: map<K, int>)
  {
    map k | k in KeysOf(s) :: SumFor(s, k)
  }

  /** `Object.entries(map)` for a dictionary whose keys were inserted in the order `order`. */
  function Entries<K(==)>(order: seq<K>, m: map<K, int>): (r: seq<Entry<K>>)
    requires forall i :: 0 <= i < |order| ==> order[i] in m
    ensures |r| == |order|
    ensures forall i :: 0 <= i < |r| ==> r[i] == Entry(order[i], m[order[i]])
  {
    seq(|order|, i requires 0 <= i < |order| => Entry(order[i], m[order[i]]))
  }

  // ---------------------------------------------------------------------------
  // Properties of the specification

  lemma {:induction false} AddKeys<K>(acc: seq<Entry<K>>, e: Entry<K>)
    ensures KeysOf(Add(acc, e)) ==
            if e.key in KeysOf(acc) then KeysOf(acc) else KeysOf(acc) + [e.key]
  {
    match Find(acc, e.key)
    case Some(i) =>
      assert e.key in KeysOf(acc) by { assert KeysOf(acc)[i] == e.key; }
    case None =>
      assert e.key !in KeysOf(acc);
  }

  lemma {:induction false} KeysOfPrefix<K>(s: seq<Entry<K>>)
    requires s != []
    ensures KeysOf(s[..|s| - 1]) == KeysOf(s)[..|s| - 1]
    ensures KeysOf(s) == KeysOf(s[..|s| - 1]) + [s[|s| - 1].key]
  {
  }

  /** The output keys are the distinct input keys in order of first occurrence. */
  lemma {:induction false} GroupKeys<K>(s: seq<Entry<K>>)
    ensures KeysOf(Group(s)) == Dedup(KeysOf(s))
  {
    if s != [] {
      var init := s[..|s| - 1];
      GroupKeys(init);
      KeysOfPrefix(s);
      AddKeys(Group(init), s[|s| - 1]);
    }
  }

  /** A key that does not occur contributes nothing. */
  lemma {:induction false} SumForAbsent<K>(s: seq<Entry<K>>, k: K)
    requires k !in KeysOf(s)
    ensures SumFor(s, k) == 0
  {
    if s != [] {
      KeysOfPrefix(s);
      SumForAbsent(s[..|s| - 1], k);
    }
  }

  /** Each output entry carries the sum of the amounts with its key. */
  lemma {:induction false} GroupValues<K>(s: seq<Entry<K>>)
    ensures forall i :: 0 <= i < |Group(s)| ==> Group(s)[i].value == SumFor(s, Group(s)[i].key)
  {
    if s != [] {
      var init := s[..|s| - 1];
      var e := s[|s| - 1];
      var g := Group(init);
      GroupValues(init);
      GroupKeys(init);
      KeysOfPrefix(s);
      assert NoDup(KeysOf(g));
      match Find(g, e.key)
      case Some(idx) =>
        forall i | 0 <= i < |Group(s)|
          ensures Group(s)[i].value == SumFor(s, Group(s)[i].key)
        {
          if i != idx {
            assert KeysOf(g)[i] != KeysOf(g)[idx];
          }
        }
      case None =>
        assert e.key !in KeysOf(init) by {
          assert forall j :: 0 <= j < |KeysOf(init)| ==> KeysOf(init)[j] in KeysOf(g);
          assert forall j :: 0 <= j < |g| ==> KeysOf(g)[j] != e.key;
        }
        SumForAbsent(init, e.key);
    }
  }

  lemma {:induction false} TotalAppend<K>(s: seq<Entry<K>>, e: Entry<K>)
    ensures Total(s + [e]) == Total(s) + e.value
  {
    assert (s + [e])[..|s|] == s;
  }

  lemma {:induction false} TotalUpdate<K>(s: seq<Entry<K>>, i: nat, x: Entry<K>)
    requires i < |s|
    ensures Total(s[i := x]) == Total(s) - s[i].value + x.value
    decreases |s|
  {
    var n := |s| - 1;
    if i < n {
      assert s[i := x][..n] == s[..n][i := x];
      TotalUpdate(s[..n], i, x);
    } else {
      assert s[i := x][..n] == s[..n];
    }
  }

  function ValueOf<K>(e: Entry<K>): int { e.value }

  /** `Total` is the summing `reduce` over the values. */
  lemma {:induction false} TotalIsSumBy<K>(s: seq<Entry<K>>)
    ensures Total(s) == SumBy(s, ValueOf)
  {
    if s != [] {
      TotalIsSumBy(s[..|s| - 1]);
    }
  }

  /** Grouping neither drops nor double-counts an amount. */
  lemma {:induction false} GroupTotal<K>(s: seq<Entry<K>>)
    ensures Total(Group(s)) == Total(s)
  {
    if s != [] {
      var init := s[..|s| - 1];
      var e := s[|s| - 1];
      var g := Group(init);
      GroupTotal(init);
      match Find(g, e.key)
      case Some(idx) =>
        TotalUpdate(g, idx, Entry(e.key, g[idx].value + e.value));
      case None =>
        TotalAppend(g, e);
    }
  }

  /** Everything the breakdowns rely on, in one statement: one entry per distinct
      key in first-occurrence order, each carrying its key's sum, the sums adding
      up to the input total, and no more entries than input items. */
  lemma GroupSpec<K>(s: seq<Entry<K>>)
    ensures NoDup(KeysOf(Group(s)))
    ensures forall i :: 0 <= i < |s| ==> s[i].key in KeysOf(Group(s))
    ensures forall i :: 0 <= i < |Group(s)| ==> Group(s)[i].key in KeysOf(s)
    ensures forall i, j :: 0 <= i < j < |Group(s)| ==>
              FirstIndex(KeysOf(s), Group(s)[i].key) < FirstIndex(KeysOf(s), Group(s)[j].key)
    ensures forall i :: 0 <= i < |Group(s)| ==> Group(s)[i].value == SumFor(s, Group(s)[i].key)
    ensures Total(Group(s)) == Total(s)
    ensures |Group(s)| <= |s|
  {
    GroupKeys(s);
    DedupFirstOccurrence(KeysOf(s));
    GroupValues(s);
    GroupTotal(s);
    var g := Group(s);
    forall i | 0 <= i < |g| ensures g[i].key in KeysOf(s) {
      assert g[i].key == KeysOf(g)[i];
    }
    forall i | 0 <= i < |s| ensures s[i].key in KeysOf(g) {
      assert s[i].key == KeysOf(s)[i];
    }
    forall i, j | 0 <= i < j < |g|
      ensures FirstIndex(KeysOf(s), g[i].key) < FirstIndex(KeysOf(s), g[j].key)
    {
      assert g[i].key == KeysOf(g)[i] && g[j].key == KeysOf(g)[j];
    }
  }

  /** `GroupSpec` for the entries of an input list: one output entry per
      distinct key the items have, in order of first occurrence, each holding
      the sum of the values of the items with that key, all adding up to the
      sum over the list. */
  lemma KeyedGroupSpec<T, K>(xs: seq<T>, key: T -> K, value: T -> int)
    ensures NoDup(KeysOf(Group(KeyedBy(xs, key, value))))
    ensures forall i :: 0 <= i < |xs| ==> key(xs[i]) in KeysOf(Group(KeyedBy(xs, key, value)))
    ensures forall i :: 0 <= i < |Group(KeyedBy(xs, key, value))| ==>
              exists j :: 0 <= j < |xs| && key(xs[j]) == Group(KeyedBy(xs, key, value))[i].key
    ensures KeysOf(Group(KeyedBy(xs, key, value))) == Dedup(KeysOf(KeyedBy(xs, key, value)))
    ensures forall i :: 0 <= i < |Group(KeyedBy(xs, key, value))| ==>
              Group(KeyedBy(xs, key, value))[i].value ==
              SumWhere(xs, KeyIs(key, Group(KeyedBy(xs, key, value))[i].key), value)
    ensures Total(Group(KeyedBy(xs, key, value))) == SumBy(xs, value)
    ensures |Group(KeyedBy(xs, key, value))| <= |xs|
  {
    var s := KeyedBy(xs, key, value);
    var g := Group(s);
    GroupSpec(s);
    GroupKeys(s);
    TotalKeyedBy(xs, key, value);
    forall i | 0 <= i < |xs| ensures key(xs[i]) in KeysOf(g) {
      assert s[i].key == key(xs[i]);
    }
    forall i | 0 <= i < |g| ensures exists j :: 0 <= j < |xs| && key(xs[j]) == g[i].key {
      KeyedByKeyOf(xs, key, value, g[i].key);
    }
    forall i | 0 <= i < |g| ensures g[i].value == SumWhere(xs, KeyIs(key, g[i].key), value) {
      SumForKeyedBy(xs, key, value, g[i].key);
    }
  }

  /** The finished dictionary holds exactly the output entries. */
  lemma TallyOfGroup<K>(s: seq<Entry<K>>)
    ensures forall i :: 0 <= i < |Group(s)| ==> Group(s)[i].key in Tally(s)
    ensures Entries(KeysOf(Group(s)), Tally(s)) == Group(s)
  {
    var g := Group(s);
    GroupKeys(s);
    GroupValues(s);
    assert forall i :: 0 <= i < |g| ==> KeysOf(g)[i] in KeysOf(s);
    var r := Entries(KeysOf(g), Tally(s));
    assert forall i :: 0 <= i < |g| ==> r[i] == g[i];
  }

  // ---------------------------------------------------------------------------
  // The two imperative forms

  /** `s.reduce((acc, curr) => { const found = acc.find(i => i.key === curr.key);
      if (found) found.value += curr.value; else acc.push({...curr}); return acc; }, [])`. */
  method GroupByFind<K(==)>(s: seq<Entry<K>>) returns (acc: seq<Entry<K>>)
    ensures acc == Group(s)
  {
    acc := [];
    var n := 0;
    while n < |s|
      invariant 0 <= n <= |s|
      invariant acc == Group(s[..n])
    {
      var e := s[n];
      var i := 0;
      while i < |acc| && acc[i].key != e.key
        invariant 0 <= i <= |acc|
        invariant forall j :: 0 <= j < i ==> acc[j].key != e.key
      {
        i := i + 1;
      }
      GroupStep(s, n);
      if i < |acc| {
        assert Find(acc, e.key) == Some(i);
        acc := acc[i := Entry(e.key, acc[i].value + e.value)];
      } else {
        acc := acc + [e];
      }
      n := n + 1;
    }
    assert s[..|s|] == s;
  }

  /** `s.forEach(e => { map[e.key] = (map[e.key] || 0) + e.value; })` followed by
      `Object.entries(map)`; `order` is the dictionary's key insertion order. */
  method GroupByDictionary<K(==)>(s: seq<Entry<K>>) returns (order: seq<K>, m: map<K, int>)
    ensures order == Dedup(KeysOf(s))
    ensures m == Tally(s)
    ensures forall i :: 0 <= i < |order| ==> order[i] in m
    ensures Entries(order, m) == Group(s)
  {
    order, m := [], map[];
    ghost var g: seq<Entry<K>> := [];
    var n := 0;
    while n < |s|
      invariant 0 <= n <= |s|
      invariant g == Group(s[..n])
      invariant DictionaryMatches'(g, order, m)
    {
      var e := s[n];
      GroupStep(s, n);
      if e.key in m {
        StepExisting(g, e, order, m);
        m := m[e.key := m[e.key] + e.value];
      } else {
        StepNew(g, e, order, m);
        order, m := order + [e.key], m[e.key := 0 + e.value];
      }
      g := Add(g, e);
      n := n + 1;
    }
    assert s[..|s|] == s;
    DictionaryDone(s, order, m);
  }

  /** One more item extends the grouping by one `Add`, and the grouping's keys
      never repeat. */
  lemma GroupStep<K>(s: seq<Entry<K>>, n: nat)
    requires n < |s|
    ensures Group(s[..n + 1]) == Add(Group(s[..n]), s[n])
    ensures NoDup(KeysOf(Group(s[..n])))
  {
    assert s[..n + 1][..n] == s[..n];
    GroupKeys(s[..n]);
  }

  /** The loop invariant of `GroupByDictionary`: the dictionary and its key order
      hold exactly the grouping of the items seen so far. */
  ghost predicate DictionaryMatches<K>(s: seq<Entry<K>>, order: seq<K>, m: map<K, int>)
  {
    DictionaryMatches'(Group(s), order, m)
  }

  lemma StepExisting<K>(g: seq<Entry<K>>, e: Entry<K>, order: seq<K>, m: map<K, int>)
    requires order == KeysOf(g) && NoDup(order)
    requires m.Keys == (set x | x in order)
    requires forall i :: 0 <= i < |order| ==> m[order[i]] == g[i].value
    requires e.key in m
    ensures DictionaryMatches'(Add(g, e), order, m[e.key := m[e.key] + e.value])
  {
    var k := e.key;
    var idx :| 0 <= idx < |order| && order[idx] == k;
    assert Find(g, k) == Some(idx) by {
      assert forall i :: 0 <= i < |order| && i != idx ==> order[i] != order[idx];
    }
    var g' := g[idx := Entry(k, g[idx].value + e.value)];
    assert Add(g, e) == g';
    assert KeysOf(g') == order;
    var m' := m[k := m[k] + e.value];
    assert m'.Keys == m.Keys;
    forall i | 0 <= i < |order|
      ensures m'[order[i]] == g'[i].value
    {
      if i != idx {
        assert order[i] != order[idx];
      }
    }
  }

  lemma StepNew<K>(g: seq<Entry<K>>, e: Entry<K>, order: seq<K>, m: map<K, int>)
    requires order == KeysOf(g)
    requires m.Keys == (set x | x in order)
    requires forall i :: 0 <= i < |order| ==> m[order[i]] == g[i].value
    requires e.key !in m
    ensures DictionaryMatches'(Add(g, e), order + [e.key], m[e.key := 0 + e.value])
  {
    var k := e.key;
    assert forall i :: 0 <= i < |g| ==> g[i].key != k by {
      assert forall i :: 0 <= i < |order| ==> order[i] in m.Keys;
    }
    assert Find(g, k) == None;
    var g' := g + [e];
    assert Add(g, e) == g';
    assert KeysOf(g') == order + [k];
    assert (set x | x in order + [k]) == (set x | x in order) + {k};
  }

  /** `DictionaryMatches` with the grouping already computed. */
  ghost predicate DictionaryMatches'<K>(g: seq<Entry<K>>, order: seq<K>, m: map<K, int>)
  {
    && order == KeysOf(g)
    && m.Keys == (set x | x in order)
    && (forall i :: 0 <= i < |order| ==> m[order[i]] == g[i].value)
  }

  lemma DictionaryDone<K>(s: seq<Entry<K>>, order: seq<K>, m: map<K, int>)
    requires DictionaryMatches(s, order, m)
    ensures order == Dedup(KeysOf(s))
    ensures m == Tally(s)
    ensures forall i :: 0 <= i < |order| ==> order[i] in m
    ensures Entries(order, m) == Group(s)
  {
    var g := Group(s);
    GroupKeys(s);
    assert forall i :: 0 <= i < |order| ==> order[i] in m;
    assert Entries(order, m) == g by {
      var r := Entries(order, m);
      forall i | 0 <= i < |g| ensures r[i] == g[i] {
        assert order[i] == g[i].key;
      }
    }
    DictionaryIsTally(s, order, m);
  }

  lemma DictionaryIsTally<K>(s: seq<Entry<K>>, order: seq<K>, m: map<K, int>)
    requires DictionaryMatches(s, order, m)
    requires order == Dedup(KeysOf(s))
    ensures m == Tally(s)
  {
    var g := Group(s);
    var t := Tally(s);
    GroupValues(s);
    assert m.Keys == t.Keys by {
      var ks := KeysOf(s);
      assert forall i :: 0 <= i < |order| ==> order[i] in ks;
      assert forall i :: 0 <= i < |ks| ==> ks[i] in order;
    }
    forall k | k in m ensures m[k] == t[k] {
      var i := FirstIndex(order, k);
      assert k == g[i].key;
    }
  }
}
