/**
 * The document store's `$group: {_id: key, count: {$sum: 1}}` stage, its `$sort: {count: -1}`
 * stage, and the `reduce` that turns the groups into a plain object.
 */
module Grouping {

  /** How many times `k` occurs in `keys`. */
  function Occurrences<K(==)>(keys: seq<K>, k: K): nat
  {
    if keys == [] then 0
    else Occurrences(keys[..|keys| - 1], k) + (if keys[|keys| - 1] == k then 1 else 0)
  }

  /** One output document of a counting `$group` stage. */
  datatype Group<K> = Group(key: K, count: nat)

  predicate DistinctKeys<K(==)>(gs: seq<Group<K>>)
  {
    forall i, j :: 0 <= i < j < |gs| ==> gs[i].key != gs[j].key
  }

  function KeySet<K>(gs: seq<Group<K>>): set<K>
  {
    set g | g in gs :: g.key
  }

  /** The sum of the counts of the groups whose key is `k`. */
  function CountOf<K(==)>(gs: seq<Group<K>>, k: K): nat
  {
    if gs == [] then 0 else (if gs[0].key == k then gs[0].count else 0) + CountOf(gs[1..], k)
  }

  /** The sum of all counts. */
  function Total<K>(gs: seq<Group<K>>): nat
  {
    if gs == [] then 0 else gs[0].count + Total(gs[1..])
  }

  predicate AllPositive<K(==)>(gs: seq<Group<K>>)
  {
    forall g :: g in gs ==> g.count >= 1
  }

  /** Counts one more document with key `k`: bumps its group, or opens a new group at the end. */
  function Tally<K(==)>(gs: seq<Group<K>>, k: K): seq<Group<K>>
  {
    if gs == [] then [Group(k, 1)]
    else if gs[0].key == k then [gs[0].(count := gs[0].count + 1)] + gs[1..]
    else [gs[0]] + Tally(gs[1..], k)
  }

  lemma {:induction false} TallyCounts<K>(gs: seq<Group<K>>, k: K, x: K)
    ensures CountOf(Tally(gs, k), x) == CountOf(gs, x) + (if x == k then 1 else 0)
    ensures Total(Tally(gs, k)) == Total(gs) + 1
  {
    if gs != [] {
      var r := Tally(gs, k);
      assert r[1..] == if gs[0].key == k then gs[1..] else Tally(gs[1..], k);
      if gs[0].key != k {
        TallyCounts(gs[1..], k, x);
      }
    }
  }

  /** Counting one more document adds its key to the keys. */
  lemma {:induction false} TallyKeys<K>(gs: seq<Group<K>>, k: K)
    ensures KeySet(Tally(gs, k)) == KeySet(gs) + {k}
  {
    if gs != [] {
      var r := Tally(gs, k);
      assert gs == [gs[0]] + gs[1..];
      assert KeySet(gs) == {gs[0].key} + KeySet(gs[1..]);
      assert r == [r[0]] + r[1..];
      assert KeySet(r) == {r[0].key} + KeySet(r[1..]);
      if gs[0].key != k {
        TallyKeys(gs[1..], k);
        assert r[1..] == Tally(gs[1..], k);
      } else {
        assert r[1..] == gs[1..];
      }
    }
  }

  /** Counting one more document keeps every count positive. */
  lemma {:induction false} TallyPositive<K>(gs: seq<Group<K>>, k: K)
    requires AllPositive(gs)
    ensures AllPositive(Tally(gs, k))
  {
    if gs != [] && gs[0].key != k {
      TallyPositive(gs[1..], k);
      assert Tally(gs, k) == [gs[0]] + Tally(gs[1..], k);
    }
  }

  /** Counting one more document keeps the keys distinct. */
  lemma {:induction false} TallyDistinct<K>(gs: seq<Group<K>>, k: K)
    requires DistinctKeys(gs)
    ensures DistinctKeys(Tally(gs, k))
  {
    if gs != [] && gs[0].key != k {
      var t := Tally(gs[1..], k);
      var r := [gs[0]] + t;
      assert Tally(gs, k) == r;
      TallyDistinct(gs[1..], k);
      TallyKeys(gs[1..], k);
      forall j | 0 <= j < |gs| - 1 ensures gs[1..][j].key != gs[0].key {
        assert gs[1..][j] == gs[j + 1];
      }
      assert gs[0].key !in KeySet(gs[1..]);
      forall i, j | 0 <= i < j < |r| ensures r[i].key != r[j].key {
        if i == 0 {
          assert r[j] == t[j - 1] && t[j - 1] in t;
          assert r[j].key in KeySet(t);
        } else {
          assert r[i] == t[i - 1] && r[j] == t[j - 1];
        }
      }
    }
  }

  /** The groups of a counting `$group` stage over `keys`, in order of first appearance. */
  function GroupCount<K(==,!new)>(keys: seq<K>): (gs: seq<Group<K>>)
    ensures DistinctKeys(gs) && AllPositive(gs)
    ensures forall x :: CountOf(gs, x) == Occurrences(keys, x)
    ensures KeySet(gs) == set x | x in keys
    ensures Total(gs) == |keys|
  {
    if keys == [] then []
    else
      var init, last := keys[..|keys| - 1], keys[|keys| - 1];
      var prev := GroupCount(init);
      assert (set x | x in keys) == (set x | x in init) + {last} by {
        assert keys == init + [last];
      }
      TallyKeys(prev, last);
      TallyDistinct(prev, last);
      TallyPositive(prev, last);
      TallyCounts(prev, last, last);
      assert forall x :: CountOf(Tally(prev, last), x) == Occurrences(keys, x) by {
        forall x ensures CountOf(Tally(prev, last), x) == Occurrences(keys, x) {
          TallyCounts(prev, last, x);
        }
      }
      Tally(prev, last)
  }

  /** With distinct keys, a group's count is the count stored under its key. */
  lemma {:induction false} CountOfGroup<K>(gs: seq<Group<K>>, i: nat)
    requires DistinctKeys(gs) && i < |gs|
    ensures CountOf(gs, gs[i].key) == gs[i].count
  {
    if i == 0 {
      CountOfAbsent(gs[1..], gs[0].key);
    } else {
      CountOfGroup(gs[1..], i - 1);
    }
  }

  lemma {:induction false} CountOfAbsent<K>(gs: seq<Group<K>>, k: K)
    requires forall g :: g in gs ==> g.key != k
    ensures CountOf(gs, k) == 0
  {
    if gs != [] {
      CountOfAbsent(gs[1..], k);
    }
  }

  /** Every group of `GroupCount(keys)` holds exactly the number of occurrences of its key. */
  lemma GroupCountExact<K(!new)>(keys: seq<K>, i: nat)
    requires i < |GroupCount(keys)|
    ensures GroupCount(keys)[i].count == Occurrences(keys, GroupCount(keys)[i].key) >= 1
  {
    CountOfGroup(GroupCount(keys), i);
  }

  /** The `reduce((acc, item) => { acc[item._id] = item.count; ... }, {})`: later groups overwrite. */
  function ToMap<K>(gs: seq<Group<K>>): (m: map<K, nat>)
    ensures m.Keys == KeySet(gs)
    ensures DistinctKeys(gs) ==> forall i :: 0 <= i < |gs| ==> m[gs[i].key] == gs[i].count
  {
    if gs == [] then map[]
    else
      var init, last := gs[..|gs| - 1], gs[|gs| - 1];
      assert gs == init + [last];
      assert KeySet(gs) == KeySet(init) + {last.key};
      assert DistinctKeys(gs) ==> DistinctKeys(init) && forall i :: 0 <= i < |init| ==> init[i].key != last.key;
      ToMap(init)[last.key := last.count]
  }

  /** A key of the object holds the count of the last group carrying it. */
  lemma {:induction false} ToMapLast<K>(gs: seq<Group<K>>, k: K)
    requires k in ToMap(gs)
    ensures exists j :: 0 <= j < |gs| && gs[j].key == k && ToMap(gs)[k] == gs[j].count
  {
    var init, last := gs[..|gs| - 1], gs[|gs| - 1];
    if last.key != k {
      ToMapLast(init, k);
      var j :| 0 <= j < |init| && init[j].key == k && ToMap(init)[k] == init[j].count;
      assert gs[j] == init[j];
    }
  }

  predicate CountDescending<K>(gs: seq<Group<K>>)
  {
    forall i, j :: 0 <= i < j < |gs| ==> gs[i].count >= gs[j].count
  }

  /** Inserts `g` after every group with a count at least as large. */
  function InsertByCount<K>(g: Group<K>, gs: seq<Group<K>>): seq<Group<K>>
  {
    if gs == [] then [g]
    else if gs[0].count >= g.count then [gs[0]] + InsertByCount(g, gs[1..])
    else [g] + gs
  }

  /** Inserting adds exactly `g` to the groups. */
  lemma {:induction false} InsertByCountPermutes<K>(g: Group<K>, gs: seq<Group<K>>)
    ensures multiset(InsertByCount(g, gs)) == multiset(gs) + multiset{g}
  {
    if gs != [] && gs[0].count >= g.count {
      InsertByCountPermutes(g, gs[1..]);
      assert gs == [gs[0]] + gs[1..];
    }
  }

  /** Inserting into groups ordered by descending count keeps them ordered. */
  lemma {:induction false} InsertByCountSorted<K>(g: Group<K>, gs: seq<Group<K>>)
    requires CountDescending(gs)
    ensures CountDescending(InsertByCount(g, gs))
  {
    if gs != [] && gs[0].count >= g.count {
      var rest := InsertByCount(g, gs[1..]);
      InsertByCountSorted(g, gs[1..]);
      InsertByCountPermutes(g, gs[1..]);
      forall j | 0 <= j < |rest| ensures rest[j].count <= gs[0].count {
        assert rest[j] in multiset(rest);
        if rest[j] != g {
          assert rest[j] in multiset(gs[1..]);
          var k :| 0 <= k < |gs[1..]| && gs[1..][k] == rest[j];
          assert gs[k + 1] == rest[j];
        }
      }
      assert InsertByCount(g, gs) == [gs[0]] + rest;
    }
  }

  /** The `$sort: {count: -1}` stage; ties keep their order. */
  function SortByCount<K>(gs: seq<Group<K>>): (r: seq<Group<K>>)
    ensures multiset(r) == multiset(gs)
    ensures CountDescending(r)
  {
    if gs == [] then []
    else
      assert gs == gs[..|gs| - 1] + [gs[|gs| - 1]];
      InsertByCountPermutes(gs[|gs| - 1], SortByCount(gs[..|gs| - 1]));
      InsertByCountSorted(gs[|gs| - 1], SortByCount(gs[..|gs| - 1]));
      InsertByCount(gs[|gs| - 1], SortByCount(gs[..|gs| - 1]))
  }

  /** Grouping then reducing: the keys are exactly the values present, each mapped to its number of occurrences. */
  lemma CountMapSpec<K(!new)>(keys: seq<K>, k: K)
    ensures k in ToMap(GroupCount(keys)) <==> k in keys
    ensures k in keys ==> ToMap(GroupCount(keys))[k] == Occurrences(keys, k)
  {
    var gs := GroupCount(keys);
    if k in keys {
      assert k in KeySet(gs);
      var i :| 0 <= i < |gs| && gs[i].key == k;
      GroupCountExact(keys, i);
    }
  }
}
