/** Grouping a list into a dictionary of lists, the way the screens do it with
    `forEach` (or `reduce`) and `if (!acc[key]) acc[key] = []; acc[key].push(x)`.
    The dictionary is an association list in key-insertion order, which is the
    order `Object.keys` and `Object.entries` report for such keys. */
module Grouping {

  /** One key of the dictionary and what was pushed under it, in push order. */
  datatype Group<K, U> = Group(key: K, items: seq<U>)

  /** The position of key `k` in the dictionary, or -1 when `acc[k]` is undefined. */
  function IndexOfKey<K(==), U>(gs: seq<Group<K, U>>, k: K): (r: int)
    ensures -1 <= r < |gs|
    ensures 0 <= r ==> gs[r].key == k
    ensures r == -1 <==> forall j :: 0 <= j < |gs| ==> gs[j].key != k
    decreases |gs|
  {
    if gs == [] then -1
    else if gs[0].key == k then 0
    else
      var r := IndexOfKey(gs[1..], k);
      if r < 0 then -1 else r + 1
  }

  /** One step of the loop: create the list for `k` if needed, then push `u` onto it. */
  function Push<K(==), U>(gs: seq<Group<K, U>>, k: K, u: U): seq<Group<K, U>>
  {
    var i := IndexOfKey(gs, k);
    if i < 0 then gs + [Group(k, [u])]
    else gs[i := Group(k, gs[i].items + [u])]
  }

  /** The dictionary the loop builds from `items`. */
  function Grouped<T, K(==), U>(items: seq<T>, key: T -> K, proj: T -> U): seq<Group<K, U>>
    decreases |items|
  {
    if items == [] then []
    else
      var n := |items| - 1;
      Push(Grouped(items[..n], key, proj), key(items[n]), proj(items[n]))
  }

  /** Reference definition: the projections of the items whose key is `k`, in input order. */
  function Matching<T, K(==), U>(items: seq<T>, key: T -> K, proj: T -> U, k: K): seq<U>
    decreases |items|
  {
    if items == [] then []
    else
      var n := |items| - 1;
      Matching(items[..n], key, proj, k) + (if key(items[n]) == k then [proj(items[n])] else [])
  }

  ghost predicate DistinctKeys<K, U>(gs: seq<Group<K, U>>)
  {
    forall a, b :: 0 <= a < b < |gs| ==> gs[a].key != gs[b].key
  }

  /** What it means for `gs` to be `items` grouped by `key`: every key once, every
      group exactly the matching items in input order, and no matching item left out. */
  ghost predicate IsGrouping<T, K(!new), U>(gs: seq<Group<K, U>>, items: seq<T>, key: T -> K, proj: T -> U)
  {
    && DistinctKeys(gs)
    && (forall g :: 0 <= g < |gs| ==> gs[g].items == Matching(items, key, proj, gs[g].key) && gs[g].items != [])
    && (forall k :: IndexOfKey(gs, k) == -1 ==> Matching(items, key, proj, k) == [])
  }

  lemma MatchingSnoc<T, K, U>(items: seq<T>, x: T, key: T -> K, proj: T -> U, k: K)
    ensures Matching(items + [x], key, proj, k)
            == Matching(items, key, proj, k) + (if key(x) == k then [proj(x)] else [])
  {
    assert (items + [x])[..|items|] == items;
  }

  /** One push keeps the dictionary a grouping of the items seen so far. */
  lemma PushKeepsGrouping<T, K(!new), U>(gs: seq<Group<K, U>>, items: seq<T>, x: T, key: T -> K, proj: T -> U)
    requires IsGrouping(gs, items, key, proj)
    ensures IsGrouping(Push(gs, key(x), proj(x)), items + [x], key, proj)
  {
    forall k' ensures Matching(items + [x], key, proj, k')
                      == Matching(items, key, proj, k') + (if key(x) == k' then [proj(x)] else [])
    {
      MatchingSnoc(items, x, key, proj, k');
    }
    if IndexOfKey(gs, key(x)) < 0 {
      PushNewKey(gs, items, x, key, proj);
    } else {
      PushExistingKey(gs, items, x, key, proj);
    }
  }

  /** A push under a new key appends its group. */
  lemma PushNewKey<T, K(!new), U>(gs: seq<Group<K, U>>, items: seq<T>, x: T, key: T -> K, proj: T -> U)
    requires IsGrouping(gs, items, key, proj) && IndexOfKey(gs, key(x)) < 0
    requires forall k' :: Matching(items + [x], key, proj, k')
                          == Matching(items, key, proj, k') + (if key(x) == k' then [proj(x)] else [])
    ensures IsGrouping(Push(gs, key(x), proj(x)), items + [x], key, proj)
  {
    var k := key(x);
    var gs' := Push(gs, k, proj(x));
    assert gs' == gs + [Group(k, [proj(x)])];
    forall k' | IndexOfKey(gs', k') == -1
      ensures Matching(items + [x], key, proj, k') == []
    {
      assert gs'[|gs'| - 1].key == k;
      assert forall j :: 0 <= j < |gs| ==> gs'[j] == gs[j];
    }
  }

  /** A push under a key already present extends that key's group. */
  lemma PushExistingKey<T, K(!new), U>(gs: seq<Group<K, U>>, items: seq<T>, x: T, key: T -> K, proj: T -> U)
    requires IsGrouping(gs, items, key, proj) && 0 <= IndexOfKey(gs, key(x))
    requires forall k' :: Matching(items + [x], key, proj, k')
                          == Matching(items, key, proj, k') + (if key(x) == k' then [proj(x)] else [])
    ensures IsGrouping(Push(gs, key(x), proj(x)), items + [x], key, proj)
  {
    var k := key(x);
    var i := IndexOfKey(gs, k);
    var gs' := Push(gs, k, proj(x));
    assert gs' == gs[i := Group(k, gs[i].items + [proj(x)])];
    forall k' | IndexOfKey(gs', k') == -1
      ensures Matching(items + [x], key, proj, k') == []
    {
      assert gs'[i].key == k;
      assert forall j :: 0 <= j < |gs| ==> gs[j].key == gs'[j].key;
    }
  }

  lemma {:induction false} GroupedIsGrouping<T, K(!new), U>(items: seq<T>, key: T -> K, proj: T -> U)
    ensures IsGrouping(Grouped(items, key, proj), items, key, proj)
    decreases |items|
  {
    if items != [] {
      var n := |items| - 1;
      GroupedIsGrouping(items[..n], key, proj);
      PushKeepsGrouping(Grouped(items[..n], key, proj), items[..n], items[n], key, proj);
      assert items[..n] + [items[n]] == items;
    }
  }

  lemma {:induction false} MatchingHasWitness<T, K, U>(items: seq<T>, key: T -> K, proj: T -> U, k: K)
    requires Matching(items, key, proj, k) != []
    ensures exists i :: 0 <= i < |items| && key(items[i]) == k
    decreases |items|
  {
    var n := |items| - 1;
    if key(items[n]) != k {
      MatchingHasWitness(items[..n], key, proj, k);
      var i :| 0 <= i < n && key(items[..n][i]) == k;
      assert items[i] == items[..n][i];
    }
  }

  lemma {:induction false} MatchingHasItem<T, K, U>(items: seq<T>, key: T -> K, proj: T -> U, i: nat)
    requires i < |items|
    ensures proj(items[i]) in Matching(items, key, proj, key(items[i]))
    decreases |items|
  {
    var n := |items| - 1;
    if i < n {
      MatchingHasItem(items[..n], key, proj, i);
      assert items[..n][i] == items[i];
    }
  }

  /** Everything in a group comes from an item with that group's key. */
  lemma {:induction false} MatchingMembers<T, K, U>(items: seq<T>, key: T -> K, proj: T -> U, k: K)
    ensures forall u :: u in Matching(items, key, proj, k) ==>
              exists i :: 0 <= i < |items| && key(items[i]) == k && proj(items[i]) == u
    decreases |items|
  {
    if items != [] {
      var n := |items| - 1;
      MatchingMembers(items[..n], key, proj, k);
      forall u | u in Matching(items, key, proj, k)
        ensures exists i :: 0 <= i < |items| && key(items[i]) == k && proj(items[i]) == u
      {
        if u in Matching(items[..n], key, proj, k) {
          var i :| 0 <= i < n && key(items[..n][i]) == k && proj(items[..n][i]) == u;
          assert items[..n][i] == items[i];
        } else {
          assert key(items[n]) == k && proj(items[n]) == u;
        }
      }
    }
  }

  /** The first item of a group is the first item of the input with that key. */
  lemma {:induction false} MatchingFirst<T, K, U>(items: seq<T>, key: T -> K, proj: T -> U, k: K)
    requires Matching(items, key, proj, k) != []
    ensures exists i :: 0 <= i < |items| && key(items[i]) == k
              && Matching(items, key, proj, k)[0] == proj(items[i])
              && forall j :: 0 <= j < i ==> key(items[j]) != k
    decreases |items|
  {
    var n := |items| - 1;
    var m := Matching(items[..n], key, proj, k);
    if m == [] {
      assert Matching(items, key, proj, k) == [proj(items[n])];
      forall j | 0 <= j < n
        ensures key(items[j]) != k
      {
        MatchingHasItem(items[..n], key, proj, j);
        assert items[..n][j] == items[j];
      }
    } else {
      MatchingFirst(items[..n], key, proj, k);
      var i :| 0 <= i < n && key(items[..n][i]) == k
               && m[0] == proj(items[..n][i])
               && forall j :: 0 <= j < i ==> key(items[..n][j]) != k;
      assert items[..n][i] == items[i];
      assert forall j :: 0 <= j < i ==> items[..n][j] == items[j];
    }
  }

  /** Each item lands in exactly one group: its key is in the dictionary exactly once,
      and every key of the dictionary comes from some item. */
  lemma {:induction false} EachItemInOneGroup<T, K(!new), U>(items: seq<T>, key: T -> K, proj: T -> U)
    ensures var gs := Grouped(items, key, proj);
      && (forall i :: 0 <= i < |items| ==>
            var g := IndexOfKey(gs, key(items[i]));
            0 <= g && proj(items[i]) in gs[g].items
            && forall h :: 0 <= h < |gs| && h != g ==> gs[h].key != key(items[i]))
      && (forall g :: 0 <= g < |gs| ==> exists i :: 0 <= i < |items| && key(items[i]) == gs[g].key)
  {
    var gs := Grouped(items, key, proj);
    GroupedIsGrouping(items, key, proj);
    forall i | 0 <= i < |items|
      ensures var g := IndexOfKey(gs, key(items[i]));
        0 <= g && proj(items[i]) in gs[g].items
        && forall h :: 0 <= h < |gs| && h != g ==> gs[h].key != key(items[i])
    {
      MatchingHasItem(items, key, proj, i);
    }
    forall g | 0 <= g < |gs|
      ensures exists i :: 0 <= i < |items| && key(items[i]) == gs[g].key
    {
      MatchingHasWitness(items, key, proj, gs[g].key);
    }
  }

  /** The grouping loop: `items.forEach(x => { if (!acc[key(x)]) acc[key(x)] = []; acc[key(x)].push(proj(x)); })`. */
  method GroupInto<T, K(==, !new), U>(items: seq<T>, key: T -> K, proj: T -> U) returns (groups: seq<Group<K, U>>)
    ensures groups == Grouped(items, key, proj)
    ensures IsGrouping(groups, items, key, proj)
  {
    groups := [];
    var i := 0;
    while i < |items|
      invariant 0 <= i <= |items|
      invariant groups == Grouped(items[..i], key, proj)
    {
      var k := key(items[i]);
      assert items[..i + 1][..i] == items[..i];
      ghost var next := Push(groups, k, proj(items[i]));
      var at := IndexOfKey(groups, k);
      if at < 0 {
        groups := groups + [Group(k, [])];
        at := |groups| - 1;
        assert groups[at := Group(k, [proj(items[i])])] == next;
      }
      assert groups[at].items + [proj(items[i])] == next[at].items;
      groups := groups[at := Group(k, groups[at].items + [proj(items[i])])];
      assert groups == next;
      i := i + 1;
    }
    assert items[..i] == items;
    GroupedIsGrouping(items, key, proj);
  }
}
