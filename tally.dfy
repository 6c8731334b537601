// Counting by key in first-seen order, the way the report scripts fill an
// object with `obj[key] = obj[key] || []; obj[key].push(x)` and then read
// `Object.entries(obj)` with each list's length.

module Tally {
  import opened Wrappers

  /** Keys with their counts, in the order the keys were first seen. */
  type Groups = seq<(string, nat)>

  predicate DistinctKeys(g: Groups)
  {
    forall i, j :: 0 <= i < j < |g| ==> g[i].0 != g[j].0
  }

  /** The position of `key`, looked up the way an object property is. */
  function IndexOf(g: Groups, key: string): (r: Option<nat>)
    ensures r.Some? ==> r.value < |g| && g[r.value].0 == key
    ensures r.None? ==> forall i :: 0 <= i < |g| ==> g[i].0 != key
  {
    if g == [] then None
    else if g[|g| - 1].0 == key then Some(|g| - 1)
    else IndexOf(g[..|g| - 1], key)
  }

  /** One more occurrence of `key`: its count grows, or it is appended with count 1. */
  function Bump(g: Groups, key: string): Groups
  {
    match IndexOf(g, key)
    case Some(i) => g[i := (key, g[i].1 + 1)]
    case None => g + [(key, 1)]
  }

  /** The groups after counting `items` in order. */
  function TallyOf(items: seq<string>): Groups
  {
    if items == [] then [] else Bump(TallyOf(items[..|items| - 1]), items[|items| - 1])
  }

  function SumCounts(g: Groups): nat
  {
    if g == [] then 0 else SumCounts(g[..|g| - 1]) + g[|g| - 1].1
  }

  lemma {:induction false} SumCountsUpdate(g: Groups, i: nat, key: string)
    requires i < |g|
    ensures SumCounts(g[i := (key, g[i].1 + 1)]) == SumCounts(g) + 1
    decreases |g|
  {
    var h := g[i := (key, g[i].1 + 1)];
    if i < |g| - 1 {
      assert h[..|h| - 1] == g[..|g| - 1][i := (key, g[i].1 + 1)];
      SumCountsUpdate(g[..|g| - 1], i, key);
    } else {
      assert h[..|h| - 1] == g[..|g| - 1];
    }
  }

  /** `g` counts the multiset `m`: distinct keys, each with its multiplicity, and every element has a group. */
  predicate Summarizes(g: Groups, m: multiset<string>)
  {
    && DistinctKeys(g)
    && (forall i :: 0 <= i < |g| ==> g[i].1 == m[g[i].0] && g[i].1 > 0)
    && (forall x :: x in m ==> IndexOf(g, x).Some?)
  }

  /** Bumping an existing key keeps the summary of one more occurrence. */
  lemma BumpFound(g: Groups, m: multiset<string>, key: string, i: nat)
    requires Summarizes(g, m) && IndexOf(g, key) == Some(i)
    ensures Summarizes(Bump(g, key), m + multiset{key})
  {
    var h := Bump(g, key);
    var m' := m + multiset{key};
    assert h == g[i := (key, g[i].1 + 1)];
    forall x | x in m' ensures IndexOf(h, x).Some? {
      var k := if x in m then IndexOf(g, x).value else i;
      assert h[k].0 == x;
    }
  }

  /** Appending a new key keeps the summary of one more occurrence. */
  lemma BumpMissing(g: Groups, m: multiset<string>, key: string)
    requires Summarizes(g, m) && IndexOf(g, key).None?
    ensures Summarizes(Bump(g, key), m + multiset{key})
  {
    var h := Bump(g, key);
    var m' := m + multiset{key};
    assert key !in m;
    assert h[..|h| - 1] == g;
    forall x | x in m' ensures IndexOf(h, x).Some? {
      if x != key {
        assert h[IndexOf(g, x).value].0 == x;
      }
    }
  }

  lemma {:induction false} TallySummarizes(items: seq<string>)
    ensures Summarizes(TallyOf(items), multiset(items))
  {
    if items != [] {
      var init := items[..|items| - 1];
      var x := items[|items| - 1];
      assert items == init + [x];
      TallySummarizes(init);
      var g0 := TallyOf(init);
      match IndexOf(g0, x) {
        case Some(i) => BumpFound(g0, multiset(init), x, i);
        case None => BumpMissing(g0, multiset(init), x);
      }
    }
  }

  lemma {:induction false} TallySum(items: seq<string>)
    ensures SumCounts(TallyOf(items)) == |items|
  {
    if items != [] {
      var init := items[..|items| - 1];
      var x := items[|items| - 1];
      TallySum(init);
      var g0 := TallyOf(init);
      match IndexOf(g0, x) {
        case Some(i) => SumCountsUpdate(g0, i, x);
        case None =>
          var g := TallyOf(items);
          assert g[..|g| - 1] == g0;
      }
    }
  }

  /**
   * Counting keeps the keys distinct, every key's count is the number of its
   * occurrences, every item has a group, and the counts add up to the number
   * of items.
   */
  lemma TallyOfCounts(items: seq<string>)
    ensures var g := TallyOf(items);
      && DistinctKeys(g)
      && (forall i :: 0 <= i < |g| ==> g[i].1 == multiset(items)[g[i].0] && g[i].1 > 0)
      && (forall x :: x in items ==> IndexOf(g, x).Some?)
      && SumCounts(g) == |items|
  {
    TallySummarizes(items);
    TallySum(items);
  }

  /** The counting loop: each item looks up its key and bumps it, or adds it. */
  method CountByKey(items: seq<string>) returns (g: Groups)
    ensures g == TallyOf(items)
  {
    g := [];
    var i := 0;
    while i < |items|
      invariant 0 <= i <= |items|
      invariant g == TallyOf(items[..i])
    {
      assert items[..i + 1][..i] == items[..i];
      var key := items[i];
      var at := IndexOf(g, key);
      if at.Some? {
        g := g[at.value := (key, g[at.value].1 + 1)];
      } else {
        g := g + [(key, 1)];
      }
      i := i + 1;
    }
    assert items[..i] == items;
  }
}
