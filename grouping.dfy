/**
 * The grouping step of `Scene::render`: a map from key to the list of kept
 * elements with that key, built by `map[key].push_back(element)` over the elements
 * in order, and the flattened list of all groups in some iteration order of the map.
 * Elements are represented by their indices.
 */
module Grouping {

  predicate Increasing(s: seq<nat>) {
    forall i, j :: 0 <= i < j < |s| ==> s[i] < s[j]
  }

  predicate NoDup<T(==)>(s: seq<T>) {
    forall i, j :: 0 <= i < j < |s| ==> s[i] != s[j]
  }

  function Elems<T>(s: seq<T>): set<T> {
    set x | x in s
  }

  /** The indices below `n` whose flag is set, in increasing order. */
  function Selected(keep: seq<bool>, n: nat): seq<nat>
    requires n <= |keep|
  {
    if n == 0 then [] else Selected(keep, n - 1) + (if keep[n - 1] then [n - 1] else [])
  }

  lemma {:induction false} SelectedFacts(keep: seq<bool>, n: nat)
    requires n <= |keep|
    ensures NoDup(Selected(keep, n))
    ensures forall x: nat :: x in Selected(keep, n) <==> x < n && keep[x]
  {
    if n > 0 {
      SelectedFacts(keep, n - 1);
    }
  }

  /**
   * The map after the first `n` elements: element `i` is pushed onto the group of
   * `keys[i]` when `keep[i]`; `operator[]` creates an empty group for a new key first.
   */
  function GroupsOf<K(==)>(keys: seq<K>, keep: seq<bool>, n: nat): map<K, seq<nat>>
    requires n <= |keys| && n <= |keep|
  {
    if n == 0 then map[]
    else
      var g := GroupsOf(keys, keep, n - 1);
      if keep[n - 1] then
        var k := keys[n - 1];
        g[k := (if k in g then g[k] else []) + [n - 1]]
      else g
  }

  /** One step of the fold: element `n` is pushed onto the group of its key when kept. */
  lemma GroupsOfStep<K>(keys: seq<K>, keep: seq<bool>, n: nat, g: map<K, seq<nat>>)
    requires n < |keys| && n < |keep| && g == GroupsOf(keys, keep, n)
    ensures keep[n] ==> GroupsOf(keys, keep, n + 1) == g[keys[n] := (if keys[n] in g then g[keys[n]] else []) + [n]]
    ensures !keep[n] ==> GroupsOf(keys, keep, n + 1) == g
  {
  }

  /** An element is in a group iff it is kept, already visited and has that group's key. */
  lemma {:induction false} GroupMembers<K>(keys: seq<K>, keep: seq<bool>, n: nat, k: K)
    requires n <= |keys| && n <= |keep|
    requires k in GroupsOf(keys, keep, n)
    ensures forall x: nat :: x in GroupsOf(keys, keep, n)[k] <==> x < n && keep[x] && keys[x] == k
  {
    var g, g' := GroupsOf(keys, keep, n - 1), GroupsOf(keys, keep, n);
    if keep[n - 1] && keys[n - 1] == k {
      if k in g {
        GroupMembers(keys, keep, n - 1, k);
      } else {
        KeptHaveGroups(keys, keep, n - 1);
      }
    } else {
      assert k in g && g'[k] == g[k];
      GroupMembers(keys, keep, n - 1, k);
    }
  }

  /** Every kept element has a group. */
  lemma {:induction false} KeptHaveGroups<K>(keys: seq<K>, keep: seq<bool>, n: nat)
    requires n <= |keys| && n <= |keep|
    ensures forall x: nat :: x < n && keep[x] ==> keys[x] in GroupsOf(keys, keep, n)
  {
    if n > 0 {
      KeptHaveGroups(keys, keep, n - 1);
    }
  }

  /** Every group is non-empty and lists its elements in their original order. */
  lemma {:induction false} GroupOrdered<K>(keys: seq<K>, keep: seq<bool>, n: nat, k: K)
    requires n <= |keys| && n <= |keep|
    requires k in GroupsOf(keys, keep, n)
    ensures GroupsOf(keys, keep, n)[k] != [] && Increasing(GroupsOf(keys, keep, n)[k])
  {
    var g := GroupsOf(keys, keep, n - 1);
    if keep[n - 1] && keys[n - 1] == k {
      if k in g {
        GroupOrdered(keys, keep, n - 1, k);
        GroupMembers(keys, keep, n - 1, k);
        assert forall i :: 0 <= i < |g[k]| ==> g[k][i] in g[k];
      }
    } else {
      GroupOrdered(keys, keep, n - 1, k);
    }
  }

  /**
   * Every kept element lies in exactly the group of its key, no rejected element in
   * any group, every group is non-empty and keeps the elements in their original order.
   */
  lemma GroupsOfFacts<K>(keys: seq<K>, keep: seq<bool>, n: nat)
    requires n <= |keys| && n <= |keep|
    ensures forall k :: k in GroupsOf(keys, keep, n) ==>
              GroupsOf(keys, keep, n)[k] != [] && Increasing(GroupsOf(keys, keep, n)[k])
    ensures forall k, x: nat {:trigger x in GroupsOf(keys, keep, n)[k]} :: k in GroupsOf(keys, keep, n) ==>
              (x in GroupsOf(keys, keep, n)[k] <==> x < n && keep[x] && keys[x] == k)
    ensures forall x: nat :: x < n && keep[x] ==> keys[x] in GroupsOf(keys, keep, n)
  {
    forall k | k in GroupsOf(keys, keep, n)
      ensures GroupsOf(keys, keep, n)[k] != [] && Increasing(GroupsOf(keys, keep, n)[k])
      ensures forall x: nat :: x in GroupsOf(keys, keep, n)[k] <==> x < n && keep[x] && keys[x] == k
    {
      GroupOrdered(keys, keep, n, k);
      GroupMembers(keys, keep, n, k);
    }
    KeptHaveGroups(keys, keep, n);
  }

  /** The groups concatenated in the iteration order `order`. */
  function Flatten<K(==)>(order: seq<K>, g: map<K, seq<nat>>): seq<nat>
    requires forall k :: k in order ==> k in g
  {
    if order == [] then [] else Flatten(order[..|order| - 1], g) + g[order[|order| - 1]]
  }

  /** Visiting one more key appends its group. */
  lemma FlattenAppend<K>(order: seq<K>, m: K, g: map<K, seq<nat>>)
    requires (forall k :: k in order ==> k in g) && m in g
    ensures forall k :: k in order + [m] ==> k in g
    ensures Flatten(order + [m], g) == Flatten(order, g) + g[m]
  {
    assert (order + [m])[..|order|] == order;
  }

  /** `order` lists every key of the map exactly once. */
  predicate Enumerates<K(==)>(order: seq<K>, keys: set<K>) {
    NoDup(order) && Elems(order) == keys
  }

  /** Appending a key not yet listed keeps the list free of repeats and adds just that key. */
  lemma AppendNew<K>(order: seq<K>, m: K)
    requires NoDup(order) && m !in Elems(order)
    ensures NoDup(order + [m]) && Elems(order + [m]) == Elems(order) + {m}
    ensures (order + [m])[..|order|] == order
  {
    assert forall i :: 0 <= i < |order| ==> order[i] in Elems(order);
    assert Elems(order + [m]) == Elems(order) + {m};
  }

  /** One step of visiting the keys of a map: `m` moves from the unvisited keys to the end of `order`. */
  lemma VisitKey<K>(order: seq<K>, remaining: set<K>, keys: set<K>, m: K)
    requires NoDup(order) && Elems(order) == keys - remaining && remaining <= keys && m in remaining
    ensures NoDup(order + [m]) && Elems(order + [m]) == keys - (remaining - {m})
    ensures remaining - {m} <= keys && |remaining - {m}| < |remaining|
    ensures forall k :: k in order + [m] ==> k in keys
  {
    AppendNew(order, m);
    assert forall k :: k in order + [m] ==> k in Elems(order + [m]);
  }

  lemma NoDupConcat<T>(a: seq<T>, b: seq<T>)
    requires NoDup(a) && NoDup(b)
    requires forall x :: x in a ==> x !in b
    ensures NoDup(a + b)
  {
    forall i, j | 0 <= i < j < |a + b|
      ensures (a + b)[i] != (a + b)[j]
    {
      if j >= |a| && i < |a| {
        assert (a + b)[i] in a && (a + b)[j] in b;
      }
    }
  }

  /** Concatenating distinct groups in any order of distinct keys repeats no element. */
  lemma {:induction false} FlattenPrefix<K>(keys: seq<K>, keep: seq<bool>, n: nat, order: seq<K>)
    requires n <= |keys| && n <= |keep|
    requires NoDup(order) && forall k :: k in order ==> k in GroupsOf(keys, keep, n)
    ensures NoDup(Flatten(order, GroupsOf(keys, keep, n)))
    ensures forall x: nat :: x in Flatten(order, GroupsOf(keys, keep, n)) <==> x < n && keep[x] && keys[x] in order
  {
    var g := GroupsOf(keys, keep, n);
    GroupsOfFacts(keys, keep, n);
    if order != [] {
      var init, last := order[..|order| - 1], order[|order| - 1];
      assert forall k :: k in init ==> k in order;
      assert NoDup(init) by {
        forall i, j | 0 <= i < j < |init| ensures init[i] != init[j] {
          assert order[i] == init[i] && order[j] == init[j];
        }
      }
      FlattenPrefix(keys, keep, n, init);
      var front := Flatten(init, g);
      assert forall x: nat :: x in g[last] ==> x < n && keys[x] == last;
      assert forall x: nat :: x in front ==> keys[x] in init;
      assert NoDup(g[last]) by {
        assert Increasing(g[last]);
      }
      NoDupConcat(front, g[last]);
      forall x: nat
        ensures x in Flatten(order, g) <==> x < n && keep[x] && keys[x] in order
      {
        assert Flatten(order, g) == front + g[last];
        if x < n {
          assert keys[x] in order <==> keys[x] in init || keys[x] == last;
        }
      }
    }
  }

  lemma {:induction false} NoDupCard<T>(s: seq<T>)
    requires NoDup(s)
    ensures |Elems(s)| == |s|
  {
    if s != [] {
      var init := s[..|s| - 1];
      assert NoDup(init) by {
        forall i, j | 0 <= i < j < |init| ensures init[i] != init[j] {
          assert s[i] == init[i] && s[j] == init[j];
        }
      }
      NoDupCard(init);
      assert Elems(s) == Elems(init) + {s[|s| - 1]};
    }
  }

  /**
   * Drawing every group in an order of all the map's keys visits each kept element
   * exactly once and nothing else: the flattened groups hold exactly the kept
   * elements, without repetition, so there are as many of them as kept elements.
   */
  lemma FlattenGroups<K>(keys: seq<K>, keep: seq<bool>, n: nat, order: seq<K>)
    requires n <= |keys| && n <= |keep|
    requires Enumerates(order, GroupsOf(keys, keep, n).Keys)
    ensures NoDup(Flatten(order, GroupsOf(keys, keep, n)))
    ensures forall x: nat :: x in Flatten(order, GroupsOf(keys, keep, n)) <==> x < n && keep[x]
    ensures |Flatten(order, GroupsOf(keys, keep, n))| == |Selected(keep, n)|
  {
    var g := GroupsOf(keys, keep, n);
    var f := Flatten(order, g);
    GroupsOfFacts(keys, keep, n);
    FlattenPrefix(keys, keep, n, order);
    SelectedFacts(keep, n);
    assert Elems(f) == Elems(Selected(keep, n));
    NoDupCard(f);
    NoDupCard(Selected(keep, n));
  }
}
