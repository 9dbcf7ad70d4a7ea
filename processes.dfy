/** The process registry (`processMap` in builder.go): process declarations keyed
    by their type, where a later declaration of a type replaces an earlier one,
    and whose listing is ordered by type. */
module Processes {

  /** One launchable process: its type (`web`, `worker`, ...) and its start
      command. `typ` stands for the Go field `Type`. */
  datatype Process = Process(typ: string, command: string)

  // ---------------------------------------------------------------------------
  // The order of Go's `<` on strings, which `sort.Strings` uses: lexicographic,
  // a proper prefix first. Go compares bytes; on valid UTF-8, which a TOML
  // document must be, comparing code points gives the same order, since UTF-8
  // encoding preserves it.

  predicate Less(a: string, b: string)
    decreases |a|
  {
    if |a| == 0 then |b| > 0
    else if |b| == 0 then false
    else if a[0] != b[0] then a[0] < b[0]
    else Less(a[1..], b[1..])
  }

  lemma {:induction false} LessIrreflexive(a: string)
    ensures !Less(a, a)
    decreases |a|
  {
    if |a| > 0 {
      LessIrreflexive(a[1..]);
    }
  }

  lemma {:induction false} LessTransitive(a: string, b: string, c: string)
    requires Less(a, b) && Less(b, c)
    ensures Less(a, c)
    decreases |a|
  {
    if |a| > 0 && a[0] == b[0] && b[0] == c[0] {
      LessTransitive(a[1..], b[1..], c[1..]);
    }
  }

  /** Any two strings are equal or ordered one way or the other. */
  lemma {:induction false} LessTotal(a: string, b: string)
    ensures a == b || Less(a, b) || Less(b, a)
    decreases |a|
  {
    if |a| > 0 && |b| > 0 && a[0] == b[0] {
      LessTotal(a[1..], b[1..]);
      if a[1..] == b[1..] {
        assert a == [a[0]] + a[1..] && b == [b[0]] + b[1..];
      }
    }
  }

  lemma LessAsymmetric(a: string, b: string)
    requires Less(a, b)
    ensures !Less(b, a)
  {
    if Less(b, a) {
      LessTransitive(a, b, a);
      LessIrreflexive(a);
    }
  }

  // ---------------------------------------------------------------------------
  // Sorting the keys, as `sort.Strings` does.

  /** Sorted as `sort.Strings` leaves a slice: no element is less than an earlier one. */
  predicate Ascending(s: seq<string>)
  {
    forall i, j :: 0 <= i < j < |s| ==> !Less(s[j], s[i])
  }

  /** Each element less than every later one: sorted and without repetition. */
  predicate StrictlyAscending(s: seq<string>)
  {
    forall i, j :: 0 <= i < j < |s| ==> Less(s[i], s[j])
  }

  predicate Distinct<T(==)>(s: seq<T>)
  {
    forall i, j :: 0 <= i < j < |s| ==> s[i] != s[j]
  }

  /** `x` placed into the sorted `s` before the first element not less than it. */
  function Insert(s: seq<string>, x: string): (r: seq<string>)
    requires Ascending(s)
    ensures Ascending(r)
    ensures multiset(r) == multiset(s) + multiset{x}
    decreases |s|
  {
    if s == [] then [x]
    else if !Less(s[0], x) then
      InsertFront(s, x);
      [x] + s
    else
      var tail := Insert(s[1..], x);
      assert s == [s[0]] + s[1..];
      InsertBehind(s, x, tail);
      [s[0]] + tail
  }

  lemma InsertFront(s: seq<string>, x: string)
    requires Ascending(s) && s != [] && !Less(s[0], x)
    ensures Ascending([x] + s)
  {
    forall j | 0 <= j < |s|
      ensures !Less(s[j], x)
    {
      if Less(s[j], x) {
        LessTotal(x, s[0]);
        if x != s[0] {
          LessTransitive(s[j], x, s[0]);
        }
      }
    }
    var r := [x] + s;
    forall i, j | 0 <= i < j < |r|
      ensures !Less(r[j], r[i])
    {
      if i > 0 {
        assert r[i] == s[i - 1] && r[j] == s[j - 1];
      }
    }
  }

  lemma InsertBehind(s: seq<string>, x: string, tail: seq<string>)
    requires Ascending(s) && s != [] && Less(s[0], x)
    requires Ascending(tail) && multiset(tail) == multiset(s[1..]) + multiset{x}
    ensures Ascending([s[0]] + tail)
  {
    forall j | 0 <= j < |tail|
      ensures !Less(tail[j], s[0])
    {
      assert tail[j] in multiset(tail);
      if tail[j] == x {
        LessAsymmetric(s[0], x);
      } else {
        assert tail[j] in s[1..];
        var k :| 0 <= k < |s[1..]| && s[1..][k] == tail[j];
        assert s[k + 1] == tail[j];
      }
    }
  }

  /** The keys sorted as `sort.Strings` sorts them: ascending, a permutation. */
  function SortStrings(keys: seq<string>): (r: seq<string>)
    ensures Ascending(r)
    ensures multiset(r) == multiset(keys)
    decreases |keys|
  {
    if keys == [] then []
    else
      assert keys == keys[..|keys| - 1] + [keys[|keys| - 1]];
      Insert(SortStrings(keys[..|keys| - 1]), keys[|keys| - 1])
  }

  /** A sequence without repetition occurs at most once per value. */
  lemma {:induction false} DistinctOccursOnce(s: seq<string>, x: string)
    requires Distinct(s)
    ensures multiset(s)[x] <= 1
    decreases |s|
  {
    if s != [] {
      var init := s[..|s| - 1];
      assert s == init + [s[|s| - 1]];
      assert Distinct(init);
      DistinctOccursOnce(init, x);
      if x == s[|s| - 1] {
        assert x !in init;
      }
    }
  }

  /** A permutation of a sequence without repetition has none either. */
  lemma DistinctPermutation(a: seq<string>, b: seq<string>)
    requires Distinct(a) && multiset(a) == multiset(b)
    ensures Distinct(b)
  {
    forall i, j | 0 <= i < j < |b|
      ensures b[i] != b[j]
    {
      if b[i] == b[j] {
        assert b == b[..j] + [b[j]] + b[j + 1..];
        assert b[i] in b[..j];
        assert multiset(b)[b[i]] >= 2;
        DistinctOccursOnce(a, b[i]);
      }
    }
  }

  /** Sorted and without repetition is strictly ascending. */
  lemma AscendingDistinct(s: seq<string>)
    requires Ascending(s) && Distinct(s)
    ensures StrictlyAscending(s)
  {
    forall i, j | 0 <= i < j < |s|
      ensures Less(s[i], s[j])
    {
      LessTotal(s[i], s[j]);
    }
  }

  // ---------------------------------------------------------------------------
  // The registry as a value.

  /** Every entry is stored under its own type. */
  predicate KeyedByType(m: map<string, Process>)
  {
    forall k :: k in m ==> m[k].typ == k
  }

  /** The registry after adding `l`: each declaration in turn stored under its type. */
  function Merge(m: map<string, Process>, l: seq<Process>): map<string, Process>
    decreases |l|
  {
    if l == [] then m
    else
      var p := l[|l| - 1];
      Merge(m, l[..|l| - 1])[p.typ := p]
  }

  /** The set of types declared in `l`. */
  function TypeSet(l: seq<Process>): set<string>
  {
    set j | 0 <= j < |l| :: l[j].typ
  }

  /** After `add(l)` a type declared in `l` maps to the LAST declaration of it in `l`. */
  lemma {:induction false} MergeLastWins(m: map<string, Process>, l: seq<Process>, j: nat)
    requires j < |l|
    requires forall j' :: j < j' < |l| ==> l[j'].typ != l[j].typ
    ensures l[j].typ in Merge(m, l) && Merge(m, l)[l[j].typ] == l[j]
    decreases |l|
  {
    if j < |l| - 1 {
      MergeLastWins(m, l[..|l| - 1], j);
    }
  }

  /** A type not declared in `l` keeps its entry, or stays absent. */
  lemma {:induction false} MergeUntouched(m: map<string, Process>, l: seq<Process>, k: string)
    requires forall j :: 0 <= j < |l| ==> l[j].typ != k
    ensures k in Merge(m, l) <==> k in m
    ensures k in m ==> Merge(m, l)[k] == m[k]
    decreases |l|
  {
    if l != [] {
      MergeUntouched(m, l[..|l| - 1], k);
    }
  }

  /** The keys afterwards are the old keys plus the declared types: none is removed. */
  lemma {:induction false} MergeKeys(m: map<string, Process>, l: seq<Process>)
    ensures Merge(m, l).Keys == m.Keys + TypeSet(l)
    decreases |l|
  {
    if l != [] {
      var init := l[..|l| - 1];
      MergeKeys(m, init);
      assert TypeSet(l) == TypeSet(init) + {l[|l| - 1].typ} by {
        forall t | t in TypeSet(l) ensures t in TypeSet(init) + {l[|l| - 1].typ} {
          var j :| 0 <= j < |l| && l[j].typ == t;
          if j < |l| - 1 {
            assert init[j].typ == t;
          }
        }
        forall t | t in TypeSet(init) ensures t in TypeSet(l) {
          var j :| 0 <= j < |init| && init[j].typ == t;
          assert l[j].typ == t;
        }
      }
    }
  }

  /** Adding keeps every entry under its own type. */
  lemma {:induction false} MergeKeyedByType(m: map<string, Process>, l: seq<Process>)
    requires KeyedByType(m)
    ensures KeyedByType(Merge(m, l))
    decreases |l|
  {
    if l != [] {
      MergeKeyedByType(m, l[..|l| - 1]);
    }
  }

  /** Adding `a` and then `b` is adding `a + b`: a later call overrides an earlier one. */
  lemma {:induction false} MergeConcat(m: map<string, Process>, a: seq<Process>, b: seq<Process>)
    ensures Merge(m, a + b) == Merge(Merge(m, a), b)
    decreases |b|
  {
    if b == [] {
      assert a + b == a;
    } else {
      var init := b[..|b| - 1];
      assert (a + b)[..|a + b| - 1] == a + init;
      MergeConcat(m, a, init);
    }
  }

  // ---------------------------------------------------------------------------
  // The listing.

  /** The types of `ps`, position by position. */
  function Types(ps: seq<Process>): seq<string>
  {
    seq(|ps|, i requires 0 <= i < |ps| => ps[i].typ)
  }

  /** `ps` lists `m`: every element is the entry stored under its type, every key
      occurs, and the types strictly ascend (so no key occurs twice). */
  predicate IsListingOf(ps: seq<Process>, m: map<string, Process>)
  {
    && (forall i :: 0 <= i < |ps| ==> ps[i].typ in m && m[ps[i].typ] == ps[i])
    && (forall k :: k in m ==> k in Types(ps))
    && StrictlyAscending(Types(ps))
  }

  /** Two strictly ascending sequences with the same elements are equal. */
  lemma {:induction false} StrictlyAscendingUnique(a: seq<string>, b: seq<string>)
    requires StrictlyAscending(a) && StrictlyAscending(b)
    requires forall x :: x in a <==> x in b
    ensures a == b
    decreases |a|
  {
    if a != [] {
      assert a[0] in b;
    }
    if b != [] {
      assert b[0] in a;
    }
    if a != [] {
      if a[0] != b[0] {
        assert a[0] in b;
        assert b[0] in a;
        var i :| 0 <= i < |a| && a[i] == b[0];
        var j :| 0 <= j < |b| && b[j] == a[0];
        assert Less(a[0], b[0]) by {
          if i == 0 {} else {}
        }
        assert Less(b[0], a[0]) by {
          if j == 0 {} else {}
        }
        LessAsymmetric(a[0], b[0]);
      }
      forall x
        ensures x in a[1..] <==> x in b[1..]
      {
        if x in a[1..] {
          var i :| 0 <= i < |a[1..]| && a[1..][i] == x;
          assert Less(a[0], a[i + 1]);
          LessIrreflexive(x);
          assert x in b && x != b[0];
          var j :| 0 <= j < |b| && b[j] == x;
          assert x in b[1..] by {
            assert j > 0 && b[1..][j - 1] == x;
          }
        }
        if x in b[1..] {
          var j :| 0 <= j < |b[1..]| && b[1..][j] == x;
          assert Less(b[0], b[j + 1]);
          LessIrreflexive(x);
          assert x in a && x != a[0];
          var i :| 0 <= i < |a| && a[i] == x;
          assert x in a[1..] by {
            assert i > 0 && a[1..][i - 1] == x;
          }
        }
      }
      StrictlyAscendingUnique(a[1..], b[1..]);
      assert a == [a[0]] + a[1..] && b == [b[0]] + b[1..];
    }
  }

  /** The listing of a registry is determined by it: what `list()` returns is the
      one sequence of its entries ordered by type. */
  lemma ListingUnique(m: map<string, Process>, a: seq<Process>, b: seq<Process>)
    requires IsListingOf(a, m) && IsListingOf(b, m)
    ensures a == b
  {
    forall x
      ensures x in Types(a) <==> x in Types(b)
    {
      if x in Types(a) {
        var i :| 0 <= i < |a| && Types(a)[i] == x;
        assert a[i].typ in m;
      }
      if x in Types(b) {
        var i :| 0 <= i < |b| && Types(b)[i] == x;
        assert b[i].typ in m;
      }
    }
    StrictlyAscendingUnique(Types(a), Types(b));
    forall i | 0 <= i < |a|
      ensures a[i] == b[i]
    {
      assert Types(a)[i] == Types(b)[i];
    }
  }

  /** The registry as the Go code keeps it: a map updated in place. */
  class ProcessMap {
    var entries: map<string, Process>

    ghost predicate Valid()
      reads this
    {
      KeyedByType(entries)
    }

    constructor ()
      ensures Valid() && entries == map[]
    {
      entries := map[];
    }

    /** `add`: every declaration of `l`, in order, stored under its type. */
    method Add(l: seq<Process>)
      requires Valid()
      modifies this
      ensures Valid()
      ensures entries == Merge(old(entries), l)
    {
      for i := 0 to |l|
        invariant entries == Merge(old(entries), l[..i])
      {
        assert l[..i + 1][..i] == l[..i];
        entries := entries[l[i].typ := l[i]];
      }
      assert l[..|l|] == l;
      MergeKeyedByType(old(entries), l);
    }

    /** The first loop of `list`: every key of the map, once each, in the map's
        iteration order (which the model leaves open). */
    method CollectKeys() returns (keys: seq<string>)
      ensures Distinct(keys)
      ensures forall k :: k in keys <==> k in entries
    {
      keys := [];
      var rest := entries.Keys;
      while rest != {}
        invariant rest <= entries.Keys
        invariant forall k :: k in keys <==> k in entries && k !in rest
        invariant Distinct(keys)
        decreases |rest|
      {
        var k :| k in rest;
        keys := keys + [k];
        rest := rest - {k};
      }
    }

    /** `list`: the keys in map order, sorted, then the entry of each key in turn. */
    method List() returns (procs: seq<Process>)
      requires Valid()
      ensures IsListingOf(procs, entries)
    {
      var keys := CollectKeys();
      var sorted := SortStrings(keys);
      SortedKeys(entries, keys);
      procs := [];
      for i := 0 to |sorted|
        invariant |procs| == i
        invariant forall j :: 0 <= j < i ==> procs[j] == entries[sorted[j]]
      {
        procs := procs + [entries[sorted[i]]];
      }
      ListingOfSortedKeys(entries, sorted, procs);
    }
  }

  /** The sorted keys of a map, collected without repetition, are its keys in
      strictly ascending order. */
  lemma SortedKeys(m: map<string, Process>, keys: seq<string>)
    requires Distinct(keys) && forall k :: k in keys <==> k in m
    ensures StrictlyAscending(SortStrings(keys))
    ensures forall k :: k in SortStrings(keys) <==> k in m
  {
    var sorted := SortStrings(keys);
    DistinctPermutation(keys, sorted);
    AscendingDistinct(sorted);
    forall k
      ensures k in sorted <==> k in m
    {
      assert k in sorted <==> k in multiset(sorted);
      assert k in keys <==> k in multiset(keys);
    }
  }

  /** The entries looked up at the sorted keys list the map. */
  lemma ListingOfSortedKeys(m: map<string, Process>, sorted: seq<string>, procs: seq<Process>)
    requires KeyedByType(m)
    requires StrictlyAscending(sorted) && forall k :: k in sorted <==> k in m
    requires |procs| == |sorted| && forall j :: 0 <= j < |procs| ==> procs[j] == m[sorted[j]]
    ensures IsListingOf(procs, m)
  {
    forall j | 0 <= j < |procs|
      ensures procs[j].typ == sorted[j]
    {
      assert sorted[j] in sorted;
    }
    assert Types(procs) == sorted;
  }

  /** The override rule across two buildpacks: `[web:a]` then `[web:b, worker:c]`
      lists as `[web:b, worker:c]`. */
  lemma OverrideExample()
    ensures var m := Merge(Merge(map[], [Process("web", "a")]),
                           [Process("web", "b"), Process("worker", "c")]);
            IsListingOf([Process("web", "b"), Process("worker", "c")], m)
  {
    var first := [Process("web", "a")];
    var second := [Process("web", "b"), Process("worker", "c")];
    var all := first + second;
    var m := Merge(Merge(map[], first), second);
    MergeConcat(map[], first, second);
    assert all[1] == Process("web", "b") && all[2] == Process("worker", "c");
    MergeLastWins(map[], all, 1);
    MergeLastWins(map[], all, 2);
    MergeKeys(map[], all);
    assert TypeSet(all) == {"web", "worker"} by {
      assert all[0].typ == "web";
    }
    assert Types(second) == ["web", "worker"];
    assert Less("web", "worker") by {
      assert "web"[1..] == "eb" && "worker"[1..] == "orker";
    }
  }
}
