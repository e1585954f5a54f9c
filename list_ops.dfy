/**
 * The list transforms the admin and timetable screens apply to their state:
 * `filter` by id, `map` that rewrites the entries with one id, and
 * `[...list, item].sort(cmp)` with a string key (JavaScript's sort is stable).
 */
module ListOps {
  import opened Text
  import opened Opt

  /** The index of the first entry satisfying `p`: what `findOne` returns over a collection in its natural order. */
  function FirstWhere<T>(s: seq<T>, p: T -> bool): (r: Option<nat>)
    ensures r.Some? ==> r.value < |s| && p(s[r.value])
    ensures r.Some? ==> forall j :: 0 <= j < r.value ==> !p(s[j])
    ensures r.None? ==> forall j :: 0 <= j < |s| ==> !p(s[j])
  {
    if s == [] then None
    else if p(s[0]) then Some(0)
    else match FirstWhere(s[1..], p)
      case None => None
      case Some(k) => Some(k + 1)
  }

  /** Number of entries of `s` whose id is `id`. */
  function CountId<T>(s: seq<T>, idOf: T -> int, id: int): nat {
    if s == [] then 0 else (if idOf(s[0]) == id then 1 else 0) + CountId(s[1..], idOf, id)
  }

  /** `s.filter(x => idOf(x) !== id)` */
  function RemoveId<T>(s: seq<T>, idOf: T -> int, id: int): (r: seq<T>)
    ensures |r| + CountId(s, idOf, id) == |s|
    ensures forall i :: 0 <= i < |r| ==> idOf(r[i]) != id
  {
    if s == [] then []
    else (if idOf(s[0]) != id then [s[0]] else []) + RemoveId(s[1..], idOf, id)
  }

  /** What remains are exactly the entries of `s` whose id is not `id`. */
  lemma {:induction false} RemoveIdMembers<T>(s: seq<T>, idOf: T -> int, id: int, x: T)
    ensures x in RemoveId(s, idOf, id) <==> x in s && idOf(x) != id
  {
    if s != [] {
      RemoveIdMembers(s[1..], idOf, id, x);
      assert s == [s[0]] + s[1..];
    }
  }

  /** Removal keeps the relative order of what stays: it distributes over concatenation. */
  lemma {:induction false} RemoveIdAppend<T>(a: seq<T>, b: seq<T>, idOf: T -> int, id: int)
    ensures RemoveId(a + b, idOf, id) == RemoveId(a, idOf, id) + RemoveId(b, idOf, id)
  {
    if a == [] {
      assert a + b == b;
    } else {
      assert (a + b)[0] == a[0] && (a + b)[1..] == a[1..] + b;
      RemoveIdAppend(a[1..], b, idOf, id);
    }
  }

  /** A list with no entry of that id is left exactly as it was. */
  lemma {:induction false} RemoveIdAbsent<T>(s: seq<T>, idOf: T -> int, id: int)
    requires forall i :: 0 <= i < |s| ==> idOf(s[i]) != id
    ensures RemoveId(s, idOf, id) == s
  {
    if s != [] {
      RemoveIdAbsent(s[1..], idOf, id);
    }
  }

  /** `s.map(x => idOf(x) === id ? f(x) : x)`: only the entries with that id change, in place. */
  function MapId<T>(s: seq<T>, idOf: T -> int, id: int, f: T -> T): (r: seq<T>)
    ensures |r| == |s|
    ensures forall i :: 0 <= i < |s| ==> r[i] == if idOf(s[i]) == id then f(s[i]) else s[i]
  {
    if s == [] then []
    else [if idOf(s[0]) == id then f(s[0]) else s[0]] + MapId(s[1..], idOf, id, f)
  }

  predicate SortedBy<T>(s: seq<T>, key: T -> string) {
    forall i, j :: 0 <= i < j < |s| ==> StrLe(key(s[i]), key(s[j]))
  }

  /** The entries of `s` whose key is `k`, in their order in `s`. */
  function WithKey<T>(s: seq<T>, key: T -> string, k: string): seq<T> {
    if s == [] then [] else WithKey(s[..|s| - 1], key, k) + (if key(s[|s| - 1]) == k then [s[|s| - 1]] else [])
  }

  /**
   * `x` placed into the sorted list `s` after every entry whose key is not greater than its own:
   * what a stable sort does with an entry appended at the end.
   */
  function InsertBy<T>(s: seq<T>, x: T, key: T -> string): seq<T> {
    if s == [] then [x]
    else if StrLe(key(s[|s| - 1]), key(x)) then s + [x]
    else InsertBy(s[..|s| - 1], x, key) + [s[|s| - 1]]
  }

  /** Inserting adds exactly `x`. */
  lemma {:induction false} InsertByPermutes<T>(s: seq<T>, x: T, key: T -> string)
    ensures multiset(InsertBy(s, x, key)) == multiset(s) + multiset{x}
  {
    if s != [] && !StrLe(key(s[|s| - 1]), key(x)) {
      var init, last := s[..|s| - 1], s[|s| - 1];
      InsertByPermutes(init, x, key);
      assert s == init + [last];
    }
  }

  /** Stable insertion sort by `key`: the model of `list.sort((a, b) => key(a).localeCompare(key(b)))`. */
  function SortBy<T>(s: seq<T>, key: T -> string): seq<T> {
    if s == [] then []
    else InsertBy(SortBy(s[..|s| - 1], key), s[|s| - 1], key)
  }

  /** Sorting is a permutation. */
  lemma {:induction false} SortByPermutes<T>(s: seq<T>, key: T -> string)
    ensures multiset(SortBy(s, key)) == multiset(s)
    ensures |SortBy(s, key)| == |s|
  {
    if s != [] {
      var init, last := s[..|s| - 1], s[|s| - 1];
      SortByPermutes(init, key);
      InsertByPermutes(SortBy(init, key), last, key);
      assert s == init + [last];
    }
    assert |multiset(SortBy(s, key))| == |multiset(s)|;
  }

  lemma {:induction false} InsertBySorted<T>(s: seq<T>, x: T, key: T -> string)
    requires SortedBy(s, key)
    ensures SortedBy(InsertBy(s, x, key), key)
  {
    if s != [] && !StrLe(key(s[|s| - 1]), key(x)) {
      var init, last := s[..|s| - 1], s[|s| - 1];
      InsertBySorted(init, x, key);
      var r' := InsertBy(init, x, key);
      InsertByPermutes(init, x, key);
      StrLeTotal(key(last), key(x));
      forall i | 0 <= i < |r'|
        ensures StrLe(key(r'[i]), key(last))
      {
        assert r'[i] in multiset(r');
        if r'[i] != x {
          assert r'[i] in multiset(init);
          var j :| 0 <= j < |init| && init[j] == r'[i];
          assert s[j] == init[j];
        }
      }
    } else if s != [] {
      forall i | 0 <= i < |s|
        ensures StrLe(key(s[i]), key(x))
      {
        if i < |s| - 1 {
          StrLeTransitive(key(s[i]), key(s[|s| - 1]), key(x));
        }
      }
    }
  }

  lemma {:induction false} SortBySorted<T>(s: seq<T>, key: T -> string)
    ensures SortedBy(SortBy(s, key), key)
  {
    if s != [] {
      SortBySorted(s[..|s| - 1], key);
      InsertBySorted(SortBy(s[..|s| - 1], key), s[|s| - 1], key);
    }
  }

  lemma {:induction false} WithKeyAppend<T>(a: seq<T>, b: seq<T>, key: T -> string, k: string)
    ensures WithKey(a + b, key, k) == WithKey(a, key, k) + WithKey(b, key, k)
  {
    if b == [] {
      assert a + b == a;
    } else {
      assert (a + b)[..|a + b| - 1] == a + b[..|b| - 1];
      WithKeyAppend(a, b[..|b| - 1], key, k);
    }
  }

  /** Inserting `x` adds it to the end of its own key's run and touches no other run. */
  lemma {:induction false} InsertByStable<T>(s: seq<T>, x: T, key: T -> string, k: string)
    ensures WithKey(InsertBy(s, x, key), key, k) == WithKey(s, key, k) + WithKey([x], key, k)
  {
    if s == [] {
    } else if StrLe(key(s[|s| - 1]), key(x)) {
      WithKeyAppend(s, [x], key, k);
    } else {
      var init, last := s[..|s| - 1], s[|s| - 1];
      InsertByStable(init, x, key, k);
      WithKeyAppend(InsertBy(init, x, key), [last], key, k);
      WithKeyAppend(init, [last], key, k);
      assert s == init + [last];
      StrLeReflexive(key(x));
      var a, wx, wl := WithKey(init, key, k), WithKey([x], key, k), WithKey([last], key, k);
      assert wx == [] || wl == [] by {
        assert key(last) != key(x);
        assert [x][..0] == [] && [last][..0] == [];
      }
      assert (a + wx) + wl == (a + wl) + wx;
    }
  }

  /** Entries with equal keys keep their relative order: the sort is stable. */
  lemma {:induction false} SortByStable<T>(s: seq<T>, key: T -> string, k: string)
    ensures WithKey(SortBy(s, key), key, k) == WithKey(s, key, k)
  {
    if s != [] {
      var init, last := s[..|s| - 1], s[|s| - 1];
      SortByStable(init, key, k);
      InsertByStable(SortBy(init, key), last, key, k);
      WithKeyAppend(init, [last], key, k);
      assert s == init + [last];
    }
  }

  /** Sorting a list that is already in order leaves it as it is. */
  lemma {:induction false} SortByOfSorted<T>(s: seq<T>, key: T -> string)
    requires SortedBy(s, key)
    ensures SortBy(s, key) == s
  {
    if s != [] {
      var init, last := s[..|s| - 1], s[|s| - 1];
      assert SortedBy(init, key) by {
        forall i, j | 0 <= i < j < |init| ensures StrLe(key(init[i]), key(init[j])) {
          assert init[i] == s[i] && init[j] == s[j];
        }
      }
      SortByOfSorted(init, key);
      if init != [] {
        assert StrLe(key(init[|init| - 1]), key(last)) by {
          assert init[|init| - 1] == s[|s| - 2];
        }
      }
      assert init + [last] == s;
    }
  }

  /** `[...s, x].sort(cmp)` is `x` inserted into the sorted `s`. */
  lemma SortByAppend<T>(s: seq<T>, x: T, key: T -> string)
    ensures SortBy(s + [x], key) == InsertBy(SortBy(s, key), x, key)
  {
    assert (s + [x])[..|s + [x]| - 1] == s;
  }

  /** Removing the id of an inserted entry removes that entry again, wherever the insert put it. */
  lemma {:induction false} RemoveIdInsertBy<T>(s: seq<T>, x: T, key: T -> string, idOf: T -> int)
    ensures RemoveId(InsertBy(s, x, key), idOf, idOf(x)) == RemoveId(s, idOf, idOf(x))
  {
    var id := idOf(x);
    if s != [] {
      var init, last := s[..|s| - 1], s[|s| - 1];
      if StrLe(key(last), key(x)) {
        assert InsertBy(s, x, key) == s + [x];
        RemoveIdAppend(s, [x], idOf, id);
        assert RemoveId([x], idOf, id) == [];
      } else {
        var r' := InsertBy(init, x, key);
        assert InsertBy(s, x, key) == r' + [last];
        RemoveIdInsertBy(init, x, key, idOf);
        RemoveIdAppend(r', [last], idOf, id);
        assert s == init + [last];
        RemoveIdAppend(init, [last], idOf, id);
      }
    }
  }

  /** The texts of the entries, joined in order (`forEach` with `message +=`). */
  function JoinMap<T>(s: seq<T>, f: T -> string): string {
    if s == [] then "" else JoinMap(s[..|s| - 1], f) + f(s[|s| - 1])
  }

  lemma {:induction false} JoinMapAppend<T>(a: seq<T>, b: seq<T>, f: T -> string)
    ensures JoinMap(a + b, f) == JoinMap(a, f) + JoinMap(b, f)
  {
    if b == [] {
      assert a + b == a;
    } else {
      var init, last := b[..|b| - 1], b[|b| - 1];
      assert (a + b)[..|a + b| - 1] == a + init;
      JoinMapAppend(a, init, f);
      var x, y, z := JoinMap(a, f), JoinMap(init, f), f(last);
      assert (x + y) + z == x + (y + z);
    }
  }
}
