/**
 * Stable descending sort by a real-valued key, the behaviour of Python's
 * `list.sort(key=…, reverse=True)` and `sorted(…, key=…, reverse=True)`:
 * keys non-increasing, and elements with equal keys in their input order.
 */
module Ranking {
  import opened Slices

  /** Every element of `s` lies in the domain of `key`. */
  ghost predicate KeyDefined<T>(s: seq<T>, key: T --> real) {
    forall x | x in s :: key.requires(x)
  }

  /** Keys are non-increasing along `s`. */
  ghost predicate SortedDesc<T>(s: seq<T>, key: T --> real)
    requires KeyDefined(s, key)
  {
    forall i, j | 0 <= i < j < |s| :: key(s[i]) >= key(s[j])
  }

  /** The elements of `s` whose key is `k`, in their order in `s`. */
  ghost function KeyClass<T>(s: seq<T>, key: T --> real, k: real): seq<T>
    requires KeyDefined(s, key)
  {
    if s == [] then []
    else (if key(s[0]) == k then [s[0]] else []) + KeyClass(s[1..], key, k)
  }

  /** `t` is `s` reordered by a stable sort: every key class keeps its order. */
  ghost predicate StableReorder<T>(t: seq<T>, s: seq<T>, key: T --> real)
    requires KeyDefined(t, key) && KeyDefined(s, key)
  {
    forall k :: KeyClass(t, key, k) == KeyClass(s, key, k)
  }

  /**
   * Inserts `x` in front of the first element whose key is not greater than
   * its own; placed ahead of its equals, it keeps an earlier input position.
   */
  function Insert<T>(x: T, s: seq<T>, key: T --> real): (r: seq<T>)
    requires key.requires(x) && KeyDefined(s, key)
    ensures multiset(r) == multiset(s) + multiset{x}
    ensures KeyDefined(r, key)
  {
    if s == [] then [x]
    else if key(x) >= key(s[0]) then [x] + s
    else
      assert s == [s[0]] + s[1..];
      [s[0]] + Insert(x, s[1..], key)
  }

  /** The reference stable descending sort (insertion sort from the back). */
  function SortDesc<T>(s: seq<T>, key: T --> real): (r: seq<T>)
    requires KeyDefined(s, key)
    ensures multiset(r) == multiset(s)
    ensures |r| == |s|
    ensures KeyDefined(r, key)
  {
    if s == [] then []
    else
      assert s == [s[0]] + s[1..];
      Insert(s[0], SortDesc(s[1..], key), key)
  }

  /** Every element of `Insert(x, s, key)` is `x` or an element of `s`. */
  lemma InsertMembers<T>(x: T, s: seq<T>, key: T --> real, y: T)
    requires key.requires(x) && KeyDefined(s, key)
    requires y in Insert(x, s, key)
    ensures y == x || y in s
  {
    var r := Insert(x, s, key);
    assert y in multiset(r);
  }

  lemma {:induction false} InsertSorted<T>(x: T, s: seq<T>, key: T --> real)
    requires key.requires(x) && KeyDefined(s, key) && SortedDesc(s, key)
    ensures SortedDesc(Insert(x, s, key), key)
    decreases |s|
  {
    if s == [] {
    } else if key(x) >= key(s[0]) {
      var r := [x] + s;
      assert Insert(x, s, key) == r;
      forall i, j | 0 <= i < j < |r| ensures key(r[i]) >= key(r[j]) {
        assert r[j] == s[j - 1];
        if i > 0 {
          assert r[i] == s[i - 1];
        } else {
          assert s[0] in s && s[j - 1] in s;
        }
      }
    } else {
      var tail := s[1..];
      assert SortedDesc(tail, key) by {
        forall i, j | 0 <= i < j < |tail| ensures key(tail[i]) >= key(tail[j]) {
          assert tail[i] == s[i + 1] && tail[j] == s[j + 1];
        }
      }
      var rest := Insert(x, tail, key);
      InsertSorted(x, tail, key);
      var r := [s[0]] + rest;
      assert Insert(x, s, key) == r;
      forall j | 0 <= j < |rest| ensures key(s[0]) >= key(rest[j]) {
        assert rest[j] in rest;
        InsertMembers(x, tail, key, rest[j]);
        if rest[j] != x {
          var m :| 0 <= m < |tail| && tail[m] == rest[j];
          assert s[m + 1] == rest[j];
        }
      }
      forall i, j | 0 <= i < j < |r| ensures key(r[i]) >= key(r[j]) {
        assert r[j] == rest[j - 1];
        if i > 0 {
          assert r[i] == rest[i - 1];
        }
      }
    }
  }

  /** The reference sort orders keys non-increasingly. */
  lemma {:induction false} SortDescSorted<T>(s: seq<T>, key: T --> real)
    requires KeyDefined(s, key)
    ensures SortedDesc(SortDesc(s, key), key)
  {
    if s != [] {
      SortDescSorted(s[1..], key);
      InsertSorted(s[0], SortDesc(s[1..], key), key);
    }
  }

  lemma KeyClassCons<T>(x: T, s: seq<T>, key: T --> real, k: real)
    requires key.requires(x) && KeyDefined(s, key)
    ensures KeyClass([x] + s, key, k) == (if key(x) == k then [x] else []) + KeyClass(s, key, k)
  {
    assert ([x] + s)[0] == x;
    assert ([x] + s)[1..] == s;
  }

  lemma SortedTail<T>(s: seq<T>, key: T --> real)
    requires s != [] && KeyDefined(s, key) && SortedDesc(s, key)
    ensures KeyDefined(s[1..], key) && SortedDesc(s[1..], key)
  {
    forall i, j | 0 <= i < j < |s[1..]| ensures key(s[1..][i]) >= key(s[1..][j]) {
      assert s[1..][i] == s[i + 1] && s[1..][j] == s[j + 1];
    }
  }

  /** Two elements with different keys commute as far as every key class is concerned. */
  lemma SwapDistinctKeys<T>(x: T, y: T, s: seq<T>, key: T --> real, k: real)
    requires key.requires(x) && key.requires(y) && KeyDefined(s, key) && key(x) != key(y)
    ensures KeyClass([y] + ([x] + s), key, k) == KeyClass([x] + ([y] + s), key, k)
  {
    var hx := if key(x) == k then [x] else [];
    var hy := if key(y) == k then [y] else [];
    assert hy + hx == hx + hy;
    KeyClassCons(x, s, key, k);
    KeyClassCons(y, s, key, k);
    KeyClassCons(y, [x] + s, key, k);
    KeyClassCons(x, [y] + s, key, k);
  }

  lemma {:induction false} InsertStable<T>(x: T, s: seq<T>, key: T --> real, k: real)
    requires key.requires(x) && KeyDefined(s, key) && SortedDesc(s, key)
    ensures KeyClass(Insert(x, s, key), key, k) == KeyClass([x] + s, key, k)
    decreases |s|
  {
    if s != [] && key(x) < key(s[0]) {
      var head, rest := s[0], s[1..];
      SortedTail(s, key);
      var inserted := Insert(x, rest, key);
      assert Insert(x, s, key) == [head] + inserted;
      calc {
        KeyClass([head] + inserted, key, k);
        { KeyClassCons(head, inserted, key, k); InsertStable(x, rest, key, k); KeyClassCons(head, [x] + rest, key, k); }
        KeyClass([head] + ([x] + rest), key, k);
        { SwapDistinctKeys(x, head, rest, key, k); }
        KeyClass([x] + ([head] + rest), key, k);
        { assert [head] + rest == s; }
        KeyClass([x] + s, key, k);
      }
    }
  }

  /** The reference sort is stable: every key class keeps its input order. */
  lemma {:induction false} SortDescStable<T>(s: seq<T>, key: T --> real)
    requires KeyDefined(s, key)
    ensures StableReorder(SortDesc(s, key), s, key)
  {
    if s != [] {
      SortDescStable(s[1..], key);
      var sorted := SortDesc(s[1..], key);
      SortDescSorted(s[1..], key);
      assert s == [s[0]] + s[1..];
      forall k ensures KeyClass(SortDesc(s, key), key, k) == KeyClass(s, key, k) {
        InsertStable(s[0], sorted, key, k);
        KeyClassCons(s[0], sorted, key, k);
        KeyClassCons(s[0], s[1..], key, k);
      }
    }
  }

  lemma {:induction false} KeyClassMember<T>(x: T, s: seq<T>, key: T --> real)
    requires KeyDefined(s, key) && x in s
    ensures x in KeyClass(s, key, key(x))
  {
    if s[0] != x {
      assert s == [s[0]] + s[1..];
      KeyClassMember(x, s[1..], key);
    }
  }

  lemma {:induction false} KeyClassSub<T>(x: T, s: seq<T>, key: T --> real, k: real)
    requires KeyDefined(s, key) && x in KeyClass(s, key, k)
    ensures x in s
  {
    if s[0] != x {
      KeyClassSub(x, s[1..], key, k);
    }
  }

  /**
   * A stable descending order is unique: two sequences that are both sorted
   * and have the same key classes are equal.
   */
  lemma {:induction false} SortedStableUnique<T>(t: seq<T>, u: seq<T>, key: T --> real)
    requires KeyDefined(t, key) && KeyDefined(u, key)
    requires SortedDesc(t, key) && SortedDesc(u, key)
    requires StableReorder(t, u, key)
    ensures t == u
    decreases |t|
  {
    // The key class of a first element is not empty, so neither side can be.
    if t != [] {
      KeyClassMember(t[0], t, key);
    }
    if u != [] {
      KeyClassMember(u[0], u, key);
    }
    if t == [] || u == [] {
    } else {
      var a, b := t[0], u[0];
      KeyClassMember(a, t, key);
      KeyClassSub(a, u, key, key(a));
      KeyClassMember(b, u, key);
      KeyClassSub(b, t, key, key(b));
      var ia :| 0 <= ia < |u| && u[ia] == a;
      var ib :| 0 <= ib < |t| && t[ib] == b;
      assert key(b) >= key(a) by { if ia > 0 { } }
      assert key(a) >= key(b) by { if ib > 0 { } }
      var k0 := key(a);
      assert KeyClass(t, key, k0) == [a] + KeyClass(t[1..], key, k0);
      assert KeyClass(u, key, k0) == [b] + KeyClass(u[1..], key, k0);
      assert a == b by {
        assert KeyClass(t, key, k0)[0] == a;
      }
      forall k ensures KeyClass(t[1..], key, k) == KeyClass(u[1..], key, k) {
        var h := if key(a) == k then [a] else [];
        assert t == [a] + t[1..] && u == [a] + u[1..];
        KeyClassCons(a, t[1..], key, k);
        KeyClassCons(a, u[1..], key, k);
        assert h + KeyClass(t[1..], key, k) == h + KeyClass(u[1..], key, k);
        assert (h + KeyClass(t[1..], key, k))[|h|..] == KeyClass(t[1..], key, k);
        assert (h + KeyClass(u[1..], key, k))[|h|..] == KeyClass(u[1..], key, k);
      }
      SortedTail(t, key);
      SortedTail(u, key);
      SortedStableUnique(t[1..], u[1..], key);
      assert t == [a] + t[1..] && u == [b] + u[1..];
    }
  }

  /**
   * Any stable descending sort of `s` (Python's among them) yields exactly
   * `SortDesc(s, key)`.
   */
  lemma StableSortIsSortDesc<T>(s: seq<T>, t: seq<T>, key: T --> real)
    requires KeyDefined(s, key) && KeyDefined(t, key)
    requires SortedDesc(t, key) && StableReorder(t, s, key)
    ensures t == SortDesc(s, key)
  {
    SortDescSorted(s, key);
    SortDescStable(s, key);
    SortedStableUnique(t, SortDesc(s, key), key);
  }

  /** In a sorted sequence every key in the first `n` is at least every key after them. */
  lemma PrefixDominates<T>(s: seq<T>, key: T --> real, n: nat)
    requires KeyDefined(s, key) && SortedDesc(s, key)
    ensures forall i, j | 0 <= i < |Prefix(s, n)| <= j < |s| :: key(s[i]) >= key(s[j])
  {
  }
}
