/** The comparator sorts of the web app (`[...xs].sort(cmp)`), where `cmp` compares one key per element
    and returns -1, 1 or 0. `Array.prototype.sort` is stable, so the result is the unique permutation
    that is ordered by the key and keeps elements with equal keys in input order. The model computes it
    by insertion sort and proves those three properties. */
module Sorting {
  import opened Strings
  import opened Seqs

  /** A comparable cell value: a number (money, counts and timestamps) or a string. */
  datatype Key = Num(n: real) | Str(s: string)

  /** JavaScript `<` on two keys of the same kind; numbers are placed before strings. */
  predicate KeyLt(a: Key, b: Key) {
    match (a, b)
    case (Num(x), Num(y)) => x < y
    case (Str(x), Str(y)) => StrLt(x, y)
    case (Num(_), Str(_)) => true
    case (Str(_), Num(_)) => false
  }

  lemma {:induction false} KeyLtIrreflexive(a: Key)
    ensures !KeyLt(a, a)
  {
    if a.Str? { StrLtIrreflexive(a.s); }
  }

  lemma {:induction false} KeyLtTransitive(a: Key, b: Key, c: Key)
    requires KeyLt(a, b) && KeyLt(b, c)
    ensures KeyLt(a, c)
  {
    if a.Str? && b.Str? && c.Str? { StrLtTransitive(a.s, b.s, c.s); }
  }

  lemma {:induction false} KeyLtTotal(a: Key, b: Key)
    requires a != b
    ensures KeyLt(a, b) || KeyLt(b, a)
  {
    if a.Str? && b.Str? { StrLtTotal(a.s, b.s); }
  }

  /** `x` sorts strictly before `y`: the comparator returns -1 for (x, y). */
  predicate Before<T>(key: T -> Key, desc: bool, x: T, y: T) {
    if desc then KeyLt(key(y), key(x)) else KeyLt(key(x), key(y))
  }

  lemma {:induction false} BeforeAsymmetric<T>(key: T -> Key, desc: bool, x: T, y: T)
    requires Before(key, desc, x, y)
    ensures !Before(key, desc, y, x)
  {
    if Before(key, desc, y, x) {
      KeyLtTransitive(key(x), key(y), key(x));
      KeyLtIrreflexive(key(x));
    }
  }

  lemma {:induction false} KeyNotLtTransitive(a: Key, b: Key, c: Key)
    requires !KeyLt(b, a) && !KeyLt(c, b)
    ensures !KeyLt(c, a)
  {
    if a != b && b != c {
      KeyLtTotal(a, b);
      KeyLtTotal(b, c);
      KeyLtTransitive(a, b, c);
      if KeyLt(c, a) {
        KeyLtTransitive(a, c, a);
        KeyLtIrreflexive(a);
      }
    }
  }

  /** Neither-before is transitive: the comparator is a strict weak order. */
  lemma {:induction false} NotBeforeTransitive<T>(key: T -> Key, desc: bool, x: T, y: T, z: T)
    requires !Before(key, desc, y, x) && !Before(key, desc, z, y)
    ensures !Before(key, desc, z, x)
  {
    if desc { KeyNotLtTransitive(key(z), key(y), key(x)); }
    else { KeyNotLtTransitive(key(x), key(y), key(z)); }
  }

  lemma {:induction false} BeforeMeansDifferentKeys<T>(key: T -> Key, desc: bool, x: T, y: T)
    requires Before(key, desc, x, y)
    ensures key(x) != key(y)
  {
    if key(x) == key(y) { KeyLtIrreflexive(key(x)); }
  }

  predicate SortedBy<T>(s: seq<T>, key: T -> Key, desc: bool) {
    forall i, j :: 0 <= i < j < |s| ==> !Before(key, desc, s[j], s[i])
  }

  /** Inserts `x` in front of the first element that does not sort strictly before it. */
  function Insert<T>(x: T, t: seq<T>, key: T -> Key, desc: bool): (r: seq<T>)
    ensures |r| == |t| + 1
    decreases |t|
  {
    if t == [] then [x]
    else if Before(key, desc, t[0], x) then [t[0]] + Insert(x, t[1..], key, desc)
    else [x] + t
  }

  function SortBy<T>(s: seq<T>, key: T -> Key, desc: bool): (r: seq<T>)
    ensures |r| == |s|
    decreases |s|
  {
    if s == [] then [] else Insert(s[0], SortBy(s[1..], key, desc), key, desc)
  }

  lemma {:induction false} InsertMultiset<T>(x: T, t: seq<T>, key: T -> Key, desc: bool)
    ensures multiset(Insert(x, t, key, desc)) == multiset([x] + t)
    decreases |t|
  {
    if t != [] && Before(key, desc, t[0], x) {
      InsertMultiset(x, t[1..], key, desc);
      assert t == [t[0]] + t[1..];
    }
  }

  /** The sort returns a permutation of its input. */
  lemma {:induction false} SortByPermutation<T>(s: seq<T>, key: T -> Key, desc: bool)
    ensures multiset(SortBy(s, key, desc)) == multiset(s)
    decreases |s|
  {
    if s != [] {
      SortByPermutation(s[1..], key, desc);
      InsertMultiset(s[0], SortBy(s[1..], key, desc), key, desc);
      assert s == [s[0]] + s[1..];
    }
  }

  lemma {:induction false} InsertElements<T>(x: T, t: seq<T>, key: T -> Key, desc: bool, k: nat)
    requires k < |t| + 1
    ensures Insert(x, t, key, desc)[k] == x || Insert(x, t, key, desc)[k] in t
    decreases |t|
  {
    if t != [] && Before(key, desc, t[0], x) && k > 0 {
      InsertElements(x, t[1..], key, desc, k - 1);
    }
  }

  lemma {:induction false} InsertSorted<T>(x: T, t: seq<T>, key: T -> Key, desc: bool)
    requires SortedBy(t, key, desc)
    ensures SortedBy(Insert(x, t, key, desc), key, desc)
    decreases |t|
  {
    var r := Insert(x, t, key, desc);
    if t == [] {
    } else if Before(key, desc, t[0], x) {
      InsertSorted(x, t[1..], key, desc);
      forall j | 0 < j < |r| ensures !Before(key, desc, r[j], r[0]) {
        InsertElements(x, t[1..], key, desc, j - 1);
        assert r[j] == Insert(x, t[1..], key, desc)[j - 1];
        if r[j] == x {
          BeforeAsymmetric(key, desc, t[0], x);
        } else {
          var m :| 0 <= m < |t[1..]| && t[1..][m] == r[j];
          assert t[m + 1] == r[j];
        }
      }
    } else {
      forall i, j | 0 <= i < j < |r| ensures !Before(key, desc, r[j], r[i]) {
        if i == 0 && j > 1 {
          NotBeforeTransitive(key, desc, x, t[0], t[j - 1]);
        }
      }
    }
  }

  /** The sort result is ordered: no element sorts strictly before an earlier one. */
  lemma {:induction false} SortBySorted<T>(s: seq<T>, key: T -> Key, desc: bool)
    ensures SortedBy(SortBy(s, key, desc), key, desc)
    decreases |s|
  {
    if s != [] {
      SortBySorted(s[1..], key, desc);
      InsertSorted(s[0], SortBy(s[1..], key, desc), key, desc);
    }
  }

  /** The elements of `s` whose key is `k`, in order. */
  function WithKey<T>(s: seq<T>, key: T -> Key, k: Key): seq<T> {
    Filter(s, x => key(x) == k)
  }

  lemma {:induction false} InsertStable<T>(x: T, t: seq<T>, key: T -> Key, desc: bool, k: Key)
    ensures WithKey(Insert(x, t, key, desc), key, k) == WithKey([x] + t, key, k)
    decreases |t|
  {
    if t != [] && Before(key, desc, t[0], x) {
      InsertStable(x, t[1..], key, desc, k);
      BeforeMeansDifferentKeys(key, desc, t[0], x);
      var p := (y: T) => key(y) == k;
      assert t == [t[0]] + t[1..];
      FilterConcat([t[0]], Insert(x, t[1..], key, desc), p);
      FilterConcat([x], t[1..], p);
      FilterConcat([x], t, p);
      FilterConcat([t[0]], t[1..], p);
    }
  }

  /** Stability: among elements with equal keys, the input order is kept. */
  lemma {:induction false} SortByStable<T>(s: seq<T>, key: T -> Key, desc: bool, k: Key)
    ensures WithKey(SortBy(s, key, desc), key, k) == WithKey(s, key, k)
    decreases |s|
  {
    if s != [] {
      SortByStable(s[1..], key, desc, k);
      InsertStable(s[0], SortBy(s[1..], key, desc), key, desc, k);
      var p := (y: T) => key(y) == k;
      FilterConcat([s[0]], SortBy(s[1..], key, desc), p);
      FilterConcat([s[0]], s[1..], p);
      assert s == [s[0]] + s[1..];
    }
  }

  /** When no element sorts before another (a comparator that always returns 0), the order is kept. */
  lemma {:induction false} SortByNoneBefore<T>(s: seq<T>, key: T -> Key, desc: bool)
    requires forall i, j :: 0 <= i < |s| && 0 <= j < |s| ==> !Before(key, desc, s[i], s[j])
    ensures SortBy(s, key, desc) == s
    decreases |s|
  {
    if s != [] {
      SortByNoneBefore(s[1..], key, desc);
      assert SortBy(s[1..], key, desc) == s[1..];
      if |s| > 1 { assert !Before(key, desc, s[1], s[0]); }
    }
  }

  /** A constant key (an unknown sort field) leaves the order unchanged. */
  lemma {:induction false} SortByConstantKey<T>(s: seq<T>, key: T -> Key, desc: bool, c: Key)
    requires forall x :: key(x) == c
    ensures SortBy(s, key, desc) == s
  {
    KeyLtIrreflexive(c);
    SortByNoneBefore(s, key, desc);
  }

  /** The sort depends only on the keys, not on how the key function is written. */
  lemma {:induction false} SortByKeyExtensional<T>(s: seq<T>, k1: T -> Key, k2: T -> Key, desc: bool)
    requires forall x :: k1(x) == k2(x)
    ensures SortBy(s, k1, desc) == SortBy(s, k2, desc)
    decreases |s|
  {
    if s != [] {
      SortByKeyExtensional(s[1..], k1, k2, desc);
      InsertKeyExtensional(s[0], SortBy(s[1..], k1, desc), k1, k2, desc);
    }
  }

  lemma {:induction false} InsertKeyExtensional<T>(x: T, t: seq<T>, k1: T -> Key, k2: T -> Key, desc: bool)
    requires forall y :: k1(y) == k2(y)
    ensures Insert(x, t, k1, desc) == Insert(x, t, k2, desc)
    decreases |t|
  {
    if t != [] { InsertKeyExtensional(x, t[1..], k1, k2, desc); }
  }
}
