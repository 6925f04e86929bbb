// Stable sorting by a strict weak order: what the library's stable slice sort returns.
module Sorting {
  import opened Wrappers
  import opened Text

  /** `x` goes behind every element of `s` that it does not come strictly before, from the end. */
  function Insert<T>(less: (T, T) -> bool, x: T, s: seq<T>): (r: seq<T>)
    ensures |r| == |s| + 1
  {
    if s == [] then [x]
    else if less(x, s[|s| - 1]) then Insert(less, x, s[..|s| - 1]) + [s[|s| - 1]]
    else s + [x]
  }

  function StableSort<T>(less: (T, T) -> bool, s: seq<T>): (r: seq<T>)
    ensures |r| == |s|
  {
    if s == [] then [] else Insert(less, s[|s| - 1], StableSort(less, s[..|s| - 1]))
  }

  ghost predicate StrictWeakOrder<T(!new)>(less: (T, T) -> bool) {
    && (forall x, y :: less(x, y) ==> !less(y, x))
    && (forall x, y, z :: !less(y, x) && !less(z, y) ==> !less(z, x))
  }

  ghost predicate SortedBy<T>(less: (T, T) -> bool, s: seq<T>) {
    forall i, j :: 0 <= i < j < |s| ==> !less(s[j], s[i])
  }

  lemma {:induction false} InsertKeepsElements<T>(less: (T, T) -> bool, x: T, s: seq<T>)
    ensures multiset(Insert(less, x, s)) == multiset(s) + multiset{x}
  {
    if s != [] && less(x, s[|s| - 1]) {
      InsertKeepsElements(less, x, s[..|s| - 1]);
      assert s == s[..|s| - 1] + [s[|s| - 1]];
    }
  }

  lemma {:induction false} InsertKeepsSorted<T(!new)>(less: (T, T) -> bool, x: T, s: seq<T>)
    requires StrictWeakOrder(less) && SortedBy(less, s)
    ensures SortedBy(less, Insert(less, x, s))
  {
    if s != [] && less(x, s[|s| - 1]) {
      var init, last := s[..|s| - 1], s[|s| - 1];
      var r := Insert(less, x, init);
      InsertKeepsSorted(less, x, init);
      InsertKeepsElements(less, x, init);
      forall i | 0 <= i < |r| ensures !less(last, r[i]) {
        assert r[i] in multiset(r);
        if r[i] != x {
          assert r[i] in multiset(init);
          var j :| 0 <= j < |init| && init[j] == r[i];
          assert s[j] == r[i];
        }
      }
    } else if s != [] {
      forall i | 0 <= i < |s| ensures !less(x, s[i]) {
        assert i < |s| - 1 ==> !less(s[|s| - 1], s[i]);
      }
    }
  }

  lemma {:induction false} StableSortKeepsElements<T>(less: (T, T) -> bool, s: seq<T>)
    ensures multiset(StableSort(less, s)) == multiset(s)
  {
    if s != [] {
      var init := s[..|s| - 1];
      StableSortKeepsElements(less, init);
      InsertKeepsElements(less, s[|s| - 1], StableSort(less, init));
      assert s == init + [s[|s| - 1]];
    }
  }

  /** The sort is a permutation in order. */
  lemma {:induction false} StableSortSorts<T(!new)>(less: (T, T) -> bool, s: seq<T>)
    requires StrictWeakOrder(less)
    ensures SortedBy(less, StableSort(less, s)) && multiset(StableSort(less, s)) == multiset(s)
  {
    StableSortKeepsElements(less, s);
    if s != [] {
      StableSortSorts(less, s[..|s| - 1]);
      InsertKeepsSorted(less, s[|s| - 1], StableSort(less, s[..|s| - 1]));
    }
  }

  /** What sits between the elements that a test selects does not matter to their order. */
  function Select<T>(test: T -> bool, s: seq<T>): seq<T> {
    if s == [] then []
    else Select(test, s[..|s| - 1]) + if test(s[|s| - 1]) then [s[|s| - 1]] else []
  }

  lemma SelectSnoc<T>(test: T -> bool, s: seq<T>, x: T)
    ensures Select(test, s + [x]) == Select(test, s) + if test(x) then [x] else []
  {
    assert (s + [x])[..|s|] == s;
  }

  /** Inserting changes no selection but the ones that pick the inserted element. */
  lemma {:induction false} InsertKeepsTies<T(!new)>(less: (T, T) -> bool, x: T, s: seq<T>, y: T)
    requires StrictWeakOrder(less) && SortedBy(less, s)
    ensures var tie := (z: T) => !less(y, z) && !less(z, y);
            Select(tie, Insert(less, x, s)) == Select(tie, s) + if tie(x) then [x] else []
  {
    var tie := (z: T) => !less(y, z) && !less(z, y);
    if s == [] {
      SelectSnoc(tie, [], x);
      assert [] + [x] == [x];
    } else if less(x, s[|s| - 1]) {
      var init, last := s[..|s| - 1], s[|s| - 1];
      InsertKeepsTies(less, x, init, y);
      SelectSnoc(tie, Insert(less, x, init), last);
      assert !(tie(x) && tie(last));
    } else {
      SelectSnoc(tie, s, x);
    }
  }

  /** Stability: elements that tie keep their order. */
  lemma {:induction false} StableSortIsStable<T(!new)>(less: (T, T) -> bool, s: seq<T>, y: T)
    requires StrictWeakOrder(less)
    ensures var tie := (z: T) => !less(y, z) && !less(z, y); Select(tie, StableSort(less, s)) == Select(tie, s)
  {
    if s != [] {
      var init := s[..|s| - 1];
      StableSortIsStable(less, init, y);
      StableSortSorts(less, init);
      InsertKeepsTies(less, s[|s| - 1], StableSort(less, init), y);
    }
  }

  // Sorting by a string key

  function ByKey<T>(key: T -> string): (T, T) -> bool {
    (x: T, y: T) => Less(key(x), key(y))
  }

  function InOrder<T>(key: T -> string, s: seq<T>): seq<T> {
    StableSort(ByKey(key), s)
  }

  lemma ByKeyIsOrder<T(!new)>(key: T -> string)
    ensures StrictWeakOrder(ByKey(key))
  {
    forall x, y | Less(key(x), key(y)) ensures !Less(key(y), key(x)) { LessAsymmetric(key(x), key(y)); }
    forall x, y, z | !Less(key(y), key(x)) && !Less(key(z), key(y)) ensures !Less(key(z), key(x)) {
      NotLessTransitive(key(x), key(y), key(z));
    }
  }

  /** Not after, on strings. */
  lemma NotLessTransitive(a: string, b: string, c: string)
    requires !Less(b, a) && !Less(c, b)
    ensures !Less(c, a) && (a == c ==> a == b)
  {
    LessTotal(a, b);
    LessTotal(b, c);
    if Less(a, b) && Less(b, c) { LessTransitive(a, b, c); }
    if Less(c, a) { LessTransitive(c, a, if Less(a, b) then b else a); }
    LessIrreflexive(c);
  }

  lemma InOrderMembers<T>(key: T -> string, s: seq<T>, x: T)
    ensures x in InOrder(key, s) <==> x in s
  {
    StableSortKeepsElements(ByKey(key), s);
    assert x in InOrder(key, s) <==> x in multiset(InOrder(key, s));
    assert x in s <==> x in multiset(s);
  }

  /** The last element with key `k` that passes the test. */
  function LastWith<T>(key: T -> string, test: T -> bool, k: string, s: seq<T>): (r: Option<T>)
    ensures r.Some? ==> r.value in s && key(r.value) == k && test(r.value)
    ensures r.None? ==> forall x :: x in s && key(x) == k ==> !test(x)
  {
    if s == [] then None
    else
      assert s == s[..|s| - 1] + [s[|s| - 1]];
      if key(s[|s| - 1]) == k && test(s[|s| - 1]) then Some(s[|s| - 1]) else LastWith(key, test, k, s[..|s| - 1])
  }

  lemma {:induction false} LastAmongSelected<T(!new)>(key: T -> string, test: T -> bool, k: string, s: seq<T>, same: T -> bool)
    requires forall x :: same(x) <==> key(x) == k
    ensures LastWith(key, test, k, Select(same, s)) == LastWith(key, test, k, s)
  {
    if s != [] {
      var init, last := s[..|s| - 1], s[|s| - 1];
      LastAmongSelected(key, test, k, init, same);
      if same(last) { assert (Select(same, init) + [last])[..|Select(same, init)|] == Select(same, init); }
      else { assert Select(same, s) == Select(same, init); }
    }
  }

  /** Sorting keeps which element with a key is the last. */
  lemma LastInOrder<T(!new)>(key: T -> string, test: T -> bool, k: string, s: seq<T>)
    ensures LastWith(key, test, k, InOrder(key, s)) == LastWith(key, test, k, s)
  {
    var first, second := LastWith(key, test, k, s), LastWith(key, test, k, InOrder(key, s));
    if first.Some? || second.Some? {
      var y := if first.Some? then first.value else second.value;
      var less := ByKey(key);
      var same := (z: T) => !less(y, z) && !less(z, y);
      ByKeyIsOrder(key);
      StableSortIsStable(less, s, y);
      forall z ensures same(z) <==> key(z) == k {
        LessTotal(key(y), key(z));
        LessIrreflexive(k);
      }
      LastAmongSelected(key, test, k, s, same);
      LastAmongSelected(key, test, k, InOrder(key, s), same);
    }
  }
}
