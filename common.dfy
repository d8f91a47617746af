/** Small generic helpers shared by the other modules: an Option type and
    the `Array.prototype.filter` of JavaScript over sequences, with the facts
    about it that the section-selection and analyzer proofs rely on. */
module Common {

  datatype Option<T> = None | Some(value: T)

  /** `Math.min` and `Math.max` on whole numbers and on reals. */
  function Min(a: int, b: int): int {
    if a <= b then a else b
  }

  function Max(a: int, b: int): int {
    if a >= b then a else b
  }

  function RealMin(a: real, b: real): real {
    if a <= b then a else b
  }

  /** `xs.filter(p)`: the elements of `s` that satisfy `p`, in their order. */
  function Filter<T>(s: seq<T>, p: T -> bool): (r: seq<T>)
    ensures |r| <= |s|
    ensures forall i :: 0 <= i < |r| ==> p(r[i])
  {
    if s == [] then [] else if p(s[0]) then [s[0]] + Filter(s[1..], p) else Filter(s[1..], p)
  }

  /** `a` is obtained from `b` by deleting elements (relative order kept). */
  predicate IsSubsequence<T(==)>(a: seq<T>, b: seq<T>)
    decreases |b|
  {
    if a == [] then true
    else if b == [] then false
    else if a[0] == b[0] then IsSubsequence(a[1..], b[1..])
    else IsSubsequence(a, b[1..])
  }

  predicate NoDuplicates<T(==)>(s: seq<T>) {
    forall i, j :: 0 <= i < j < |s| ==> s[i] != s[j]
  }

  /** An element survives the filter exactly when it was there and passes `p`. */
  lemma {:induction false} FilterMembership<T>(s: seq<T>, p: T -> bool, x: T)
    ensures x in Filter(s, p) <==> x in s && p(x)
  {
    if s != [] {
      FilterMembership(s[1..], p, x);
      assert s == [s[0]] + s[1..];
    }
  }

  /** Filtering keeps every copy of an element that passes `p` and drops
      every copy of one that fails it. */
  lemma {:induction false} FilterMultiset<T>(s: seq<T>, p: T -> bool, x: T)
    ensures multiset(Filter(s, p))[x] == if p(x) then multiset(s)[x] else 0
  {
    if s != [] {
      FilterMultiset(s[1..], p, x);
      assert s == [s[0]] + s[1..];
    }
  }

  /** Filtering out an element that is present makes the sequence shorter. */
  lemma {:induction false} FilterDropsShorter<T>(s: seq<T>, p: T -> bool, i: nat)
    requires i < |s| && !p(s[i])
    ensures |Filter(s, p)| < |s|
  {
    if i > 0 {
      assert s[1..][i - 1] == s[i];
      FilterDropsShorter(s[1..], p, i - 1);
    }
  }

  /** Filtering keeps relative order: the result is a subsequence of the input. */
  lemma {:induction false} FilterIsSubsequence<T>(s: seq<T>, p: T -> bool)
    ensures IsSubsequence(Filter(s, p), s)
  {
    if s != [] {
      FilterIsSubsequence(s[1..], p);
      if p(s[0]) {
        assert Filter(s, p)[0] == s[0] && Filter(s, p)[1..] == Filter(s[1..], p);
      } else {
        SubsequenceOfTail(Filter(s[1..], p), s);
      }
    }
  }

  lemma {:induction false} SubsequenceOfTail<T>(a: seq<T>, b: seq<T>)
    requires b != [] && IsSubsequence(a, b[1..])
    ensures IsSubsequence(a, b)
    decreases |b|, 0
  {
    if a != [] && a[0] == b[0] {
      SubsequenceDropHead(a, b[1..]);
    }
  }

  lemma {:induction false} SubsequenceDropHead<T>(a: seq<T>, b: seq<T>)
    requires a != [] && IsSubsequence(a, b)
    ensures IsSubsequence(a[1..], b)
    decreases |b|, 1
  {
    if b != [] {
      if a[0] == b[0] {
        if a[1..] != [] {
          SubsequenceOfTail(a[1..], b);
        }
      } else {
        SubsequenceDropHead(a, b[1..]);
        if a[1..] != [] {
          SubsequenceOfTail(a[1..], b);
        }
      }
    }
  }

  /** Filtering twice is filtering once by the conjunction. */
  lemma {:induction false} FilterFilter<T>(s: seq<T>, p: T -> bool, q: T -> bool, both: T -> bool)
    requires forall x :: both(x) == (p(x) && q(x))
    ensures Filter(Filter(s, p), q) == Filter(s, both)
  {
    if s != [] {
      FilterFilter(s[1..], p, q, both);
    }
  }

  /** Filters by pointwise-equal predicates agree. */
  lemma {:induction false} FilterSamePredicate<T>(s: seq<T>, p: T -> bool, q: T -> bool)
    requires forall x :: p(x) == q(x)
    ensures Filter(s, p) == Filter(s, q)
  {
    if s != [] {
      FilterSamePredicate(s[1..], p, q);
    }
  }

  /** Filtering a duplicate-free sequence gives a duplicate-free sequence. */
  lemma {:induction false} FilterNoDuplicates<T>(s: seq<T>, p: T -> bool)
    requires NoDuplicates(s)
    ensures NoDuplicates(Filter(s, p))
  {
    if s != [] {
      assert NoDuplicates(s[1..]) by {
        forall i, j | 0 <= i < j < |s[1..]| ensures s[1..][i] != s[1..][j] {
          assert s[1..][i] == s[i + 1] && s[1..][j] == s[j + 1];
        }
      }
      FilterNoDuplicates(s[1..], p);
      if p(s[0]) {
        FilterMembership(s[1..], p, s[0]);
        assert s[0] !in s[1..];
      }
    }
  }

  /** Filter distributes over concatenation. */
  lemma {:induction false} FilterConcat<T>(a: seq<T>, b: seq<T>, p: T -> bool)
    ensures Filter(a + b, p) == Filter(a, p) + Filter(b, p)
  {
    if a != [] {
      assert (a + b)[1..] == a[1..] + b;
      FilterConcat(a[1..], b, p);
    } else {
      assert a + b == b;
    }
  }

  /** `Array.prototype.sort` with a comparator `(a, b) => key(b) - key(a)`:
      a stable sort by descending key, by insertion. */
  function SortDescending<T>(s: seq<T>, key: T -> int): seq<T> {
    if s == [] then [] else InsertDescending(SortDescending(s[..|s| - 1], key), s[|s| - 1], key)
  }

  /** Inserts `x` after every element whose key is at least its own. */
  function InsertDescending<T>(s: seq<T>, x: T, key: T -> int): seq<T> {
    if s == [] then [x]
    else if key(s[0]) >= key(x) then [s[0]] + InsertDescending(s[1..], x, key)
    else [x] + s
  }

  predicate SortedDescending<T>(s: seq<T>, key: T -> int) {
    forall i, j :: 0 <= i < j < |s| ==> key(s[i]) >= key(s[j])
  }

  function HasKey<T>(key: T -> int, v: int): T -> bool {
    (x: T) => key(x) == v
  }

  lemma SortedTail<T>(s: seq<T>, key: T -> int)
    requires s != [] && SortedDescending(s, key)
    ensures SortedDescending(s[1..], key)
  {
    forall i, j | 0 <= i < j < |s[1..]| ensures key(s[1..][i]) >= key(s[1..][j]) {
      assert s[1..][i] == s[i + 1] && s[1..][j] == s[j + 1];
    }
  }

  lemma {:induction false} InsertMultiset<T>(s: seq<T>, x: T, key: T -> int)
    ensures multiset(InsertDescending(s, x, key)) == multiset(s) + multiset{x}
  {
    if s != [] && key(s[0]) >= key(x) {
      InsertMultiset(s[1..], x, key);
      assert s == [s[0]] + s[1..];
    }
  }

  /** Every key of the list after inserting `x` is at most `bound` when
      `x`'s and the list's keys are. */
  lemma {:induction false} InsertBounded<T>(s: seq<T>, x: T, key: T -> int, bound: int)
    requires key(x) <= bound
    requires forall i :: 0 <= i < |s| ==> key(s[i]) <= bound
    ensures forall i :: 0 <= i < |InsertDescending(s, x, key)| ==> key(InsertDescending(s, x, key)[i]) <= bound
  {
    if s != [] && key(s[0]) >= key(x) {
      InsertBounded(s[1..], x, key, bound);
      var rest := InsertDescending(s[1..], x, key);
      assert forall i :: 0 < i < |rest| + 1 ==> ([s[0]] + rest)[i] == rest[i - 1];
    }
  }

  lemma {:induction false} InsertSorted<T>(s: seq<T>, x: T, key: T -> int)
    requires SortedDescending(s, key)
    ensures SortedDescending(InsertDescending(s, x, key), key)
  {
    if s != [] {
      if key(s[0]) >= key(x) {
        SortedTail(s, key);
        InsertSorted(s[1..], x, key);
        var rest := InsertDescending(s[1..], x, key);
        assert forall i :: 0 <= i < |s[1..]| ==> key(s[1..][i]) <= key(s[0]) by {
          forall i | 0 <= i < |s[1..]| ensures key(s[1..][i]) <= key(s[0]) {
            assert s[1..][i] == s[i + 1];
          }
        }
        InsertBounded(s[1..], x, key, key(s[0]));
        var r := [s[0]] + rest;
        forall i, j | 0 <= i < j < |r| ensures key(r[i]) >= key(r[j]) {
          assert r[j] == rest[j - 1];
          if i > 0 {
            assert r[i] == rest[i - 1];
          }
        }
      } else {
        var r := [x] + s;
        forall i, j | 0 <= i < j < |r| ensures key(r[i]) >= key(r[j]) {
          assert r[j] == s[j - 1];
          if i > 0 {
            assert r[i] == s[i - 1];
          }
        }
      }
    }
  }

  lemma {:induction false} NoneWithKey<T>(s: seq<T>, key: T -> int, v: int)
    requires forall i :: 0 <= i < |s| ==> key(s[i]) < v
    ensures Filter(s, HasKey(key, v)) == []
  {
    if s != [] {
      NoneWithKey(s[1..], key, v);
    }
  }

  /** Inserting into a sorted list puts `x` after every element of its key. */
  lemma {:induction false} InsertStable<T>(s: seq<T>, x: T, key: T -> int, v: int)
    requires SortedDescending(s, key)
    ensures Filter(InsertDescending(s, x, key), HasKey(key, v)) ==
              Filter(s, HasKey(key, v)) + (if key(x) == v then [x] else [])
  {
    if s != [] {
      if key(s[0]) >= key(x) {
        SortedTail(s, key);
        InsertStable(s[1..], x, key, v);
        assert ([s[0]] + InsertDescending(s[1..], x, key))[1..] == InsertDescending(s[1..], x, key);
      } else {
        assert ([x] + s)[1..] == s;
        if key(x) == v {
          NoneWithKey(s, key, v);
        }
      }
    }
  }

  /** The sort returns a permutation ordered by descending key, and it is
      stable: for every key, the elements with that key keep their order. */
  lemma SortDescendingMeaning<T>(s: seq<T>, key: T -> int)
    ensures SortedDescending(SortDescending(s, key), key)
    ensures multiset(SortDescending(s, key)) == multiset(s)
    ensures forall v :: Filter(SortDescending(s, key), HasKey(key, v)) == Filter(s, HasKey(key, v))
  {
    SortDescendingPermutes(s, key);
    SortDescendingStable(s, key);
  }

  /** The ordering and permutation half of `SortDescendingMeaning`. */
  lemma {:induction false} SortDescendingPermutes<T>(s: seq<T>, key: T -> int)
    ensures SortedDescending(SortDescending(s, key), key)
    ensures multiset(SortDescending(s, key)) == multiset(s)
  {
    if s != [] {
      var init := s[..|s| - 1];
      var last := s[|s| - 1];
      SortDescendingPermutes(init, key);
      InsertSorted(SortDescending(init, key), last, key);
      InsertMultiset(SortDescending(init, key), last, key);
      assert s == init + [last];
    }
  }

  /** The stability half of `SortDescendingMeaning`. */
  lemma {:induction false} SortDescendingStable<T>(s: seq<T>, key: T -> int)
    ensures forall v :: Filter(SortDescending(s, key), HasKey(key, v)) == Filter(s, HasKey(key, v))
  {
    if s != [] {
      var init := s[..|s| - 1];
      var last := s[|s| - 1];
      SortDescendingStable(init, key);
      SortDescendingPermutes(init, key);
      assert s == init + [last];
      forall v ensures Filter(SortDescending(s, key), HasKey(key, v)) == Filter(s, HasKey(key, v)) {
        InsertStable(SortDescending(init, key), last, key, v);
        FilterConcat(init, [last], HasKey(key, v));
      }
    }
  }

  /** `if (b) list.push(x)` on the list `acc`. */
  function Push<T>(acc: seq<T>, b: bool, x: T): seq<T> {
    if b then acc + [x] else acc
  }

  /** The elements of `xs` whose flag in `keep` is set, in order: a run of
      `if (condition) list.push(x)` statements over a fixed table. */
  function Select<T>(xs: seq<T>, keep: seq<bool>): (r: seq<T>)
    requires |xs| == |keep|
    ensures |r| <= |xs|
  {
    if xs == [] then []
    else Push(Select(xs[..|xs| - 1], keep[..|keep| - 1]), keep[|keep| - 1], xs[|xs| - 1])
  }

  /** One more `push` of the table's next entry. */
  lemma SelectStep<T>(xs: seq<T>, keep: seq<bool>, k: nat)
    requires |xs| == |keep| && k < |xs|
    ensures Select(xs[..k + 1], keep[..k + 1]) == Push(Select(xs[..k], keep[..k]), keep[k], xs[k])
  {
    assert xs[..k + 1][..k] == xs[..k] && keep[..k + 1][..k] == keep[..k];
  }

  /** The selection from the empty prefix is empty, and from the whole
      table it is the selection itself. */
  lemma SelectEnds<T>(xs: seq<T>, keep: seq<bool>)
    requires |xs| == |keep|
    ensures Select(xs[..0], keep[..0]) == []
    ensures Select(xs[..|xs|], keep[..|keep|]) == Select(xs, keep)
  {
    assert xs[..|xs|] == xs && keep[..|keep|] == keep;
  }

  /** A five-entry selection is five guarded pushes in a row. */
  lemma SelectFive<T>(xs: seq<T>, keep: seq<bool>)
    requires |xs| == 5 && |keep| == 5
    ensures Select(xs, keep) == Push(Push(Push(Push(Push([], keep[0], xs[0]), keep[1], xs[1]), keep[2], xs[2]), keep[3], xs[3]), keep[4], xs[4])
  {
    SelectEnds(xs, keep);
    SelectStep(xs, keep, 0);
    SelectStep(xs, keep, 1);
    SelectStep(xs, keep, 2);
    SelectStep(xs, keep, 3);
    SelectStep(xs, keep, 4);
  }

  /** A six-entry selection is six guarded pushes in a row. */
  lemma SelectSix<T>(xs: seq<T>, keep: seq<bool>)
    requires |xs| == 6 && |keep| == 6
    ensures Select(xs, keep) == Push(Push(Push(Push(Push(Push([], keep[0], xs[0]), keep[1], xs[1]), keep[2], xs[2]), keep[3], xs[3]), keep[4], xs[4]), keep[5], xs[5])
  {
    SelectEnds(xs, keep);
    SelectStep(xs, keep, 0);
    SelectStep(xs, keep, 1);
    SelectStep(xs, keep, 2);
    SelectStep(xs, keep, 3);
    SelectStep(xs, keep, 4);
    SelectStep(xs, keep, 5);
  }

  /** An eight-entry selection is eight guarded pushes in a row. */
  lemma SelectEight<T>(xs: seq<T>, keep: seq<bool>)
    requires |xs| == 8 && |keep| == 8
    ensures Select(xs, keep) == Push(Push(Push(Push(Push(Push(Push(Push([], keep[0], xs[0]), keep[1], xs[1]), keep[2], xs[2]), keep[3], xs[3]), keep[4], xs[4]), keep[5], xs[5]), keep[6], xs[6]), keep[7], xs[7])
  {
    SelectEnds(xs, keep);
    SelectStep(xs, keep, 0);
    SelectStep(xs, keep, 1);
    SelectStep(xs, keep, 2);
    SelectStep(xs, keep, 3);
    SelectStep(xs, keep, 4);
    SelectStep(xs, keep, 5);
    SelectStep(xs, keep, 6);
    SelectStep(xs, keep, 7);
  }

  /** Only table entries whose flag is set are selected. */
  lemma {:induction false} SelectOnlyKept<T>(xs: seq<T>, keep: seq<bool>, y: T)
    requires |xs| == |keep|
    requires y in Select(xs, keep)
    ensures exists i :: 0 <= i < |xs| && keep[i] && xs[i] == y
  {
    var n := |xs| - 1;
    if y in Select(xs[..n], keep[..n]) {
      SelectOnlyKept(xs[..n], keep[..n], y);
      var i :| 0 <= i < n && keep[..n][i] && xs[..n][i] == y;
      assert keep[i] && xs[i] == y;
    } else {
      assert keep[n] && xs[n] == y;
    }
  }

  /** Every table entry whose flag is set is selected. */
  lemma {:induction false} SelectKept<T>(xs: seq<T>, keep: seq<bool>, i: nat)
    requires |xs| == |keep| && i < |xs| && keep[i]
    ensures xs[i] in Select(xs, keep)
  {
    var n := |xs| - 1;
    if i < n {
      assert keep[..n][i] && xs[..n][i] == xs[i];
      SelectKept(xs[..n], keep[..n], i);
    }
  }

  /** Nothing is selected exactly when no flag is set. */
  lemma {:induction false} SelectEmpty<T>(xs: seq<T>, keep: seq<bool>)
    requires |xs| == |keep|
    ensures Select(xs, keep) == [] <==> forall i :: 0 <= i < |keep| ==> !keep[i]
  {
    if xs != [] {
      var n := |xs| - 1;
      SelectEmpty(xs[..n], keep[..n]);
      if forall i :: 0 <= i < |keep| ==> !keep[i] {
        assert forall i :: 0 <= i < n ==> !keep[..n][i];
      }
      if Select(xs, keep) == [] {
        forall i | 0 <= i < |keep| ensures !keep[i] {
          if i < n {
            assert keep[..n][i] == keep[i];
          }
        }
      }
    }
  }

  /** When no two entries that can be selected together agree under `f`, no
      two selected entries do. */
  lemma {:induction false} SelectDistinctBy<T, U>(xs: seq<T>, keep: seq<bool>, f: T -> U)
    requires |xs| == |keep|
    requires forall i, j :: 0 <= i < j < |xs| && keep[i] && keep[j] ==> f(xs[i]) != f(xs[j])
    ensures forall i, j :: 0 <= i < j < |Select(xs, keep)| ==> f(Select(xs, keep)[i]) != f(Select(xs, keep)[j])
  {
    if xs != [] {
      var n := |xs| - 1;
      var init := Select(xs[..n], keep[..n]);
      assert forall i, j :: 0 <= i < j < n && keep[..n][i] && keep[..n][j] ==> f(xs[..n][i]) != f(xs[..n][j]);
      SelectDistinctBy(xs[..n], keep[..n], f);
      if keep[n] {
        var r := init + [xs[n]];
        forall i | 0 <= i < |init| ensures f(init[i]) != f(xs[n]) {
          SelectOnlyKept(xs[..n], keep[..n], init[i]);
          var k :| 0 <= k < n && keep[..n][k] && xs[..n][k] == init[i];
          assert keep[k] && xs[k] == init[i];
        }
        assert forall i :: 0 <= i < |r| ==> r[i] == (if i < |init| then init[i] else xs[n]);
      } else {
        assert Select(xs, keep) == init;
      }
    }
  }
}
