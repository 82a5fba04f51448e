/** The JavaScript array operations the components rely on: `indexOf`, and
    `[...xs].sort((a, b) => key(b) - key(a))`, the stable sort with a
    descending comparator, as an insertion sort on sequences. */
module Sequences {

  /** `xs.indexOf(x)`: the first position holding `x`, or -1 when there is none. */
  function IndexOf<T(==)>(xs: seq<T>, x: T): (i: int)
    ensures -1 <= i < |xs|
    ensures i >= 0 ==> xs[i] == x && forall j :: 0 <= j < i ==> xs[j] != x
    ensures i == -1 <==> x !in xs
  {
    if xs == [] then -1
    else if xs[0] == x then 0
    else
      var k := IndexOf(xs[1..], x);
      if k == -1 then -1 else k + 1
  }

  /** In a sequence without repetitions, `indexOf` finds an element where it is. */
  lemma IndexOfDistinct<T>(xs: seq<T>, k: int)
    requires 0 <= k < |xs|
    requires forall i, j :: 0 <= i < j < |xs| ==> xs[i] != xs[j]
    ensures IndexOf(xs, xs[k]) == k
  {
  }

  /** Keys never increase along the sequence. */
  predicate SortedDesc<T>(s: seq<T>, key: T -> real) {
    forall i, j :: 0 <= i < j < |s| ==> key(s[i]) >= key(s[j])
  }

  /** Inserts `x` in front of the first element whose key is not larger. */
  function Insert<T>(x: T, s: seq<T>, key: T -> real): (r: seq<T>)
    ensures multiset(r) == multiset(s) + multiset{x}
  {
    if s == [] || key(s[0]) <= key(x) then [x] + s
    else
      assert s == [s[0]] + s[1..];
      [s[0]] + Insert(x, s[1..], key)
  }

  /** Inserting into an ordered sequence keeps it ordered, and no key of the
      result exceeds the larger of the keys of `x` and of the old first element. */
  lemma {:induction false} InsertSorted<T>(x: T, s: seq<T>, key: T -> real)
    requires SortedDesc(s, key)
    ensures SortedDesc(Insert(x, s, key), key)
    ensures s != [] ==> forall i :: 0 <= i < |Insert(x, s, key)| ==>
              key(Insert(x, s, key)[i]) <= key(x) || key(Insert(x, s, key)[i]) <= key(s[0])
  {
    if s != [] && key(s[0]) > key(x) {
      var tail := Insert(x, s[1..], key);
      InsertSorted(x, s[1..], key);
      assert Insert(x, s, key) == [s[0]] + tail;
      if s[1..] == [] {
        assert tail == [x];
      } else {
        assert key(s[1..][0]) <= key(s[0]);
      }
      forall i | 0 <= i < |tail| ensures key(tail[i]) <= key(s[0]) {
      }
    }
  }

  /** The source's sort: the result is ordered by key, non-increasing, and
      holds exactly the elements of `s`, each as often as in `s`. */
  function SortDesc<T>(s: seq<T>, key: T -> real): (r: seq<T>)
    ensures SortedDesc(r, key)
    ensures multiset(r) == multiset(s)
  {
    if s == [] then []
    else
      assert s == [s[0]] + s[1..];
      var rest := SortDesc(s[1..], key);
      InsertSorted(s[0], rest, key);
      Insert(s[0], rest, key)
  }

  /** A sequence that is already in order is returned as it is. */
  lemma {:induction false} SortSorted<T>(s: seq<T>, key: T -> real)
    requires SortedDesc(s, key)
    ensures SortDesc(s, key) == s
  {
    if s != [] {
      SortSorted(s[1..], key);
      assert s == [s[0]] + s[1..];
    }
  }
}
