/**
 * Values and sequence operations shared by the whole model: optional values,
 * results of calls that may throw, the UI banner message, and the array
 * operations the TypeScript code relies on (`filter`, `length` of a filter,
 * the stable `sort` of ECMAScript 2019).
 */
module Common {

  datatype Option<+T> = None | Some(value: T)

  /** The outcome of a call that may throw: its value, or what was thrown. */
  datatype Result<+T, +E> = Ok(value: T) | Failure(error: E)

  /** What a `catch` clause receives: an `Error` with a message, or anything else. */
  datatype Thrown = ErrorWithMessage(message: string) | NonError

  /** `error instanceof Error ? error.message : fallback` */
  function ErrorText(t: Thrown, fallback: string): string
  {
    match t
    case ErrorWithMessage(m) => m
    case NonError => fallback
  }

  datatype MessageKind = Success | Error

  /** The transient banner `{ type, text }` that the pages keep in state. */
  datatype Message = Message(kind: MessageKind, text: string)

  /** `Math.max(a, b)` on integers. */
  function Max(a: int, b: int): (r: int)
    ensures r >= a && r >= b
    ensures r == a || r == b
  {
    if a >= b then a else b
  }

  function Min(a: int, b: int): (r: int)
    ensures r <= a && r <= b
    ensures r == a || r == b
  {
    if a <= b then a else b
  }

  /** `s.filter(keep)`: the elements that satisfy `keep`, in their original order. */
  function Filter<T(!new)>(s: seq<T>, keep: T -> bool): (r: seq<T>)
    ensures |r| <= |s|
    ensures forall x :: x in r <==> x in s && keep(x)
    ensures forall k :: 0 <= k < |r| ==> keep(r[k])
  {
    if s == [] then []
    else (if keep(s[0]) then [s[0]] else []) + Filter(s[1..], keep)
  }

  /** `s.filter(keep).length` */
  function Count<T(!new)>(s: seq<T>, keep: T -> bool): nat
  {
    |Filter(s, keep)|
  }

  /** `a` is `b` with some elements left out, the others kept in order. */
  predicate Subsequence<T(==)>(a: seq<T>, b: seq<T>)
    decreases |b|
  {
    if a == [] then true
    else if b == [] then false
    else if a[0] == b[0] then Subsequence(a[1..], b[1..])
    else Subsequence(a, b[1..])
  }

  lemma {:induction false} SubsequenceOfItself<T>(s: seq<T>)
    ensures Subsequence(s, s)
    decreases |s|
  {
    if s != [] {
      SubsequenceOfItself(s[1..]);
    }
  }

  lemma {:induction false} FilterIsSubsequence<T(!new)>(s: seq<T>, keep: T -> bool)
    ensures Subsequence(Filter(s, keep), s)
    decreases |s|
  {
    if s != [] {
      FilterIsSubsequence(s[1..], keep);
      var rest := Filter(s[1..], keep);
      if keep(s[0]) {
        assert Filter(s, keep) == [s[0]] + rest;
        assert ([s[0]] + rest)[1..] == rest;
      } else {
        assert Filter(s, keep) == rest;
        if rest != [] {
          assert Subsequence(rest, s[1..]);
        }
      }
    }
  }

  /** Keeping what one filter kept and the other dropped accounts for every element. */
  lemma {:induction false} FilterSplit<T(!new)>(s: seq<T>, keep: T -> bool, other: T -> bool)
    requires forall x :: x in s ==> (other(x) <==> !keep(x))
    ensures |Filter(s, keep)| + |Filter(s, other)| == |s|
    ensures multiset(Filter(s, keep)) + multiset(Filter(s, other)) == multiset(s)
    decreases |s|
  {
    if s != [] {
      FilterSplit(s[1..], keep, other);
      assert s == [s[0]] + s[1..];
      assert multiset(s) == multiset{s[0]} + multiset(s[1..]);
    }
  }

  /** Three predicates that classify every element exactly once count up to the whole. */
  lemma {:induction false} CountThreeWay<T(!new)>(s: seq<T>, a: T -> bool, b: T -> bool, c: T -> bool)
    requires forall x :: x in s ==> (a(x) || b(x) || c(x))
    requires forall x :: x in s ==> !(a(x) && b(x)) && !(a(x) && c(x)) && !(b(x) && c(x))
    ensures Count(s, a) + Count(s, b) + Count(s, c) == |s|
    decreases |s|
  {
    if s != [] {
      CountThreeWay(s[1..], a, b, c);
    }
  }

  /** Filtering twice keeps what both predicates keep. */
  lemma {:induction false} FilterFilter<T(!new)>(s: seq<T>, p: T -> bool, q: T -> bool, both: T -> bool)
    requires forall x :: x in s ==> (both(x) <==> p(x) && q(x))
    ensures Filter(Filter(s, p), q) == Filter(s, both)
    decreases |s|
  {
    if s != [] {
      var x, tail := s[0], s[1..];
      assert x in s;
      assert forall y :: y in tail ==> y in s;
      FilterFilter(tail, p, q, both);
      var rest := Filter(tail, p);
      assert Filter(s, both) == (if both(x) then [x] else []) + Filter(tail, both);
      if p(x) {
        assert Filter(s, p) == [x] + rest;
        assert ([x] + rest)[1..] == rest;
        assert Filter([x] + rest, q) == (if q(x) then [x] else []) + Filter(rest, q);
      } else {
        assert Filter(s, p) == rest;
      }
    }
  }

  lemma {:induction false} FilterKeepsAll<T(!new)>(s: seq<T>, keep: T -> bool)
    requires forall x :: x in s ==> keep(x)
    ensures Filter(s, keep) == s
    decreases |s|
  {
    if s != [] {
      FilterKeepsAll(s[1..], keep);
      assert s == [s[0]] + s[1..];
    }
  }

  /** Filtering one more element at the end adds it at the end when it is kept. */
  lemma {:induction false} FilterAppend<T(!new)>(s: seq<T>, x: T, keep: T -> bool)
    ensures Filter(s + [x], keep) == Filter(s, keep) + (if keep(x) then [x] else [])
  {
    FilterConcat(s, [x], keep);
    assert Filter([x], keep) == (if keep(x) then [x] else []) + Filter([], keep) by {
      assert [x][1..] == [];
    }
  }

  /** Filtering a concatenation filters each part. */
  lemma {:induction false} FilterConcat<T(!new)>(a: seq<T>, b: seq<T>, keep: T -> bool)
    ensures Filter(a + b, keep) == Filter(a, keep) + Filter(b, keep)
    decreases |a|
  {
    if a == [] {
      assert [] + b == b;
    } else {
      var head := if keep(a[0]) then [a[0]] else [];
      calc {
        Filter(a + b, keep);
        { assert (a + b)[0] == a[0] && (a + b)[1..] == a[1..] + b; }
        head + Filter(a[1..] + b, keep);
        { FilterConcat(a[1..], b, keep); }
        head + (Filter(a[1..], keep) + Filter(b, keep));
        (head + Filter(a[1..], keep)) + Filter(b, keep);
      }
    }
  }

  /** Replacing one element changes a count by what the old and new elements contribute. */
  lemma {:induction false} CountUpdate<T(!new)>(s: seq<T>, i: nat, x: T, keep: T -> bool)
    requires i < |s|
    ensures Count(s[i := x], keep) + (if keep(s[i]) then 1 else 0)
            == Count(s, keep) + (if keep(x) then 1 else 0)
    decreases |s|
  {
    if i == 0 {
      assert s[i := x][1..] == s[1..];
    } else {
      CountUpdate(s[1..], i - 1, x, keep);
      assert s[i := x][1..] == s[1..][i - 1 := x];
    }
  }

  /** Keys never decrease from left to right. */
  predicate SortedBy<T>(s: seq<T>, key: T -> int)
  {
    forall i, j :: 0 <= i < j < |s| ==> key(s[i]) <= key(s[j])
  }

  lemma SortedCons<T>(y: T, s: seq<T>, key: T -> int)
    requires SortedBy(s, key)
    requires s != [] ==> key(y) <= key(s[0])
    ensures SortedBy([y] + s, key)
  {
    var r := [y] + s;
    forall i, j | 0 <= i < j < |r| ensures key(r[i]) <= key(r[j]) {
      if i == 0 && j > 1 {
        assert key(s[0]) <= key(s[j - 1]);
      }
    }
  }

  /** Puts `x` in front of the first element whose key is not smaller. */
  function Insert<T>(x: T, s: seq<T>, key: T -> int): (r: seq<T>)
    requires SortedBy(s, key)
    ensures |r| == |s| + 1
    ensures r[0] == x || (s != [] && r[0] == s[0])
    ensures SortedBy(r, key)
    ensures multiset(r) == multiset(s) + multiset{x}
  {
    if s == [] then [x]
    else if key(x) <= key(s[0]) then
      SortedCons(x, s, key);
      [x] + s
    else
      var rest := Insert(x, s[1..], key);
      assert s == [s[0]] + s[1..];
      SortedCons(s[0], rest, key);
      [s[0]] + rest
  }

  /**
   * `s.sort((a, b) => key(a) - key(b))`: ascending by key. Each element goes in
   * front of the equal keys that followed it, so equal keys keep their order,
   * as in the stable sort of the language.
   */
  function SortBy<T>(s: seq<T>, key: T -> int): (r: seq<T>)
    ensures SortedBy(r, key)
    ensures multiset(r) == multiset(s)
    ensures |r| == |s|
  {
    if s == [] then []
    else
      assert s == [s[0]] + s[1..];
      Insert(s[0], SortBy(s[1..], key), key)
  }

  /** Sorting a sequence that is already in order leaves it as it is. */
  lemma {:induction false} SortBySorted<T>(s: seq<T>, key: T -> int)
    requires SortedBy(s, key)
    ensures SortBy(s, key) == s
    decreases |s|
  {
    if s != [] {
      SortBySorted(s[1..], key);
      assert s == [s[0]] + s[1..];
    }
  }

  /** An element whose key exceeds every key present goes at the end. */
  lemma {:induction false} InsertLargest<T>(x: T, s: seq<T>, key: T -> int)
    requires SortedBy(s, key)
    requires forall k :: 0 <= k < |s| ==> key(s[k]) < key(x)
    ensures Insert(x, s, key) == s + [x]
    decreases |s|
  {
    if s != [] {
      assert SortedBy(s[1..], key);
      InsertLargest(x, s[1..], key);
      assert s == [s[0]] + s[1..];
    }
  }

  /** The elements of `s`, last first. */
  function Reverse<T>(s: seq<T>): (r: seq<T>)
    ensures |r| == |s|
    ensures forall k :: 0 <= k < |s| ==> r[k] == s[|s| - 1 - k]
  {
    if s == [] then [] else Reverse(s[1..]) + [s[0]]
  }

  /** Keys that strictly fall from left to right sort into the reverse order. */
  lemma {:induction false} SortByFalling<T>(s: seq<T>, key: T -> int)
    requires forall i, j :: 0 <= i < j < |s| ==> key(s[i]) > key(s[j])
    ensures SortBy(s, key) == Reverse(s)
    decreases |s|
  {
    if s != [] {
      SortByFalling(s[1..], key);
      var rest := Reverse(s[1..]);
      assert forall k :: 0 <= k < |rest| ==> key(rest[k]) < key(s[0]);
      InsertLargest(s[0], rest, key);
    }
  }

  /** Sorting twice by the same key is sorting once. */
  lemma SortByIdempotent<T>(s: seq<T>, key: T -> int)
    ensures SortBy(SortBy(s, key), key) == SortBy(s, key)
  {
    SortBySorted(SortBy(s, key), key);
  }

  /** `s.slice(0, n)` */
  function Take<T>(s: seq<T>, n: nat): (r: seq<T>)
    ensures |r| == Min(n, |s|)
    ensures forall k :: 0 <= k < |r| ==> r[k] == s[k]
  {
    if n <= |s| then s[..n] else s
  }

  lemma {:induction false} SubsequenceOfSorted<T>(a: seq<T>, b: seq<T>, key: T -> int)
    requires Subsequence(a, b)
    requires SortedBy(b, key)
    ensures SortedBy(a, key)
    ensures forall k :: 0 <= k < |a| ==> a[k] in b
    decreases |b|
  {
    if a != [] && b != [] {
      if a[0] == b[0] {
        SubsequenceOfSorted(a[1..], b[1..], key);
        forall k | 0 < k < |a| ensures key(a[0]) <= key(a[k]) {
          assert a[1..][k - 1] == a[k];
          var j :| 0 <= j < |b[1..]| && b[1..][j] == a[k];
          assert b[j + 1] == a[k];
        }
        forall i, k | 0 <= i < k < |a| ensures key(a[i]) <= key(a[k]) {
          if i > 0 {
            assert a[1..][i - 1] == a[i] && a[1..][k - 1] == a[k];
          }
        }
        forall k | 0 <= k < |a| ensures a[k] in b {
          if k > 0 {
            assert a[1..][k - 1] == a[k];
          }
        }
      } else {
        SubsequenceOfSorted(a, b[1..], key);
        assert forall k :: 0 <= k < |a| ==> a[k] in b[1..] ==> a[k] in b;
      }
    }
  }
}
