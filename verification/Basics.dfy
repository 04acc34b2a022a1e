/** Shared vocabulary: optional values, outcomes, identifiers, and ordering of rows by a key. */
module Basics {

  datatype Option<+T> = None | Some(value: T)

  datatype Result<+T, +E> = Ok(value: T) | Err(error: E) {
    predicate IsFailure() {
      Err?
    }

    function PropagateFailure<U>(): Result<U, E>
      requires Err?
    {
      Err(error)
    }

    function Extract(): T
      requires Ok?
    {
      value
    }
  }

  /** UUIDs. */
  type Id = nat

  /** Instants, in microseconds. */
  type Time = int

  const SECOND: Time := 1_000_000

  /** Python's `x or ""` on an optional string. */
  function TextOr(s: Option<string>, fallback: string): string {
    if s.Some? && s.value != "" then s.value else fallback
  }

  function Flatten<T>(s: seq<seq<T>>): seq<T> {
    if s == [] then [] else s[0] + Flatten(s[1..])
  }

  // ---------- rows ordered by a key (ORDER BY) ----------

  ghost predicate Ascending<T>(s: seq<T>, key: T -> int) {
    forall i, j :: 0 <= i < j < |s| ==> key(s[i]) <= key(s[j])
  }

  ghost predicate StrictlyAscending<T>(s: seq<T>, key: T -> int) {
    forall i, j :: 0 <= i < j < |s| ==> key(s[i]) < key(s[j])
  }

  function InsertSorted<T>(s: seq<T>, x: T, key: T -> int): seq<T> {
    if s == [] || key(s[|s| - 1]) <= key(x) then s + [x]
    else InsertSorted(s[..|s| - 1], x, key) + [s[|s| - 1]]
  }

  function OrderBy<T>(s: seq<T>, key: T -> int): seq<T> {
    if s == [] then [] else InsertSorted(OrderBy(s[..|s| - 1], key), s[|s| - 1], key)
  }

  lemma AscendingSnoc<T>(s: seq<T>, x: T, key: T -> int)
    requires Ascending(s, key)
    requires forall y :: y in s ==> key(y) <= key(x)
    ensures Ascending(s + [x], key)
  {
  }

  lemma SameRows<T>(s: seq<T>, t: seq<T>, y: T)
    requires multiset(s) == multiset(t) && y in t
    ensures y in s
  {
    assert y in multiset(s);
  }

  lemma {:induction false} InsertSortedIs<T>(s: seq<T>, x: T, key: T -> int)
    requires Ascending(s, key)
    ensures Ascending(InsertSorted(s, x, key), key)
    ensures multiset(InsertSorted(s, x, key)) == multiset(s + [x])
  {
    if s == [] || key(s[|s| - 1]) <= key(x) {
      AscendingSnoc(s, x, key);
    } else {
      var init, last := s[..|s| - 1], s[|s| - 1];
      assert s == init + [last];
      InsertSortedIs(init, x, key);
      var t := InsertSorted(init, x, key);
      forall y | y in t ensures key(y) <= key(last) {
        SameRows(init + [x], t, y);
      }
      AscendingSnoc(t, last, key);
    }
  }

  /** ORDER BY yields a permutation of the rows in ascending key order. */
  lemma {:induction false} OrderByIs<T>(s: seq<T>, key: T -> int)
    ensures Ascending(OrderBy(s, key), key)
    ensures multiset(OrderBy(s, key)) == multiset(s)
  {
    if s != [] {
      var init, last := s[..|s| - 1], s[|s| - 1];
      OrderByIs(init, key);
      InsertSortedIs(OrderBy(init, key), last, key);
      assert s == init + [last];
    }
  }

  /** Rows already stored in key order are read back in storage order. */
  lemma {:induction false} OrderByIdentity<T>(s: seq<T>, key: T -> int)
    requires Ascending(s, key)
    ensures OrderBy(s, key) == s
  {
    if s != [] {
      var init := s[..|s| - 1];
      OrderByIdentity(init, key);
      assert s == init + [s[|s| - 1]];
    }
  }

  lemma LastIsGreatest<T>(s: seq<T>, key: T -> int, y: T)
    requires Ascending(s, key) && y in s
    ensures key(y) <= key(s[|s| - 1])
  {
    var i :| 0 <= i < |s| && s[i] == y;
  }

  lemma OnlyLastIsGreatest<T>(s: seq<T>, key: T -> int, y: T)
    requires StrictlyAscending(s, key) && y in s && key(y) >= key(s[|s| - 1])
    ensures y == s[|s| - 1]
  {
    var i :| 0 <= i < |s| && s[i] == y;
  }

  lemma DropLast<T>(s: seq<T>, t: seq<T>)
    requires multiset(s) == multiset(t) && s != [] && t != [] && s[|s| - 1] == t[|t| - 1]
    ensures multiset(s[..|s| - 1]) == multiset(t[..|t| - 1])
  {
    var a, b, x := s[..|s| - 1], t[..|t| - 1], s[|s| - 1];
    assert s == a + [x] && t == b + [x];
    assert multiset(s) == multiset(a) + multiset{x};
    assert multiset(t) == multiset(b) + multiset{x};
    assert multiset(a) == multiset(s) - multiset{x};
  }

  /** Two permutations of the same rows, one strictly ordered and one ordered by the same key, are equal. */
  lemma {:induction false} StrictOrderIsUnique<T>(s: seq<T>, t: seq<T>, key: T -> int)
    requires multiset(s) == multiset(t)
    requires StrictlyAscending(s, key) && Ascending(t, key)
    ensures s == t
  {
    assert |s| == |multiset(s)| == |multiset(t)| == |t|;
    if s != [] {
      var n := |s| - 1;
      SameRows(s, t, t[n]);
      SameRows(t, s, s[n]);
      LastIsGreatest(t, key, s[n]);
      OnlyLastIsGreatest(s, key, t[n]);
      DropLast(s, t);
      StrictOrderIsUnique(s[..n], t[..n], key);
      assert s == s[..n] + [s[n]] && t == t[..n] + [t[n]];
    }
  }
}
