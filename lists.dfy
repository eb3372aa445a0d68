/**
 * The two Python list operations the command handlers use on their guild lists:
 * membership and `list.remove`, which deletes the FIRST occurrence of a value.
 */
module Lists {

  predicate NoDuplicates<T(==)>(s: seq<T>) {
    forall i, j :: 0 <= i < j < |s| ==> s[i] != s[j]
  }

  /** `s.remove(x)`: Python raises ValueError when `x` is absent, hence the precondition. */
  function RemoveFirst<T(==)>(s: seq<T>, x: T): (r: seq<T>)
    requires x in s
    ensures |r| == |s| - 1
    ensures multiset(r) == multiset(s) - multiset{x}
  {
    assert s == [s[0]] + s[1..];
    if s[0] == x then s[1..] else [s[0]] + RemoveFirst(s[1..], x)
  }

  /** `s.index(x)`: the position of the first occurrence of `x`. */
  function IndexOf<T(==)>(s: seq<T>, x: T): (i: nat)
    requires x in s
    ensures i < |s| && s[i] == x && x !in s[..i]
  {
    if s[0] == x then 0 else 1 + IndexOf(s[1..], x)
  }

  /** `remove` cuts out exactly the first occurrence and keeps everything else in order. */
  lemma {:induction false} RemoveFirstCutsFirst<T>(s: seq<T>, x: T)
    requires x in s
    ensures RemoveFirst(s, x) == s[..IndexOf(s, x)] + s[IndexOf(s, x) + 1..]
  {
    if s[0] == x {
      assert s[..0] + s[1..] == s[1..];
    } else {
      var t := s[1..];
      assert x in t by { assert s == [s[0]] + t; }
      RemoveFirstCutsFirst(t, x);
      var j := IndexOf(t, x);
      assert IndexOf(s, x) == j + 1 && RemoveFirst(s, x) == [s[0]] + RemoveFirst(t, x);
      ConsCut(s, j);
    }
  }

  lemma ConsCut<T>(s: seq<T>, j: nat)
    requires j + 1 < |s|
    ensures [s[0]] + (s[1..][..j] + s[1..][j + 1..]) == s[..j + 1] + s[j + 2..]
  {
    assert s[..j + 1] == [s[0]] + s[1..][..j];
    assert s[j + 2..] == s[1..][j + 1..];
  }

  /** Removing what was just appended to a list that did not hold it gives the list back. */
  lemma {:induction false} RemoveFirstOfAppended<T>(s: seq<T>, x: T)
    requires x !in s
    ensures RemoveFirst(s + [x], x) == s
  {
    if s != [] {
      assert (s + [x])[1..] == s[1..] + [x];
      RemoveFirstOfAppended(s[1..], x);
    }
  }

  /** On a list without duplicates, `remove` takes the value out entirely and keeps every other value. */
  lemma {:induction false} RemoveFirstNoDuplicates<T>(s: seq<T>, x: T)
    requires NoDuplicates(s) && x in s
    ensures x !in RemoveFirst(s, x)
    ensures NoDuplicates(RemoveFirst(s, x))
    ensures forall y :: y in RemoveFirst(s, x) <==> y in s && y != x
  {
    if s[0] != x {
      assert s == [s[0]] + s[1..];
      RemoveFirstNoDuplicates(s[1..], x);
      var rest := RemoveFirst(s[1..], x);
      assert s[0] !in s[1..];
      assert s[0] !in rest;
      assert RemoveFirst(s, x) == [s[0]] + rest;
    } else {
      assert s == [x] + s[1..];
    }
  }

  /** Appending a value the list does not hold keeps it free of duplicates. */
  lemma AppendFreshNoDuplicates<T>(s: seq<T>, x: T)
    requires NoDuplicates(s) && x !in s
    ensures NoDuplicates(s + [x])
  {
  }
}
