/** Facts about sequences used as ordered sets. */
module Sequences {

  /** No element occurs twice. */
  ghost predicate NoDup<T>(s: seq<T>) {
    forall i, j :: 0 <= i < j < |s| ==> s[i] != s[j]
  }

  /** Appending an element not yet present keeps a sequence free of duplicates. */
  lemma AppendNoDup<T>(t: seq<T>, x: T)
    requires NoDup(t) && x !in t
    ensures NoDup(t + [x])
  {
    assert forall i :: 0 <= i < |t| ==> (t + [x])[i] == t[i];
  }

  /** The position of the first occurrence of `x` in `s`. */
  function IndexOf<T(==)>(s: seq<T>, x: T): (k: nat)
    requires x in s
    ensures k < |s| && s[k] == x
    ensures forall j :: 0 <= j < k ==> s[j] != x
  {
    if s[0] == x then 0 else 1 + IndexOf(s[1..], x)
  }

  /** The set of elements of a sequence. */
  function Elements<T>(s: seq<T>): set<T> {
    set x | x in s
  }

  /** Appending leaves earlier first occurrences where they were and puts a new element last. */
  lemma {:induction false} IndexOfAppend<T>(t: seq<T>, y: T, x: T)
    requires x in t || x == y
    ensures x in t ==> IndexOf(t + [y], x) == IndexOf(t, x)
    ensures x !in t ==> IndexOf(t + [y], x) == |t|
  {
    if t != [] && t[0] != x {
      assert (t + [y])[1..] == t[1..] + [y];
      IndexOfAppend(t[1..], y, x);
    }
  }
}
