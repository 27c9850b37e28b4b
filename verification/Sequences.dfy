/** Sequences the protocols have in common. */
module Sequences {
  /** Every element is one byte. */
  type Bytes = seq<nat>

  predicate NoRepeats<T(==)>(items: seq<T>) {
    forall i, j | 0 <= i < j < |items| :: items[i] != items[j]
  }

  function Reversed<T>(items: seq<T>): seq<T> {
    if items == [] then [] else Reversed(items[1..]) + [items[0]]
  }

  lemma Regroup<T>(a: seq<T>, b: seq<T>, c: seq<T>)
    ensures a + b + c == a + (b + c)
    ensures b == [] ==> a + (b + c) == a + c
  {
  }

  /** Reversing keeps every element, and the last comes first. */
  lemma {:induction false} ReversedKeeps<T>(items: seq<T>)
    ensures multiset(Reversed(items)) == multiset(items) && |Reversed(items)| == |items|
    ensures forall i | 0 <= i < |items| :: Reversed(items)[i] == items[|items| - 1 - i]
  {
    if items != [] {
      ReversedKeeps(items[1..]);
      assert items == [items[0]] + items[1..];
    }
  }

  lemma {:induction false} ReversedJoin<T>(a: seq<T>, b: seq<T>)
    ensures Reversed(a + b) == Reversed(b) + Reversed(a)
  {
    if a == [] {
      assert a + b == b;
    } else {
      assert (a + b)[1..] == a[1..] + b;
      ReversedJoin(a[1..], b);
    }
  }

  lemma JoinNoRepeats<T>(a: seq<T>, b: seq<T>)
    ensures NoRepeats(a + b) <==> NoRepeats(a) && NoRepeats(b) && forall x | x in a :: x !in b
  {
    var c := a + b;
    if NoRepeats(c) {
      forall i, j | 0 <= i < j < |a| ensures a[i] != a[j] { assert c[i] != c[j]; }
      forall i, j | 0 <= i < j < |b| ensures b[i] != b[j] { assert c[|a| + i] != c[|a| + j]; }
      forall i, j | 0 <= i < |a| && 0 <= j < |b| ensures a[i] != b[j] { assert c[i] != c[|a| + j]; }
    }
    if NoRepeats(a) && NoRepeats(b) && forall x | x in a :: x !in b {
      forall i, j | 0 <= i < j < |c|
        ensures c[i] != c[j]
      {
        if i < |a| <= j { assert a[i] !in b && b[j - |a|] in b; }
        if |a| <= i { assert b[i - |a|] != b[j - |a|]; }
      }
    }
  }
}
