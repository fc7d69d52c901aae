/** `java.util.ArrayList` as the by-area aggregator uses it: filled from
    the values of a map, then turned around in place by
    `Collections.reverse`. The list is an array of its elements. */
module ArrayLists {

  /** `s` back to front. */
  function Reversed<T>(s: seq<T>): (r: seq<T>)
    ensures |r| == |s|
    ensures forall i :: 0 <= i < |s| ==> r[i] == s[|s| - 1 - i]
  {
    if s == [] then [] else Reversed(s[1..]) + [s[0]]
  }

  /** Reversing keeps every element, each as often as before. */
  lemma {:induction false} ReversedSameElements<T>(s: seq<T>)
    ensures multiset(Reversed(s)) == multiset(s)
  {
    if s != [] {
      ReversedSameElements(s[1..]);
      assert s == [s[0]] + s[1..];
    }
  }

  /** Reversing keeps exactly the elements of the list. */
  lemma ReversedMembers<T>(s: seq<T>)
    ensures forall x :: x in Reversed(s) <==> x in s
  {
    ReversedSameElements(s);
    forall x ensures x in Reversed(s) <==> x in s {
      assert x in Reversed(s) <==> x in multiset(Reversed(s));
      assert x in s <==> x in multiset(s);
    }
  }

  /** A new list holding the elements of `s` in order. */
  method FromSeq<T>(s: seq<T>) returns (a: array<T>)
    ensures fresh(a) && a[..] == s
  {
    a := new T[|s|](i requires 0 <= i < |s| => s[i]);
  }

  /** `Collections.reverse`: swap the i-th element from the front with the
      i-th from the back, for the first half of the list. */
  method Reverse<T>(a: array<T>)
    modifies a
    ensures a[..] == Reversed(old(a[..]))
  {
    var i := 0;
    var j := a.Length - 1;
    while i < a.Length / 2
      invariant 0 <= i <= a.Length / 2 && j == a.Length - 1 - i
      invariant forall k :: 0 <= k < i ==> a[k] == old(a[a.Length - 1 - k]) && a[a.Length - 1 - k] == old(a[k])
      invariant forall k :: i <= k < a.Length - i ==> a[k] == old(a[k])
    {
      a[i], a[j] := a[j], a[i];
      i := i + 1;
      j := j - 1;
    }
  }
}
