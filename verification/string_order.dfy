/** The natural ordering of Java strings (`String.compareTo`), which orders the
    keys of the report's TreeMaps and TreeSets, and the sortedness it gives. */
module StringOrder {

  /** `a.compareTo(b) < 0`: the first differing character decides; when one
      string is a prefix of the other, the shorter one comes first. */
  predicate Less(a: string, b: string)
  {
    if a == [] then b != []
    else if b == [] then false
    else if a[0] == b[0] then Less(a[1..], b[1..])
    else a[0] < b[0]
  }

  lemma {:induction false} LessIrreflexive(a: string)
    ensures !Less(a, a)
  {
    if a != [] {
      LessIrreflexive(a[1..]);
    }
  }

  lemma {:induction false} LessTransitive(a: string, b: string, c: string)
    requires Less(a, b) && Less(b, c)
    ensures Less(a, c)
  {
    if a != [] && b != [] && c != [] && a[0] == b[0] && b[0] == c[0] {
      LessTransitive(a[1..], b[1..], c[1..]);
    }
  }

  /** Any two different strings are ordered one way or the other. */
  lemma {:induction false} LessTotal(a: string, b: string)
    requires a != b
    ensures Less(a, b) || Less(b, a)
  {
    if a != [] && b != [] && a[0] == b[0] {
      assert a == [a[0]] + a[1..] && b == [b[0]] + b[1..];
      LessTotal(a[1..], b[1..]);
    }
  }

  lemma {:induction false} LessAsymmetric(a: string, b: string)
    requires Less(a, b)
    ensures !Less(b, a)
  {
    if a != [] && b != [] && a[0] == b[0] {
      LessAsymmetric(a[1..], b[1..]);
    }
  }

  /** Strictly ascending in string order (hence without duplicates). */
  ghost predicate Ascending(keys: seq<string>)
  {
    forall i, j :: 0 <= i < j < |keys| ==> Less(keys[i], keys[j])
  }

  /** A string of `s` that comes before every other string of `s`. */
  ghost predicate IsLeast(m: string, s: set<string>)
  {
    m in s && forall y :: y in s && y != m ==> Less(m, y)
  }

  /** Every non-empty set of strings has a least element. */
  lemma {:induction false} LeastExists(s: set<string>) returns (m: string)
    requires s != {}
    ensures IsLeast(m, s)
    decreases |s|
  {
    var x :| x in s;
    if s == {x} {
      m := x;
    } else {
      var r := LeastExists(s - {x});
      LessTotal(x, r);
      if Less(x, r) {
        m := x;
        forall y | y in s && y != x ensures Less(x, y) {
          if y != r {
            LessTransitive(x, r, y);
          }
        }
      } else {
        m := r;
      }
    }
  }

  lemma HasLeast(s: set<string>)
    requires s != {}
    ensures exists m :: IsLeast(m, s)
  {
    var m := LeastExists(s);
  }

  /** The strings of `s` in ascending order: the order in which a TreeMap or
      TreeSet holding `s` iterates. */
  ghost function Sorted(s: set<string>): (r: seq<string>)
    ensures Ascending(r) && |r| == |s|
    ensures forall k :: k in r <==> k in s
    decreases |s|
  {
    if s == {} then []
    else
      HasLeast(s);
      var m :| IsLeast(m, s);
      var rest := Sorted(s - {m});
      LeastFirst(m, s, rest);
      [m] + rest
  }

  /** The least string of `s` followed by the rest of `s` in ascending
      order is `s` in ascending order. */
  lemma LeastFirst(m: string, s: set<string>, rest: seq<string>)
    requires IsLeast(m, s) && Ascending(rest) && |rest| == |s - {m}|
    requires forall k :: k in rest <==> k in s - {m}
    ensures Ascending([m] + rest) && |[m] + rest| == |s|
    ensures forall k :: k in [m] + rest <==> k in s
  {
    var r := [m] + rest;
    forall i, j | 0 <= i < j < |r| ensures Less(r[i], r[j]) {
      assert r[j] == rest[j - 1] && rest[j - 1] in s - {m};
      if i > 0 {
        assert r[i] == rest[i - 1];
      }
    }
    forall k ensures k in r <==> k in s {
      assert k in r <==> k == m || k in rest;
    }
    assert |s - {m}| == |s| - 1;
  }

  /** Past its first element, an ascending sequence holds exactly its
      other elements. */
  lemma AscendingTail(a: seq<string>)
    requires Ascending(a) && a != []
    ensures forall k :: k in a[1..] <==> k in a && k != a[0]
  {
    forall k | k in a && k != a[0] ensures k in a[1..] {
      var i :| 0 <= i < |a| && a[i] == k;
      assert a[1..][i - 1] == k;
    }
    forall k | k in a[1..] ensures k != a[0] {
      var i :| 0 <= i < |a[1..]| && a[1..][i] == k;
      assert Less(a[0], a[i + 1]);
      LessIrreflexive(a[0]);
    }
  }

  /** An ascending sequence is determined by its elements. */
  lemma {:induction false} AscendingUnique(a: seq<string>, b: seq<string>)
    requires Ascending(a) && Ascending(b)
    requires forall k :: k in a <==> k in b
    ensures a == b
    decreases |a|
  {
    assert b != [] ==> b[0] in a;
    if a != [] {
      assert a[0] in b;
      assert b != [] && b[0] in a;
      if a[0] != b[0] {
        var i :| 0 <= i < |a| && a[i] == b[0];
        var j :| 0 <= j < |b| && b[j] == a[0];
        LessAsymmetric(a[0], b[0]);
      }
      AscendingTail(a);
      AscendingTail(b);
      AscendingUnique(a[1..], b[1..]);
      assert a == [a[0]] + a[1..] && b == [b[0]] + b[1..];
    }
  }
}
