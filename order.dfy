/**
 * The order in which a directory listing yields file names: ascending by
 * character code, as libuv sorts the entries it hands to Node's `readdir`.
 */
module Order {

  /** Lexicographic `a <= b` on character codes. */
  predicate Below(a: string, b: string)
  {
    |a| == 0 || (|b| != 0 && (a[0] < b[0] || (a[0] == b[0] && Below(a[1..], b[1..]))))
  }

  lemma {:induction false} BelowTotal(a: string, b: string)
    ensures Below(a, b) || Below(b, a)
  {
    if |a| != 0 && |b| != 0 && a[0] == b[0] {
      BelowTotal(a[1..], b[1..]);
    }
  }

  lemma {:induction false} BelowAntisymmetric(a: string, b: string)
    requires Below(a, b) && Below(b, a)
    ensures a == b
  {
    if |a| != 0 && |b| != 0 {
      BelowAntisymmetric(a[1..], b[1..]);
      assert a == [a[0]] + a[1..] && b == [b[0]] + b[1..];
    }
  }

  lemma {:induction false} BelowTransitive(a: string, b: string, c: string)
    requires Below(a, b) && Below(b, c)
    ensures Below(a, c)
  {
    if |a| != 0 && |b| != 0 && |c| != 0 && a[0] == b[0] && b[0] == c[0] {
      BelowTransitive(a[1..], b[1..], c[1..]);
    }
  }

  /** Every non-empty finite set of names has a least element. */
  lemma {:induction false} LeastExists(s: set<string>)
    requires s != {}
    ensures exists m :: m in s && forall x :: x in s ==> Below(m, x)
    decreases |s|
  {
    var y :| y in s;
    if s == {y} {
      BelowTotal(y, y);
      assert forall x :: x in s ==> x == y;
    } else {
      LeastExists(s - {y});
      var m :| m in s - {y} && forall x :: x in s - {y} ==> Below(m, x);
      BelowTotal(m, y);
      if Below(m, y) {
        forall x | x in s ensures Below(m, x) {
          if x != y { assert x in s - {y}; }
        }
      } else {
        forall x | x in s ensures Below(y, x) {
          if x != y { BelowTransitive(y, m, x); } else { BelowTotal(y, y); }
        }
      }
    }
  }

  /** Strictly ascending: sorted and free of duplicates. */
  predicate Ascending(r: seq<string>)
  {
    forall i, j :: 0 <= i < j < |r| ==> Below(r[i], r[j]) && r[i] != r[j]
  }

  /** The elements of a set of names, in ascending order. */
  function SortedElements(s: set<string>): (r: seq<string>)
    ensures Ascending(r)
    ensures forall x :: x in r <==> x in s
    ensures |r| == |s|
    decreases |s|
  {
    if s == {} then []
    else
      LeastExists(s);
      AntisymmetricEverywhere();
      var m :| m in s && forall x :: x in s ==> Below(m, x);
      var rest := SortedElements(s - {m});
      LeastFirst(s, m, rest);
      [m] + rest
  }

  /** Putting the least element of `s` before an ascending listing of the others lists `s` ascending. */
  lemma LeastFirst(s: set<string>, m: string, rest: seq<string>)
    requires m in s && forall x :: x in s ==> Below(m, x)
    requires Ascending(rest) && forall x :: x in rest <==> x in s - {m}
    ensures Ascending([m] + rest)
    ensures forall x :: x in [m] + rest <==> x in s
  {
    assert forall k :: 0 <= k < |rest| ==> rest[k] in rest;
    assert forall k :: 0 <= k < |rest| ==> rest[k] in s && rest[k] != m;
  }

  lemma AntisymmetricEverywhere()
    ensures forall a, b :: Below(a, b) && Below(b, a) ==> a == b
  {
    forall a, b | Below(a, b) && Below(b, a) ensures a == b {
      BelowAntisymmetric(a, b);
    }
  }

  /** Two strictly ascending sequences with the same elements are equal. */
  lemma {:induction false} AscendingUnique(a: seq<string>, b: seq<string>)
    requires Ascending(a) && Ascending(b)
    requires forall x :: x in a <==> x in b
    ensures a == b
  {
    assert a != [] ==> a[0] in a;
    assert b != [] ==> b[0] in b;
    if a != [] {
      assert a[0] in b;
      assert b != [];
      assert b[0] in a;
      assert Below(a[0], b[0]) by {
        var j :| 0 <= j < |a| && a[j] == b[0];
        if j != 0 { assert Below(a[0], a[j]); } else { BelowTotal(a[0], a[0]); }
      }
      assert Below(b[0], a[0]) by {
        var j :| 0 <= j < |b| && b[j] == a[0];
        if j != 0 { assert Below(b[0], b[j]); } else { BelowTotal(b[0], b[0]); }
      }
      BelowAntisymmetric(a[0], b[0]);
      forall x ensures x in a[1..] <==> x in b[1..] {
        if x in a[1..] {
          var i :| 1 <= i < |a| && a[i] == x;
          assert x != a[0];
          assert x in b;
          var k :| 0 <= k < |b| && b[k] == x;
          assert k != 0;
        }
        if x in b[1..] {
          var i :| 1 <= i < |b| && b[i] == x;
          assert x != b[0];
          assert x in a;
          var k :| 0 <= k < |a| && a[k] == x;
          assert k != 0;
        }
      }
      AscendingUnique(a[1..], b[1..]);
      assert a == [a[0]] + a[1..] && b == [b[0]] + b[1..];
    }
  }
}
