/** String sets stored as sorted lists, and read back. */
module SortedStrings {

  /** Lexicographic order by code point. */
  predicate AtMost(a: string, b: string) {
    a == "" || (b != "" && (a[0] < b[0] || (a[0] == b[0] && AtMost(a[1..], b[1..]))))
  }

  lemma {:induction false} Antisymmetric(a: string, b: string)
    requires AtMost(a, b) && AtMost(b, a)
    ensures a == b
    decreases |a|
  {
    if a != "" && b != "" {
      Antisymmetric(a[1..], b[1..]);
      assert a == [a[0]] + a[1..] && b == [b[0]] + b[1..];
    }
  }

  lemma {:induction false} Total(a: string, b: string)
    ensures AtMost(a, b) || AtMost(b, a)
    decreases |a|
  {
    if a != "" && b != "" && a[0] == b[0] { Total(a[1..], b[1..]); }
  }

  lemma {:induction false} Transitive(a: string, b: string, c: string)
    requires AtMost(a, b) && AtMost(b, c)
    ensures AtMost(a, c)
    decreases |a|
  {
    if a != "" && b != "" && c != "" && a[0] == b[0] == c[0] { Transitive(a[1..], b[1..], c[1..]); }
  }

  predicate Least(s: set<string>, x: string) {
    x in s && forall y :: y in s ==> AtMost(x, y)
  }

  lemma {:induction false} LeastExists(s: set<string>)
    requires s != {}
    ensures exists x :: Least(s, x)
    decreases |s|
  {
    var y :| y in s;
    Total(y, y);
    if s == {y} {
      assert Least(s, y);
    } else {
      var rest := s - {y};
      assert rest != {} && rest + {y} == s;
      LeastExists(rest);
      var x :| Least(rest, x);
      LeastOfOneMore(rest, x, y);
    }
  }

  lemma LeastOfOneMore(rest: set<string>, x: string, y: string)
    requires Least(rest, x)
    ensures Least(rest + {y}, x) || Least(rest + {y}, y)
  {
    Total(x, y);
    Total(y, y);
    if AtMost(y, x) {
      forall z | z in rest ensures AtMost(y, z) { Transitive(y, x, z); }
    }
  }

  lemma LeastUnique(s: set<string>)
    ensures forall x, y :: Least(s, x) && Least(s, y) ==> x == y
  {
    forall x, y | Least(s, x) && Least(s, y) ensures x == y { Antisymmetric(x, y); }
  }

  /** The elements in increasing order, each once. */
  function Sorted(s: set<string>): (r: seq<string>)
    ensures |r| == |s|
    ensures forall x :: x in r <==> x in s
    ensures forall i, j :: 0 <= i < j < |r| ==> AtMost(r[i], r[j]) && r[i] != r[j]
    decreases |s|
  {
    if s == {} then []
    else
      LeastExists(s);
      LeastUnique(s);
      var x :| Least(s, x);
      [x] + Sorted(s - {x})
  }

  function ToSet(r: seq<string>): set<string> {
    set x | x in r
  }

  /** The stored list holds the set, whatever the set. */
  lemma SetRoundTrip(s: set<string>)
    ensures ToSet(Sorted(s)) == s
  {
  }
}
