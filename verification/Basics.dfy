/** Shared helpers: an optional value, and counting by injection. */
module Basics {

  datatype Option<+T> = None | Some(value: T)

  /** Seconds on the database clock. */
  type Time = int

  /** Identifiers drawn fresh by the source (claim tokens, uuid4 suffixes). */
  type Token = string

  /** How a commit reports back: cleanly, after landing but raising, or raising without landing. */
  datatype CommitReport = Clean | LandedButRaised | LostAndRaised

  lemma {:induction false} LengthBound(s: set<Token>) returns (n: nat)
    ensures forall t :: t in s ==> |t| <= n
    decreases |s|
  {
    n := 0;
    if s != {} {
      var t :| t in s;
      var m := LengthBound(s - {t});
      n := if |t| > m then |t| else m;
    }
  }

  /** There is always a token that has not been drawn. */
  lemma UnusedToken(used: set<Token>) returns (t: Token)
    ensures t !in used
  {
    var n := LengthBound(used);
    t := seq(n + 1, _ => 'x');
  }

  lemma {:induction false} UnusedNumber(used: set<nat>) returns (n: nat)
    ensures forall k :: k in used ==> k < n
    decreases |used|
  {
    n := 0;
    if used != {} {
      var k :| k in used;
      var m := UnusedNumber(used - {k});
      assert forall l :: l in used ==> l == k || l in used - {k};
      n := if k < m then m else k + 1;
    }
  }

  lemma Associates<T>(a: seq<T>, b: seq<T>, c: seq<T>)
    ensures (a + b) + c == a + (b + c)
  {
  }

  /** A subset is no larger than the set. */
  lemma {:induction false} SubsetSize<T>(small: set<T>, large: set<T>)
    requires small <= large
    ensures |small| <= |large|
  {
    if small != {} {
      var x :| x in small;
      SubsetSize(small - {x}, large - {x});
    }
  }

  /** If `f` sends distinct members of `from` to distinct members of `into`, then `into` is at least as large. */
  lemma {:induction false} InjectionSize<S, T>(from: set<S>, into: set<T>, f: S -> T)
    requires forall x :: x in from ==> f(x) in into
    requires forall x, y :: x in from && y in from && f(x) == f(y) ==> x == y
    ensures |from| <= |into|
  {
    if from != {} {
      var x :| x in from;
      InjectionSize(from - {x}, into - {f(x)}, f);
    }
  }
}
