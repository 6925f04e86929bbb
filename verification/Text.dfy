// Byte order on refs, as Go's string comparison and SQLite's BINARY collation
// order them, and sorting of finite sets of refs by it.
module Text {

  /** `a` comes strictly before `b`. */
  predicate Less(a: string, b: string) {
    if b == [] then false
    else if a == [] then true
    else if a[0] == b[0] then Less(a[1..], b[1..])
    else a[0] < b[0]
  }

  lemma {:induction false} LessIrreflexive(a: string)
    ensures !Less(a, a)
  {
    if a != [] { LessIrreflexive(a[1..]); }
  }

  lemma {:induction false} LessTransitive(a: string, b: string, c: string)
    requires Less(a, b) && Less(b, c)
    ensures Less(a, c)
  {
    if a != [] && a[0] == b[0] && b[0] == c[0] {
      LessTransitive(a[1..], b[1..], c[1..]);
    }
  }

  lemma {:induction false} LessTotal(a: string, b: string)
    ensures a == b || Less(a, b) || Less(b, a)
  {
    if a != [] && b != [] && a[0] == b[0] {
      LessTotal(a[1..], b[1..]);
      assert a == [a[0]] + a[1..] && b == [b[0]] + b[1..];
    }
  }

  lemma LessAsymmetric(a: string, b: string)
    requires Less(a, b)
    ensures !Less(b, a) && a != b
  {
    if Less(b, a) { LessTransitive(a, b, a); }
    LessIrreflexive(a);
  }

  /** `x` is the first element of `s`. */
  ghost predicate IsLeast(x: string, s: set<string>) {
    x in s && forall y :: y in s && y != x ==> Less(x, y)
  }

  lemma LeastIsUnique(x: string, y: string, s: set<string>)
    requires IsLeast(x, s) && IsLeast(y, s)
    ensures x == y
  {
    if x != y { LessAsymmetric(x, y); }
  }

  ghost function Least(s: set<string>): (x: string)
    requires s != {}
    ensures IsLeast(x, s)
  {
    var y :| y in s;
    if s == {y} then y else
      var z := Least(s - {y});
      LessTotal(y, z);
      if Less(y, z) then
        assert forall w :: w in s && w != y && w != z ==> Less(y, w) by {
          forall w | w in s && w != y && w != z ensures Less(y, w) { LessTransitive(y, z, w); }
        }
        y
      else z
  }

  /** Strictly increasing. */
  ghost predicate Sorted(s: seq<string>) {
    forall i, j :: 0 <= i < j < |s| ==> Less(s[i], s[j])
  }

  ghost function Elements(s: seq<string>): set<string> {
    set x | x in s
  }

  /** Selection of the first element, by a scan of the set. */
  method First(s: set<string>) returns (x: string)
    requires s != {}
    ensures IsLeast(x, s)
  {
    var rest := s;
    x :| x in rest;
    rest := rest - {x};
    while rest != {}
      invariant rest <= s && x in s - rest
      invariant IsLeast(x, s - rest)
      decreases rest
    {
      var y :| y in rest;
      LessTotal(x, y);
      if Less(y, x) {
        forall w | w in s - rest && w != x ensures Less(y, w) { LessTransitive(y, x, w); }
        x := y;
      }
      rest := rest - {y};
    }
    assert s - rest == s;
  }

  /** The contract of the library sort on the keys of a map. */
  method Sort(s: set<string>) returns (r: seq<string>)
    ensures Sorted(r) && Elements(r) == s
  {
    r := [];
    var rest := s;
    while rest != {}
      invariant rest <= s
      invariant Sorted(r) && Elements(r) == s - rest
      invariant forall i, y :: 0 <= i < |r| && y in rest ==> Less(r[i], y)
      decreases rest
    {
      var x := First(rest);
      assert Elements(r + [x]) == Elements(r) + {x};
      r, rest := r + [x], rest - {x};
    }
  }
}
