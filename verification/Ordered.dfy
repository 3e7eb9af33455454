/** Strings in Rust's order (code point by code point) and `BTreeSet<String>`, kept as
    the strictly increasing sequence that iterating over the set yields. */
module Ordered {

  predicate Less(a: string, b: string) {
    b != [] && (a == [] || a[0] < b[0] || (a[0] == b[0] && Less(a[1..], b[1..])))
  }

  lemma {:induction false} LessIrreflexive(a: string)
    ensures !Less(a, a)
  {
    if a != [] { LessIrreflexive(a[1..]); }
  }

  lemma {:induction false} LessTransitive(a: string, b: string, c: string)
    requires Less(a, b) && Less(b, c)
    ensures Less(a, c)
  {
    if a != [] && a[0] == b[0] == c[0] {
      LessTransitive(a[1..], b[1..], c[1..]);
    }
  }

  lemma {:induction false} LessTotal(a: string, b: string)
    ensures a == b || Less(a, b) || Less(b, a)
  {
    if a != [] && b != [] && a[0] == b[0] {
      LessTotal(a[1..], b[1..]);
      if a[1..] == b[1..] {
        assert a == [a[0]] + a[1..] && b == [b[0]] + b[1..];
      }
    }
  }

  ghost predicate StrictlySorted(s: seq<string>) {
    forall i, j :: 0 <= i < j < |s| ==> Less(s[i], s[j])
  }

  ghost function Elements<T>(s: seq<T>): set<T> {
    set x | x in s
  }

  lemma EmptyElements<T>(s: seq<T>)
    ensures s == [] <==> Elements(s) == {}
  {
    if s != [] { assert s[0] in Elements(s); }
  }

  lemma ConsElements<T>(x: T, s: seq<T>)
    ensures Elements([x] + s) == {x} + Elements(s)
  {
  }

  lemma SnocElements<T>(s: seq<T>, x: T)
    ensures Elements(s + [x]) == Elements(s) + {x}
  {
  }

  lemma ConsSorted(x: string, s: seq<string>)
    requires StrictlySorted(s) && forall y :: y in s ==> Less(x, y)
    ensures StrictlySorted([x] + s)
  {
  }

  /** What `BTreeSet::insert` does to the iteration order. */
  function Insert(s: seq<string>, x: string): (r: seq<string>)
    requires StrictlySorted(s)
    ensures StrictlySorted(r)
    ensures Elements(r) == Elements(s) + {x}
  {
    if s == [] then [x]
    else if s[0] == x then s
    else if Less(x, s[0]) then
      assert StrictlySorted([x] + s) by {
        forall j | 0 < j < |s| ensures Less(x, s[j]) { LessTransitive(x, s[0], s[j]); }
        ConsSorted(x, s);
      }
      [x] + s
    else
      var rest := Insert(s[1..], x);
      assert StrictlySorted([s[0]] + rest) by {
        LessTotal(s[0], x);
        assert forall y :: y in rest ==> y in Elements(rest);
        ConsSorted(s[0], rest);
      }
      assert Elements(s) == {s[0]} + Elements(s[1..]) by {
        assert s == [s[0]] + s[1..];
      }
      assert Elements([s[0]] + rest) == {s[0]} + Elements(rest) by { ConsElements(s[0], rest); }
      [s[0]] + rest
  }

  /** `iter().collect::<BTreeSet<_>>()` */
  function FromSeq(xs: seq<string>): (r: seq<string>)
    ensures StrictlySorted(r)
    ensures Elements(r) == Elements(xs)
  {
    if xs == [] then []
    else
      assert xs == xs[..|xs| - 1] + [xs[|xs| - 1]];
      Insert(FromSeq(xs[..|xs| - 1]), xs[|xs| - 1])
  }

  /** `BTreeSet::difference` */
  function Difference(a: seq<string>, b: seq<string>): (r: seq<string>)
    requires StrictlySorted(a)
    ensures StrictlySorted(r)
    ensures Elements(r) == Elements(a) - Elements(b)
  {
    if a == [] then []
    else
      var rest := Difference(a[1..], b);
      assert Elements(a) == {a[0]} + Elements(a[1..]) by { assert a == [a[0]] + a[1..]; }
      assert StrictlySorted([a[0]] + rest) by {
        assert forall y :: y in rest ==> y in Elements(rest);
        ConsSorted(a[0], rest);
      }
      assert Elements([a[0]] + rest) == {a[0]} + Elements(rest) by { ConsElements(a[0], rest); }
      if a[0] in b then rest else [a[0]] + rest
  }

  /** A set has one iteration order. */
  lemma {:induction false} SortedUnique(a: seq<string>, b: seq<string>)
    requires StrictlySorted(a) && StrictlySorted(b)
    requires Elements(a) == Elements(b)
    ensures a == b
  {
    EmptyElements(a);
    EmptyElements(b);
    if a != [] {
      assert a[0] in Elements(a);
      assert b[0] in Elements(b);
      if a[0] != b[0] {
        var i :| 0 <= i < |b| && b[i] == a[0];
        var j :| 0 <= j < |a| && a[j] == b[0];
        LessTransitive(a[0], b[0], a[0]);
        LessIrreflexive(a[0]);
        assert false;
      }
      TailElements(a);
      TailElements(b);
      SortedUnique(a[1..], b[1..]);
      assert a == [a[0]] + a[1..] && b == [b[0]] + b[1..];
    }
  }

  lemma TailElements(s: seq<string>)
    requires s != [] && StrictlySorted(s)
    ensures Elements(s[1..]) == Elements(s) - {s[0]}
  {
    LessIrreflexive(s[0]);
    assert s == [s[0]] + s[1..];
    assert s[0] !in s[1..];
  }
}
