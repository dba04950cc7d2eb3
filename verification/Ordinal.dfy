/** Ordinal order of paths: by their first characters that differ, a prefix before what it is a prefix of. */
module Ordinal {
  predicate Less(a: string, b: string) {
    b != "" && (a == "" || a[0] < b[0] || (a[0] == b[0] && Less(a[1..], b[1..])))
  }

  /** At index i the two differ first, and a has the smaller character. */
  predicate SmallerAt(a: string, b: string, i: nat) {
    i < |a| && i < |b| && a[..i] == b[..i] && a[i] < b[i]
  }

  /** Where two paths differ first, the one with the smaller character comes first; a proper prefix comes before what it
      is a prefix of. */
  lemma {:induction false} LessIs(a: string, b: string)
    ensures Less(a, b) <==> a < b || exists i :: SmallerAt(a, b, i)
  {
    if a != "" && b != "" {
      if a[0] == b[0] {
        LessIs(a[1..], b[1..]);
        assert a == [a[0]] + a[1..] && b == [b[0]] + b[1..];
        forall i: nat ensures SmallerAt(a[1..], b[1..], i) <==> SmallerAt(a, b, i + 1) { SmallerLater(a, b, i); }
        forall i: nat | SmallerAt(a, b, i) ensures i > 0 && SmallerAt(a[1..], b[1..], i - 1) {
          SmallerLater(a, b, i - 1);
        }
      } else {
        assert a[..0] == b[..0];
        assert a[0] < b[0] ==> SmallerAt(a, b, 0);
        forall i: nat ensures SmallerAt(a, b, i) ==> i == 0 { SmallerAtStart(a, b, i); }
      }
    }
  }

  lemma SmallerAtStart(a: string, b: string, i: nat)
    requires a != "" && b != "" && a[0] != b[0]
    ensures SmallerAt(a, b, i) ==> i == 0
  {
    if 0 < i < |a| && i < |b| { assert a[..i][0] == a[0] && b[..i][0] == b[0]; }
  }

  lemma SmallerLater(a: string, b: string, i: nat)
    requires a != "" && b != "" && a[0] == b[0]
    ensures SmallerAt(a[1..], b[1..], i) <==> SmallerAt(a, b, i + 1)
  {
    if i + 1 < |a| && i + 1 < |b| {
      assert a[..i + 1] == [a[0]] + a[1..][..i] && b[..i + 1] == [b[0]] + b[1..][..i];
      assert a[..i + 1][1..] == a[1..][..i] && b[..i + 1][1..] == b[1..][..i];
    }
  }

  lemma {:induction false} LessIsTotal(a: string, b: string)
    ensures Less(a, b) || a == b || Less(b, a)
  {
    if a != "" && b != "" && a[0] == b[0] {
      LessIsTotal(a[1..], b[1..]);
      assert a == [a[0]] + a[1..] && b == [b[0]] + b[1..];
    }
  }

  lemma {:induction false} LessIsTransitive(a: string, b: string, c: string)
    requires Less(a, b) && Less(b, c)
    ensures Less(a, c)
  {
    if a != "" && a[0] == b[0] == c[0] { LessIsTransitive(a[1..], b[1..], c[1..]); }
  }

  lemma {:induction false} LessIsStrict(a: string, b: string)
    requires Less(a, b)
    ensures a != b && !Less(b, a)
  {
    if a != "" && a[0] == b[0] { LessIsStrict(a[1..], b[1..]); }
  }

  /** What lies between a prefix and a path that starts with it starts with it too. */
  lemma {:induction false} PrefixRange(prefix: string, p: string, r: string)
    requires !Less(p, prefix) && Less(p, r) && prefix <= r
    ensures prefix <= p
  {
    if prefix != "" {
      assert prefix[0] == r[0];
      assert prefix[1..] <= r[1..];
      assert p[0] == r[0];
      PrefixRange(prefix[1..], p[1..], r[1..]);
      assert p == [p[0]] + p[1..] && prefix == [prefix[0]] + prefix[1..];
    }
  }

  /** A path that starts with a prefix does not come before it. */
  lemma {:induction false} PrefixFirst(prefix: string, p: string)
    requires prefix <= p
    ensures !Less(p, prefix)
  {
    if prefix != "" {
      assert p[0] == prefix[0] && prefix[1..] <= p[1..];
      PrefixFirst(prefix[1..], p[1..]);
    }
  }

  /** Strictly in order. */
  ghost predicate Ordered(s: seq<string>) {
    forall i, j :: 0 <= i < j < |s| ==> Less(s[i], s[j])
  }

  lemma OrderedOneMore(s: seq<string>, x: string)
    requires Ordered(s) && (s != [] ==> Less(s[|s| - 1], x))
    ensures Ordered(s + [x])
  {
    hide Less;
    forall i | 0 <= i < |s| ensures Less(s[i], x) {
      if i < |s| - 1 { LessIsTransitive(s[i], s[|s| - 1], x); }
    }
  }

  lemma OrderedDistinct(s: seq<string>, i: nat, j: nat)
    requires Ordered(s) && i < |s| && j < |s| && s[i] == s[j]
    ensures i == j
  {
    if i < j { LessIsStrict(s[i], s[j]); }
    if j < i { LessIsStrict(s[j], s[i]); }
  }

  /** The paths of a set, in order. */
  method Sorted(keys: set<string>) returns (sorted: seq<string>)
    ensures Ordered(sorted) && (set p <- sorted) == keys
  {
    hide Less;
    sorted := [];
    var rest := keys;
    while rest != {}
      invariant rest <= keys && Ordered(sorted) && forall p :: p in sorted <==> p in keys - rest
      decreases |rest|
    {
      var x :| x in rest;
      sorted := Insert(sorted, x);
      rest := rest - {x};
    }
  }

  method Insert(s: seq<string>, x: string) returns (r: seq<string>)
    requires Ordered(s) && x !in s
    ensures Ordered(r) && multiset(r) == multiset(s) + multiset{x}
    ensures forall p :: p in r <==> p in s || p == x
  {
    hide Less;
    var i := |s|;
    while i > 0 && Less(x, s[i - 1])
      invariant 0 <= i <= |s| && forall j :: i <= j < |s| ==> Less(x, s[j])
    {
      i := i - 1;
    }
    r := s[..i] + [x] + s[i..];
    InsertedAt(s, x, i);
  }

  lemma InsertedAt(s: seq<string>, x: string, i: nat)
    requires Ordered(s) && x !in s && i <= |s| && (i > 0 ==> !Less(x, s[i - 1]))
    requires forall j :: i <= j < |s| ==> Less(x, s[j])
    ensures var r := s[..i] + [x] + s[i..];
            Ordered(r) && multiset(r) == multiset(s) + multiset{x} && forall p :: p in r <==> p in s || p == x
  {
    hide Less;
    if i > 0 { LessIsTotal(x, s[i - 1]); }
    var a, b := s[..i] + [x], s[i..];
    OrderedOneMore(s[..i], x);
    forall j, k | 0 <= j < |a| && 0 <= k < |b| ensures Less(a[j], b[k]) {
      if j < i { assert a[j] == s[j] && b[k] == s[i + k]; }
    }
    BothOrdered(a, b);
    assert s == s[..i] + s[i..];
    hide Ordered;
    forall p ensures p in a + b <==> p in s || p == x {
      assert p in s <==> p in s[..i] || p in s[i..];
    }
  }

  lemma BothOrdered(a: seq<string>, b: seq<string>)
    requires Ordered(a) && Ordered(b)
    requires forall j, k :: 0 <= j < |a| && 0 <= k < |b| ==> Less(a[j], b[k])
    ensures Ordered(a + b)
  {
    hide Less;
  }

  // ---- the order of a set ----

  predicate Precedes(x: string, y: string) { x == y || Less(x, y) }

  lemma {:induction false} Least(s: set<string>) returns (x: string)
    requires s != {}
    ensures x in s && forall y <- s :: Precedes(x, y)
    decreases s
  {
    hide Less;
    var z :| z in s;
    var rest := s - {z};
    x := z;
    if rest != {} {
      var least := Least(rest);
      LessIsTotal(least, z);
      if Less(least, z) {
        x := least;
      } else {
        forall y <- rest ensures Precedes(z, y) { if least != y { LessIsTransitive(z, least, y); } }
      }
    }
    assert s == rest + {z};
  }

  lemma LeastExists(s: set<string>)
    requires s != {}
    ensures exists x :: x in s && forall y <- s :: Precedes(x, y)
  {
    var x := Least(s);
  }

  /** The paths of a set, in order. */
  ghost function InOrder(s: set<string>): seq<string>
    decreases s
  {
    if s == {} then []
    else
      LeastExists(s);
      var x :| x in s && forall y <- s :: Precedes(x, y);
      [x] + InOrder(s - {x})
  }

  lemma {:induction false} InOrderIs(s: set<string>)
    ensures Ordered(InOrder(s)) && forall p :: p in InOrder(s) <==> p in s
    decreases s
  {
    hide Less;
    if s != {} {
      LeastExists(s);
      var x := InOrder(s)[0];
      InOrderIs(s - {x});
      var rest := InOrder(s - {x});
      assert InOrder(s) == [x] + rest;
      forall j | 0 <= j < |rest| ensures Less(x, rest[j]) { assert rest[j] in s - {x}; }
    }
  }

  lemma EmptyAlike(a: seq<string>, b: seq<string>)
    requires forall p :: p in a <==> p in b
    ensures a == [] <==> b == []
  {
    if a != [] { assert a[0] in b; }
    if b != [] { assert b[0] in a; }
  }

  /** There is one order of a set. */
  lemma {:induction false} OrderedUnique(a: seq<string>, b: seq<string>)
    requires Ordered(a) && Ordered(b) && forall p :: p in a <==> p in b
    ensures a == b
    decreases |a|
  {
    hide Less;
    EmptyAlike(a, b);
    if a != [] {
      assert a[0] in b && b[0] in a;
      var i :| 0 <= i < |b| && b[i] == a[0];
      var j :| 0 <= j < |a| && a[j] == b[0];
      if i > 0 && j > 0 { LessIsStrict(b[0], b[i]); }
      TailsAgree(a, b);
      OrderedUnique(a[1..], b[1..]);
      assert a == [a[0]] + a[1..] && b == [b[0]] + b[1..];
    }
  }

  lemma TailsAgree(a: seq<string>, b: seq<string>)
    requires a != [] && b != [] && Ordered(a) && Ordered(b) && a[0] == b[0] && forall p :: p in a <==> p in b
    ensures forall p :: p in a[1..] <==> p in b[1..]
  {
    hide Less;
    forall p ensures p in a[1..] <==> p in a && p != a[0] { TailIs(a, p); }
    forall p ensures p in b[1..] <==> p in b && p != b[0] { TailIs(b, p); }
  }

  lemma TailIs(a: seq<string>, p: string)
    requires a != [] && Ordered(a)
    ensures p in a[1..] <==> p in a && p != a[0]
  {
    hide Less;
    if p in a[1..] {
      var i :| 0 <= i < |a| - 1 && a[1..][i] == p;
      LessIsStrict(a[0], a[i + 1]);
    }
    if p in a && p != a[0] {
      var i :| 0 <= i < |a| && a[i] == p;
      assert a[1..][i - 1] == p;
    }
  }
}
