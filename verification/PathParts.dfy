/** Paths as strings, and as the parts between their slashes. */
module PathParts {
  type Parts = seq<string>

  /** The parts of a path: at least one, perhaps empty. */
  function Split(p: string): (parts: Parts)
    ensures |parts| > 0
  {
    if p == "" then [""]
    else
      var rest := Split(p[1..]);
      if p[0] == '/' then [""] + rest else [[p[0]] + rest[0]] + rest[1..]
  }

  function Join(parts: Parts): string {
    if parts == [] then "" else if |parts| == 1 then parts[0] else parts[0] + "/" + Join(parts[1..])
  }

  ghost predicate NoSlash(parts: Parts) { forall i :: 0 <= i < |parts| ==> '/' !in parts[i] }

  ghost predicate NoneEmpty(parts: Parts) { forall i :: 0 <= i < |parts| ==> parts[i] != "" }

  lemma {:induction false} SplitParts(p: string)
    ensures NoSlash(Split(p))
  {
    if p != "" {
      SplitParts(p[1..]);
      var rest := Split(p[1..]);
      assert '/' !in rest[0];
    }
  }

  lemma {:induction false} JoinSplit(p: string)
    ensures Join(Split(p)) == p
  {
    if p != "" {
      var rest := Split(p[1..]);
      JoinSplit(p[1..]);
      if p[0] == '/' {
        assert ([""] + rest)[1..] == rest;
      } else {
        var first := [p[0]] + rest[0];
        assert ([first] + rest[1..])[1..] == rest[1..];
        assert Join([first] + rest[1..]) == [p[0]] + Join(rest);
      }
    }
  }

  lemma {:induction false} SplitJoin(parts: Parts)
    requires parts != [] && NoSlash(parts)
    ensures Split(Join(parts)) == parts
    decreases |parts|
  {
    if |parts| == 1 {
      SplitWord(parts[0], "");
      assert parts[0] + "" == parts[0] && parts == [parts[0]];
    } else {
      SplitJoin(parts[1..]);
      SplitWord(parts[0], "/" + Join(parts[1..]));
      assert ("/" + Join(parts[1..]))[1..] == Join(parts[1..]);
      assert parts[0] + "/" + Join(parts[1..]) == parts[0] + ("/" + Join(parts[1..]));
      assert Split("/" + Join(parts[1..])) == [""] + parts[1..];
      assert parts[0] + "" == parts[0] && ([""] + parts[1..])[1..] == parts[1..];
      assert [parts[0]] + parts[1..] == parts;
    }
  }

  lemma {:induction false} SplitWord(w: string, rest: string)
    requires '/' !in w
    ensures Split(w + rest) == [w + Split(rest)[0]] + Split(rest)[1..]
    decreases |w|
  {
    if w == "" {
      assert w + rest == rest;
      assert w + Split(rest)[0] == Split(rest)[0];
      assert [Split(rest)[0]] + Split(rest)[1..] == Split(rest);
    } else {
      var more := Split(rest);
      SplitWord(w[1..], rest);
      assert (w + rest)[1..] == w[1..] + rest && (w + rest)[0] == w[0];
      assert ([w[1..] + more[0]] + more[1..])[1..] == more[1..];
      assert [w[0]] + (w[1..] + more[0]) == w + more[0];
    }
  }

  /** Different parts make different paths. */
  lemma JoinInjective(a: Parts, b: Parts)
    requires a != [] && b != [] && NoSlash(a) && NoSlash(b) && Join(a) == Join(b)
    ensures a == b
  {
    SplitJoin(a);
    SplitJoin(b);
  }

  lemma JoinAppend(a: Parts, b: Parts)
    requires b != []
    ensures Join(a + b) == if a == [] then Join(b) else Join(a) + "/" + Join(b)
    decreases |a|
  {
    if a == [] {
      assert a + b == b;
    } else if |a| == 1 {
      assert (a + b)[1..] == b;
    } else {
      assert (a + b)[1..] == a[1..] + b;
      JoinAppend(a[1..], b);
      assert Join(a + b) == a[0] + "/" + (Join(a[1..]) + "/" + Join(b));
      assert Join(a) + "/" + Join(b) == a[0] + "/" + Join(a[1..]) + "/" + Join(b);
    }
  }

  lemma JoinNotEmpty(a: Parts)
    requires a != [] && NoneEmpty(a)
    ensures Join(a) != ""
  {
    if |a| == 1 { assert a[0] != ""; }
  }
}
