/** The text that a directory's hash is taken of: a line for each entry, from which the entries can be read back. */
module MerkleText {

  /** An entry of a directory: a folder or a file, its name, and its hash. */
  datatype Line = Line(kind: char, name: string, hash: string)

  function Render(l: Line): string { [l.kind] + l.name + ":" + l.hash + "\n" }

  function RenderAll(lines: seq<Line>): string {
    if lines == [] then "" else Render(lines[0]) + RenderAll(lines[1..])
  }

  /** No newline in names, and neither colon nor newline in hashes. (A name may hold colons.) */
  ghost predicate Clean(l: Line) { '\n' !in l.name && ':' !in l.hash && '\n' !in l.hash && l.kind != '\n' }

  ghost predicate AllClean(lines: seq<Line>) { forall i :: 0 <= i < |lines| ==> Clean(lines[i]) }

  /** Two texts that agree, each up to its first newline, agree after it too. */
  lemma FirstNewline(a: string, x: string, b: string, y: string)
    requires '\n' !in a && '\n' !in b && a + "\n" + x == b + "\n" + y
    ensures a == b && x == y
  {
    var s, t := a + "\n" + x, b + "\n" + y;
    assert s[|a|] == '\n' && t[|b|] == '\n';
    assert s[..|a|] == a && t[..|b|] == b;
    assert s[|a| + 1..] == x && t[|b| + 1..] == y;
  }

  /** The name and the hash of a line are told apart at its last colon. */
  lemma LastColon(a: string, x: string, b: string, y: string)
    requires ':' !in x && ':' !in y && a + ":" + x == b + ":" + y
    ensures a == b && x == y
  {
    var s, t := a + ":" + x, b + ":" + y;
    assert s[|a|] == ':' && t[|b|] == ':';
    assert s[..|a|] == a && t[..|b|] == b;
    assert s[|a| + 1..] == x && t[|b| + 1..] == y;
  }

  lemma OneLine(l: Line, m: Line, x: string, y: string)
    requires Clean(l) && Clean(m) && Render(l) + x == Render(m) + y
    ensures l == m && x == y
  {
    var a, b := [l.kind] + l.name + ":" + l.hash, [m.kind] + m.name + ":" + m.hash;
    assert a + "\n" + x == Render(l) + x && b + "\n" + y == Render(m) + y;
    FirstNewline(a, x, b, y);
    LastColon([l.kind] + l.name, l.hash, [m.kind] + m.name, m.hash);
    var c, d := [l.kind] + l.name, [m.kind] + m.name;
    assert c[0] == d[0] && c[1..] == l.name && d[1..] == m.name;
  }

  /** The entries can be read back from the text. */
  lemma {:induction false} RenderInjective(a: seq<Line>, b: seq<Line>)
    requires AllClean(a) && AllClean(b) && RenderAll(a) == RenderAll(b)
    ensures a == b
    decreases |a|
  {
    if a != [] && b != [] {
      OneLine(a[0], b[0], RenderAll(a[1..]), RenderAll(b[1..]));
      RenderInjective(a[1..], b[1..]);
      assert a == [a[0]] + a[1..] && b == [b[0]] + b[1..];
    }
  }

  lemma {:induction false} RenderAppend(a: seq<Line>, l: Line)
    ensures RenderAll(a + [l]) == RenderAll(a) + Render(l)
    decreases |a|
  {
    if a == [] {
      assert [l][1..] == [] && [] + [l] == [l];
    } else {
      assert (a + [l])[1..] == a[1..] + [l];
      RenderAppend(a[1..], l);
      assert RenderAll(a + [l]) == Render(a[0]) + (RenderAll(a[1..]) + Render(l));
    }
  }
}
