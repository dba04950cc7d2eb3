/** The ignore files of a tree: what one folder's patterns say of a path, which folder's file decides, and a table that
    judges any path without walking the tree, proved to agree with the walk. */
module IgnoreFiles {
  import opened Common
  import opened GlobPattern
  import WildMatch

  datatype Pattern = Pattern(glob: string, negate: bool, dirOnly: bool, anchored: bool)

  /** One folder's patterns; baseRel is the folder ("" for the root). */
  datatype IgnoreFile = IgnoreFile(baseRel: string, patterns: seq<Pattern>)

  // ---- one line ----

  /** How many characters are left without the trailing spaces that no backslash escapes. */
  function Trimmed(line: string): (end: nat)
    ensures end <= |line|
  {
    if line == "" || line[|line| - 1] != ' ' || (|line| >= 2 && line[|line| - 2] == '\\') then |line|
    else Trimmed(line[..|line| - 1])
  }

  function TrimReturns(line: string): (r: string)
    ensures |r| <= |line| && r == line[..|r|]
    ensures r != "" ==> r[|r| - 1] != '\r'
  {
    if line != "" && line[|line| - 1] == '\r' then TrimReturns(line[..|line| - 1]) else line
  }

  function AfterBang(line: string): string { if line != "" && line[0] == '!' then line[1..] else line }

  function BeforeSlash(line: string): string {
    if line != "" && line[|line| - 1] == '/' then line[..|line| - 1] else line
  }

  function AfterSlash(line: string): string { if line != "" && line[0] == '/' then line[1..] else line }

  /** What the markers of a line say, once its ends are trimmed. */
  function ReadMarkers(trimmed: string): Option<Pattern> {
    var line := AfterBang(trimmed);
    var path := BeforeSlash(line);
    var glob := AfterSlash(path);
    if glob == "" then None else Some(Pattern(glob, |line| < |trimmed|, |path| < |line|, '/' in path))
  }

  /** The pattern a line stands for, if any. */
  function ParseLine(raw: string): Option<Pattern> {
    var line := TrimReturns(raw);
    if line == "" || line[0] == '#' then None else ReadMarkers(line[..Trimmed(line)])
  }

  method TryParseLine(raw: string) returns (pattern: Option<Pattern>)
    ensures pattern == ParseLine(raw)
  {
    var line := TrimReturns(raw);
    if line == "" || line[0] == '#' { return None; }
    line := TrimEnd(line);
    pattern := TakeMarkers(line);
  }

  method TrimEnd(line: string) returns (trimmed: string)
    ensures trimmed == line[..Trimmed(line)]
  {
    var end := |line|;
    assert line[..end] == line;
    while end > 0 && line[end - 1] == ' ' && !(end >= 2 && line[end - 2] == '\\')
      invariant 0 <= end <= |line| && Trimmed(line[..end]) == Trimmed(line)
    {
      assert line[..end][..end - 1] == line[..end - 1];
      end := end - 1;
    }
    trimmed := line[..end];
  }

  method TakeMarkers(trimmed: string) returns (pattern: Option<Pattern>)
    ensures pattern == ReadMarkers(trimmed)
  {
    var line, negate, dirOnly := trimmed, false, false;
    if |line| > 0 && line[0] == '!' { negate := true; line := line[1..]; }
    if |line| > 0 && line[|line| - 1] == '/' { dirOnly := true; line := line[..|line| - 1]; }
    var anchored := '/' in line;
    if |line| > 0 && line[0] == '/' { line := line[1..]; }
    if line == "" { return None; }
    return Some(Pattern(line, negate, dirOnly, anchored));
  }

  function Rooted(glob: string, rooted: bool): string { if rooted then "/" + glob else glob }

  function Ended(line: string, dirOnly: bool): string { if dirOnly then line + "/" else line }

  function Banged(line: string, negate: bool): string { if negate then "!" + line else line }

  /** A line (its ends trimmed) spells a pattern: it is the glob with the pattern's markers around it (`rooted`: a
      slash in front), and nothing of it could be read as a marker that the pattern does not have. It is anchored
      where a slash comes before its last character. */
  predicate Spells(line: string, p: Pattern, rooted: bool) {
    var path := Rooted(p.glob, rooted);
    && line == Banged(Ended(path, p.dirOnly), p.negate) && p.glob != "" && (p.anchored <==> '/' in path)
    && (!rooted ==> p.glob[0] != '/')
    && (!p.dirOnly ==> path[|path| - 1] != '/')
    && (!p.negate ==> Ended(path, p.dirOnly)[0] != '!')
  }

  /** A pattern spelled with its markers is read back, and no other is. */
  lemma MarkersSpelled(line: string, p: Pattern)
    ensures ReadMarkers(line) == Some(p) <==> Spells(line, p, false) || Spells(line, p, true)
  {
    MarkersSpell(line);
    if Spells(line, p, false) { SpellsBack(line, p, false); }
    if Spells(line, p, true) { SpellsBack(line, p, true); }
  }

  lemma RootedBack(glob: string, rooted: bool)
    requires glob != "" && (!rooted ==> glob[0] != '/')
    ensures AfterSlash(Rooted(glob, rooted)) == glob
  {}

  lemma EndedBack(path: string, dirOnly: bool)
    requires path != "" && (!dirOnly ==> path[|path| - 1] != '/')
    ensures BeforeSlash(Ended(path, dirOnly)) == path && (|path| < |Ended(path, dirOnly)| <==> dirOnly)
  {}

  lemma BangedBack(line: string, negate: bool)
    requires line != "" && (!negate ==> line[0] != '!')
    ensures AfterBang(Banged(line, negate)) == line && (|line| < |Banged(line, negate)| <==> negate)
  {}

  lemma SpellsBack(line: string, p: Pattern, rooted: bool)
    requires Spells(line, p, rooted)
    ensures ReadMarkers(line) == Some(p)
  {
    var path := Rooted(p.glob, rooted);
    RootedBack(p.glob, rooted);
    EndedBack(path, p.dirOnly);
    BangedBack(Ended(path, p.dirOnly), p.negate);
    hide AfterBang, BeforeSlash, AfterSlash, Banged, Ended, Rooted;
  }

  lemma Marks(line: string)
    ensures line != "" && line[0] == '!' ==> line == Banged(AfterBang(line), true) && |AfterBang(line)| < |line|
    ensures line == "" || line[0] != '!' ==> line == AfterBang(line)
    ensures line != "" && line[|line| - 1] == '/' ==>
              line == Ended(BeforeSlash(line), true) && |BeforeSlash(line)| < |line|
    ensures line == "" || line[|line| - 1] != '/' ==> line == BeforeSlash(line)
    ensures line != "" && line[0] == '/' ==> line == Rooted(AfterSlash(line), true)
    ensures line == "" || line[0] != '/' ==> line == AfterSlash(line)
  {}

  lemma MarkersSpell(line: string)
    ensures var r := ReadMarkers(line); r.Some? ==> Spells(line, r.value, false) || Spells(line, r.value, true)
  {
    Marks(line);
    Marks(AfterBang(line));
    Marks(BeforeSlash(AfterBang(line)));
    hide AfterBang, BeforeSlash, AfterSlash;
    var path := BeforeSlash(AfterBang(line));
    if path != "" { assert path == Rooted(AfterSlash(path), path[0] == '/'); }
  }

  /** What is trimmed is exactly the trailing spaces after the last character that is no space, or that escapes one. */
  lemma {:induction false} TrimmedEnd(line: string)
    ensures var end := Trimmed(line);
            && (forall k :: end <= k < |line| ==> line[k] == ' ')
            && (end > 0 && line[end - 1] == ' ' ==> end >= 2 && line[end - 2] == '\\')
  {
    if Trimmed(line) < |line| {
      TrimmedEnd(line[..|line| - 1]);
    }
  }

  function Repeated(c: char, n: nat): string { seq(n, _ => c) }

  /** The line is a body, then spaces that are not part of it, then carriage returns. */
  predicate Framed(raw: string, body: string, spaces: nat, breaks: nat) {
    && raw == body + Repeated(' ', spaces) + Repeated('\r', breaks)
    && body != "" && (body[|body| - 1] == ' ' ==> |body| >= 2 && body[|body| - 2] == '\\')
    && (spaces > 0 ==> body[|body| - 1] != '\\') && (spaces == 0 ==> body[|body| - 1] != '\r')
  }

  lemma {:induction false} ReturnsGo(line: string, n: nat)
    requires line == "" || line[|line| - 1] != '\r'
    ensures TrimReturns(line + Repeated('\r', n)) == line
  {
    var all := line + Repeated('\r', n);
    if n > 0 {
      assert all[..|all| - 1] == line + Repeated('\r', n - 1);
      ReturnsGo(line, n - 1);
    } else {
      assert all == line;
    }
  }

  lemma {:induction false} ReturnsWent(raw: string)
    ensures var r := TrimReturns(raw); raw == r + Repeated('\r', |raw| - |r|)
  {
    if raw != "" && raw[|raw| - 1] == '\r' {
      ReturnsWent(raw[..|raw| - 1]);
      assert raw == raw[..|raw| - 1] + "\r";
    }
  }

  lemma {:induction false} SpacesGo(body: string, n: nat)
    requires body != "" && (body[|body| - 1] == ' ' ==> |body| >= 2 && body[|body| - 2] == '\\')
    requires n > 0 ==> body[|body| - 1] != '\\'
    ensures Trimmed(body + Repeated(' ', n)) == |body|
  {
    var all := body + Repeated(' ', n);
    if n > 0 {
      assert all[..|all| - 1] == body + Repeated(' ', n - 1);
      SpacesGo(body, n - 1);
    } else {
      assert all == body;
    }
  }

  lemma {:induction false} SpacesWent(line: string)
    ensures var end := Trimmed(line);
            && line == line[..end] + Repeated(' ', |line| - end)
            && (0 < end < |line| ==> line[end - 1] != '\\')
  {
    if Trimmed(line) < |line| {
      SpacesWent(line[..|line| - 1]);
      assert line == line[..|line| - 1] + " ";
    }
  }

  lemma FramedIs(raw: string, body: string, spaces: nat, breaks: nat)
    requires Framed(raw, body, spaces, breaks)
    ensures TrimReturns(raw) == body + Repeated(' ', spaces) && TrimReturns(raw)[..Trimmed(TrimReturns(raw))] == body
  {
    ReturnsGo(body + Repeated(' ', spaces), breaks);
    SpacesGo(body, spaces);
  }

  lemma IsFramed(raw: string)
    ensures var line := TrimReturns(raw); var body := line[..Trimmed(line)];
            body != "" ==> Framed(raw, body, |line| - |body|, |raw| - |line|)
  {
    ReturnsWent(raw);
    SpacesWent(TrimReturns(raw));
    TrimmedEnd(TrimReturns(raw));
  }

  /** The body of a line writes a pattern: it is no comment, and spells it. */
  predicate Writes(body: string, p: Pattern) {
    body != "" && body[0] != '#' && (Spells(body, p, false) || Spells(body, p, true))
  }

  lemma WrittenParses(raw: string, body: string, spaces: nat, breaks: nat, p: Pattern)
    requires Framed(raw, body, spaces, breaks) && Writes(body, p)
    ensures ParseLine(raw) == Some(p)
  {
    FramedIs(raw, body, spaces, breaks);
    MarkersSpelled(body, p);
    hide Spells, ReadMarkers, Trimmed, TrimReturns;
  }

  lemma ParsedIsWritten(raw: string, p: Pattern)
    requires ParseLine(raw) == Some(p)
    ensures var line := TrimReturns(raw); var body := line[..Trimmed(line)];
            Framed(raw, body, |line| - |body|, |raw| - |line|) && Writes(body, p)
  {
    var line := TrimReturns(raw);
    IsFramed(raw);
    MarkersSpelled(line[..Trimmed(line)], p);
    assert ReadMarkers("").None?;
    hide Framed, Spells, ReadMarkers, Trimmed, TrimReturns;
  }

  /** A line gives a pattern exactly if what is left of it, its ends trimmed, writes the pattern. */
  lemma SpelledIsParsed(raw: string, p: Pattern)
    ensures ParseLine(raw) == Some(p) <==>
            exists body, spaces, breaks :: Framed(raw, body, spaces, breaks) && Writes(body, p)
  {
    hide *;
    forall body, spaces, breaks | Framed(raw, body, spaces, breaks) && Writes(body, p)
      ensures ParseLine(raw) == Some(p)
    {
      WrittenParses(raw, body, spaces, breaks, p);
    }
    if ParseLine(raw) == Some(p) {
      ParsedIsWritten(raw, p);
    }
  }

  // ---- one folder's patterns ----

  function LastSlash(s: string): (i: int)
    ensures -1 <= i < |s|
    ensures i >= 0 ==> s[i] == '/'
    ensures forall k :: i < k < |s| ==> s[k] != '/'
  {
    if s == "" then -1 else if s[|s| - 1] == '/' then |s| - 1 else LastSlash(s[..|s| - 1])
  }

  function Name(rel: string): string { rel[LastSlash(rel) + 1..] }

  /** The folder a path is in ("" for the root). */
  function Parent(rel: string): (p: string)
    ensures |p| < |rel| || rel == ""
  {
    if LastSlash(rel) < 0 then "" else rel[..LastSlash(rel)]
  }

  lemma NoSlashNoParent(rel: string)
    requires '/' !in rel
    ensures Parent(rel) == ""
  {}

  /** A path made relative to a folder above it. */
  function RelFrom(baseRel: string, rel: string): string {
    if baseRel == "" then rel else if |baseRel| + 1 <= |rel| then rel[|baseRel| + 1..] else ""
  }

  ghost predicate Applies(cs: Casing, p: Pattern, rel: string, isDir: bool) {
    (p.dirOnly ==> isDir) && Matches(cs, p.glob, if p.anchored then rel else Name(rel))
  }

  /** Is pattern i the last one that applies? */
  ghost predicate Last(cs: Casing, f: IgnoreFile, rel: string, isDir: bool, i: nat) {
    && i < |f.patterns|
    && Applies(cs, f.patterns[i], rel, isDir)
    && forall j :: i < j < |f.patterns| ==> !Applies(cs, f.patterns[j], rel, isDir)
  }

  /** What an ignore file says of a path in its folder: the last pattern that applies decides; None where none does. */
  ghost function Verdict(cs: Casing, f: IgnoreFile, rel: string, isDir: bool): Option<bool> {
    if i: nat :| Last(cs, f, rel, isDir, i) then Some(!f.patterns[i].negate) else None
  }

  lemma VerdictIs(cs: Casing, f: IgnoreFile, rel: string, isDir: bool, i: nat)
    requires Last(cs, f, rel, isDir, i)
    ensures Verdict(cs, f, rel, isDir) == Some(!f.patterns[i].negate)
  {
    forall k: nat | Last(cs, f, rel, isDir, k) ensures k == i {}
  }

  method Match(cs: Casing, f: IgnoreFile, rel: string, isDir: bool) returns (verdict: Option<bool>)
    requires cs.Valid() && '\0' !in rel
    ensures verdict == Verdict(cs, f, rel, isDir)
  {
    var name := Name(rel);
    var i := |f.patterns| - 1;
    while i >= 0
      invariant -1 <= i < |f.patterns|
      invariant forall j :: i < j < |f.patterns| ==> !Applies(cs, f.patterns[j], rel, isDir)
    {
      var p := f.patterns[i];
      if !(p.dirOnly && !isDir) {
        var r := WildMatch.Search(cs, p.glob, if p.anchored then rel else name);
        if r == WildMatch.Matched {
          VerdictIs(cs, f, rel, isDir, i);
          return Some(!p.negate);
        }
      }
      i := i - 1;
    }
    return None;
  }
}
