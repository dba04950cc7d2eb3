/** git's wildmatch as the ignore files use it: a search with two abort codes that prune it, proved to answer exactly
    what the pattern means. */
module WildMatch {
  import opened Common
  import opened GlobPattern

  datatype Code = Matched | NoMatch | AbortAll | AbortToStarStar

  // ---- what the abort codes promise ----

  /** Is j a place the rest of a pattern may be tried from: at or after `from`, and after a slash if it must be? */
  ghost predicate Place(text: string, from: nat, afterSlash: bool, j: int) {
    from <= j <= |text| && (afterSlash ==> 0 < j && text[j - 1] == '/')
  }

  /** No suffix of the text, from such a place on, matches. */
  ghost predicate NoSuffix(cs: Casing, tokens: seq<Token>, text: string, from: nat, afterSlash: bool) {
    forall j {:trigger MatchFrom(cs, tokens, text, j)} :: Place(text, from, afterSlash, j) ==>
      !MatchFrom(cs, tokens, text, j)
  }

  /** No suffix that starts before the next slash (or at it) matches. */
  ghost predicate NoneInSegment(cs: Casing, tokens: seq<Token>, text: string, from: nat) {
    forall j {:trigger MatchFrom(cs, tokens, text, j)} ::
      from <= j <= |text| && SlashFree(text[from..j]) ==> !MatchFrom(cs, tokens, text, j)
  }

  predicate OneChar(token: Token) { token.Lit? || token.Any? || token.Class? || token.Bad? }

  // ---- unfolding the meaning ----

  lemma MatchOneChar(cs: Casing, token: Token, rest: seq<Token>, text: string, i: nat)
    requires OneChar(token) && i <= |text|
    ensures MatchFrom(cs, [token] + rest, text, i) <==>
            i < |text| && Takes(cs, token, text[i..i + 1]) && MatchFrom(cs, rest, text, i + 1)
  {
    var tokens := [token] + rest;
    assert tokens[0] == token && tokens[1..] == rest;
  }

  lemma MatchStar(cs: Casing, rest: seq<Token>, text: string, i: nat)
    requires i <= |text|
    ensures MatchFrom(cs, [Star] + rest, text, i) <==>
            exists k :: i <= k <= |text| && SlashFree(text[i..k]) && MatchFrom(cs, rest, text, k)
  {
    var tokens := [Star] + rest;
    assert tokens[0] == Star && tokens[1..] == rest;
  }

  lemma MatchStarStar(cs: Casing, rest: seq<Token>, text: string, i: nat)
    requires i <= |text|
    ensures MatchFrom(cs, [StarStar] + rest, text, i) <==> exists k :: i <= k <= |text| && MatchFrom(cs, rest, text, k)
  {
    var tokens := [StarStar] + rest;
    assert tokens[0] == StarStar && tokens[1..] == rest;
    if k :| i <= k <= |text| && MatchFrom(cs, rest, text, k) {
      assert Takes(cs, tokens[0], text[i..k]) && MatchFrom(cs, tokens[1..], text, k);
    }
  }

  lemma MatchFolders(cs: Casing, rest: seq<Token>, text: string, i: nat)
    requires i <= |text| && cs.Valid()
    ensures MatchFrom(cs, [Folders] + rest, text, i) <==>
            MatchFrom(cs, rest, text, i) || exists k :: i <= k <= |text| && MatchFrom(cs, [Lit('/')] + rest, text, k)
  {
    var tokens := [Folders] + rest;
    assert tokens[0] == Folders && tokens[1..] == rest;
    if MatchFrom(cs, tokens, text, i) && !MatchFrom(cs, rest, text, i) {
      var k :| i <= k <= |text| && Takes(cs, Folders, text[i..k]) && MatchFrom(cs, rest, text, k);
      assert text[k - 1] == '/' && text[k - 1..k][0] == '/';
      MatchOneChar(cs, Lit('/'), rest, text, k - 1);
    }
    if MatchFrom(cs, rest, text, i) {
      assert Takes(cs, Folders, text[i..i]);
    }
    if k :| i <= k <= |text| && MatchFrom(cs, [Lit('/')] + rest, text, k) {
      FoldersTake(cs, rest, text, i, k);
    }
  }

  lemma FoldersTake(cs: Casing, rest: seq<Token>, text: string, i: nat, k: nat)
    requires i <= k <= |text| && cs.Valid() && MatchFrom(cs, [Lit('/')] + rest, text, k)
    ensures k < |text| && Takes(cs, Folders, text[i..k + 1]) && MatchFrom(cs, rest, text, k + 1)
    ensures MatchFrom(cs, [Folders] + rest, text, i)
  {
    var tokens := [Folders] + rest;
    assert tokens[0] == Folders && tokens[1..] == rest;
    MatchOneChar(cs, Lit('/'), rest, text, k);
    SlashAlone(cs, text[k]);
    assert text[i..k + 1][k - i] == text[k] && text[k..k + 1][0] == text[k];
  }

  lemma SlashAlone(cs: Casing, c: char)
    requires cs.Valid()
    ensures cs.Fold(c) == cs.Fold('/') ==> c == '/'
    ensures cs.Fold(c) == cs.Fold('\0') ==> c == '\0'
  {}

  /** Matching a suffix, as a text of its own, is matching the text from there. */
  lemma {:induction false} MatchShift(cs: Casing, tokens: seq<Token>, text: string, i: nat, j: nat)
    requires i <= |text| && j <= |text| - i
    ensures MatchFrom(cs, tokens, text[i..], j) <==> MatchFrom(cs, tokens, text, i + j)
    decreases tokens
  {
    if tokens != [] {
      var tail := text[i..];
      forall k | j <= k <= |tail|
        ensures tail[j..k] == text[i + j..i + k]
        ensures MatchFrom(cs, tokens[1..], tail, k) <==> MatchFrom(cs, tokens[1..], text, i + k)
      {
        MatchShift(cs, tokens[1..], text, i, k);
      }
      if m :| i + j <= m <= |text| && Takes(cs, tokens[0], text[i + j..m]) && MatchFrom(cs, tokens[1..], text, m) {
        assert tail[j..m - i] == text[i + j..m];
      }
    }
  }

  /** The tokens of a pattern that does not start with '*' start with a one-character token, whatever came before. */
  lemma FirstToken(cs: Casing, p: string, atStart: bool)
    requires p != "" && p[0] != '*'
    ensures Parse(cs, p, atStart) == Parse(cs, p, true) != []
    ensures OneChar(Parse(cs, p, atStart)[0])
  {}

  lemma NeedsACharacter(cs: Casing, p: string, text: string)
    requires p != "" && p[0] != '*'
    ensures !MatchFrom(cs, Parse(cs, p, true), text, |text|)
  {
    FirstToken(cs, p, true);
    var tokens := Parse(cs, p, true);
    assert tokens == [tokens[0]] + tokens[1..];
    MatchOneChar(cs, tokens[0], tokens[1..], text, |text|);
  }

  lemma SlashFreeRange(text: string, i: nat, j: nat)
    requires i <= |text| && j <= |text|
    ensures i <= j ==> (SlashFree(text[i..j]) <==> forall k | i <= k < j :: text[k] != '/')
  {
    if i <= j && SlashFree(text[i..j]) {
      forall k | i <= k < j ensures text[k] != '/' {
        assert text[i..j][k - i] == text[k];
      }
    }
  }

  // ---- one pass of the loop: tokens that stand for one character, and '*' just before a slash ----

  /** Having matched up to text[ti], the rest of the pattern stands for the whole: it matches here exactly when the
      whole pattern matches, and where it matches nowhere further on, the whole matches no suffix. */
  ghost predicate Stands(cs: Casing, whole: seq<Token>, rest: seq<Token>, text: string, ti: nat, afterSlash: bool)
    requires ti <= |text|
  {
    && (MatchFrom(cs, whole, text, 0) <==> MatchFrom(cs, rest, text, ti))
    && (NoSuffix(cs, rest, text, ti, afterSlash) ==> NoSuffix(cs, whole, text, 0, false))
    && (NoneInSegment(cs, rest, text, ti) ==> NoneInSegment(cs, whole, text, 0))
  }

  lemma StepOneChar(cs: Casing, token: Token, rest: seq<Token>, text: string, ti: nat, afterSlash: bool)
    requires cs.Valid() && OneChar(token) && ti < |text| && Takes(cs, token, text[ti..ti + 1])
    ensures MatchFrom(cs, [token] + rest, text, ti) <==> MatchFrom(cs, rest, text, ti + 1)
    ensures NoSuffix(cs, rest, text, ti + 1, token == Lit('/')) ==> NoSuffix(cs, [token] + rest, text, ti, afterSlash)
    ensures NoneInSegment(cs, rest, text, ti + 1) ==> NoneInSegment(cs, [token] + rest, text, ti)
  {
    MatchOneChar(cs, token, rest, text, ti);
    if NoSuffix(cs, rest, text, ti + 1, token == Lit('/')) {
      forall j | Place(text, ti, afterSlash, j)
        ensures !MatchFrom(cs, [token] + rest, text, j)
      {
        MatchOneChar(cs, token, rest, text, j);
        if MatchFrom(cs, [token] + rest, text, j) {
          SlashAlone(cs, text[j]);
          assert Place(text, ti + 1, token == Lit('/'), j + 1);
        }
      }
    }
    if NoneInSegment(cs, rest, text, ti + 1) {
      StepInSegment(cs, token, rest, text, ti);
    }
  }

  lemma StepInSegment(cs: Casing, token: Token, rest: seq<Token>, text: string, ti: nat)
    requires cs.Valid() && OneChar(token) && ti < |text| && Takes(cs, token, text[ti..ti + 1])
    requires NoneInSegment(cs, rest, text, ti + 1)
    ensures NoneInSegment(cs, [token] + rest, text, ti)
  {
    forall j | ti <= j <= |text| && SlashFree(text[ti..j])
      ensures !MatchFrom(cs, [token] + rest, text, j)
    {
      MatchOneChar(cs, token, rest, text, j);
      if MatchFrom(cs, [token] + rest, text, j) {
        SlashAlone(cs, text[ti]);
        SlashAlone(cs, text[j]);
        SlashFreeRange(text, ti, j);
      }
    }
  }

  /** '*' just before a slash takes the rest of the path segment. */
  lemma StepStarSlash(cs: Casing, rest: seq<Token>, text: string, ti: nat, slash: nat, afterSlash: bool)
    requires cs.Valid() && ti <= slash < |text| && SlashFree(text[ti..slash]) && text[slash] == '/'
    ensures MatchFrom(cs, [Star, Lit('/')] + rest, text, ti) <==> MatchFrom(cs, rest, text, slash + 1)
    ensures NoSuffix(cs, rest, text, slash + 1, true) ==> NoSuffix(cs, [Star, Lit('/')] + rest, text, ti, afterSlash)
    ensures NoneInSegment(cs, rest, text, slash + 1) ==> NoneInSegment(cs, [Star, Lit('/')] + rest, text, ti)
  {
    var tokens := [Star, Lit('/')] + rest;
    StarSlashMatches(cs, rest, text, ti, slash);
    forall j | ti <= j <= |text| && MatchFrom(cs, tokens, text, j)
      ensures exists k :: Place(text, slash + 1, true, k) && MatchFrom(cs, rest, text, k)
      ensures SlashFree(text[ti..j]) ==> MatchFrom(cs, rest, text, slash + 1)
    {
      var k := StarSlashSplit(cs, rest, text, j);
      SlashFreeRange(text, ti, slash);
      SlashFreeRange(text, ti, j);
      SlashFreeRange(text, j, k);
      assert k >= slash;
      assert Place(text, slash + 1, true, k + 1);
    }
    assert SlashFree(text[slash + 1..slash + 1]);
  }

  lemma StarSlashSplit(cs: Casing, rest: seq<Token>, text: string, j: nat) returns (k: nat)
    requires cs.Valid() && j <= |text| && MatchFrom(cs, [Star, Lit('/')] + rest, text, j)
    ensures j <= k < |text| && SlashFree(text[j..k]) && text[k] == '/' && MatchFrom(cs, rest, text, k + 1)
  {
    assert [Star, Lit('/')] + rest == [Star] + ([Lit('/')] + rest);
    MatchStar(cs, [Lit('/')] + rest, text, j);
    k :| j <= k <= |text| && SlashFree(text[j..k]) && MatchFrom(cs, [Lit('/')] + rest, text, k);
    MatchOneChar(cs, Lit('/'), rest, text, k);
    SlashAlone(cs, text[k]);
  }

  lemma StarSlashMatches(cs: Casing, rest: seq<Token>, text: string, ti: nat, slash: nat)
    requires cs.Valid() && ti <= slash < |text| && SlashFree(text[ti..slash]) && text[slash] == '/'
    ensures MatchFrom(cs, [Star, Lit('/')] + rest, text, ti) <==> MatchFrom(cs, rest, text, slash + 1)
  {
    assert [Star, Lit('/')] + rest == [Star] + ([Lit('/')] + rest);
    MatchStar(cs, [Lit('/')] + rest, text, ti);
    MatchOneChar(cs, Lit('/'), rest, text, slash);
    if MatchFrom(cs, [Star, Lit('/')] + rest, text, ti) {
      var k := StarSlashSplit(cs, rest, text, ti);
      SlashFreeRange(text, ti, slash);
      SlashFreeRange(text, ti, k);
      assert k == slash;
    }
  }

  // ---- bracket expressions ----

  function Prefixed(items: seq<Item>, rest: Option<(seq<Item>, nat)>): Option<(seq<Item>, nat)> {
    match rest
    case None => None
    case Some((more, end)) => Some((items + more, end))
  }

  lemma PrefixedStep(cs: Casing, items: seq<Item>, p: string, i: nat, prevC: char)
    requires ReadItem(cs, p, i, prevC).Some?
    ensures var r := ReadItem(cs, p, i, prevC).value;
            Prefixed(items, ReadItems(cs, p, i, prevC)) ==
            if At(p, r.next) == ']' then Some((items + [r.item], r.next + 1))
            else Prefixed(items + [r.item], ReadItems(cs, p, r.next, r.prev))
  {
    var r := ReadItem(cs, p, i, prevC).value;
    if At(p, r.next) != ']' && ReadItems(cs, p, r.next, r.prev).Some? {
      var more := ReadItems(cs, p, r.next, r.prev).value.0;
      assert items + ([r.item] + more) == items + [r.item] + more;
    }
  }

  lemma SomeHoldsOneMore(cs: Casing, items: seq<Item>, item: Item, c: char)
    ensures SomeHolds(cs, items + [item], c) <==> SomeHolds(cs, items, c) || ItemHolds(cs, item, c)
  {
    var all := items + [item];
    assert all[|items|] == item;
    if k :| 0 <= k < |items| && ItemHolds(cs, items[k], c) {
      assert all[k] == items[k];
    }
  }

  lemma UnknownClass(cs: Casing, name: string, c: char, d: char)
    ensures ClassMatches(cs, name, c).None? <==> ClassMatches(cs, name, d).None?
  {}

  /** Reads the item at index pc of a bracket expression and asks it about the character tc. */
  method ScanItem(cs: Casing, p: string, pi: nat, prevC: char, tc: char)
    returns (ok: bool, next: nat, prev: char, hit: bool)
    ensures ok <==> ReadItem(cs, p, pi, prevC).Some?
    ensures ok ==>
              var r := ReadItem(cs, p, pi, prevC).value;
              r.next == next && r.prev == prev && hit == ItemHolds(cs, r.item, tc)
  {
    var pc := At(p, pi);
    next, prev, hit := pi + 1, pc, false;
    if pc == '\0' { return false, next, prev, hit; }
    if pc == '\\' {
      pc := At(p, pi + 1);
      if pc == '\0' { return false, next, prev, hit; }
      next, prev, hit := pi + 2, pc, cs.Fold(tc) == cs.Fold(pc);
    } else if pc == '[' && At(p, pi + 1) == ':' {
      var start := pi + 2;
      var close := start;
      while At(p, close) != '\0' && At(p, close) != ']'
        invariant start <= close && CloseFrom(p, close) == CloseFrom(p, start)
        decreases |p| - close
      {
        close := close + 1;
      }
      if close >= |p| { return false, next, prev, hit; }
      if close - 1 < start || p[close - 1] != ':' {
        hit := tc == '[';
      } else {
        UnknownClass(cs, p[start..close - 1], cs.Fold(tc), 'a');
        match ClassMatches(cs, p[start..close - 1], cs.Fold(tc)) {
          case None => return false, next, prev, hit;
          case Some(b) => hit := b;
        }
        next, prev := close + 1, '\0';
      }
    } else if pc == '-' && prevC != '\0' && At(p, pi + 1) != '\0' && At(p, pi + 1) != ']' {
      pc, next := At(p, pi + 1), pi + 2;
      if pc == '\\' {
        pc, next := At(p, pi + 2), pi + 3;
        if pc == '\0' { return false, next, prev, hit; }
      }
      hit := (tc >= prevC && tc <= pc)
        || (cs.ignoreCase && cs.Fold(tc) >= cs.Fold(prevC) && cs.Fold(tc) <= cs.Fold(pc));
      prev := '\0';
    } else {
      hit := cs.Fold(tc) == cs.Fold(pc);
    }
    ok := true;
  }

  /** Reads the bracket expression that opens at p[0] and asks it about tc. closed: it could be read to its ']'. */
  method ScanClass(cs: Casing, p: string, tc: char) returns (closed: bool, end: nat, negated: bool, hit: bool)
    requires p != "" && p[0] == '['
    ensures closed <==> ReadClass(cs, p).0.Class?
    ensures !closed ==> ReadClass(cs, p).0 == Bad
    ensures closed ==> end == ReadClass(cs, p).1 && negated == ReadClass(cs, p).0.negated
    ensures closed ==> hit == SomeHolds(cs, ReadClass(cs, p).0.items, tc)
  {
    var i := 1;
    negated := At(p, 1) == '!' || At(p, 1) == '^';
    if negated { i := 2; }
    var prevC := '\0';
    hit := false;
    closed, end := false, 0;
    ghost var items: seq<Item> := [];
    ghost var whole := ReadItems(cs, p, i, '\0');
    assert whole.Some? ==> [] + whole.value.0 == whole.value.0;
    while true
      invariant whole == Prefixed(items, ReadItems(cs, p, i, prevC))
      invariant hit == SomeHolds(cs, items, tc)
      invariant !closed
      decreases |p| - i
    {
      ghost var item := ReadItem(cs, p, i, prevC);
      var ok, next, prev, one := ScanItem(cs, p, i, prevC, tc);
      if !ok { return; }
      SomeHoldsOneMore(cs, items, item.value.item, tc);
      PrefixedStep(cs, items, p, i, prevC);
      items := items + [item.value.item];
      hit := hit || one;
      i, prevC := next, prev;
      if At(p, i) == ']' {
        closed, end := true, i + 1;
        return;
      }
    }
  }

  // ---- the search ----

  lemma Lift(cs: Casing, tokens: seq<Token>, text: string, ti: nat)
    requires ti <= |text|
    ensures MatchFrom(cs, tokens, text[ti..], 0) <==> MatchFrom(cs, tokens, text, ti)
    ensures NoSuffix(cs, tokens, text[ti..], 0, false) ==> NoSuffix(cs, tokens, text, ti, false)
    ensures NoneInSegment(cs, tokens, text[ti..], 0) ==> NoneInSegment(cs, tokens, text, ti)
  {
    hide NoSuffix, NoneInSegment;
    MatchShift(cs, tokens, text, ti, 0);
    if NoSuffix(cs, tokens, text[ti..], 0, false) { LiftNoSuffix(cs, tokens, text, ti); }
    if NoneInSegment(cs, tokens, text[ti..], 0) { LiftNoneInSegment(cs, tokens, text, ti); }
  }

  lemma LiftNoSuffix(cs: Casing, tokens: seq<Token>, text: string, ti: nat)
    requires ti <= |text| && NoSuffix(cs, tokens, text[ti..], 0, false)
    ensures NoSuffix(cs, tokens, text, ti, false)
  {
    forall j | Place(text, ti, false, j) ensures !MatchFrom(cs, tokens, text, j) {
      MatchShift(cs, tokens, text, ti, j - ti);
      assert Place(text[ti..], 0, false, j - ti);
    }
  }

  lemma LiftNoneInSegment(cs: Casing, tokens: seq<Token>, text: string, ti: nat)
    requires ti <= |text| && NoneInSegment(cs, tokens, text[ti..], 0)
    ensures NoneInSegment(cs, tokens, text, ti)
  {
    forall j | ti <= j <= |text| && SlashFree(text[ti..j]) ensures !MatchFrom(cs, tokens, text, j) {
      MatchShift(cs, tokens, text, ti, j - ti);
      assert text[ti..][0..j - ti] == text[ti..j];
    }
  }

  /** What trying the rest of a pattern at every place from ti on (in this segment, or anywhere) may answer. */
  ghost predicate Tried(cs: Casing, tokens: seq<Token>, text: string, ti: nat, matchSlash: bool, r: Code)
    requires ti <= |text|
  {
    match r
    case Matched => exists k ::
         ti <= k <= |text| && (matchSlash || SlashFree(text[ti..k])) && MatchFrom(cs, tokens, text, k)
    case NoMatch => false
    case AbortAll => NoSuffix(cs, tokens, text, ti, false)
    case AbortToStarStar => !matchSlash && NoneInSegment(cs, tokens, text, ti)
  }

  /** What Search promises of a pattern whose tokens these are. */
  ghost predicate Answers(cs: Casing, tokens: seq<Token>, text: string, pruned: bool, r: Code) {
    && (r == Matched <==> MatchFrom(cs, tokens, text, 0))
    && (pruned && r == AbortAll ==> NoSuffix(cs, tokens, text, 0, false))
    && (pruned && r == AbortToStarStar ==> NoneInSegment(cs, tokens, text, 0))
  }

  lemma AnswersLess(cs: Casing, tokens: seq<Token>, text: string, pruned: bool, r: Code)
    ensures Answers(cs, tokens, text, true, r) ==> Answers(cs, tokens, text, pruned, r)
  {}

  /** One try of the rest of a pattern, at ti: when the loop may stop with its answer, and what it knows otherwise. */
  lemma OneTry(cs: Casing, tokens: seq<Token>, text: string, start: nat, ti: nat, matchSlash: bool, r: Code)
    requires start <= ti < |text|
    requires forall k :: start <= k < ti ==> !MatchFrom(cs, tokens, text, k)
    requires !matchSlash ==> SlashFree(text[start..ti])
    requires Answers(cs, tokens, text[ti..], true, r)
    ensures r != NoMatch && (!matchSlash || r != AbortToStarStar) ==> Tried(cs, tokens, text, start, matchSlash, r)
    ensures r == NoMatch && !matchSlash && text[ti] == '/' ==>
            Tried(cs, tokens, text, start, matchSlash, AbortToStarStar)
    ensures r != Matched ==> !MatchFrom(cs, tokens, text, ti)
    ensures !matchSlash && text[ti] != '/' ==> SlashFree(text[start..ti + 1])
  {
    hide NoSuffix, NoneInSegment;
    Lift(cs, tokens, text, ti);
    SegmentGrows(cs, tokens, text, start, ti);
    if !matchSlash && text[ti] != '/' {
      assert text[start..ti + 1] == text[start..ti] + [text[ti]];
    }
  }

  lemma TriedAll(cs: Casing, p: string, text: string, start: nat)
    requires p != "" && p[0] != '*' && start <= |text|
    requires forall k :: start <= k < |text| ==> !MatchFrom(cs, Parse(cs, p, true), text, k)
    ensures NoSuffix(cs, Parse(cs, p, true), text, start, false)
  {
    NeedsACharacter(cs, p, text);
  }

  /** Tries the pattern p (the rest of one, after its '*'s) at every place from start on. */
  method TryFrom(cs: Casing, p: string, text: string, start: nat, matchSlash: bool) returns (r: Code)
    requires cs.Valid() && '\0' !in text && start <= |text|
    requires p != "" && p[0] != '*'
    ensures Tried(cs, Parse(cs, p, true), text, start, matchSlash, r)
    decreases |p|, 2
  {
    ghost var tokens := Parse(cs, p, true);
    var ti := start;
    while true
      invariant start <= ti <= |text|
      invariant forall k :: start <= k < ti ==> !MatchFrom(cs, tokens, text, k)
      invariant !matchSlash ==> SlashFree(text[start..ti])
      decreases |text| - ti
    {
      var tc := At(text, ti);
      if tc == '\0' {
        TriedAll(cs, p, text, start);
        return AbortAll;
      }
      r := Search(cs, p, text[ti..]);
      OneTry(cs, tokens, text, start, ti, matchSlash, r);
      if r != NoMatch {
        if !matchSlash || r != AbortToStarStar { return; }
      } else if !matchSlash && tc == '/' {
        return AbortToStarStar;
      }
      ti := ti + 1;
    }
  }

  /** Nothing matched in the segment before ti: then what holds of the segment from ti on, or of its end, holds of all
      of it. */
  lemma SegmentGrows(cs: Casing, tokens: seq<Token>, text: string, start: nat, ti: nat)
    requires start <= ti < |text|
    requires forall k :: start <= k < ti ==> !MatchFrom(cs, tokens, text, k)
    ensures NoneInSegment(cs, tokens, text, ti) ==> NoneInSegment(cs, tokens, text, start)
    ensures text[ti] == '/' && !MatchFrom(cs, tokens, text, ti) ==> NoneInSegment(cs, tokens, text, start)
    ensures NoSuffix(cs, tokens, text, ti, false) ==> NoSuffix(cs, tokens, text, start, false)
  {
    assert SlashFree(text[ti..ti]);
    hide MatchFrom, SlashFree;
    forall j | start <= j <= |text| && SlashFree(text[start..j])
      ensures j <= ti || (text[ti] != '/' && SlashFree(text[ti..j]))
    {
      if j > ti { SegmentTail(text, start, ti, j); }
    }
    forall j | Place(text, start, false, j)
      ensures j < ti || Place(text, ti, false, j)
    {}
  }

  lemma SegmentTail(text: string, start: nat, ti: nat, j: nat)
    requires start <= ti < j <= |text| && SlashFree(text[start..j])
    ensures text[ti] != '/' && SlashFree(text[ti..j])
  {
    SlashFreeRange(text, start, j);
    SlashFreeRange(text, ti, j);
  }

  // ---- what the branches of the search add to Stands ----

  predicate AtStart(p: string, pi: nat)
    requires pi <= |p|
  {
    pi == 0 || p[pi - 1] == '/'
  }

  function Rest(cs: Casing, p: string, pi: nat): seq<Token>
    requires pi <= |p|
  {
    Parse(cs, p[pi..], AtStart(p, pi))
  }

  /** The invariant of the search: from p[pi] and text[ti] on, the rest of the pattern stands for the whole. */
  ghost predicate Reached(cs: Casing, p: string, text: string, pi: nat, ti: nat) {
    && pi <= |p| && ti <= |text|
    && Stands(cs, Parse(cs, p, true), Rest(cs, p, pi), text, ti, pi > 0 && p[pi - 1] == '/')
  }

  lemma ReachedStart(cs: Casing, p: string, text: string)
    ensures Reached(cs, p, text, 0, 0)
  {
    assert p[0..] == p;
  }

  /** A token that stands for one character moves the search on by that character, or ends it. */
  lemma Advance(cs: Casing, p: string, text: string, pi: nat, ti: nat, token: Token, next: nat)
    requires cs.Valid() && Reached(cs, p, text, pi, ti) && OneChar(token) && pi < next <= |p| && ti < |text|
    requires Rest(cs, p, pi) == [token] + Rest(cs, p, next)
    requires (p[next - 1] == '/') == (token == Lit('/'))
    ensures Takes(cs, token, text[ti..ti + 1]) ==> Reached(cs, p, text, next, ti + 1)
    ensures !Takes(cs, token, text[ti..ti + 1]) ==> Answers(cs, Parse(cs, p, true), text, true, NoMatch)
  {
    MatchOneChar(cs, token, Rest(cs, p, next), text, ti);
    if Takes(cs, token, text[ti..ti + 1]) {
      StepOneChar(cs, token, Rest(cs, p, next), text, ti, pi > 0 && p[pi - 1] == '/');
    }
  }

  lemma AdvanceSlash(cs: Casing, p: string, text: string, pi: nat, ti: nat, next: nat, slash: nat)
    requires cs.Valid() && Reached(cs, p, text, pi, ti) && pi < next < |p| && p[next] == '/'
    requires Rest(cs, p, pi) == [Star] + Rest(cs, p, next)
    requires ti <= slash < |text| && SlashFree(text[ti..slash]) && text[slash] == '/'
    ensures Reached(cs, p, text, next + 1, slash + 1)
  {
    var rest := Rest(cs, p, next + 1);
    assert p[next..][1..] == p[next + 1..];
    assert Rest(cs, p, pi) == [Star, Lit('/')] + rest;
    StepStarSlash(cs, rest, text, ti, slash, pi > 0 && p[pi - 1] == '/');
  }

  lemma TextEnds(cs: Casing, p: string, text: string, pi: nat)
    requires Reached(cs, p, text, pi, |text|) && pi < |p| && p[pi] != '*'
    ensures Answers(cs, Parse(cs, p, true), text, true, AbortAll)
  {
    FirstToken(cs, p[pi..], AtStart(p, pi));
    NeedsACharacter(cs, p[pi..], text);
  }

  // ---- the branches that end at a '*' ----

  predicate Bounded(p: string, pi: nat, next: nat)
    requires pi <= |p|
  {
    next >= pi + 2 && AtStart(p, pi) && (At(p, next) == '\0' || At(p, next) == '/')
  }

  lemma StarTokens(cs: Casing, p: string, pi: nat)
    requires pi < |p| && p[pi] == '*'
    ensures var next := pi + Stars(p[pi..]);
            Rest(cs, p, pi) ==
            if Bounded(p, pi, next) && At(p, next) == '\0' then [StarStar] + Rest(cs, p, next)
            else if Bounded(p, pi, next) then [Folders] + Rest(cs, p, next + 1)
            else [Star] + Rest(cs, p, next)
  {
    var q := p[pi..];
    var next := pi + Stars(q);
    assert q[0] == '*' && next > pi;
    assert q[Stars(q) - 1] == p[next - 1] == '*';
    assert q[Stars(q)..] == p[next..];
    if Bounded(p, pi, next) && At(p, next) != '\0' {
      assert p[next..][1..] == p[next + 1..];
    }
  }

  lemma EndsInStar(cs: Casing, p: string, text: string, pi: nat, ti: nat)
    requires Reached(cs, p, text, pi, ti) && Rest(cs, p, pi) == [Star]
    ensures SlashFree(text[ti..]) ==> Answers(cs, Parse(cs, p, true), text, true, Matched)
    ensures !SlashFree(text[ti..]) ==> Answers(cs, Parse(cs, p, true), text, true, AbortToStarStar)
  {
    assert [Star] + [] == [Star];
    forall j | ti <= j <= |text|
      ensures MatchFrom(cs, [Star], text, j) <==> SlashFree(text[j..])
    {
      MatchStar(cs, [], text, j);
      assert text[j..|text|] == text[j..];
    }
    if !SlashFree(text[ti..]) {
      forall j | ti <= j <= |text| && SlashFree(text[ti..j]) ensures !SlashFree(text[j..]) {
        assert text[ti..] == text[ti..j] + text[j..];
      }
    }
  }

  lemma EndsInStarStar(cs: Casing, p: string, text: string, pi: nat, ti: nat)
    requires Reached(cs, p, text, pi, ti) && Rest(cs, p, pi) == [StarStar]
    ensures Answers(cs, Parse(cs, p, true), text, true, Matched)
  {
    assert [StarStar] + [] == [StarStar];
    MatchStarStar(cs, [], text, ti);
    assert MatchFrom(cs, [], text, |text|);
  }

  lemma AfterStar(cs: Casing, p: string, text: string, pi: nat, ti: nat, rest: seq<Token>, r: Code)
    requires Reached(cs, p, text, pi, ti) && Rest(cs, p, pi) == [Star] + rest
    requires Tried(cs, rest, text, ti, false, r)
    ensures Answers(cs, Parse(cs, p, true), text, true, r)
  {
    MatchStar(cs, rest, text, ti);
    if r == AbortAll { NoSuffixStar(cs, rest, text, ti, pi > 0 && p[pi - 1] == '/'); }
    if r == AbortToStarStar { NoneInSegmentStar(cs, rest, text, ti); }
  }

  lemma NoSuffixStar(cs: Casing, rest: seq<Token>, text: string, ti: nat, afterSlash: bool)
    requires ti <= |text| && NoSuffix(cs, rest, text, ti, false)
    ensures NoSuffix(cs, [Star] + rest, text, ti, afterSlash)
    ensures !MatchFrom(cs, [Star] + rest, text, ti)
  {
    forall j | ti <= j <= |text| ensures !MatchFrom(cs, [Star] + rest, text, j) {
      MatchStar(cs, rest, text, j);
      assert forall k | j <= k <= |text| :: Place(text, ti, false, k);
    }
  }

  lemma NoneInSegmentStar(cs: Casing, rest: seq<Token>, text: string, ti: nat)
    requires ti <= |text| && NoneInSegment(cs, rest, text, ti)
    ensures NoneInSegment(cs, [Star] + rest, text, ti)
    ensures !MatchFrom(cs, [Star] + rest, text, ti)
  {
    forall j | ti <= j <= |text| && SlashFree(text[ti..j]) ensures !MatchFrom(cs, [Star] + rest, text, j) {
      MatchStar(cs, rest, text, j);
      forall k | j <= k <= |text| && SlashFree(text[j..k]) ensures SlashFree(text[ti..k]) {
        assert text[ti..k] == text[ti..j] + text[j..k];
      }
    }
    assert SlashFree(text[ti..ti]);
  }

  lemma AfterStarStar(cs: Casing, p: string, text: string, pi: nat, ti: nat, rest: seq<Token>, r: Code)
    requires Reached(cs, p, text, pi, ti) && Rest(cs, p, pi) == [StarStar] + rest
    requires Tried(cs, rest, text, ti, true, r)
    ensures Answers(cs, Parse(cs, p, true), text, true, r)
  {
    MatchStarStar(cs, rest, text, ti);
    if r == AbortAll {
      forall j | ti <= j <= |text| ensures !MatchFrom(cs, [StarStar] + rest, text, j) {
        MatchStarStar(cs, rest, text, j);
      }
    }
  }

  /** "**" then a slash, not at the pattern's start: so it follows a slash, and then what follows it can only match at
      ti, or after a slash further on, where trying it with that slash would have found it too. */
  lemma NoSuffixFolders(cs: Casing, rest: seq<Token>, text: string, ti: nat)
    requires cs.Valid() && ti <= |text| && !MatchFrom(cs, rest, text, ti)
    requires NoSuffix(cs, [Lit('/')] + rest, text, ti, false)
    ensures NoSuffix(cs, [Folders] + rest, text, ti, true)
    ensures !MatchFrom(cs, [Folders] + rest, text, ti)
  {
    hide MatchFrom;
    MatchFolders(cs, rest, text, ti);
    assert forall k | ti <= k <= |text| :: Place(text, ti, false, k);
    forall j | Place(text, ti, true, j) ensures !MatchFrom(cs, [Folders] + rest, text, j) {
      MatchFolders(cs, rest, text, j);
      assert forall k | j <= k <= |text| :: Place(text, ti, false, k);
      if j > ti {
        MatchOneChar(cs, Lit('/'), rest, text, j - 1);
        assert text[j - 1..j][0] == '/';
        assert Place(text, ti, false, j - 1);
      }
    }
  }

  lemma AfterFolders(cs: Casing, p: string, text: string, pi: nat, ti: nat, rest: seq<Token>, r: Code)
    requires cs.Valid() && Reached(cs, p, text, pi, ti) && Rest(cs, p, pi) == [Folders] + rest
    requires pi > 0 ==> p[pi - 1] == '/'
    requires !MatchFrom(cs, rest, text, ti)
    requires Tried(cs, [Lit('/')] + rest, text, ti, true, r)
    ensures Answers(cs, Parse(cs, p, true), text, pi > 0, r)
  {
    hide NoSuffix, NoneInSegment;
    if r == AbortAll {
      NoSuffixFolders(cs, rest, text, ti);
    } else {
      var k :| ti <= k <= |text| && MatchFrom(cs, [Lit('/')] + rest, text, k);
      FoldersTake(cs, rest, text, ti, k);
    }
  }

  // ---- the same, as the search meets them ----

  /** The pattern ends after its '*'s. */
  lemma StarsEnd(cs: Casing, p: string, text: string, pi: nat, ti: nat)
    requires Reached(cs, p, text, pi, ti) && pi < |p| && p[pi] == '*' && pi + Stars(p[pi..]) == |p|
    ensures Answers(cs, Parse(cs, p, true), text, true,
              if Bounded(p, pi, |p|) || SlashFree(text[ti..]) then Matched else AbortToStarStar)
  {
    StarTokens(cs, p, pi);
    assert Rest(cs, p, |p|) == [];
    if Bounded(p, pi, |p|) {
      EndsInStarStar(cs, p, text, pi, ti);
    } else {
      EndsInStar(cs, p, text, pi, ti);
    }
  }

  /** The pattern goes on after its '*'s, and the rest was tried. */
  lemma StarsTried(cs: Casing, p: string, text: string, pi: nat, ti: nat, next: nat, r: Code)
    requires cs.Valid() && Reached(cs, p, text, pi, ti) && pi < |p| && p[pi] == '*'
    requires next == pi + Stars(p[pi..]) < |p|
    requires Bounded(p, pi, next) && p[next] == '/' ==> !MatchFrom(cs, Rest(cs, p, next + 1), text, ti)
    requires Tried(cs, Parse(cs, p[next..], true), text, ti, Bounded(p, pi, next), r)
    ensures Answers(cs, Parse(cs, p, true), text, pi > 0, r)
  {
    hide Reached, Answers, Tried;
    AnswersLess(cs, Parse(cs, p, true), text, pi > 0, r);
    StarTokens(cs, p, pi);
    FirstToken(cs, p[next..], AtStart(p, next));
    if !Bounded(p, pi, next) {
      AfterStar(cs, p, text, pi, ti, Rest(cs, p, next), r);
    } else if p[next] == '/' {
      assert p[next..][1..] == p[next + 1..];
      AfterFolders(cs, p, text, pi, ti, Rest(cs, p, next + 1), r);
    } else {
      AfterStarStar(cs, p, text, pi, ti, Rest(cs, p, next), r);
    }
  }

  /** "**" then a slash, and what follows the slash matched here. */
  lemma FoldersMatched(cs: Casing, p: string, text: string, pi: nat, ti: nat, next: nat)
    requires cs.Valid() && Reached(cs, p, text, pi, ti) && pi < |p| && p[pi] == '*'
    requires next == pi + Stars(p[pi..]) < |p| && p[next] == '/' && Bounded(p, pi, next)
    requires MatchFrom(cs, Rest(cs, p, next + 1), text, ti)
    ensures Answers(cs, Parse(cs, p, true), text, true, Matched)
  {
    hide MatchFrom, NoSuffix, NoneInSegment;
    StarTokens(cs, p, pi);
    MatchFolders(cs, Rest(cs, p, next + 1), text, ti);
  }

  lemma NoSlashLeft(cs: Casing, p: string, text: string, ti: nat, next: nat)
    requires cs.Valid() && next < |p| && p[next] == '/' && ti <= |text| && SlashFree(text[ti..|text|])
    ensures forall j :: ti <= j <= |text| ==> !MatchFrom(cs, Rest(cs, p, next), text, j)
  {
    FirstToken(cs, p[next..], AtStart(p, next));
    assert p[next..][1..] == p[next + 1..];
    SlashFreeRange(text, ti, |text|);
    forall j | ti <= j <= |text| ensures !MatchFrom(cs, Rest(cs, p, next), text, j) {
      MatchOneChar(cs, Lit('/'), Rest(cs, p, next + 1), text, j);
      if j < |text| { SlashAlone(cs, text[j]); }
    }
  }

  /** One '*' then a slash: it takes the rest of the segment, and there must be a slash. */
  lemma StarSlash(cs: Casing, p: string, text: string, pi: nat, ti: nat, next: nat, slash: nat)
    requires cs.Valid() && Reached(cs, p, text, pi, ti) && pi < |p| && p[pi] == '*'
    requires next == pi + Stars(p[pi..]) < |p| && p[next] == '/' && !Bounded(p, pi, next)
    requires ti <= slash <= |text| && SlashFree(text[ti..slash]) && (slash < |text| ==> text[slash] == '/')
    ensures slash < |text| ==> Reached(cs, p, text, next + 1, slash + 1)
    ensures slash == |text| ==> Answers(cs, Parse(cs, p, true), text, true, AbortAll)
  {
    StarTokens(cs, p, pi);
    if slash < |text| {
      AdvanceSlash(cs, p, text, pi, ti, next, slash);
    } else {
      hide Reached, Answers, SlashFree;
      NoSlashLeft(cs, p, text, ti, next);
      AfterStar(cs, p, text, pi, ti, Rest(cs, p, next), AbortAll);
    }
  }

  method SkipStars(p: string, pi: nat) returns (next: nat)
    requires pi < |p| && p[pi] == '*'
    ensures next == pi + Stars(p[pi..]) <= |p|
  {
    next := pi + 1;
    assert p[pi..][1..] == p[pi + 1..];
    while At(p, next) == '*'
      invariant pi < next <= |p|
      invariant Stars(p[pi..]) == next - pi + Stars(p[next..])
      decreases |p| - next
    {
      assert p[next..][1..] == p[next + 1..];
      next := next + 1;
    }
  }

  method IndexOfSlash(text: string, from: nat) returns (i: nat)
    requires from <= |text|
    ensures from <= i <= |text| && SlashFree(text[from..i]) && (i < |text| ==> text[i] == '/')
  {
    i := from;
    while i < |text| && text[i] != '/'
      invariant from <= i <= |text| && SlashFree(text[from..i])
    {
      assert text[from..i + 1] == text[from..i] + [text[i]];
      i := i + 1;
    }
  }

  /** Does the pattern match the text? NoMatch and the abort codes say it does not; the abort codes also say, of a
      pattern that does not start with '*', which suffixes of the text it does not match either. */
  method Search(cs: Casing, p: string, text: string) returns (r: Code)
    requires cs.Valid() && '\0' !in text
    ensures r == Matched <==> Matches(cs, p, text)
    ensures Answers(cs, Parse(cs, p, true), text, p != "" && p[0] != '*', r)
    decreases |p|, 1
  {
    var pi: nat, ti: nat := 0, 0;
    ReachedStart(cs, p, text);
    while pi < |p|
      invariant Reached(cs, p, text, pi, ti)
      decreases |p| - pi
    {
      var pc := p[pi];
      var tc := At(text, ti);
      if tc == '\0' && pc != '*' {
        TextEnds(cs, p, text, pi);
        return AbortAll;
      }
      if pc == '*' {
        var done, next, slash;
        done, r, next, slash := SearchStar(cs, p, text, pi, ti);
        if done { return; }
        pi, ti := next, slash;
      } else {
        var next;
        r, next := SearchOne(cs, p, text, pi, ti);
        if r != Matched { return; }
        pi, ti := next, ti + 1;
      }
    }
    assert p[pi..] == [];
    return if ti >= |text| then Matched else NoMatch;
  }

  lemma ClassRest(cs: Casing, p: string, pi: nat)
    requires pi < |p| && p[pi] == '['
    ensures var (token, end) := ReadClass(cs, p[pi..]);
            && (token.Class? || token == Bad)
            && pi < pi + end <= |p|
            && (token.Class? ==> Rest(cs, p, pi) == [token] + Rest(cs, p, pi + end) && p[pi + end - 1] == ']')
            && (token == Bad ==> exists rest :: Rest(cs, p, pi) == [Bad] + rest)
  {
    hide Parse, ReadClass;
    var q := p[pi..];
    var (token, end) := ReadClass(cs, q);
    ParseClass(cs, q, AtStart(p, pi));
    assert q[end..] == p[pi + end..];
    if token != Bad {
      ClassEnds(cs, q);
      assert q[end - 1] == p[pi + end - 1];
    }
  }

  lemma ParseClass(cs: Casing, q: string, atStart: bool)
    requires q != "" && q[0] == '['
    ensures var (token, end) := ReadClass(cs, q);
            (token.Class? || token == Bad) && Parse(cs, q, atStart) == [token] + Parse(cs, q[end..], false)
  {
    hide ReadItems;
  }

  /** A bracket expression: one that cannot be read matches nothing, anywhere. */
  lemma ClassTokens(cs: Casing, p: string, text: string, pi: nat, ti: nat)
    requires cs.Valid() && Reached(cs, p, text, pi, ti) && pi < |p| && p[pi] == '[' && ti < |text|
    ensures var (token, end) := ReadClass(cs, p[pi..]);
            && (token == Bad ==> Answers(cs, Parse(cs, p, true), text, true, AbortAll))
            && (token.Class? && Takes(cs, token, [text[ti]]) ==> Reached(cs, p, text, pi + end, ti + 1))
            && (token.Class? && !Takes(cs, token, [text[ti]]) ==> Answers(cs, Parse(cs, p, true), text, true, NoMatch))
  {
    hide Reached, Answers, Parse, ReadClass, Takes;
    ClassRest(cs, p, pi);
    var (token, end) := ReadClass(cs, p[pi..]);
    if token == Bad {
      var rest :| Rest(cs, p, pi) == [Bad] + rest;
      BadMatchesNothing(cs, p, text, pi, ti, rest);
    } else {
      assert text[ti..ti + 1] == [text[ti]];
      Advance(cs, p, text, pi, ti, token, pi + end);
    }
  }

  lemma BadMatchesNothing(cs: Casing, p: string, text: string, pi: nat, ti: nat, rest: seq<Token>)
    requires Reached(cs, p, text, pi, ti) && Rest(cs, p, pi) == [Bad] + rest
    ensures Answers(cs, Parse(cs, p, true), text, true, AbortAll)
  {
    hide MatchFrom;
    forall j | 0 <= j <= |text| ensures !MatchFrom(cs, [Bad] + rest, text, j) {
      MatchOneChar(cs, Bad, rest, text, j);
    }
  }

  lemma {:induction false} ItemsEnd(cs: Casing, p: string, i: nat, prev: char)
    ensures var r := ReadItems(cs, p, i, prev); r.Some? ==> p[r.value.1 - 1] == ']'
    decreases |p| - i
  {
    var r := ReadItem(cs, p, i, prev);
    if r.Some? && At(p, r.value.next) != ']' {
      ItemsEnd(cs, p, r.value.next, r.value.prev);
    }
  }

  lemma ClassEnds(cs: Casing, p: string)
    requires p != "" && p[0] == '[' && ReadClass(cs, p).0 != Bad
    ensures p[ReadClass(cs, p).1 - 1] == ']' && ReadClass(cs, p).0.Class?
  {
    ItemsEnd(cs, p, if Negates(p, 1) then 2 else 1, '\0');
  }

  /** A token that stands for one character: Matched moves the search on to next. */
  method SearchOne(cs: Casing, p: string, text: string, pi: nat, ti: nat) returns (r: Code, next: nat)
    requires cs.Valid() && '\0' !in text
    requires Reached(cs, p, text, pi, ti) && pi < |p| && p[pi] != '*' && ti < |text|
    ensures r == Matched ==> pi < next <= |p| && Reached(cs, p, text, next, ti + 1)
    ensures r != Matched ==> Answers(cs, Parse(cs, p, true), text, true, r)
  {
    hide Reached, Answers;
    var tc := text[ti];
    next := pi + 1;
    assert text[ti..ti + 1] == [tc];
    match p[pi] {
      case '\\' =>
        var pc := At(p, pi + 1);
        SlashAlone(cs, tc);
        if cs.Fold(tc) != cs.Fold(pc) {
          r := NoMatch;
        } else {
          r, next := Matched, pi + 2;
        }
        if pi + 1 < |p| {
          assert p[pi..][2..] == p[pi + 2..];
          Advance(cs, p, text, pi, ti, Lit(pc), pi + 2);
        } else {
          assert p[pi + 1..] == [];
          Advance(cs, p, text, pi, ti, Lit(pc), pi + 1);
        }
      case '?' =>
        assert p[pi..][1..] == p[pi + 1..];
        Advance(cs, p, text, pi, ti, Any, pi + 1);
        r := if tc == '/' then NoMatch else Matched;
      case '[' =>
        var closed, end, negated, matched := ScanClass(cs, p[pi..], tc);
        ClassTokens(cs, p, text, pi, ti);
        if !closed { return AbortAll, next; }
        next := pi + end;
        r := if matched == negated || tc == '/' then NoMatch else Matched;
      case _ =>
        assert p[pi..][1..] == p[pi + 1..];
        Advance(cs, p, text, pi, ti, Lit(p[pi]), pi + 1);
        r := if cs.Fold(tc) != cs.Fold(p[pi]) then NoMatch else Matched;
    }
  }

  /** A '*': it ends the search (done), or is followed by a slash, and the search goes on after that. */
  method SearchStar(cs: Casing, p: string, text: string, pi: nat, ti: nat)
    returns (done: bool, r: Code, next: nat, slash: nat)
    requires cs.Valid() && '\0' !in text
    requires Reached(cs, p, text, pi, ti) && pi < |p| && p[pi] == '*' && ti <= |text|
    ensures !done ==> pi < next <= |p| && Reached(cs, p, text, next, slash)
    ensures done ==> Answers(cs, Parse(cs, p, true), text, pi > 0, r)
    decreases |p|, 0
  {
    hide Reached, Answers, Tried, MatchFrom;
    done, r, slash := true, NoMatch, 0;
    next := SkipStars(p, pi);
    var matchSlash := false;
    if next >= pi + 2 && (pi == 0 || p[pi - 1] == '/') && (At(p, next) == '\0' || At(p, next) == '/') {
      if At(p, next) == '/' {
        r := Search(cs, p[next + 1..], text[ti..]);
        Lift(cs, Rest(cs, p, next + 1), text, ti);
        if r == Matched {
          FoldersMatched(cs, p, text, pi, ti, next);
          AnswersLess(cs, Parse(cs, p, true), text, pi > 0, r);
          return;
        }
      }
      matchSlash := true;
    }
    if next >= |p| {
      StarsEnd(cs, p, text, pi, ti);
      r := if !matchSlash && '/' in text[ti..] then AbortToStarStar else Matched;
      AnswersLess(cs, Parse(cs, p, true), text, pi > 0, r);
      return;
    }
    if !matchSlash && p[next] == '/' {
      slash := IndexOfSlash(text, ti);
      StarSlash(cs, p, text, pi, ti, next, slash);
      AnswersLess(cs, Parse(cs, p, true), text, pi > 0, AbortAll);
      if slash >= |text| { r := AbortAll; return; }
      return false, r, next + 1, slash + 1;
    }
    r := TryFrom(cs, p[next..], text, ti, matchSlash);
    StarsTried(cs, p, text, pi, ti, next, r);
  }
}
