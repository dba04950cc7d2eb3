/** Merging the live rows of a base with the overlay, in order, into the rows of a new base. */
module LedgerMerge {
  import opened Common
  import opened Ordinal
  import opened LedgerTrust
  import opened LedgerFiles

  /** What is merged: the base, the overlay and its paths in order, and the tombstones. */
  datatype Inputs = Inputs(rows: seq<Entry>, overlay: Ledger, removed: set<string>, keys: seq<string>) {
    ghost predicate Valid() {
      && RowsOk(rows) && removed !! overlay.Keys
      && Ordered(keys) && (set k <- keys) == overlay.Keys
    }

    ghost function Whole(): Ledger { Overlaid(Some(rows), overlay, removed) }

    predicate Live(p: string) { p !in removed && p !in overlay }
  }

  /** How far the merge is: the next base row to look at, the live one found, and the next path of the overlay. */
  datatype Cursor = Cursor(bi: nat, pending: Option<Entry>, oi: nat)

  ghost predicate Fitting(s: Inputs, c: Cursor) {
    && c.bi <= |s.rows| && c.oi <= |s.keys|
    && (c.pending.Some? ==>
          c.bi > 0 && c.pending.value == s.rows[c.bi - 1] && s.Live(c.pending.value.path))
  }

  /** The paths still to come. */
  ghost function Ahead(s: Inputs, c: Cursor): set<string>
    requires Fitting(s, c)
  {
    (set i | c.bi <= i < |s.rows| && s.Live(s.rows[i].path) :: s.rows[i].path) +
    (if c.pending.Some? then {c.pending.value.path} else {}) +
    (set i | c.oi <= i < |s.keys| :: s.keys[i])
  }

  /** What is out so far: in order, part of the whole, and before all that is to come. */
  ghost predicate Out(whole: Ledger, out: seq<Entry>, ahead: set<string>) {
    && RowsOk(out)
    && (forall e <- out :: e.path in whole && whole[e.path] == e.state)
    && (forall p <- whole :: p in PathSet(out) || p in ahead)
    && (forall e <- out, p <- ahead :: Less(e.path, p))
  }

  /** The least path to come may be put out. */
  lemma Emit(whole: Ledger, out: seq<Entry>, e: Entry, ahead: set<string>)
    requires Out(whole, out, ahead) && e.path in ahead && e.path in whole && whole[e.path] == e.state
    requires forall p <- ahead :: p != e.path ==> Less(e.path, p)
    ensures Out(whole, out + [e], ahead - {e.path})
  {
    hide Less;
    var more := out + [e];
    assert Paths(more) == Paths(out) + [e.path];
    if out != [] { assert out[|out| - 1] in out; }
    OrderedOneMore(Paths(out), e.path);
    assert forall x <- more :: x in out || x == e;
    assert forall x <- out :: x in more;
    assert more[|out|] == e;
    assert PathSet(more) == PathSet(out) + {e.path};
  }

  lemma AllOut(whole: Ledger, out: seq<Entry>)
    requires Out(whole, out, {})
    ensures Table(out) == whole
  {
    hide Less, RowsOk;
    TableKeys(out);
    forall p <- Table(out) ensures p in whole && Table(out)[p] == whole[p] {
      var i :| 0 <= i < |out| && out[i].path == p;
      RowIs(out, i);
    }
  }

  lemma PendingIsLeast(s: Inputs, c: Cursor)
    requires s.Valid() && Fitting(s, c) && c.pending.Some?
    requires c.oi < |s.keys| ==> Less(c.pending.value.path, s.keys[c.oi])
    ensures forall p <- Ahead(s, c) :: p != c.pending.value.path ==> Less(c.pending.value.path, p)
    ensures Ahead(s, c.(pending := None)) == Ahead(s, c) - {c.pending.value.path}
  {
    hide Less, RowsOk;
    var least := c.pending.value.path;
    forall i | c.bi <= i < |s.rows| ensures Less(least, s.rows[i].path) && s.rows[i].path != least {
      LaterRow(s.rows, c.bi - 1, i);
      LessIsStrict(least, s.rows[i].path);
    }
    forall i | c.oi <= i < |s.keys| ensures Less(least, s.keys[i]) && s.keys[i] != least {
      if c.oi < i { LessIsTransitive(least, s.keys[c.oi], s.keys[i]); }
      LessIsStrict(least, s.keys[i]);
    }
  }

  lemma KeyIsLeast(s: Inputs, c: Cursor)
    requires s.Valid() && Fitting(s, c) && c.oi < |s.keys| && (c.pending.None? ==> c.bi == |s.rows|)
    requires c.pending.Some? ==> !Less(c.pending.value.path, s.keys[c.oi])
    ensures forall p <- Ahead(s, c) :: p != s.keys[c.oi] ==> Less(s.keys[c.oi], p)
    ensures Ahead(s, c.(oi := c.oi + 1)) == Ahead(s, c) - {s.keys[c.oi]}
    ensures s.keys[c.oi] in s.overlay
  {
    hide Less, RowsOk;
    var least := s.keys[c.oi];
    assert least in s.keys;
    if c.pending.Some? {
      LessIsTotal(c.pending.value.path, least);
      forall i | c.bi <= i < |s.rows| ensures Less(least, s.rows[i].path) {
        LaterRow(s.rows, c.bi - 1, i);
        LessIsTransitive(least, c.pending.value.path, s.rows[i].path);
      }
    }
    forall i | c.oi < i < |s.keys| ensures s.keys[i] != least { LessIsStrict(least, s.keys[i]); }
  }

  /** Looks for the next live row. */
  method NextBase(s: Inputs, c: Cursor) returns (c': Cursor)
    requires s.Valid() && Fitting(s, c) && c.pending.None?
    ensures Fitting(s, c') && c'.oi == c.oi && Ahead(s, c') == Ahead(s, c)
    ensures c'.pending.None? ==> c'.bi == |s.rows|
    ensures c'.bi >= c.bi && (c'.pending.Some? ==> c'.bi > c.bi)
  {
    hide RowsOk, Less;
    var bi := c.bi;
    while bi < |s.rows|
      invariant c.bi <= bi <= |s.rows| && Ahead(s, c.(bi := bi)) == Ahead(s, c)
    {
      var p := s.rows[bi].path;
      NextAhead(s, c.(bi := bi));
      if p in s.removed || p in s.overlay {
        bi := bi + 1;
      } else {
        return Cursor(bi + 1, Some(s.rows[bi]), c.oi);
      }
    }
    return Cursor(bi, None, c.oi);
  }

  lemma NextAhead(s: Inputs, c: Cursor)
    requires Fitting(s, c) && c.pending.None? && c.bi < |s.rows|
    ensures var e := s.rows[c.bi];
            Ahead(s, c) == if s.Live(e.path) then Ahead(s, Cursor(c.bi + 1, Some(e), c.oi))
              else Ahead(s, c.(bi := c.bi + 1))
  {
    var later := set i | c.bi + 1 <= i < |s.rows| && s.Live(s.rows[i].path) :: s.rows[i].path;
    var e := s.rows[c.bi];
    assert (set i | c.bi <= i < |s.rows| && s.Live(s.rows[i].path) :: s.rows[i].path) ==
           later + if s.Live(e.path) then {e.path} else {};
  }

  lemma StartAhead(s: Inputs)
    requires s.Valid()
    ensures Out(s.Whole(), [], Ahead(s, Cursor(0, None, 0)))
  {
    hide Less;
    var ahead := Ahead(s, Cursor(0, None, 0));
    forall p <- s.Whole() ensures p in ahead {
      IsLive(Some(s.rows), s.overlay, s.removed, p);
      if p in s.overlay { assert p in s.keys; }
    }
  }

  lemma PendingIs(s: Inputs, c: Cursor)
    requires s.Valid() && Fitting(s, c) && c.pending.Some?
    ensures c.pending.value.path in s.Whole() && s.Whole()[c.pending.value.path] == c.pending.value.state
  {
    hide Less, RowsOk;
    RowIs(s.rows, c.bi - 1);
  }

  lemma NothingAhead(s: Inputs, c: Cursor)
    requires Fitting(s, c) && c.pending.None? && c.bi == |s.rows| && c.oi == |s.keys|
    ensures Ahead(s, c) == {}
  {}

  /** The base, less what is removed or set again, merged with the overlay: in order, and exactly the ledger. */
  method MergeSorted(rows: seq<Entry>, overlay: Ledger, removed: set<string>) returns (out: seq<Entry>)
    requires RowsOk(rows) && removed !! overlay.Keys
    ensures RowsOk(out) && Table(out) == Overlaid(Some(rows), overlay, removed)
  {
    hide RowsOk, Less, Out, Ahead, Overlaid;
    var keys := Sorted(overlay.Keys);
    var s := Inputs(rows, overlay, removed, keys);
    ghost var whole := s.Whole();
    out := [];
    StartAhead(s);
    var c := NextBase(s, Cursor(0, None, 0));
    while c.pending.Some? || c.oi < |keys|
      invariant Fitting(s, c) && (c.pending.None? ==> c.bi == |rows|)
      invariant Out(whole, out, Ahead(s, c))
      decreases |rows| - c.bi, if c.pending.Some? then 1 else 0, |keys| - c.oi
    {
      if c.oi >= |keys| || (c.pending.Some? && Less(c.pending.value.path, keys[c.oi])) {
        PendingIsLeast(s, c);
        PendingIs(s, c);
        PendingAhead(s, c);
        Emit(whole, out, c.pending.value, Ahead(s, c));
        out := out + [c.pending.value];
        c := NextBase(s, c.(pending := None));
      } else {
        var k := keys[c.oi];
        KeyIsLeast(s, c);
        KeyAhead(s, c);
        Emit(whole, out, Entry(k, overlay[k]), Ahead(s, c));
        out := out + [Entry(k, overlay[k])];
        c := c.(oi := c.oi + 1);
      }
    }
    NothingAhead(s, c);
    IsOrdered(whole, out);
    AllOut(whole, out);
  }

  lemma IsOrdered(whole: Ledger, out: seq<Entry>)
    requires Out(whole, out, {})
    ensures RowsOk(out)
  {}

  lemma PendingAhead(s: Inputs, c: Cursor)
    requires Fitting(s, c) && c.pending.Some?
    ensures c.pending.value.path in Ahead(s, c)
  {}

  lemma KeyAhead(s: Inputs, c: Cursor)
    requires s.Valid() && Fitting(s, c) && c.oi < |s.keys|
    ensures s.keys[c.oi] in Ahead(s, c)
    ensures s.keys[c.oi] in s.overlay && s.keys[c.oi] in s.Whole() && s.Whole()[s.keys[c.oi]] == s.overlay[s.keys[c.oi]]
  {
    assert s.keys[c.oi] in s.keys;
  }
}
