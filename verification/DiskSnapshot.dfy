/** The change-detection ledger: a sorted base on disk, with an overlay of what was set since and tombstones for what
    was removed. Together they are one map from path to file state. */
module DiskSnapshot {
  import opened Common
  import opened Ordinal
  import opened LedgerTrust
  import opened LedgerFiles
  import opened LedgerMerge

  const MIN_COMPACT_THRESHOLD := 1_024
  const MAX_COMPACT_THRESHOLD := 50_000

  function Clamp(x: int, lo: int, hi: int): int { if x < lo then lo else if x > hi then hi else x }

  // ---- searching the base ----

  lemma SmallerRow(rows: seq<Entry>, i: nat, j: nat, key: string)
    requires RowsOk(rows) && i <= j < |rows| && Less(rows[j].path, key)
    ensures Less(rows[i].path, key)
  {
    if i < j {
      assert Less(Paths(rows)[i], Paths(rows)[j]);
      LessIsTransitive(rows[i].path, rows[j].path, key);
    }
  }

  lemma LargerRow(rows: seq<Entry>, i: nat, j: nat, key: string)
    requires RowsOk(rows) && i <= j < |rows| && !Less(rows[i].path, key)
    ensures !Less(rows[j].path, key)
  {
    if i < j && Less(rows[j].path, key) { SmallerRow(rows, i, j, key); }
  }

  /** The first row that does not come before the key. */
  method LowerBound(rows: seq<Entry>, key: string) returns (lo: nat)
    requires RowsOk(rows)
    ensures lo <= |rows|
    ensures forall i :: 0 <= i < lo ==> Less(rows[i].path, key)
    ensures forall i :: lo <= i < |rows| ==> !Less(rows[i].path, key)
  {
    hide Less, RowsOk;
    lo := 0;
    var hi := |rows|;
    while lo < hi
      invariant lo <= hi <= |rows|
      invariant forall i :: 0 <= i < lo ==> Less(rows[i].path, key)
      invariant forall i :: hi <= i < |rows| ==> !Less(rows[i].path, key)
    {
      var mid := (lo + hi) / 2;
      if Less(rows[mid].path, key) {
        forall i | 0 <= i <= mid ensures Less(rows[i].path, key) { SmallerRow(rows, i, mid, key); }
        lo := mid + 1;
      } else {
        forall i | mid <= i < |rows| ensures !Less(rows[i].path, key) { LargerRow(rows, mid, i, key); }
        hi := mid;
      }
    }
  }

  /** The row of a path, or -1. */
  method IndexOf(rows: seq<Entry>, path: string) returns (i: int)
    requires RowsOk(rows)
    ensures -1 <= i < |rows|
    ensures i >= 0 ==> rows[i].path == path
    ensures i < 0 <==> path !in PathSet(rows)
  {
    hide Less, RowsOk;
    var lo, hi := 0, |rows| - 1;
    while lo <= hi
      invariant 0 <= lo <= hi + 1 <= |rows|
      invariant forall j :: 0 <= j < lo ==> rows[j].path != path
      invariant forall j :: hi < j < |rows| ==> rows[j].path != path
    {
      var mid := (lo + hi) / 2;
      if rows[mid].path == path {
        assert rows[mid] in rows;
        return mid;
      }
      if Less(rows[mid].path, path) {
        forall j | 0 <= j <= mid ensures rows[j].path != path {
          SmallerRow(rows, j, mid, path);
          LessIsStrict(rows[j].path, path);
        }
        lo := mid + 1;
      } else {
        LessIsTotal(rows[mid].path, path);
        forall j | mid <= j < |rows| ensures rows[j].path != path {
          if mid < j {
            LaterRow(rows, mid, j);
            LessIsTransitive(path, rows[mid].path, rows[j].path);
            LessIsStrict(path, rows[j].path);
          }
        }
        hi := mid - 1;
      }
    }
    i := -1;
  }

  // ---- counting ----

  /** The bytes of some paths. */
  ghost function Bytes(s: set<string>): nat {
    if s == {} then 0 else var p :| p in s; ByteCount(p) + Bytes(s - {p})
  }

  lemma {:induction false} BytesLess(s: set<string>, p: string)
    requires p in s
    ensures Bytes(s) == ByteCount(p) + Bytes(s - {p})
    decreases s
  {
    hide ByteCount;
    var r :| r in s && Bytes(s) == ByteCount(r) + Bytes(s - {r});
    if r != p {
      BytesLess(s - {r}, p);
      BytesLess(s - {p}, r);
      assert s - {r} - {p} == s - {p} - {r};
    }
  }

  lemma NoBytes()
    ensures Bytes({}) == 0
  {}

  lemma BytesMore(s: set<string>, p: string)
    requires p !in s
    ensures Bytes(s + {p}) == Bytes(s) + ByteCount(p)
  {
    BytesLess(s + {p}, p);
    assert s + {p} - {p} == s;
  }

  lemma {:induction false} BytesApart(a: set<string>, b: set<string>)
    requires a !! b
    ensures Bytes(a + b) == Bytes(a) + Bytes(b)
    decreases b
  {
    hide ByteCount;
    if b == {} {
      assert a + b == a;
    } else {
      var p :| p in b;
      BytesApart(a, b - {p});
      BytesMore(a + (b - {p}), p);
      BytesLess(b, p);
      assert a + (b - {p}) + {p} == a + b;
    }
  }

  lemma {:induction false} RowsCount(rows: seq<Entry>)
    requires RowsOk(rows)
    ensures |PathSet(rows)| == |rows| && Bytes(PathSet(rows)) == BlobLen(rows)
    decreases |rows|
  {
    hide Less, ByteCount, Bytes;
    if rows == [] {
      NoBytes();
    } else {
      var front, last := rows[..|rows| - 1], rows[|rows| - 1];
      FrontOk(rows);
      RowsCount(front);
      LastPath(rows);
      BytesMore(PathSet(front), last.path);
    }
  }

  lemma LastPath(rows: seq<Entry>)
    requires rows != []
    ensures PathSet(rows) == PathSet(rows[..|rows| - 1]) + {rows[|rows| - 1].path}
  {
    assert rows == rows[..|rows| - 1] + [rows[|rows| - 1]];
  }

  lemma FrontOk(rows: seq<Entry>)
    requires RowsOk(rows) && rows != []
    ensures RowsOk(rows[..|rows| - 1]) && rows[|rows| - 1].path !in PathSet(rows[..|rows| - 1])
  {
    hide Less;
    var n := |rows| - 1;
    forall i, j | 0 <= i < j < n ensures Less(Paths(rows[..n])[i], Paths(rows[..n])[j]) { LaterRow(rows, i, j); }
    forall i | 0 <= i < n ensures rows[..n][i].path != rows[n].path {
      LaterRow(rows, i, n);
      LessIsStrict(rows[i].path, rows[n].path);
    }
  }

  // ---- the ledger ----

  /** The paths of the overlay that the base does not have. */
  function Added(rows: Option<seq<Entry>>, overlay: Ledger): set<string> {
    set p <- overlay | p !in InBase(rows)
  }

  /** The live paths: those of the base that are not removed, and those added. */
  lemma LivePaths(rows: Option<seq<Entry>>, overlay: Ledger, removed: set<string>)
    requires Fits(rows, overlay, removed)
    ensures Overlaid(rows, overlay, removed).Keys == (InBase(rows) - removed) + Added(rows, overlay)
  {
    hide RowsOk;
  }

  lemma LiveCount(rows: Option<seq<Entry>>, overlay: Ledger, removed: set<string>)
    requires Fits(rows, overlay, removed)
    ensures var size := if rows.Some? then |rows.value| else 0;
            |Overlaid(rows, overlay, removed)| == size - |removed| + |Added(rows, overlay)|
  {
    hide RowsOk, Overlaid, Added;
    LivePaths(rows, overlay, removed);
    if rows.Some? { RowsCount(rows.value); }
    var m := Overlaid(rows, overlay, removed);
    assert |m| == |m.Keys|;
    SizeApart(rows, overlay, removed);
  }

  lemma SizeApart(rows: Option<seq<Entry>>, overlay: Ledger, removed: set<string>)
    requires removed <= InBase(rows)
    ensures |(InBase(rows) - removed) + Added(rows, overlay)| == |InBase(rows)| - |removed| + |Added(rows, overlay)|
  {
    assert (InBase(rows) - removed) !! Added(rows, overlay);
    assert InBase(rows) == (InBase(rows) - removed) + removed;
  }

  lemma LiveBytes(rows: Option<seq<Entry>>, overlay: Ledger, removed: set<string>)
    requires Fits(rows, overlay, removed)
    ensures var blob := if rows.Some? then BlobLen(rows.value) else 0;
            Bytes(Overlaid(rows, overlay, removed).Keys) == blob - Bytes(removed) + Bytes(Added(rows, overlay))
  {
    hide RowsOk, Overlaid, Bytes, BlobLen;
    LivePaths(rows, overlay, removed);
    if rows.Some? { RowsCount(rows.value); } else { NoBytes(); }
    BytesApart(InBase(rows) - removed, Added(rows, overlay));
    assert InBase(rows) == (InBase(rows) - removed) + removed;
    BytesApart(InBase(rows) - removed, removed);
  }

  lemma SetShows(rows: Option<seq<Entry>>, overlay: Ledger, removed: set<string>, p: string, state: FileState)
    ensures Overlaid(rows, overlay[p := state], removed - {p}) == Overlaid(rows, overlay, removed)[p := state]
  {
    hide BaseTable;
  }

  lemma RemoveShows(rows: Option<seq<Entry>>, overlay: Ledger, removed: set<string>, p: string)
    ensures Overlaid(rows, overlay - {p}, removed + if p in InBase(rows) then {p} else {}) ==
            Overlaid(rows, overlay, removed) - {p}
  {
    BaseTableKeys(rows);
    hide BaseTable, InBase;
  }

  lemma NoneMore(s: set<string>)
    ensures s + {} == s
  {}

  // ---- lists of paths ----

  ghost predicate Distinct(s: seq<string>) {
    forall i, j :: 0 <= i < j < |s| ==> s[i] != s[j]
  }

  /** One row further. */
  lemma NextRow(rows: seq<Entry>, i: nat)
    requires RowsOk(rows) && i < |rows|
    ensures PathSet(rows[..i + 1]) == PathSet(rows[..i]) + {rows[i].path}
    ensures rows[i].path !in PathSet(rows[..i])
  {
    hide Less;
    assert rows[..i + 1][..i] == rows[..i];
    LastPath(rows[..i + 1]);
    forall j | 0 <= j < i ensures rows[j].path != rows[i].path {
      LaterRow(rows, j, i);
      LessIsStrict(rows[j].path, rows[i].path);
    }
  }

  /** How a path was marked by a walk: by its row, where it has one. */
  ghost predicate Marked(rows: Option<seq<Entry>>, seenBase: seq<bool>, seenOther: set<string>, p: string) {
    if p in InBase(rows) then forall i :: 0 <= i < |seenBase| && i < |rows.value| && rows.value[i].path == p ==>
      seenBase[i]
    else p in seenOther
  }

  lemma MarkedOther(rows: Option<seq<Entry>>, seenBase: seq<bool>, seenOther: set<string>, p: string)
    requires p !in InBase(rows)
    ensures Marked(rows, seenBase, seenOther, p) <==> p in seenOther
  {}

  lemma NoPaths()
    ensures forall rows: seq<Entry> :: PathSet(rows[..0]) == {}
  {}

  /** The rows before the lower bound of a prefix do not start with it. */
  lemma NoneBefore(rows: seq<Entry>, prefix: string, lo: nat)
    requires lo <= |rows| && forall i :: 0 <= i < lo ==> Less(rows[i].path, prefix)
    ensures forall p <- PathSet(rows[..lo]) :: !(prefix <= p)
  {
    hide Less;
    forall i | 0 <= i < lo ensures !(prefix <= rows[i].path) {
      if prefix <= rows[i].path { PrefixFirst(prefix, rows[i].path); }
    }
  }

  /** Past the first row that does not start with the prefix, none does. */
  lemma NoneAfter(rows: seq<Entry>, prefix: string, i: nat)
    requires RowsOk(rows) && i <= |rows| && (i < |rows| ==> !(prefix <= rows[i].path) && !Less(rows[i].path, prefix))
    ensures forall p <- PathSet(rows) :: prefix <= p ==> p in PathSet(rows[..i])
  {
    hide Less;
    forall j | i <= j < |rows| ensures !(prefix <= rows[j].path) {
      if prefix <= rows[j].path && i < j {
        LaterRow(rows, i, j);
        PrefixRange(prefix, rows[i].path, rows[j].path);
      }
    }
    forall p <- PathSet(rows) | prefix <= p ensures p in PathSet(rows[..i]) {
      var j :| 0 <= j < |rows| && rows[j].path == p;
      assert rows[..i][j] == rows[j];
    }
  }

  lemma MarkedRow(rows: seq<Entry>, seenBase: seq<bool>, seenOther: set<string>, i: nat)
    requires RowsOk(rows) && i < |rows| == |seenBase|
    ensures Marked(Some(rows), seenBase, seenOther, rows[i].path) <==> seenBase[i]
  {
    hide Less;
    assert rows[i] in rows;
    forall j | 0 <= j < |rows| && rows[j].path == rows[i].path ensures j == i { OrderedDistinct(Paths(rows), i, j); }
  }

  /** The live paths of the base that start with a prefix: a range of its rows. */
  method RowsWithPrefix(rows: seq<Entry>, overlay: Ledger, removed: set<string>, prefix: string)
      returns (keys: seq<string>)
    requires RowsOk(rows)
    ensures Distinct(keys)
    ensures forall p :: p in keys <==> p in PathSet(rows) && prefix <= p && p !in removed && p !in overlay
  {
    hide RowsOk, PathSet, Less;
    keys := [];
    var i := LowerBound(rows, prefix);
    NoneBefore(rows, prefix, i);
    ghost var start := i;
    while i < |rows|
      invariant start <= i <= |rows| && Distinct(keys)
      invariant forall p :: p in keys <==> p in PathSet(rows[..i]) && prefix <= p && p !in removed && p !in overlay
    {
      var p := rows[i].path;
      if !(prefix <= p) { break; }
      NextRow(rows, i);
      if p !in removed && p !in overlay { keys := keys + [p]; }
      i := i + 1;
    }
    NoneAfter(rows, prefix, i);
    PartOf(rows, i);
  }

  lemma PartOf(rows: seq<Entry>, i: nat)
    requires i <= |rows|
    ensures PathSet(rows[..i]) <= PathSet(rows)
  {}

  lemma AddedTodo(rows: Option<seq<Entry>>, overlay: Ledger)
    ensures Added(rows, overlay) - overlay.Keys == {}
  {}

  /** One path of the overlay further. */
  lemma AddedStep(rows: Option<seq<Entry>>, overlay: Ledger, todo: set<string>, k: string)
    requires k in todo && todo <= overlay.Keys
    ensures var added := Added(rows, overlay);
            added - (todo - {k}) == added - todo + if k in InBase(rows) then {} else {k}
    ensures |Added(rows, overlay) - (todo - {k})| == |Added(rows, overlay) - todo| + if k in InBase(rows) then 0 else 1
  {
    var added := Added(rows, overlay);
    assert k in added <==> k !in InBase(rows);
    assert added - (todo - {k}) == added - todo + if k in InBase(rows) then {} else {k};
  }

  // ---- replacing the base ----

  /** Wherever these steps had stopped, each path would read as it did or as it is to. */
  ghost predicate Safe(history: seq<Disk>, start: nat, was: Ledger, now: Ledger) {
    forall i :: start <= i < |history| ==> OldOrNew(history[i], was, now)
  }

  lemma SafeStep(history: seq<Disk>, start: nat, was: Ledger, now: Ledger, d: Disk)
    requires Safe(history, start, was, now) && OldOrNew(d, was, now)
    ensures Safe(history + [d], start, was, now)
  {}

  lemma SafeFrom(history: seq<Disk>, middle: nat, more: seq<Disk>, start: nat, was: Ledger, now: Ledger)
    requires Safe(history, start, was, now) && middle == |history| && history <= more
    requires Safe(more, middle, was, now)
    ensures Safe(more, start, was, now)
  {
    hide OldOrNew;
    forall i | start <= i < |more|
      ensures OldOrNew(more[i], was, now)
    {
      if i < middle { assert more[i] == history[i]; }
    }
  }

  lemma SameReads(d: Disk, was: Ledger, now: Ledger)
    requires DiskOk(d) && (Reads(d) == was || Reads(d) == now)
    ensures OldOrNew(d, was, now)
  {}

  lemma TrimmedReads(d: Disk, was: Disk, keep: nat)
    requires DiskOk(was) && Trimmed(d, was, keep) && was.manifest.Some? && was.manifest.value.base == keep
    ensures DiskOk(d) && Reads(d) == Reads(was) && BaseRows(d) == BaseRows(was)
  {
    hide RowsOk, Overlaid;
  }

  lemma NoJournal(d: Disk, num: nat, next: nat, rows: seq<Entry>)
    requires DiskOk(d) && num in d.bases && d.bases[num] == Whole(rows)
    requires d.manifest == Some(Manifest(num, next))
    ensures var d' := d.(journal := None); DiskOk(d') && Reads(d') == Table(rows) && BaseRows(d') == Some(rows)
  {
    BaseUnderJournal(d.(journal := None), num, next, rows);
    assert d.(journal := None).(manifest := Some(Manifest(num, next))) == d.(journal := None);
  }

  /** A new base: written whole, then named by the manifest, then freed of the old journal and the old bases. */
  method Install(dir: CacheDir, num: nat, next: nat, count: int, blob: int, rows: seq<Entry>, journalLocked: bool,
                 orphansLocked: set<nat>)
    requires DiskOk(dir.disk) && RowsOk(rows) && count == |rows| && blob == BlobLen(rows)
    requires forall n <- dir.disk.bases :: n < num
    modifies dir
    ensures DiskOk(dir.disk) && BaseRows(dir.disk) == Some(rows) && dir.disk.manifest == Some(Manifest(num, next))
    ensures forall n <- dir.disk.bases :: n <= num
    ensures old(dir.history) <= dir.history && Safe(dir.history, |old(dir.history)|, Reads(old(dir.disk)), Table(rows))
    ensures !journalLocked ==> Reads(dir.disk) == Table(rows)
  {
    hide RowsOk, Reads, BaseRows, Table, DiskOk, OldOrNew, BlobLen, Safe;
    Unnamed(dir.disk, num);
    ghost var was, now, start := Reads(dir.disk), Table(rows), |dir.history|;
    UnnamedBase(dir.disk, num, Torn);
    UnnamedBase(dir.disk, num, Whole(rows));
    SafeWrite(dir.disk, dir.history, num, rows, was, now);
    var ok := dir.WriteBase(num, count, blob, rows);
    assert ok;
    BaseUnderJournal(dir.disk, num, next, rows);
    SafeStep(dir.history, start, was, now, dir.disk.(manifest := Some(Manifest(num, next))));
    IsOk(dir.disk.(manifest := Some(Manifest(num, next))), was, now);
    dir.Become(dir.disk.(manifest := Some(Manifest(num, next))));
    NoJournal(dir.disk, num, next, rows);
    SameReads(dir.disk.(journal := None), was, now);
    SafeStep(dir.history, start, was, now, if journalLocked then dir.disk else dir.disk.(journal := None));
    dir.TryDeleteJournal(journalLocked);
    ghost var d, history := dir.disk, dir.history;
    dir.CleanupOrphans(num, orphansLocked);
    forall i | |history| <= i < |dir.history| ensures OldOrNew(dir.history[i], was, now) {
      TrimmedReads(dir.history[i], d, num);
      SameShown(dir.history[i], d, was, now);
    }
    SafeSuffix(dir.history, |history|, was, now);
    SafeFrom(history, |history|, dir.history, start, was, now);
    TrimmedReads(dir.disk, d, num);
  }

  lemma Unnamed(d: Disk, num: nat)
    requires DiskOk(d) && forall n <- d.bases :: n < num
    ensures d.manifest.Some? ==> d.manifest.value.base != num
  {}

  lemma IsOk(d: Disk, was: Ledger, now: Ledger)
    requires OldOrNew(d, was, now)
    ensures DiskOk(d)
  {}

  lemma SafeSuffix(history: seq<Disk>, start: nat, was: Ledger, now: Ledger)
    requires forall i :: start <= i < |history| ==> OldOrNew(history[i], was, now)
    ensures Safe(history, start, was, now)
  {}

  lemma SameShown(d: Disk, d0: Disk, was: Ledger, now: Ledger)
    requires OldOrNew(d0, was, now) && DiskOk(d) && Reads(d) == Reads(d0)
    ensures OldOrNew(d, was, now)
  {}

  lemma SafeWrite(d: Disk, history: seq<Disk>, num: nat, rows: seq<Entry>, was: Ledger, now: Ledger)
    requires var torn, whole := d.(bases := d.bases[num := Torn]), d.(bases := d.bases[num := Whole(rows)]);
             DiskOk(torn) && DiskOk(whole) && Reads(torn) == was && Reads(whole) == was
    ensures Safe(history + [d.(bases := d.bases[num := Torn]), d.(bases := d.bases[num := Whole(rows)])], |history|,
            was, now)
  {
    hide Reads, DiskOk;
  }

  class Snapshot {
    const dir: CacheDir
    const threshold: Option<nat>
    var rows: Option<seq<Entry>>
    var overlay: Ledger
    var removed: set<string>
    var nextBaseNumber: nat

    ghost predicate Valid()
      reads this, dir
    {
      && Fits(rows, overlay, removed)
      && DiskOk(dir.disk)
      && BaseRows(dir.disk) == rows
      && (forall n <- dir.disk.bases :: n < nextBaseNumber)
    }

    /** The map that the ledger is. */
    ghost function View(): Ledger
      reads this
    {
      Overlaid(rows, overlay, removed)
    }

    /** Opens the ledger that the files show. */
    constructor Open(dir: CacheDir, threshold: Option<nat>)
      requires DiskOk(dir.disk)
      ensures this.dir == dir && this.threshold == threshold && Valid() && View() == Reads(dir.disk)
    {
      var d := dir.disk;
      this.dir, this.threshold := dir, threshold;
      rows := BaseRows(d);
      var numbered := if d.manifest.Some? then d.manifest.value.next else 0;
      if d.journal.Some? && d.journal.value.Journal? {
        overlay := d.journal.value.sets;
        removed := d.journal.value.rems * InBase(BaseRows(d));
      } else {
        overlay, removed := map[], {};
      }
      new;
      var next := dir.NextBaseNumber();
      nextBaseNumber := if numbered > next then numbered else next;
    }

    method TryGetValue(p: string) returns (state: Option<FileState>)
      requires Valid()
      ensures state == Get(View(), p)
    {
      if p in removed { return None; }
      if p in overlay { return Some(overlay[p]); }
      if rows.None? { return None; }
      var i := IndexOf(rows.value, p);
      if i < 0 { return None; }
      RowIs(rows.value, i);
      state := Some(rows.value[i].state);
    }

    method Set(p: string, state: FileState)
      requires Valid()
      modifies this`overlay, this`removed
      ensures Valid() && View() == old(View())[p := state]
    {
      hide Overlaid, DiskOk, BaseRows, RowsOk;
      SetShows(rows, overlay, removed, p, state);
      overlay, removed := overlay[p := state], removed - {p};
    }

    method Remove(p: string) returns (existed: bool)
      requires Valid()
      modifies this`overlay, this`removed
      ensures Valid() && View() == old(View()) - {p}
      ensures existed <==> p in old(View())
    {
      hide Overlaid, DiskOk, BaseRows, RowsOk;
      var state := TryGetValue(p);
      existed := state.Some?;
      var i := -1;
      if rows.Some? { i := IndexOf(rows.value, p); }
      RemoveShows(rows, overlay, removed, p);
      overlay := overlay - {p};
      if i >= 0 { removed := removed + {p}; } else { NoneMore(removed); }
    }

    // ---- listing ----

    method Contains(p: string) returns (has: bool)
      requires Valid()
      ensures has <==> p in InBase(rows)
    {
      if rows.None? { return false; }
      var i := IndexOf(rows.value, p);
      has := i >= 0;
    }

    /** The live paths, each once. */
    method Keys() returns (keys: seq<string>)
      requires Valid()
      ensures Distinct(keys) && forall p :: p in keys <==> p in View()
    {
      hide Overlaid, DiskOk, BaseRows, RowsOk, PathSet;
      keys := [];
      forall p ensures p in View() <==> p in overlay || (p in InBase(rows) && p !in removed) {
        IsLive(rows, overlay, removed, p);
      }
      if rows.Some? {
        NoPaths();
        for i := 0 to |rows.value|
          invariant Distinct(keys)
          invariant forall p :: p in keys <==> p in PathSet(rows.value[..i]) && p !in removed && p !in overlay
        {
          NextRow(rows.value, i);
          var p := rows.value[i].path;
          if p !in removed && p !in overlay { keys := keys + [p]; }
        }
        assert rows.value[..|rows.value|] == rows.value;
      }
      ghost var fromBase := keys;
      var todo := overlay.Keys;
      while todo != {}
        invariant todo <= overlay.Keys && Distinct(keys)
        invariant forall p :: p in keys <==> p in fromBase || p in overlay.Keys - todo
        decreases |todo|
      {
        var k :| k in todo;
        keys, todo := keys + [k], todo - {k};
      }
    }

    /** The live paths that start with a prefix, each once. */
    method KeysWithPrefix(prefix: string) returns (keys: seq<string>)
      requires Valid()
      ensures Distinct(keys) && forall p :: p in keys <==> p in View() && prefix <= p
    {
      hide Overlaid, DiskOk, BaseRows, RowsOk, PathSet;
      forall p ensures p in View() <==> p in overlay || (p in InBase(rows) && p !in removed) {
        IsLive(rows, overlay, removed, p);
      }
      keys := [];
      if rows.Some? { keys := RowsWithPrefix(rows.value, overlay, removed, prefix); }
      ghost var fromBase := keys;
      var todo := overlay.Keys;
      while todo != {}
        invariant todo <= overlay.Keys && Distinct(keys)
        invariant forall p :: p in keys <==> p in fromBase || (p in overlay.Keys - todo && prefix <= p)
        decreases |todo|
      {
        var k :| k in todo;
        todo := todo - {k};
        if prefix <= k { keys := keys + [k]; }
      }
    }

    method Count() returns (c: int)
      requires Valid()
      ensures c == |View()|
    {
      hide Overlaid, DiskOk, BaseRows, RowsOk, InBase, Added;
      LiveCount(rows, overlay, removed);
      c := (if rows.Some? then |rows.value| else 0) - |removed|;
      ghost var start, added := c, Added(rows, overlay);
      var todo := overlay.Keys;
      AddedTodo(rows, overlay);
      while todo != {}
        invariant todo <= overlay.Keys && c == start + |added - todo|
        decreases |todo|
      {
        var k :| k in todo;
        var has := Contains(k);
        AddedStep(rows, overlay, todo, k);
        todo := todo - {k};
        if !has { c := c + 1; }
      }
      assert added - todo == added;
    }

    /** The live paths that were not marked, each once. */
    method UnseenKeys(seenBase: seq<bool>, seenOther: set<string>) returns (unseen: seq<string>)
      requires Valid() && |seenBase| == (if rows.Some? then |rows.value| else 0)
      ensures Distinct(unseen)
      ensures forall p :: p in unseen <==> p in View() && !Marked(rows, seenBase, seenOther, p)
    {
      hide Overlaid, DiskOk, BaseRows, RowsOk, PathSet, Marked;
      unseen := [];
      forall p ensures p in View() <==> p in overlay || (p in InBase(rows) && p !in removed) {
        IsLive(rows, overlay, removed, p);
      }
      if rows.Some? {
        NoPaths();
        for i := 0 to |rows.value|
          invariant Distinct(unseen)
          invariant forall p :: p in unseen <==>
                      p in PathSet(rows.value[..i]) && p !in removed && !Marked(rows, seenBase, seenOther, p)
        {
          NextRow(rows.value, i);
          MarkedRow(rows.value, seenBase, seenOther, i);
          var p := rows.value[i].path;
          if !seenBase[i] && p !in removed { unseen := unseen + [p]; }
        }
        assert rows.value[..|rows.value|] == rows.value;
      }
      ghost var fromBase := unseen;
      forall p | p !in InBase(rows) ensures Marked(rows, seenBase, seenOther, p) <==> p in seenOther {
        MarkedOther(rows, seenBase, seenOther, p);
      }
      var todo := overlay.Keys;
      while todo != {}
        invariant todo <= overlay.Keys && Distinct(unseen)
        invariant forall p :: p in unseen <==>
                    (p in fromBase || (p in overlay.Keys - todo && p !in seenOther && p !in InBase(rows)))
        decreases |todo|
      {
        var k :| k in todo;
        todo := todo - {k};
        if k !in seenOther {
          var has := Contains(k);
          if !has { unseen := unseen + [k]; }
        }
      }
    }

    // ---- saving ----

    method AddedBytes() returns (c: nat)
      requires Valid()
      ensures c == Bytes(Added(rows, overlay))
    {
      hide Overlaid, DiskOk, BaseRows, RowsOk, InBase, Added, Bytes, ByteCount;
      c := 0;
      ghost var added := Added(rows, overlay);
      var todo := overlay.Keys;
      AddedTodo(rows, overlay);
      NoBytes();
      while todo != {}
        invariant todo <= overlay.Keys && c == Bytes(added - todo)
        decreases |todo|
      {
        var k :| k in todo;
        var has := Contains(k);
        AddedStep(rows, overlay, todo, k);
        if !has {
          BytesMore(added - todo, k);
          c := c + ByteCount(k);
        } else {
          NoneMore(added - todo);
        }
        todo := todo - {k};
      }
      assert added - todo == added;
    }

    method RemovedBytes() returns (c: nat)
      ensures c == Bytes(removed)
    {
      hide Bytes, ByteCount;
      c := 0;
      var todo := removed;
      NoBytes();
      assert removed - todo == {};
      while todo != {}
        invariant todo <= removed && c == Bytes(removed - todo)
        decreases |todo|
      {
        var p :| p in todo;
        assert removed - (todo - {p}) == removed - todo + {p};
        BytesMore(removed - todo, p);
        c := c + ByteCount(p);
        todo := todo - {p};
      }
      assert removed - todo == removed;
    }

    /** Folds everything into a new base. */
    method Compact(journalLocked: bool, orphansLocked: set<nat>)
      requires Valid()
      modifies this, dir
      ensures Valid() && View() == old(View()) && overlay == map[] && removed == {}
      ensures old(dir.history) <= dir.history && Safe(dir.history, |old(dir.history)|, Reads(old(dir.disk)), View())
      ensures !journalLocked ==> Reads(dir.disk) == View()
    {
      hide Overlaid, DiskOk, BaseRows, RowsOk, Bytes, BlobLen, Safe, Reads, Table, InBase;
      var count := Count();
      var added := AddedBytes();
      var removedBytes := RemovedBytes();
      var blob := (if rows.Some? then BlobLen(rows.value) else 0) + added - removedBytes;
      NoRows(overlay, removed);
      var out := MergeSorted(if rows.Some? then rows.value else [], overlay, removed);
      CountsFit(rows, overlay, removed, out);
      var num := nextBaseNumber;
      Install(dir, num, num + 1, count, blob, out, journalLocked, orphansLocked);
      nextBaseNumber := num + 1;
      rows, overlay, removed := Some(out), map[], {};
      NothingOver(out);
      FitsBase(out);
    }

    method WriteJournal()
      requires Valid()
      modifies dir
      ensures Valid() && Reads(dir.disk) == View()
      ensures dir.history == old(dir.history) + [dir.disk]
    {
      JournalReads(dir.disk, rows, overlay, removed);
      dir.Become(dir.disk.(journal := Some(Journal(overlay, removed))));
    }

    /** Saves what changed: in the journal, or - from some amount on - in a new base. */
    method Save(journalLocked: bool, orphansLocked: set<nat>)
      requires Valid()
      modifies this, dir
      ensures Valid() && View() == old(View())
      ensures old(dir.history) <= dir.history && Safe(dir.history, |old(dir.history)|, Reads(old(dir.disk)), View())
      ensures !journalLocked ==> Reads(dir.disk) == View()
    {
      hide Overlaid, DiskOk, BaseRows, RowsOk, Safe, Reads;
      if rows.None? || |overlay| + |removed| >=
                         (if threshold.Some? then threshold.value
                          else Clamp(|rows.value| / 32, MIN_COMPACT_THRESHOLD, MAX_COMPACT_THRESHOLD)) {
        Compact(journalLocked, orphansLocked);
      } else {
        WriteJournal();
        SameReads(dir.disk, Reads(old(dir.disk)), View());
        OneSafe(dir.history, |old(dir.history)|, Reads(old(dir.disk)), View());
      }
    }
  }

  lemma OneSafe(history: seq<Disk>, start: nat, was: Ledger, now: Ledger)
    requires start + 1 == |history| && OldOrNew(history[start], was, now)
    ensures Safe(history, start, was, now)
  {}

  lemma JournalReads(d: Disk, rows: Option<seq<Entry>>, overlay: Ledger, removed: set<string>)
    requires DiskOk(d) && Fits(rows, overlay, removed) && BaseRows(d) == rows
    ensures var d' := d.(journal := Some(Journal(overlay, removed)));
            DiskOk(d') && BaseRows(d') == rows && Reads(d') == Overlaid(rows, overlay, removed)
  {
    hide RowsOk, Overlaid;
    assert removed * InBase(rows) == removed;
  }

  lemma NoRows(overlay: Ledger, removed: set<string>)
    ensures Overlaid(None, overlay, removed) == Overlaid(Some([]), overlay, removed)
    ensures RowsOk([])
  {
    assert Table([]) == map[];
  }

  lemma FitsBase(rows: seq<Entry>)
    requires RowsOk(rows)
    ensures Fits(Some(rows), map[], {})
  {
    hide RowsOk;
  }

  /** The declared sizes are those of what is written. */
  lemma CountsFit(rows: Option<seq<Entry>>, overlay: Ledger, removed: set<string>, out: seq<Entry>)
    requires Fits(rows, overlay, removed) && RowsOk(out) && Table(out) == Overlaid(rows, overlay, removed)
    ensures |Overlaid(rows, overlay, removed)| == |out|
    ensures BlobLen(out) ==
            (if rows.Some? then BlobLen(rows.value) else 0) + Bytes(Added(rows, overlay)) - Bytes(removed)
  {
    hide RowsOk, Bytes, BlobLen, Overlaid, Table, Added, Less;
    LiveBytes(rows, overlay, removed);
    RowsCount(out);
    TableKeys(out);
    assert |Table(out)| == |Table(out).Keys|;
  }

  lemma {:induction false} FullRows(snapshot: Ledger, keys: seq<string>, rows: seq<Entry>)
    requires Ordered(keys) && (set k <- keys) == snapshot.Keys && |rows| == |keys|
    requires forall i :: 0 <= i < |keys| ==> keys[i] in snapshot && rows[i] == Entry(keys[i], snapshot[keys[i]])
    ensures RowsOk(rows) && Table(rows) == snapshot
  {
    hide Less;
    assert Paths(rows) == keys;
    TableKeys(rows);
    forall p <- snapshot ensures p in Table(rows) && Table(rows)[p] == snapshot[p] {
      assert p in keys;
      var i :| 0 <= i < |keys| && keys[i] == p;
      RowIs(rows, i);
    }
    forall p <- Table(rows) ensures p in snapshot {
      var i :| 0 <= i < |rows| && rows[i].path == p;
    }
  }

  /** Writes the ledger of a whole build as a new base. */
  method WriteFullBase(dir: CacheDir, snapshot: Ledger, journalLocked: bool, orphansLocked: set<nat>)
    requires DiskOk(dir.disk)
    modifies dir
    ensures DiskOk(dir.disk)
    ensures old(dir.history) <= dir.history && Safe(dir.history, |old(dir.history)|, Reads(old(dir.disk)), snapshot)
    ensures !journalLocked ==> Reads(dir.disk) == snapshot
  {
    hide Overlaid, DiskOk, BaseRows, RowsOk, Safe, Reads, Table, ByteCount, Ordered;
    var keys := Sorted(snapshot.Keys);
    forall i | 0 <= i < |keys| ensures keys[i] in snapshot { assert keys[i] in (set k <- keys); }
    var rows := seq(|keys|, i requires 0 <= i < |keys| => Entry(keys[i], snapshot[keys[i]]));
    var blob := 0;
    for i := 0 to |keys|
      invariant blob == BlobLen(rows[..i])
    {
      assert rows[..i + 1][..i] == rows[..i];
      blob := blob + ByteCount(keys[i]);
    }
    assert rows[..|keys|] == rows;
    FullRows(snapshot, keys, rows);
    var num := dir.NextBaseNumber();
    Install(dir, num, num + 1, |keys|, blob, rows, journalLocked, orphansLocked);
  }

  // ---- any sequence of operations ----

  datatype Op = SetOne(path: string, state: FileState) | RemoveOne(removedPath: string) | SaveAll | CompactAll | Reopen
              | Rebuild(whole: Ledger)

  /** A map in memory, and the map that was saved. */
  datatype Plain = Plain(live: Ledger, saved: Ledger)

  function Apply(m: Plain, op: Op): Plain {
    match op
    case SetOne(p, state) => m.(live := m.live[p := state])
    case RemoveOne(p) => m.(live := m.live - {p})
    case SaveAll => m.(saved := m.live)
    case CompactAll => m.(saved := m.live)
    case Reopen => m.(live := m.saved)
    case Rebuild(whole) => Plain(whole, whole)
  }

  function ApplyAll(m: Plain, ops: seq<Op>): Plain {
    if ops == [] then m else Apply(ApplyAll(m, ops[..|ops| - 1]), ops[|ops| - 1])
  }

  method Perform(s: Snapshot, op: Op) returns (s': Snapshot)
    requires s.Valid()
    modifies s, s.dir
    ensures s'.dir == s.dir && s'.Valid() && (s' == s || fresh(s'))
    ensures Plain(s'.View(), Reads(s'.dir.disk)) == Apply(old(Plain(s.View(), Reads(s.dir.disk))), op)
  {
    hide Overlaid, DiskOk, BaseRows, RowsOk, Safe, Reads, Fits;
    s' := s;
    if op.Rebuild? { WriteFullBase(s.dir, op.whole, false, {}); }
    if op.Reopen? || op.Rebuild? {
      s' := new Snapshot.Open(s.dir, s.threshold);
    } else if op.SetOne? {
      s.Set(op.path, op.state);
    } else if op.RemoveOne? {
      var _ := s.Remove(op.removedPath);
    } else if op.SaveAll? {
      s.Save(false, {});
    } else {
      s.Compact(false, {});
    }
  }

  /** Any sequence of sets, removes, saves, compactions, reopenings and rebuilds shows what a plain map with a saved
      copy would. */
  method Replay(dir: CacheDir, threshold: Option<nat>, ops: seq<Op>) returns (s: Snapshot)
    requires DiskOk(dir.disk)
    modifies dir
    ensures s.dir == dir && s.Valid()
    ensures Plain(s.View(), Reads(dir.disk)) == ApplyAll(Plain(old(Reads(dir.disk)), old(Reads(dir.disk))), ops)
  {
    hide Overlaid, DiskOk, BaseRows, RowsOk, Reads, Fits, Apply;
    s := new Snapshot.Open(dir, threshold);
    for i := 0 to |ops|
      invariant fresh(s) && s.dir == dir && s.Valid()
      invariant Plain(s.View(), Reads(dir.disk)) ==
                ApplyAll(Plain(old(Reads(dir.disk)), old(Reads(dir.disk))), ops[..i])
    {
      assert ops[..i + 1][..i] == ops[..i];
      s := Perform(s, ops[i]);
    }
    assert ops[..|ops|] == ops;
  }
}
