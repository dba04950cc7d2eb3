/** The files the ledger is kept in, and what opening them shows: a sorted base, and a journal of what changed since.
    Every file step is atomic but the writing of a base, which is torn until it is whole. */
module LedgerFiles {
  import opened Common
  import Utf8
  import opened Ordinal
  import opened LedgerTrust

  type Ledger = map<string, FileState>

  datatype Entry = Entry(path: string, state: FileState)
  datatype BaseFile = Torn | Whole(rows: seq<Entry>)
  datatype Manifest = Manifest(base: nat, next: nat)
  datatype Journal = Damaged | Journal(sets: Ledger, rems: set<string>)
  datatype Disk = Disk(manifest: Option<Manifest>, journal: Option<Journal>, bases: map<nat, BaseFile>)

  // ---- rows ----

  function Paths(rows: seq<Entry>): (paths: seq<string>)
    ensures |paths| == |rows| && forall i :: 0 <= i < |rows| ==> paths[i] == rows[i].path
  {
    seq(|rows|, i requires 0 <= i < |rows| => rows[i].path)
  }

  ghost predicate RowsOk(rows: seq<Entry>) { Ordered(Paths(rows)) }

  function PathSet(rows: seq<Entry>): set<string> { set e <- rows :: e.path }

  /** The table that rows spell out. */
  ghost function Table(rows: seq<Entry>): Ledger {
    map p | p in PathSet(rows) :: RowOf(rows, p)
  }

  ghost function RowOf(rows: seq<Entry>, p: string): FileState
    requires p in PathSet(rows)
  {
    var i :| 0 <= i < |rows| && rows[i].path == p;
    rows[i].state
  }

  lemma RowIs(rows: seq<Entry>, i: nat)
    requires RowsOk(rows) && i < |rows|
    ensures rows[i].path in Table(rows) && Table(rows)[rows[i].path] == rows[i].state
  {
    var p := rows[i].path;
    assert rows[i] in rows;
    forall j | 0 <= j < |rows| && rows[j].path == p ensures j == i { OrderedDistinct(Paths(rows), i, j); }
  }

  // ---- what is read back ----

  function BaseRows(d: Disk): Option<seq<Entry>> {
    if d.manifest.Some? && d.manifest.value.base in d.bases && d.bases[d.manifest.value.base].Whole?
    then Some(d.bases[d.manifest.value.base].rows) else None
  }

  function InBase(rows: Option<seq<Entry>>): set<string> {
    if rows.Some? then PathSet(rows.value) else {}
  }

  ghost function BaseTable(rows: Option<seq<Entry>>): Ledger {
    if rows.Some? then Table(rows.value) else map[]
  }

  /** The base, less the tombstones, under the overlay. */
  ghost function Overlaid(rows: Option<seq<Entry>>, overlay: Ledger, removed: set<string>): Ledger {
    (BaseTable(rows) - removed) + overlay
  }

  /** The ledger that opening these files shows. */
  ghost function Reads(d: Disk): Ledger {
    if d.journal.Some? && d.journal.value.Journal?
    then Overlaid(BaseRows(d), d.journal.value.sets, d.journal.value.rems * InBase(BaseRows(d)))
    else Overlaid(BaseRows(d), map[], {})
  }

  /** The files as this program leaves them. */
  ghost predicate DiskOk(d: Disk) {
    && (forall n <- d.bases :: d.bases[n].Whole? ==> RowsOk(d.bases[n].rows))
    && (d.journal.Some? && d.journal.value.Journal? ==> d.journal.value.sets.Keys !! d.journal.value.rems)
    && (d.manifest.Some? ==> d.manifest.value.base in d.bases)
  }

  /** Each path reads as it did, or as it is to. */
  ghost predicate OldOrNew(d: Disk, was: Ledger, now: Ledger) {
    DiskOk(d) && forall p: string :: Get(Reads(d), p) == Get(was, p) || Get(Reads(d), p) == Get(now, p)
  }

  lemma LaterRow(rows: seq<Entry>, i: nat, j: nat)
    requires RowsOk(rows) && i < j < |rows|
    ensures Less(rows[i].path, rows[j].path)
  {
    assert Less(Paths(rows)[i], Paths(rows)[j]);
  }

  /** What is kept in memory fits what is on disk. */
  ghost predicate Fits(rows: Option<seq<Entry>>, overlay: Ledger, removed: set<string>) {
    (rows.Some? ==> RowsOk(rows.value)) && removed <= InBase(rows) && removed !! overlay.Keys
  }

  lemma IsLive(rows: Option<seq<Entry>>, overlay: Ledger, removed: set<string>, p: string)
    requires removed !! overlay.Keys
    ensures p in Overlaid(rows, overlay, removed) <==> p in overlay || (p in InBase(rows) && p !in removed)
  {
    BaseTableKeys(rows);
  }

  // ---- what a step of replacing the base shows ----

  /** A base that no manifest names yet changes nothing. */
  lemma UnnamedBase(d: Disk, num: nat, f: BaseFile)
    requires DiskOk(d) && (f.Whole? ==> RowsOk(f.rows)) && (d.manifest.Some? ==> d.manifest.value.base != num)
    ensures var d' := d.(bases := d.bases[num := f]); DiskOk(d') && Reads(d') == Reads(d) && BaseRows(d') == BaseRows(d)
  {
    hide RowsOk, Overlaid;
  }

  /** A new base under the journal of the old one: a path that the journal speaks of reads as it did, every other path
      as it is in the new base. */
  lemma BaseUnderJournal(d: Disk, num: nat, next: nat, rows: seq<Entry>)
    requires DiskOk(d) && num in d.bases && d.bases[num] == Whole(rows)
    ensures var d' := d.(manifest := Some(Manifest(num, next)));
            && OldOrNew(d', Reads(d), Table(rows)) && BaseRows(d') == Some(rows)
            && (d.journal.None? ==> Reads(d') == Table(rows))
  {
    hide RowsOk, Table;
    TableKeys(rows);
    BaseTableKeys(BaseRows(d));
    NothingOver(rows);
  }

  lemma TableKeys(rows: seq<Entry>)
    ensures Table(rows).Keys == PathSet(rows)
  {}

  lemma BaseTableKeys(rows: Option<seq<Entry>>)
    ensures BaseTable(rows).Keys == InBase(rows)
  {}

  lemma NothingOver(rows: seq<Entry>)
    ensures Overlaid(Some(rows), map[], {}) == Table(rows)
  {
    hide Table;
  }

  // ---- lengths ----

  function CharBytes(c: char): nat {
    if c as int < 0x80 then 1 else if c as int < 0x800 then 2 else if c as int < 0x1_0000 then 3 else 4
  }

  function ByteCount(p: string): nat {
    if p == "" then 0 else CharBytes(p[0]) + ByteCount(p[1..])
  }

  /** It is the length of the path's bytes. */
  lemma {:induction false} ByteCountIs(p: string)
    ensures ByteCount(p) == |Utf8.EncodeAll(p)|
  {
    if p != "" { ByteCountIs(p[1..]); }
  }

  /** The length of all the paths of a base. */
  function BlobLen(rows: seq<Entry>): nat {
    if rows == [] then 0 else BlobLen(rows[..|rows| - 1]) + ByteCount(rows[|rows| - 1].path)
  }

  // ---- steps ----

  /** Nothing lost but base files other than the one to keep. */
  ghost predicate Trimmed(d: Disk, was: Disk, keep: nat) {
    && d.manifest == was.manifest && d.journal == was.journal
    && d.bases.Keys <= was.bases.Keys && keep in d.bases && forall n <- d.bases :: d.bases[n] == was.bases[n]
  }

  /** The directory, and every state its files have been in. */
  class CacheDir {
    var disk: Disk
    ghost var history: seq<Disk>

    constructor (d: Disk)
      ensures disk == d && history == []
    {
      disk, history := d, [];
    }

    method Become(d: Disk)
      modifies this
      ensures disk == d && history == old(history) + [d]
    {
      disk := d;
      history := history + [d];
    }

    /** Writes a base file of a declared size; a size that is not that of the rows leaves it torn. */
    method WriteBase(num: nat, count: int, blob: int, rows: seq<Entry>) returns (ok: bool)
      modifies this
      ensures ok <==> |rows| == count && BlobLen(rows) == blob
      ensures var torn := old(disk).(bases := old(disk).bases[num := Torn]);
              var whole := old(disk).(bases := old(disk).bases[num := Whole(rows)]);
              && disk == (if ok then whole else torn)
              && history == old(history) + if ok then [torn, whole] else [torn]
    {
      Become(disk.(bases := disk.bases[num := Torn]));
      var i, acc: int := 0, 0;
      while i < |rows|
        invariant 0 <= i <= |rows| && (i == 0 || i <= count) && acc == BlobLen(rows[..i])
        invariant disk == old(disk).(bases := old(disk).bases[num := Torn]) && history == old(history) + [disk]
      {
        if i >= count { return false; }
        assert rows[..i + 1][..i] == rows[..i];
        acc := acc + ByteCount(rows[i].path);
        i := i + 1;
      }
      assert rows[..|rows|] == rows;
      if i != count || acc != blob { return false; }
      Become(disk.(bases := disk.bases[num := Whole(rows)]));
      ok := true;
    }

    method TryDeleteJournal(locked: bool)
      modifies this
      ensures disk == (if locked then old(disk) else old(disk).(journal := None))
      ensures history == old(history) + [disk]
    {
      Become(if locked then disk else disk.(journal := None));
    }

    /** Deletes the base files that are not in use, all but those that someone holds open. */
    method CleanupOrphans(keep: nat, locked: set<nat>)
      requires keep in disk.bases
      modifies this
      ensures Trimmed(disk, old(disk), keep)
      ensures forall n <- disk.bases :: n == keep || n in locked
      ensures old(history) <= history
      ensures forall i :: |old(history)| <= i < |history| ==> Trimmed(history[i], old(disk), keep)
    {
      var todo := disk.bases.Keys;
      while todo != {}
        invariant todo <= disk.bases.Keys && Trimmed(disk, old(disk), keep)
        invariant forall n <- disk.bases :: n in todo || n == keep || n in locked
        invariant old(history) <= history
        invariant forall i :: |old(history)| <= i < |history| ==> Trimmed(history[i], old(disk), keep)
        decreases |todo|
      {
        var n :| n in todo;
        if n != keep && n !in locked { Become(disk.(bases := disk.bases - {n})); }
        todo := todo - {n};
      }
    }

    /** One more than the highest number a base file has. */
    method NextBaseNumber() returns (next: nat)
      ensures forall n <- disk.bases :: n < next
      ensures next > 0 ==> next - 1 in disk.bases
    {
      var max: int, todo := -1, disk.bases.Keys;
      while todo != {}
        invariant todo <= disk.bases.Keys && max >= -1 && (max >= 0 ==> max in disk.bases)
        invariant forall n <- disk.bases :: n in todo || n <= max
        decreases |todo|
      {
        var n :| n in todo;
        if n > max { max := n; }
        todo := todo - {n};
      }
      next := max + 1;
    }
  }
}
