/** When a file's size and modified time may stand in for its content. The ledger keeps, for a file it hashed, the
    modified time it saw: positive where it may be trusted, negated where it is pending, 0 where nothing is vouched
    for. Times are ticks of 100 ns, and every machine that keeps the ledger has a clock of its own. */
module LedgerTrust {
  import opened Common

  datatype FileState = FileState(size: int, mtime: int, hash: string, ctime: int, fileId: int, hashedAt: int)

  /** What an open handle says of a file; unknown where there is no handle to ask. */
  datatype FileIdentity = FileIdentity(size: int, mtime: int, ctime: int, fileId: int) {
    predicate Known() { mtime > 0 }
  }

  datatype ReadStamp = ReadStamp(listedSize: int, listedMTime: int, before: FileIdentity, after: FileIdentity,
                                 readStart: int, recordedAt: int)

  const SECOND := 10_000_000
  const LOCAL_MARGIN := 3 * SECOND
  const NETWORK_MARGIN := 3600 * SECOND
  const SETTLE_MARGIN := 3 * SECOND

  function Margin(network: bool): int { if network then NETWORK_MARGIN else LOCAL_MARGIN }

  function Max(a: int, b: int): int { if a >= b then a else b }

  /** May an update skip the file, its entry standing in for its content? */
  predicate MatchesListing(e: FileState, listedSize: int, listedMTime: int, ledgerRecordedBy: int, network: bool) {
    if e.mtime <= 0 || e.size != listedSize || e.mtime != listedMTime then false
    else if e.hashedAt > 0 then true
    else ledgerRecordedBy > 0 && e.mtime <= ledgerRecordedBy - Margin(network)
  }

  predicate FirstLook(mtime: int, ctime: int, readStart: int, network: bool) {
    Max(mtime, ctime) <= readStart - Margin(network)
  }

  function Anchor(p: FileState, priorRecordedBy: int, entryClockIsOurs: bool): int {
    if entryClockIsOurs && p.hashedAt > 0 then p.hashedAt else priorRecordedBy
  }

  predicate SecondLook(mtime: int, ctime: int, fileId: int, readStart: int, prior: Option<FileState>,
                       priorRecordedBy: int, recordedSize: int, entryClockIsOurs: bool) {
    && prior.Some?
    && prior.value.mtime == -mtime && prior.value.size == recordedSize && prior.value.ctime == ctime
    && (prior.value.fileId == 0 || fileId == 0 || prior.value.fileId == fileId)
    && var anchor := Anchor(prior.value, priorRecordedBy, entryClockIsOurs);
       anchor > 0 && readStart >= anchor + SETTLE_MARGIN
  }

  /** The signed modified time to record. */
  function Decide(mtime: int, ctime: int, fileId: int, readStart: int, network: bool, prior: Option<FileState>,
                  priorRecordedBy: int, recordedSize: int, entryClockIsOurs: bool): int {
    if mtime <= 0 then 0
    else if FirstLook(mtime, ctime, readStart, network) then mtime
    else if SecondLook(mtime, ctime, fileId, readStart, prior, priorRecordedBy, recordedSize, entryClockIsOurs)
      then mtime
    else -mtime
  }

  /** The entry to record for a file just hashed. */
  function Record(read: ReadStamp, network: bool, prior: Option<FileState>, priorRecordedBy: int, recordedSize: int,
                  hash: string, entryClockIsOurs: bool): FileState {
    var b := read.before;
    if b.Known()
      && !(b.size == read.listedSize && b.mtime == read.listedMTime && b.size == recordedSize && read.after == b)
    then FileState(recordedSize, 0, hash, 0, 0, read.readStart)
    else
      var ctime := if b.Known() then b.ctime else 0;
      var fileId := if b.Known() then b.fileId else 0;
      var m := Decide(read.listedMTime, ctime, fileId, read.readStart, network, prior, priorRecordedBy, recordedSize,
                      entryClockIsOurs);
      FileState(recordedSize, m, hash, ctime, fileId, if m < 0 then read.recordedAt else read.readStart)
  }

  // ---- one file, the machines that look at it, and everything that may happen ----

  /** A write (or a replacement) of the file: when it happened, and the modified time it left. */
  datatype Write = Write(at: int, stamp: int, size: int, content: string)

  /** What a run takes as given: each machine's clock, as an offset from true time; whether it sees the file on a share;
      the content hash. */
  datatype Setup = Setup(skew: nat -> int, network: nat -> bool, hash: string -> string)

  /** A machine's visit to the file, a step at a time; a write may come between any two of them. */
  datatype Visit =
    | Idle
    | Listed(who: nat, size: int, mtime: int)
    | Reading(who: nat, size: int, mtime: int, readStart: int, seen: nat, before: FileIdentity)
    | Hashed(who: nat, size: int, mtime: int, readStart: int, seen: nat, before: FileIdentity, after: FileIdentity,
             recordedSize: int, hash: string)

  /** A ledger entry, with who recorded it, when, when its read began, and how many writes there had been by then. */
  datatype Slot = Slot(entry: FileState, who: nat, at: int, readStart: int, seen: nat)

  datatype World = World(now: int, writes: seq<Write>, slot: Option<Slot>, visit: Visit)

  function Latest(w: World): Write
    requires w.writes != []
  {
    w.writes[|w.writes| - 1]
  }

  ghost predicate Init(w: World) {
    |w.writes| == 1 && w.writes[0].at <= w.now && w.slot == None && w.visit == Idle
  }

  ghost predicate Pass(w: World, w': World) { w'.now >= w.now && w' == w.(now := w'.now) }

  ghost predicate WriteFile(w: World, w': World) {
    |w'.writes| == |w.writes| + 1 && Latest(w').at == w.now && w' == w.(writes := w.writes + [Latest(w')])
  }

  ghost predicate List(w: World, w': World) {
    && w.writes != [] && w'.visit.Listed?
    && w' == w.(visit := Listed(w'.visit.who, Latest(w).size, Latest(w).stamp))
  }

  ghost predicate StartRead(w: World, w': World) {
    && w.visit.Listed? && w'.visit.Reading?
    && w' == w.(visit := Reading(w.visit.who, w.visit.size, w.visit.mtime, w.now, |w.writes|, w'.visit.before))
  }

  /** The bytes that are hashed are the file's, if nothing wrote to it meanwhile; otherwise they may be anything. */
  ghost predicate FinishRead(s: Setup, w: World, w': World) {
    && w.writes != [] && w.visit.Reading? && w'.visit.Hashed?
    && var v := w'.visit;
       && w' ==
          w.(visit := Hashed(w.visit.who, w.visit.size, w.visit.mtime, w.visit.readStart, w.visit.seen, w.visit.before,
                         v.after, v.recordedSize, v.hash))
       && (|w.writes| == v.seen ==> v.hash == s.hash(Latest(w).content))
  }

  /** The result is recorded. The bound on when the prior entry was recorded is a bound on this machine's clock, and the
      prior entry's own time counts only where this machine recorded it. */
  ghost predicate RecordEntry(s: Setup, w: World, w': World, priorRecordedBy: int, entryClockIsOurs: bool) {
    && w.visit.Hashed?
    && var v := w.visit;
       var clock := s.skew(v.who);
       var prior := if w.slot.Some? then Some(w.slot.value.entry) else None;
       && (w.slot.Some? && priorRecordedBy > 0 ==> priorRecordedBy >= w.slot.value.at + clock)
       && (w.slot.Some? && entryClockIsOurs ==> w.slot.value.who == v.who)
       && var entry := Record(ReadStamp(v.size, v.mtime, v.before, v.after, v.readStart + clock, w.now + clock),
                              s.network(v.who), prior, priorRecordedBy, v.recordedSize, v.hash, entryClockIsOurs);
          w' == w.(visit := Idle, slot := Some(Slot(entry, v.who, w.now, v.readStart, v.seen)))
  }

  ghost predicate Abandon(w: World, w': World) { w' == w.(visit := Idle) || w' == w.(slot := None) }

  ghost predicate Next(s: Setup, w: World, w': World) {
    || Pass(w, w') || WriteFile(w, w') || List(w, w') || StartRead(w, w') || FinishRead(s, w, w') || Abandon(w, w')
    || exists bound, ours :: RecordEntry(s, w, w', bound, ours)
  }

  ghost predicate Run(s: Setup, run: seq<World>) {
    && run != [] && Init(run[0])
    && forall i :: 0 < i < |run| ==> Next(s, run[i - 1], run[i])
  }

  // ---- what the world must grant ----

  /** A modified time lags the clock of any machine that looks by less than that machine's margin. */
  ghost predicate StampsLagLittle(s: Setup, w: World) {
    forall i, m: nat {:trigger w.writes[i], s.skew(m)} ::
      0 <= i < |w.writes| ==> w.writes[i].stamp > w.writes[i].at + s.skew(m) - Margin(s.network(m))
  }

  /** Writes that leave one modified time are less than a tick apart. */
  ghost predicate TicksAreShort(w: World) {
    forall i, j :: 0 <= i < j < |w.writes| && w.writes[i].stamp == w.writes[j].stamp ==>
      w.writes[j].at - w.writes[i].at < SETTLE_MARGIN
  }

  // ---- what every step keeps ----

  ghost predicate StampSeenBy(w: World, stamp: int, at: int) {
    exists i :: 0 <= i < |w.writes| && w.writes[i].stamp == stamp && w.writes[i].at <= at
  }

  ghost predicate ReadFrom(s: Setup, w: World, readStart: int, seen: nat, hash: string) {
    && 0 < seen <= |w.writes|
    && readStart <= w.now
    && (forall i :: seen <= i < |w.writes| ==> w.writes[i].at >= readStart)
    && (|w.writes| == seen ==> hash == s.hash(Latest(w).content))
  }

  /** Why an entry was trusted: one of the two looks, told in true time. */
  ghost predicate Vouched(s: Setup, w: World, slot: Slot) {
    || slot.entry.mtime <= slot.readStart + s.skew(slot.who) - Margin(s.network(slot.who))
    || StampSeenBy(w, slot.entry.mtime, slot.readStart - SETTLE_MARGIN)
  }

  ghost predicate SlotOk(s: Setup, w: World, slot: Slot) {
    && slot.at <= w.now
    && (slot.entry.mtime < 0 ==>
          slot.entry.hashedAt == slot.at + s.skew(slot.who) && StampSeenBy(w, -slot.entry.mtime, slot.at))
    && (slot.entry.mtime > 0 ==> Vouched(s, w, slot) && ReadFrom(s, w, slot.readStart, slot.seen, slot.entry.hash))
  }

  ghost predicate VisitOk(s: Setup, w: World) {
    match w.visit
    case Idle => true
    case Listed(_, _, mtime) => StampSeenBy(w, mtime, w.now)
    case Reading(_, _, mtime, readStart, seen, _) =>
      && StampSeenBy(w, mtime, w.now) && 0 < seen <= |w.writes| && readStart <= w.now
      && forall i :: seen <= i < |w.writes| ==> w.writes[i].at >= readStart
    case Hashed(_, _, mtime, readStart, seen, _, _, _, hash) =>
      StampSeenBy(w, mtime, w.now) && ReadFrom(s, w, readStart, seen, hash)
  }

  ghost predicate Inv(s: Setup, w: World) {
    && w.writes != []
    && (forall i :: 0 <= i < |w.writes| ==> w.writes[i].at <= w.now)
    && VisitOk(s, w)
    && (w.slot.Some? ==> SlotOk(s, w, w.slot.value))
  }

  lemma SeenStays(w: World, w': World, stamp: int, at: int, at': int)
    requires w.writes <= w'.writes && at <= at'
    ensures StampSeenBy(w, stamp, at) ==> StampSeenBy(w', stamp, at')
  {
    if i :| 0 <= i < |w.writes| && w.writes[i].stamp == stamp && w.writes[i].at <= at {
      assert w'.writes[i] == w.writes[i];
    }
  }

  /** Time passing, or one more write, takes nothing away from what is known of an entry or a read. */
  lemma SlotStays(s: Setup, w: World, w': World, slot: Slot)
    requires Pass(w, w') || WriteFile(w, w')
    requires w.writes != [] && SlotOk(s, w, slot)
    ensures SlotOk(s, w', slot)
  {
    SeenStays(w, w', -slot.entry.mtime, slot.at, slot.at);
    SeenStays(w, w', slot.entry.mtime, slot.readStart - SETTLE_MARGIN, slot.readStart - SETTLE_MARGIN);
  }

  lemma VisitStays(s: Setup, w: World, w': World)
    requires Pass(w, w') || WriteFile(w, w')
    requires w.writes != [] && VisitOk(s, w)
    ensures VisitOk(s, w')
  {
    if !w.visit.Idle? { SeenStays(w, w', w.visit.mtime, w.now, w'.now); }
  }

  lemma RecordedOk(s: Setup, w: World, w': World, bound: int, ours: bool)
    requires Inv(s, w) && RecordEntry(s, w, w', bound, ours)
    ensures SlotOk(s, w', w'.slot.value)
  {
    var v := w.visit;
    var entry := w'.slot.value.entry;
    SeenStays(w, w', v.mtime, w.now, w.now);
    if entry.mtime > 0 && entry.mtime > v.readStart + s.skew(v.who) - Margin(s.network(v.who)) {
      var prior := w.slot.value;
      assert prior.entry.mtime == -v.mtime;
      assert prior.at + SETTLE_MARGIN <= v.readStart;
      SeenStays(w, w', v.mtime, prior.at, v.readStart - SETTLE_MARGIN);
    }
  }

  lemma InvKept(s: Setup, w: World, w': World)
    requires Inv(s, w) && Next(s, w, w')
    ensures Inv(s, w')
  {
    if Pass(w, w') || WriteFile(w, w') {
      VisitStays(s, w, w');
      if w.slot.Some? { SlotStays(s, w, w', w.slot.value); }
    } else if bound, ours :| RecordEntry(s, w, w', bound, ours) {
      RecordedOk(s, w, w', bound, ours);
    } else if List(w, w') {
      assert w.writes[|w.writes| - 1] == Latest(w);
      assert StampSeenBy(w', Latest(w).stamp, w.now);
    }
  }

  lemma {:induction false} InvOnRun(s: Setup, run: seq<World>)
    requires Run(s, run)
    ensures Inv(s, run[|run| - 1])
  {
    if |run| > 1 {
      InvOnRun(s, run[..|run| - 1]);
      InvKept(s, run[|run| - 2], run[|run| - 1]);
    }
  }

  lemma {:induction false} WritesGrow(s: Setup, run: seq<World>, n: nat)
    requires Run(s, run) && n < |run|
    ensures run[n].writes <= run[|run| - 1].writes
    decreases |run| - n
  {
    hide Next;
    if n < |run| - 1 {
      WritesGrow(s, run, n + 1);
      assert Next(s, run[n], run[n + 1]);
      WritesStay(s, run[n], run[n + 1]);
    }
  }

  lemma WritesStay(s: Setup, w: World, w': World)
    requires Next(s, w, w')
    ensures w.writes <= w'.writes
  {
    hide Record;
  }

  /** A write that began after the read of a trusted entry left another modified time. */
  lemma LaterWritesShow(s: Setup, w: World, slot: Slot, i: nat)
    requires Inv(s, w) && w.slot == Some(slot) && slot.entry.mtime > 0
    requires StampsLagLittle(s, w) && TicksAreShort(w)
    requires slot.seen <= i < |w.writes|
    ensures w.writes[i].stamp != slot.entry.mtime
  {
    assert w.writes[i].at >= slot.readStart;
    if slot.entry.mtime <= slot.readStart + s.skew(slot.who) - Margin(s.network(slot.who)) {
      assert w.writes[i].stamp > w.writes[i].at + s.skew(slot.who) - Margin(s.network(slot.who));
    } else {
      var k :| 0 <= k < |w.writes| && w.writes[k].stamp == slot.entry.mtime
        && w.writes[k].at <= slot.readStart - SETTLE_MARGIN;
      assert k != i;
    }
  }

  /** In every run of writes, listings, reads and records, by machines whose clocks need not agree: a trusted entry that
      matches a listing holds the hash of what the file holds then. */
  lemma TrustIsSound(s: Setup, run: seq<World>, ledgerRecordedBy: int, network: bool)
    requires Run(s, run)
    requires var w := run[|run| - 1];
             StampsLagLittle(s, w) && TicksAreShort(w)
    ensures var w := run[|run| - 1];
            w.slot.Some? && w.writes != [] ==>
              var e := w.slot.value.entry;
              e.hashedAt > 0 && MatchesListing(e, Latest(w).size, Latest(w).stamp, ledgerRecordedBy, network) ==>
                e.hash == s.hash(Latest(w).content)
  {
    var w := run[|run| - 1];
    InvOnRun(s, run);
    if w.slot.Some? {
      var slot := w.slot.value;
      forall i: nat | slot.entry.mtime > 0 && slot.seen <= i < |w.writes|
        ensures w.writes[i].stamp != slot.entry.mtime
      {
        LaterWritesShow(s, w, slot, i);
      }
    }
  }

  predicate Stable(read: ReadStamp, recordedSize: int) {
    && read.listedMTime > 0
    && (read.before.Known() ==>
          && read.before.size == read.listedSize == recordedSize
          && read.before.mtime == read.listedMTime
          && read.after == read.before)
  }

  function ChangeTime(read: ReadStamp): int { if read.before.Known() then read.before.ctime else 0 }

  /** A read vouches for something, now or for a second look, exactly if nothing moved: the listing, the handle before
      and after, and what was read agree. Otherwise no listing at all lets an update skip the file. */
  lemma VouchedIfStable(read: ReadStamp, network: bool, prior: Option<FileState>, bound: int, size: int, hash: string,
                        ours: bool)
    requires read.listedMTime > 0
    ensures var e := Record(read, network, prior, bound, size, hash, ours);
            && (e.mtime != 0 <==> Stable(read, size))
            && (!Stable(read, size) ==> forall n, m, known, net :: !MatchesListing(e, n, m, known, net))
  {}

  /** A file that has another size or change time, or was replaced, since it was recorded as pending is pending again -
      unless its times alone vouch for it. */
  lemma ChangedIsPending(read: ReadStamp, network: bool, prior: FileState, bound: int, size: int, hash: string,
                         ours: bool)
    requires Stable(read, size) && !FirstLook(read.listedMTime, ChangeTime(read), read.readStart, network)
    requires || prior.size != size || prior.ctime != ChangeTime(read)
             || (read.before.Known() && prior.fileId != 0 && read.before.fileId != 0
                 && prior.fileId != read.before.fileId)
    ensures Record(read, network, Some(prior), bound, size, hash, ours).mtime == -read.listedMTime
  {}

  /** A file left alone, read again a settle margin after an earlier read of it was recorded: it is trusted from then
      on, whatever its modified time says (one in the future included), exactly where that read had left it pending,
      or where its times alone vouch for it. */
  lemma TrustedOnSecondRead(read1: ReadStamp, read2: ReadStamp, network: bool, prior: Option<FileState>, bound1: int,
                            bound2: int, size: int, hash: string, ours: bool)
    requires Stable(read1, size) && Stable(read2, size)
    requires read1.listedMTime == read2.listedMTime && read1.before == read2.before
    requires read1.recordedAt > 0 && read2.readStart >= read1.recordedAt + SETTLE_MARGIN
    ensures var first := Record(read1, network, prior, bound1, size, hash, ours);
            Record(read2, network, Some(first), bound2, size, hash, true).mtime == read2.listedMTime <==>
            first.mtime < 0 || FirstLook(read2.listedMTime, ChangeTime(read2), read2.readStart, network)
  {
    var first := Record(read1, network, prior, bound1, size, hash, ours);
    assert first.mtime == read1.listedMTime || first.mtime == -read1.listedMTime;
    assert first.mtime < 0 ==> first.hashedAt == read1.recordedAt && first.ctime == ChangeTime(read2);
  }

  /** So a file dated in the future that was trusted, and is read once more unchanged, is pending again. */
  lemma ReadOnceMorePending()
    ensures var id := FileIdentity(0, 0, 0, 0);
            var stamp := 100 * SECOND;
            var first := Record(ReadStamp(5, stamp, id, id, 10 * SECOND, 10 * SECOND), false, None, 0, 5, "h", true);
            var second :=
              Record(ReadStamp(5, stamp, id, id, 20 * SECOND, 20 * SECOND), false, Some(first), 0, 5, "h", true);
            var third :=
              Record(ReadStamp(5, stamp, id, id, 30 * SECOND, 30 * SECOND), false, Some(second), 0, 5, "h", true);
            first.mtime == -stamp && second.mtime == stamp && third.mtime == -stamp
  {}
}
