/** What the change time is good for: modified times may be set back at will - a write may leave the modified time of an
    earlier one - and trust is still sound where handles tell change times, as long as a modified time is not put back
    again long after it was last seen. */
module ChangeTimes {
  import opened Common
  import opened LedgerTrust

  /** What is known of change times: that of each write; writes that leave one change time are less than a tick apart;
      and a write that leaves the modified time of an earlier one comes less than a gap after the last that did. */
  datatype Clock = Clock(change: nat -> int, tick: int, gap: int)

  ghost predicate ClockOk(c: Clock) { c.tick > 0 && c.gap > 0 && c.tick + c.gap <= SETTLE_MARGIN }

  /** A handle tells the modified and change time that the last write left. */
  ghost predicate HandleTells(c: Clock, w: World) {
    w.visit.Reading? && w.visit.before.Known() && w.visit.seen > 0 && w.visit.seen <= |w.writes| ==>
      var last := w.visit.seen - 1;
      w.visit.before.ctime == c.change(last) && w.visit.before.mtime == w.writes[last].stamp
  }

  ghost predicate HandlesTell(c: Clock, run: seq<World>) { forall i :: 0 <= i < |run| ==> HandleTells(c, run[i]) }

  /** A change time lags the clock of any machine that looks by less than that machine's margin, with time to settle to
      spare. Modified times may lag as they like. */
  ghost predicate ChangesLagLittle(s: Setup, c: Clock, writes: seq<Write>) {
    forall i, m: nat {:trigger writes[i], s.skew(m)} ::
      0 <= i < |writes| ==> c.change(i) > 0 && c.change(i) >= writes[i].at + s.skew(m) - LagAllowed(s, m)
  }

  ghost function LagAllowed(s: Setup, m: nat): int { Margin(s.network(m)) - SETTLE_MARGIN }

  ghost predicate ChangesDiffer(c: Clock, writes: seq<Write>) {
    forall i, j :: 0 <= i < j < |writes| && c.change(i) == c.change(j) ==> writes[j].at - writes[i].at < c.tick
  }

  /** Write j leaves the modified time that write i left, and no write in between does. */
  ghost predicate PutsBack(writes: seq<Write>, i: nat, j: nat) {
    && i < j < |writes| && writes[i].stamp == writes[j].stamp
    && forall k :: i < k < j ==> writes[k].stamp != writes[i].stamp
  }

  ghost predicate PutBackSoon(c: Clock, writes: seq<Write>) {
    forall i: nat, j: nat :: PutsBack(writes, i, j) ==> writes[j].at - writes[i].at < c.gap
  }

  ghost predicate Granted(s: Setup, c: Clock, writes: seq<Write>) {
    ClockOk(c) && ChangesLagLittle(s, c, writes) && ChangesDiffer(c, writes) && PutBackSoon(c, writes)
  }

  // ---- what every step keeps ----

  /** A visit's handle told of the last write that it saw. */
  ghost predicate VisitTold(c: Clock, w: World) {
    (w.visit.Reading? || w.visit.Hashed?) && w.visit.before.Known() ==>
      && 0 < w.visit.seen <= |w.writes|
      && w.visit.before.ctime == c.change(w.visit.seen - 1)
      && w.visit.before.mtime == w.writes[w.visit.seen - 1].stamp
  }

  /** An entry with a change time was read from the last write that left it; a trusted one, so long after that write
      that no later one can leave its modified time. */
  ghost predicate SlotTold(s: Setup, c: Clock, w: World, slot: Slot) {
    slot.entry.ctime != 0 && slot.entry.mtime != 0 ==>
      && 0 < slot.seen <= |w.writes| && slot.readStart <= slot.at
      && slot.entry.ctime == c.change(slot.seen - 1)
      && var write := w.writes[slot.seen - 1];
         && write.stamp == (if slot.entry.mtime > 0 then slot.entry.mtime else -slot.entry.mtime)
         && write.at <= slot.readStart
         && (slot.entry.mtime > 0 ==> write.at + c.gap <= slot.readStart)
  }

  /** The last write that a visit saw came before its read began, and the entry there is came before that. */
  ghost predicate SeenInTime(w: World) {
    && (w.visit.Reading? || w.visit.Hashed? ==>
          && 0 < w.visit.seen <= |w.writes| && w.visit.readStart <= w.now
          && (w.slot.Some? ==> w.slot.value.seen <= w.visit.seen)
          && forall i :: 0 <= i < w.visit.seen ==> w.writes[i].at <= w.visit.readStart)
    && (w.slot.Some? ==> w.slot.value.seen <= |w.writes|)
  }

  ghost predicate Told(s: Setup, c: Clock, w: World) {
    VisitTold(c, w) && SeenInTime(w) && (w.slot.Some? ==> SlotTold(s, c, w, w.slot.value))
  }

  lemma SeenKept(s: Setup, w: World, w': World)
    requires Inv(s, w) && Next(s, w, w') && SeenInTime(w)
    ensures SeenInTime(w')
  {
    hide Record, SlotOk;
  }

  /** By the first look, the change time says that the last write came a settle margin before the read. */
  lemma FirstLookTold(s: Setup, c: Clock, w: World, writes: seq<Write>)
    requires Granted(s, c, writes) && w.writes <= writes && w.visit.Hashed? && VisitTold(c, w)
    requires var v := w.visit;
             && v.before.Known()
             && FirstLook(v.mtime, v.before.ctime, v.readStart + s.skew(v.who), s.network(v.who))
    ensures w.writes[w.visit.seen - 1].at + c.gap <= w.visit.readStart
  {
    var v := w.visit;
    assert writes[v.seen - 1] == w.writes[v.seen - 1];
    assert c.change(v.seen - 1) >= writes[v.seen - 1].at + s.skew(v.who) - LagAllowed(s, v.who);
  }

  /** By the second look, no write but those of one change time came since the entry that was pending. */
  lemma SecondLookTold(s: Setup, c: Clock, w: World, writes: seq<Write>)
    requires Granted(s, c, writes) && w.writes <= writes && w.visit.Hashed? && VisitTold(c, w) && w.visit.before.Known()
    requires w.slot.Some? && SlotTold(s, c, w, w.slot.value) && SeenInTime(w)
    requires var e := w.slot.value.entry; e.mtime < 0 && e.ctime != 0 && e.ctime == w.visit.before.ctime
    requires w.visit.readStart >= w.slot.value.at + SETTLE_MARGIN
    ensures w.writes[w.visit.seen - 1].at + c.gap <= w.visit.readStart
  {
    var i, j := w.slot.value.seen - 1, w.visit.seen - 1;
    assert writes[i] == w.writes[i] && writes[j] == w.writes[j];
    assert c.change(i) == c.change(j);
    assert i < j ==> writes[j].at - writes[i].at < c.tick;
  }

  /** Why an entry was trusted: one of the two looks, told in true time. */
  lemma TrustedBy(s: Setup, w: World, w': World, bound: int, ours: bool)
    requires Inv(s, w) && RecordEntry(s, w, w', bound, ours) && w.visit.before.Known()
    requires w'.slot.value.entry.mtime > 0
    ensures var v := w.visit;
            || FirstLook(v.mtime, v.before.ctime, v.readStart + s.skew(v.who), s.network(v.who))
            || (&& w.slot.Some? && w.slot.value.entry.mtime < 0 && w.slot.value.entry.ctime == v.before.ctime
                && v.readStart >= w.slot.value.at + SETTLE_MARGIN)
  {}

  lemma RecordTold(s: Setup, c: Clock, w: World, w': World, bound: int, ours: bool, writes: seq<Write>)
    requires Inv(s, w) && RecordEntry(s, w, w', bound, ours) && Told(s, c, w)
    requires Granted(s, c, writes) && w.writes <= writes
    ensures SlotTold(s, c, w', w'.slot.value)
  {
    var v, e := w.visit, w'.slot.value.entry;
    if e.ctime != 0 && e.mtime != 0 {
      RecordKnown(s, w, w', bound, ours);
      if e.mtime > 0 {
        TrustedBy(s, w, w', bound, ours);
        hide Inv, RecordEntry, Granted;
        if FirstLook(v.mtime, v.before.ctime, v.readStart + s.skew(v.who), s.network(v.who)) {
          FirstLookTold(s, c, w, writes);
        } else {
          SecondLookTold(s, c, w, writes);
        }
      }
    }
  }

  /** An entry with a change time and a modified time has those that the handle told. */
  lemma RecordKnown(s: Setup, w: World, w': World, bound: int, ours: bool)
    requires RecordEntry(s, w, w', bound, ours)
    requires w'.slot.value.entry.ctime != 0 && w'.slot.value.entry.mtime != 0
    ensures var v, slot := w.visit, w'.slot.value;
            && v.before.Known() && slot.entry.ctime == v.before.ctime && slot.readStart == v.readStart
            && slot.seen == v.seen && slot.at == w.now && w'.writes == w.writes
            && v.before.mtime == (if slot.entry.mtime > 0 then slot.entry.mtime else -slot.entry.mtime)
  {}

  lemma RecordSeen(s: Setup, w: World, w': World, bound: int, ours: bool)
    requires RecordEntry(s, w, w', bound, ours) && SeenInTime(w)
    ensures SeenInTime(w') && w'.visit.Idle?
  {
    hide Record;
  }

  lemma ToldKept(s: Setup, c: Clock, w: World, w': World, writes: seq<Write>)
    requires Inv(s, w) && Next(s, w, w') && Told(s, c, w) && HandleTells(c, w')
    requires Granted(s, c, writes) && w'.writes <= writes
    ensures Told(s, c, w')
  {
    if bound, ours :| RecordEntry(s, w, w', bound, ours) {
      hide Record, Granted, SlotTold, Inv;
      RecordTold(s, c, w, w', bound, ours, writes);
      RecordSeen(s, w, w', bound, ours);
    } else {
      hide RecordEntry, Granted, SlotOk;
      SeenKept(s, w, w');
      VisitToldKept(s, c, w, w');
    }
  }

  lemma VisitToldKept(s: Setup, c: Clock, w: World, w': World)
    requires Inv(s, w) && Told(s, c, w) && HandleTells(c, w')
    requires Pass(w, w') || WriteFile(w, w') || List(w, w') || StartRead(w, w') || FinishRead(s, w, w')
             || Abandon(w, w')
    ensures VisitTold(c, w') && (w'.slot.Some? ==> SlotTold(s, c, w', w'.slot.value))
  {
    hide SlotOk;
  }

  lemma {:induction false} ToldOnRun(s: Setup, c: Clock, run: seq<World>, n: nat)
    requires Run(s, run) && HandlesTell(c, run) && n < |run| && Granted(s, c, run[|run| - 1].writes)
    ensures Told(s, c, run[n])
    decreases n
  {
    hide Next, Granted;
    if n > 0 {
      ToldOnRun(s, c, run, n - 1);
      InvOnRun(s, run[..n]);
      WritesGrow(s, run, n);
      assert Next(s, run[n - 1], run[n]) && HandleTells(c, run[n]);
      hide Told, Inv, HandleTells;
      ToldKept(s, c, run[n - 1], run[n], run[|run| - 1].writes);
    }
  }

  /** The first write from i on that leaves a modified time. */
  lemma {:induction false} FirstToLeave(writes: seq<Write>, i: nat, stamp: int) returns (j: nat)
    requires i < |writes| && writes[|writes| - 1].stamp == stamp
    ensures i <= j < |writes| && writes[j].stamp == stamp && forall k :: i <= k < j ==> writes[k].stamp != stamp
    decreases |writes| - i
  {
    if writes[i].stamp == stamp { j := i; } else { j := FirstToLeave(writes, i + 1, stamp); }
  }

  /** A later write that leaves a modified time again: the first that does so comes within a gap. */
  lemma PutBackInTime(c: Clock, writes: seq<Write>, i: nat) returns (j: nat)
    requires PutBackSoon(c, writes) && i < |writes| - 1 && writes[|writes| - 1].stamp == writes[i].stamp
    ensures i < j < |writes| && writes[j].at < writes[i].at + c.gap
  {
    j := FirstToLeave(writes, i + 1, writes[i].stamp);
    assert PutsBack(writes, i, j);
  }

  /** In every run, modified times set back or not: a trusted entry with a change time, that matches a listing, holds
      the hash of what the file holds then. */
  lemma SoundByChangeTimes(s: Setup, c: Clock, run: seq<World>, ledgerRecordedBy: int, network: bool)
    requires Run(s, run) && HandlesTell(c, run) && Granted(s, c, run[|run| - 1].writes)
    requires var w := run[|run| - 1];
             && w.slot.Some? && w.writes != []
             && var e := w.slot.value.entry;
                && e.ctime != 0 && e.hashedAt > 0
                && MatchesListing(e, Latest(w).size, Latest(w).stamp, ledgerRecordedBy, network)
    ensures var w := run[|run| - 1]; w.slot.value.entry.hash == s.hash(Latest(w).content)
  {
    var w := run[|run| - 1];
    var slot := w.slot.value;
    InvOnRun(s, run);
    ToldOnRun(s, c, run, |run| - 1);
    hide Run, HandlesTell;
    if slot.seen < |w.writes| {
      var j := PutBackInTime(c, w.writes, slot.seen - 1);
    }
  }

  // ---- a modified time put back later on ----

  const ID := FileIdentity(1, SECOND, SECOND, 5)

  function Alone(): Setup { Setup((_: nat) => 0, (_: nat) => false, (content: string) => content) }

  function AtTen(writes: seq<Write>, slot: Option<Slot>, visit: Visit): World {
    World(10 * SECOND, writes, slot, visit)
  }

  const OLD := Write(0, SECOND, 1, "a")

  function Read(): Visit { Hashed(0, 1, SECOND, 10 * SECOND, 1, ID, ID, 1, "a") }

  function Kept(): Slot { Slot(FileState(1, SECOND, "a", SECOND, 5, 10 * SECOND), 0, 10 * SECOND, 10 * SECOND, 1) }

  lemma Keeps()
    ensures RecordEntry(Alone(), AtTen([OLD], None, Read()), AtTen([OLD], Some(Kept()), Idle), 0, true)
  {}

  /** A file is trusted by both its times, long after it was written. Then it is written anew, and its modified time is
      put back: the listing matches, and an update skips the new text. The listing has no change time to tell it by. */
  lemma PutBackIsMissed() returns (s: Setup, run: seq<World>)
    ensures Run(s, run)
    ensures var w := run[|run| - 1];
            && w.slot.Some? && w.writes != []
            && var e := w.slot.value.entry;
               && e.ctime != 0 && e.hashedAt > 0 && MatchesListing(e, Latest(w).size, Latest(w).stamp, 0, false)
               && e.hash != s.hash(Latest(w).content)
  {
    s := Alone();
    var w0 := AtTen([OLD], None, Idle);
    var w1 := AtTen([OLD], None, Listed(0, 1, SECOND));
    var w2 := AtTen([OLD], None, Reading(0, 1, SECOND, 10 * SECOND, 1, ID));
    var w3 := AtTen([OLD], None, Read());
    var w4 := AtTen([OLD], Some(Kept()), Idle);
    var w5 := AtTen([OLD, Write(10 * SECOND, SECOND, 1, "b")], Some(Kept()), Idle);
    assert List(w0, w1) && StartRead(w1, w2) && FinishRead(s, w2, w3);
    Keeps();
    assert WriteFile(w4, w5);
    hide RecordEntry;
    run := [w0, w1, w2, w3, w4, w5];
  }
}
