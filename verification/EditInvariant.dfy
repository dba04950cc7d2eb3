/** What every step of EditSteps keeps. */
module EditInvariant {
  import opened Common
  import opened PendingEdits
  import opened EditSteps

  ghost predicate Before(edits: set<Edit>, time: nat) { forall e <- edits :: e.at <= time }

  predicate Shown(d: Disk, e: Edit) { d.shows(e.path) >= e.at }

  predicate InGate(at: Place) { at.Entered? || at.Clear? || at.Drains? || at.Builds? }

  predicate Spent(at: Place) {
    at.Installed? || at.EndsHold? || at.Commits? || at.SawNewer? || at.GivesUp? || at.Leaves?
  }

  /** What a thread can be, whatever the session. */
  predicate Shape(h: Thread) {
    && (InGate(h.at) || h.at.Wrote? || h.at.Installed? || h.at.Noting? || h.at.Commits? || h.locked ==> h.gated)
    && (InGate(h.at) || (h.at.Wrote? && !h.kind.Reload?) ==> h.locked)
    && (h.at.Noting? ==>
       h.at.next.Leaves? || h.at.next.EndsHold? || (h.at.next.Builds? && h.kind.ForCallback? && h.locked))
    && (h.at.Draining? || h.at.Drains? ==> h.kind.ForDrain? && h.edits == {})
    && (h.at.Waits? || Spent(h.at) ==> h.edits == {})
    && (h.at.Leaves? ==> !h.locked) && (h.at.Installed? ==> Clears(h.kind) || h.kind.Reload?)
    && (h.at.Told? || h.at.Passed? || h.at.Queued? || h.at.Entered? || h.at.Clear? ==> h.kind.ForCallback?)
    && (h.at.Builds? || h.at.Wrote? ==> h.kind.ForDrain? || h.edits == {})
  }

  /** The edits a thread carries are ones the session was told of; a walk whose end will clear the note began after
      every edit that the note speaks for. */
  ghost predicate ThreadOk(s: Sys, h: Thread) {
    && h.epoch <= s.f.epoch && h.edits <= s.told && (forall e <- h.edits :: e.epoch <= h.epoch)
    && (h.at.Builds? || ((h.at.Wrote? || h.at.Installed?) && Clears(h.kind)) ==>
       h.since <= s.now && Before(s.noted, h.since))
    && ((h.at.Builds? || h.at.Wrote?) ==> Before(h.edits, h.since))
    && ((h.at.Wrote? || h.at.Installed?) && Clears(h.kind) && h.epoch == s.f.epoch ==>
       forall p :: s.disk.shows(p) >= h.since)
    && Shape(h)
    && (h.at.Installed? && h.epoch < s.f.epoch ==> s.noted == {})
    && (h.gated && h.epoch == s.f.epoch && s.other.Some? ==> !h.locked && Before(h.edits, s.other.value))
  }

  /** One thread has the gate. */
  ghost predicate OneGated(s: Sys) {
    forall i <- s.threads, j <- s.threads :: s.threads[i].gated && s.threads[j].gated ==> i == j
  }

  /** A rebuild that is pending for a hold alone speaks for no edit. */
  ghost predicate PendingOk(s: Sys) {
    && (s.f.k.holdWants ==> s.f.k.reconcile)
    && (s.waiting != {} ==> Wanted(s.f.k)) && s.waiting <= s.told
  }

  /** The time stamped on the cache is later than the note's only if what the note speaks for is shown - but for
      prunes, and for a note that was set back. */
  ghost predicate TimesOk(s: Sys) {
    && Before(s.told, s.now) && (forall e <- s.told :: e.epoch <= s.f.epoch) && s.noted <= s.told
    && (s.noted != {} ==> s.f.note.on)
    && (s.other.Some? ==> s.other.value <= s.now && Before(s.noted, s.other.value))
    && s.disk.stamp <= s.now
    && (s.disk.stamp > s.f.note.at && !s.disk.pruned && !s.setBack ==> forall e <- s.noted :: Shown(s.disk, e))
  }

  ghost predicate Inv(s: Sys) {
    PendingOk(s) && TimesOk(s) && OneGated(s) && forall i <- s.threads :: ThreadOk(s, s.threads[i])
  }

  // ---- steps keep it ----

  /** What a step by one thread leaves to the others. */
  ghost predicate Frame(s: Sys, s': Sys, t: nat) {
    && t in s'.threads && s'.threads == s.threads[t := s'.threads[t]]
    && s.told <= s'.told && (t in s.threads ==> s.told == s'.told) && s.now == s'.now && s.f.epoch == s'.f.epoch
       && s'.other == s.other && s'.leaving == s.leaving
    && (forall p :: s.disk.shows(p) <= s'.disk.shows(p))
    && (s'.noted <= s.noted || (t in s.threads && s.threads[t].gated))
    && (s'.threads[t].gated ==> (t in s.threads && s.threads[t].gated) || GateFree(s))
  }

  lemma OtherThread(s: Sys, s': Sys, t: nat, i: nat)
    requires Inv(s) && Frame(s, s', t) && i in s.threads && i != t
    ensures ThreadOk(s', s.threads[i])
  {
    assert ThreadOk(s, s.threads[i]);
  }

  ghost predicate Moves(s: Sys, s': Sys, t: nat) {
    Frame(s, s', t) && PendingOk(s') && TimesOk(s') && ThreadOk(s', s'.threads[t])
  }

  lemma ThreadMoves(s: Sys, s': Sys, t: nat)
    requires Inv(s) && Moves(s, s', t)
    ensures Inv(s')
  {
    hide ThreadOk, PendingOk, TimesOk;
    forall i <- s'.threads ensures ThreadOk(s', s'.threads[i]) { if i != t { OtherThread(s, s', t, i); } }
  }

  // ---- what the sections keep ----

  lemma CapturedKeeps(k: Kept, full: bool, paths: set<string>)
    requires k.holdWants ==> k.reconcile
    ensures var k' := Captured(k, full, paths); !k'.holdWants && (k.reconcile || full ==> k'.reconcile)
  {
    hide TooMany;
  }

  lemma HeldKeeps(k: Kept, paths: set<string>, why: LoadFailure)
    requires k.holdWants ==> k.reconcile
    ensures var k' := Held(k, paths, why); (k'.holdWants ==> k'.reconcile) && (Wanted(k) ==> Wanted(k'))
  {
    hide TooMany;
  }

  lemma BatchKeeps(k: Kept, paths: set<string>, why: LoadFailure, outcome: Applying)
    requires k.holdWants ==> k.reconcile
    ensures var k' := BatchApplied(k, paths, why, outcome);
            (k'.holdWants ==> k'.reconcile) && (Wanted(k) ==> Wanted(k'))
  {
    hide Held;
    HeldKeeps(k, paths, why);
  }

  lemma TakenKeeps(k: Kept, ready: bool, hold: LoadFailure, refresh: LoadFailure, outcome: Applying)
    requires k.holdWants ==> k.reconcile
    ensures var k' := Taken(k, ready, hold, refresh, outcome); k'.holdWants ==> k'.reconcile
    ensures var next := TakeNext(k, ready, hold, refresh);
            Wanted(k) ==> next == Rebuild || (next == NotReady && Wanted(Taken(k, ready, hold, refresh, outcome)))
  {
    hide Held;
    var g := Emptied(k);
    HeldKeeps(g, TakenPaths(k), refresh);
  }

  /** A step of a thread that touches nothing but what is pending. */
  ghost predicate Quiet(s: Sys, s': Sys, t: nat) {
    && t in s.threads && t in s'.threads && s'.threads == s.threads[t := s'.threads[t]]
    && s'.told == s.told && s'.now == s.now && s'.f.epoch == s.f.epoch && s'.f.note == s.f.note && s'.noted == s.noted
    && s'.leaving == s.leaving
    && s'.other == s.other && s'.setBack == s.setBack && s'.disk.stamp == s.disk.stamp
       && s'.disk.pruned == s.disk.pruned
    && (forall p :: s.disk.shows(p) <= s'.disk.shows(p))
    && QuietThread(s.threads[t], s'.threads[t])
  }

  ghost predicate QuietThread(h: Thread, h': Thread) {
    && h'.epoch == h.epoch && h'.edits <= h.edits && !h'.at.Builds? && !h'.at.Installed?
    && (h'.at.Wrote? ==> h'.edits == {} && !Clears(h'.kind))
    && (h'.gated ==> h.gated) && (h'.locked ==> h.locked) && Shape(h')
  }

  lemma QuietMoves(s: Sys, s': Sys, t: nat)
    requires Inv(s) && Quiet(s, s', t) && PendingOk(s')
    ensures Moves(s, s', t)
  {
    hide PendingOk;
    assert ThreadOk(s, s.threads[t]);
  }

  lemma ToldAtTold(s: Sys, paths: set<string>)
    ensures ToldAt(s, paths) <= s.told
  {}

  lemma Known(s: Sys, t: nat)
    requires Inv(s) && t in s.threads
    ensures s.threads[t].edits <= s.told && Shape(s.threads[t])
  {
    assert ThreadOk(s, s.threads[t]);
  }

  lemma LookPending(s: Sys, t: nat, h: Thread)
    requires PendingOk(s) && h.edits <= s.told
    ensures PendingOk(Looked(s, t, h))
  {
    hide Captured, Paths, ToldAt;
    var k := Captured(s.f.k, h.full, Paths(h.edits));
    CapturedKeeps(s.f.k, h.full, Paths(h.edits));
    ToldAtTold(s, s.f.k.paths + Paths(h.edits) - k.paths);
  }

  predicate Plain(at: Place) { at.Leaves? || at.SawNewer? || at.EndsHold? || at.GivesUp? }

  lemma EndIsQuiet(h: Thread, next: Place)
    requires Shape(h) && (Plain(next) || (next.Commits? && h.gated))
    ensures QuietThread(h, Ends(h, next))
  {}

  lemma GoesOnQuietly(h: Thread)
    requires Shape(h) && (h.at.Told? || h.at.Entered?)
    ensures QuietThread(h, h.(at := if h.at.Told? then Passed else Clear))
  {}

  lemma LookQuiet(s: Sys, t: nat, h: Thread)
    requires t in s.threads && h == s.threads[t] && (h.at.Told? || h.at.Entered?) && Shape(h)
    ensures Quiet(s, Looked(s, t, h), t)
  {
    EndIsQuiet(h, Leaves);
    GoesOnQuietly(h);
    hide Captured, NowWaiting, Paths, QuietThread, Shape, Ends, Looked;
    if Busy(s.f) { LookBusyQuiet(s, t, h); } else { LookFreeQuiet(s, t, h); }
  }

  lemma LookFreeQuiet(s: Sys, t: nat, h: Thread)
    requires t in s.threads && h == s.threads[t] && !Busy(s.f)
    requires QuietThread(h, h.(at := if h.at.Told? then Passed else Clear))
    ensures Quiet(s, Looked(s, t, h), t)
  {
    hide QuietThread;
  }

  lemma LookBusyQuiet(s: Sys, t: nat, h: Thread)
    requires t in s.threads && h == s.threads[t] && Busy(s.f) && QuietThread(h, Ends(h, Leaves))
    ensures Quiet(s, Looked(s, t, h), t)
  {
    hide Captured, NowWaiting, Paths, QuietThread, Ends;
  }

  lemma LookKeeps(s: Sys, t: nat, h: Thread)
    requires Inv(s) && t in s.threads && h == s.threads[t] && (h.at.Told? || h.at.Entered?)
    ensures Moves(s, Looked(s, t, h), t)
  {
    assert PendingOk(s);
    hide *;
    Known(s, t);
    LookPending(s, t, h);
    LookQuiet(s, t, h);
    QuietMoves(s, Looked(s, t, h), t);
  }

  lemma SectionPending(s: Sys, t: nat, h: Thread, why: LoadFailure, outcome: Applying, compact: bool)
    requires PendingOk(s) && h.edits <= s.told
    ensures PendingOk(Sectioned(s, t, h, why, outcome, compact))
  {
    hide BatchApplied, Paths, ToldAt, DiskApplied;
    var k' := BatchApplied(s.f.k, Paths(h.edits), why, outcome);
    BatchKeeps(s.f.k, Paths(h.edits), why, outcome);
    ToldAtTold(s, s.f.k.paths + Paths(h.edits) - k'.paths);
  }

  lemma SectionQuiet(s: Sys, t: nat, h: Thread, why: LoadFailure, outcome: Applying, compact: bool)
    requires t in s.threads && h == s.threads[t] && h.at.Clear? && Shape(h)
    ensures Quiet(s, Sectioned(s, t, h, why, outcome, compact), t)
  {
    hide BatchApplied, NowWaiting, Paths;
  }

  lemma SectionKeeps(s: Sys, t: nat, h: Thread, why: LoadFailure, outcome: Applying, compact: bool)
    requires Inv(s) && t in s.threads && h == s.threads[t] && h.at.Clear?
    ensures Moves(s, Sectioned(s, t, h, why, outcome, compact), t)
  {
    assert PendingOk(s);
    hide *;
    Known(s, t);
    SectionPending(s, t, h, why, outcome, compact);
    SectionQuiet(s, t, h, why, outcome, compact);
    QuietMoves(s, Sectioned(s, t, h, why, outcome, compact), t);
  }

  lemma TakePending(s: Sys, t: nat, h: Thread, hold: LoadFailure, refresh: LoadFailure, outcome: Applying)
    requires PendingOk(s)
    ensures PendingOk(TookPending(s, t, h, hold, refresh, outcome))
  {
    hide Taken, TakeNext, ToldAt, TakenPaths, DiskApplied;
    var k' := Taken(s.f.k, s.f.state == Ready, hold, refresh, outcome);
    TakenKeeps(s.f.k, s.f.state == Ready, hold, refresh, outcome);
    ToldAtTold(s, TakenPaths(s.f.k) - k'.paths);
  }

  /** A step by which a walk begins. */
  lemma BuildMoves(s: Sys, s': Sys, t: nat)
    requires Inv(s) && t in s.threads && t in s'.threads && s'.threads == s.threads[t := s'.threads[t]]
    requires s' == s.(threads := s'.threads, f := s'.f, waiting := s'.waiting) && s'.f.epoch == s.f.epoch
             && s'.f.note == s.f.note
    requires var h, h' := s.threads[t], s'.threads[t];
             && h'.at.Builds? && h'.epoch == h.epoch && h'.since == s.now && h'.edits <= s.told && Shape(h')
             && ((h.gated && h.locked) || (GateFree(s) && s.other.None?)) && (h'.edits == {} || h.epoch == s.f.epoch)
    requires PendingOk(s')
    ensures Moves(s, s', t)
  {
    hide PendingOk;
    assert ThreadOk(s, s.threads[t]);
  }

  lemma TakenQuiet(s: Sys, t: nat, h: Thread, k: Kept, outcome: Applying)
    requires t in s.threads && h == s.threads[t] && QuietThread(h, Ends(h, Leaves)) && QuietThread(h, Ends(h, Commits))
    ensures Quiet(s, TakenToHold(s, t, h, k), t)
    ensures Quiet(s, TakenToApply(s, t, h, k, outcome), t)
  {
    hide TakenPaths, NowWaiting, QuietThread, Ends;
  }

  lemma LeftQuiet(s: Sys, t: nat, h: Thread, k: Kept, next: Place)
    requires t in s.threads && h == s.threads[t] && QuietThread(h, Ends(h, next))
    ensures Quiet(s, Go(Pending(s, k), t, Ends(h, next)), t)
  {
    hide QuietThread, Ends;
  }

  lemma TakeQuiet(s: Sys, t: nat, h: Thread, hold: LoadFailure, refresh: LoadFailure, outcome: Applying)
    requires t in s.threads && h == s.threads[t] && h.at.Drains? && Shape(h)
    requires TakeNext(s.f.k, s.f.state == Ready, hold, refresh) != Rebuild
    ensures Quiet(s, TookPending(s, t, h, hold, refresh, outcome), t)
  {
    EndIsQuiet(h, Leaves);
    EndIsQuiet(h, SawNewer);
    EndIsQuiet(h, Commits);
    var k := Taken(s.f.k, s.f.state == Ready, hold, refresh, outcome);
    hide Taken, TakeNext, QuietThread, Shape, Ends, Quiet, TakenToHold, TakenToApply, Go, Pending;
    TakenQuiet(s, t, h, k, outcome);
    LeftQuiet(s, t, h, k, Leaves);
    LeftQuiet(s, t, h, k, SawNewer);
  }

  lemma TakeKeeps(s: Sys, t: nat, h: Thread, hold: LoadFailure, refresh: LoadFailure, outcome: Applying)
    requires Inv(s) && t in s.threads && h == s.threads[t] && h.at.Drains? && h.epoch == s.f.epoch
    ensures Moves(s, TookPending(s, t, h, hold, refresh, outcome), t)
  {
    assert PendingOk(s);
    hide *;
    Known(s, t);
    TakePending(s, t, h, hold, refresh, outcome);
    if TakeNext(s.f.k, s.f.state == Ready, hold, refresh) == Rebuild {
      TakeBuilds(s, t, h, hold, refresh, outcome);
    } else {
      TakeQuiet(s, t, h, hold, refresh, outcome);
      QuietMoves(s, TookPending(s, t, h, hold, refresh, outcome), t);
    }
  }

  lemma TakeBuilds(s: Sys, t: nat, h: Thread, hold: LoadFailure, refresh: LoadFailure, outcome: Applying)
    requires Inv(s) && t in s.threads && h == s.threads[t] && h.at.Drains? && h.epoch == s.f.epoch && Shape(h)
    requires TakeNext(s.f.k, s.f.state == Ready, hold, refresh) == Rebuild
    requires PendingOk(TookPending(s, t, h, hold, refresh, outcome))
    ensures Moves(s, TookPending(s, t, h, hold, refresh, outcome), t)
  {
    hide Taken, TakeNext, TakenPaths, ToldAt, Moves, ThreadOk, TimesOk, OneGated;
    ToldAtTold(s, TakenPaths(s.f.k));
    BuildMoves(s, TookPending(s, t, h, hold, refresh, outcome), t);
  }

  lemma NotesQuietly(h: Thread, next: Place)
    requires Shape(h) && h.gated && (next.Leaves? || next.EndsHold?)
    ensures QuietThread(h, h.(at := Noting(next), locked := false))
  {}

  lemma ThrowQuiet(s: Sys, t: nat, h: Thread)
    requires t in s.threads && h == s.threads[t] && Throws(h) && Shape(h)
    ensures Quiet(s, Thrown(s, t, h), t)
  {
    EndIsQuiet(h, Leaves);
    assert h.gated;
    if h.at.Builds? || h.at.Wrote? { NotesQuietly(h, EndsHold); }
    NotesQuietly(h, Leaves);
    hide QuietThread, Shape, Ends, Throws;
  }

  lemma ThrowPending(s: Sys, t: nat, h: Thread)
    requires PendingOk(s)
    ensures PendingOk(Thrown(s, t, h))
  {
    hide Ends;
  }

  lemma ThrowKeeps(s: Sys, t: nat, h: Thread)
    requires Inv(s) && t in s.threads && h == s.threads[t] && Throws(h)
    ensures Moves(s, Thrown(s, t, h), t)
  {
    assert PendingOk(s);
    hide *;
    Known(s, t);
    ThrowPending(s, t, h);
    ThrowQuiet(s, t, h);
    QuietMoves(s, Thrown(s, t, h), t);
  }

  lemma WriteKeeps(s: Sys, t: nat, h: Thread)
    requires Inv(s) && t in s.threads && h == s.threads[t] && h.at.Builds?
    ensures Moves(s, Written(s, t, h), t)
  {
    assert ThreadOk(s, h);
  }

  lemma SwapKeeps(s: Sys, t: nat, h: Thread)
    requires Inv(s) && t in s.threads && h == s.threads[t] && h.at.Wrote?
    ensures Moves(s, Swapped(s, t, h), t)
  {
    assert ThreadOk(s, h);
  }

  lemma ClearNoteKeeps(s: Sys, t: nat, h: Thread)
    requires Inv(s) && t in s.threads && h == s.threads[t] && h.at.Installed?
    ensures Moves(s, NoteCleared(s, t, h), t)
  {
    assert ThreadOk(s, h);
  }

  lemma EnterBuilds(s: Sys, t: nat, h: Thread)
    requires Inv(s) && t in s.threads && h == s.threads[t] && h.at.Waits? && GateFree(s) && s.other.None?
    ensures Moves(s, Walks(s, t, h), t)
  {
    assert PendingOk(s);
    Known(s, t);
    hide Moves, Inv, GateFree;
    BuildMoves(s, Walks(s, t, h), t);
  }

  lemma EnterKeeps(s: Sys, t: nat, h: Thread)
    requires Inv(s) && t in s.threads && h == s.threads[t] && (h.at.Queued? || h.at.Draining? || h.at.Waits?)
    requires GateFree(s) && s.other.None?
    ensures Moves(s, InGates(s, t, h), t)
  {
    if h.at.Waits? {
      EnterBuilds(s, t, h);
    } else {
      assert ThreadOk(s, h);
    }
  }

  lemma NoteKeeps(s: Sys, t: nat, h: Thread)
    requires Inv(s) && t in s.threads && h == s.threads[t] && h.at.Noting?
    ensures Moves(s, Noted(s, t, h), t)
  {
    assert ThreadOk(s, h);
  }

  // ---- steps ----

  lemma ReadKeeps(s: Sys, t: nat, h: Thread)
    requires Inv(s) && t in s.threads && h == s.threads[t] && (h.at.Passed? || (h.at.Clear? && s.f.state != Ready))
    ensures Moves(s, StateRead(s, t, h), t)
  {
    assert PendingOk(s);
    Known(s, t);
    EndIsQuiet(h, Leaves);
    if h.at.Passed? { QueuesQuietly(h); }
    hide Moves, Inv, QuietThread, Shape, Ends;
    QuietMoves(s, StateRead(s, t, h), t);
  }

  lemma QueuesQuietly(h: Thread)
    requires Shape(h) && h.at.Passed?
    ensures QuietThread(h, h.(at := Queued))
  {}

  lemma NewerKeeps(s: Sys, t: nat, h: Thread)
    requires Inv(s) && t in s.threads && h == s.threads[t]
    ensures Moves(s, NewerEntered(s, t, h), t)
  {
    assert PendingOk(s);
    Known(s, t);
    EndIsQuiet(h, GivesUp);
    hide Moves, Inv, QuietThread, Shape, Ends;
    QuietMoves(s, NewerEntered(s, t, h), t);
  }

  lemma FoundKeeps(s: Sys, t: nat, h: Thread, why: LoadFailure)
    requires Inv(s) && t in s.threads && h == s.threads[t] && h.at.Builds? && h.kind.First?
    ensures Moves(s, FoundOther(s, t, h, why), t)
  {
    assert PendingOk(s);
    Known(s, t);
    EndIsQuiet(h, SawNewer);
    EndIsQuiet(h, Leaves);
    TakesQuietly(h);
    hide Moves, Inv, QuietThread, Shape, Ends;
    QuietMoves(s, FoundOther(s, t, h, why), t);
  }

  lemma TakesQuietly(h: Thread)
    requires Shape(h) && h.at.Builds? && h.kind.First?
    ensures QuietThread(h, h.(at := Wrote))
  {}

  lemma UncountKeeps(s: Sys, t: nat, h: Thread)
    requires Inv(s) && t in s.threads && h == s.threads[t] && h.at.Leaves?
    ensures Moves(s, Uncounted(s, t, h), t)
  {
    assert PendingOk(s);
    Known(s, t);
    assert QuietThread(h, h.(counted := false));
    hide Moves, Inv, QuietThread, Shape;
    QuietMoves(s, Uncounted(s, t, h), t);
  }

  /** A thread goes to another place, with nothing but a few of the fields changed. */
  lemma GoKeeps(s: Sys, t: nat, h': Thread, f: Fields)
    requires Inv(s) && t in s.threads && QuietThread(s.threads[t], h')
    requires f == s.f.(newerFormat := f.newerFormat, k := f.k) && (f.k == s.f.k || f.k == HoldEnded(s.f.k))
    ensures Moves(s, Go(s, t, h').(f := f), t)
  {
    assert PendingOk(s);
    hide Moves, Inv, QuietThread, Shape;
    QuietMoves(s, Go(s, t, h').(f := f), t);
  }

  lemma DecideKeeps(s: Sys, t: nat, h: Thread, builds: bool)
    requires Inv(s) && t in s.threads && h == s.threads[t]
    requires h.at.Clear? || (!builds && h.at.Builds?)
    ensures Moves(s, Go(s, t, h.(at := Noting(if builds then Builds else if h.at.Clear? then Leaves else EndsHold))), t)
  {
    assert ThreadOk(s, h);
    assert h.at.Clear? && builds ==> h.kind.ForCallback?;
  }

  /** A thread that is done lets go of the gate. */
  lemma ReleaseKeeps(s: Sys, t: nat, h: Thread)
    requires Inv(s) && t in s.threads && h == s.threads[t] && h.at.Leaves? && !h.locked
    ensures Moves(s, Go(s, t, h.(gated := false)), t)
  {
    assert ThreadOk(s, h);
  }

  predicate Works(step: Step) { Sections(step) || Swaps(step) }

  predicate Sections(step: Step) { step.Look? || step.ReadState? || step.Section? || step.MakeNote? || step.Take? }

  predicate Swaps(step: Step) { step.FindsOther? || step.Swap? || step.ClearNote? || step.EnterNewer? || step.Throw? }

  lemma SectionsKeep(s: Sys, t: nat, step: Step)
    requires Inv(s) && Sections(step) && step.t == t && t in s.threads && CanThread(s, s.threads[t], step)
    ensures Moves(s, AfterThread(s, t, s.threads[t], step), t)
  {
    var h := s.threads[t];
    Known(s, t);
    EndIsQuiet(h, Leaves);
    hide *;
    match step {
      case Look(_) => LookKeeps(s, t, h);
      case ReadState(_) => ReadKeeps(s, t, h);
      case Section(_, why, outcome, compact) => SectionKeeps(s, t, h, why, outcome, compact);
      case MakeNote(_) => NoteKeeps(s, t, h);
      case Take(_, hold, refresh, outcome) => TakeKeeps(s, t, h, hold, refresh, outcome);
    }
  }

  lemma SwapsKeep(s: Sys, t: nat, step: Step)
    requires Inv(s) && Swaps(step) && step.t == t && t in s.threads && CanThread(s, s.threads[t], step)
    ensures Moves(s, AfterThread(s, t, s.threads[t], step), t)
  {
    var h := s.threads[t];
    Known(s, t);
    EndIsQuiet(h, Leaves);
    hide *;
    match step {
      case FindsOther(_, why) => FoundKeeps(s, t, h, why);
      case Swap(_) => SwapKeeps(s, t, h);
      case ClearNote(_) => ClearNoteKeeps(s, t, h);
      case EnterNewer(_) => NewerKeeps(s, t, h);
      case Throw(_) => ThrowKeeps(s, t, h);
    }
  }

  lemma MovesKeep(s: Sys, t: nat, step: Step)
    requires Inv(s) && OfThread(step) && !Works(step) && step.t == t && t in s.threads
             && CanThread(s, s.threads[t], step)
    ensures Moves(s, AfterThread(s, t, s.threads[t], step), t)
  {
    var h := s.threads[t];
    Known(s, t);
    EndIsQuiet(h, Leaves);
    hide *;
    match step {
      case Enter(_) => EnterKeeps(s, t, h);
      case Decide(_, auto) => DecideKeeps(s, t, h, auto);
      case Defer(_) => DecideKeeps(s, t, h, false);
      case Write(_) => WriteKeeps(s, t, h);
      case EndHold(_) => GoKeeps(s, t, Ends(h, Leaves), s.f.(k := HoldEnded(s.f.k)));
      case GiveUp(_) => GoKeeps(s, t, Ends(h, Leaves), s.f.(newerFormat := true));
      case Commit(_) => GoKeeps(s, t, Ends(h, Leaves), s.f);
      case Cancel(_) => GoKeeps(s, t, Ends(h, Leaves), s.f);
      case Release(_) => ReleaseKeeps(s, t, h);
      case Uncount(_) => UncountKeeps(s, t, h);
    }
  }

  lemma OfThreadKeeps(s: Sys, t: nat, step: Step)
    requires Inv(s) && OfThread(step) && step.t == t && t in s.threads && CanThread(s, s.threads[t], step)
    ensures Moves(s, AfterThread(s, t, s.threads[t], step), t)
  {
    hide Inv, CanThread, AfterThread, Moves;
    if Sections(step) {
      SectionsKeep(s, t, step);
    } else if Swaps(step) {
      SwapsKeep(s, t, step);
    } else {
      MovesKeep(s, t, step);
    }
  }

  // ---- steps of no thread, and of others ----

  lemma ArriveKeeps(s: Sys, t: nat, b: Batch)
    requires Inv(s) && CanOther(s, Arrive(t, b))
    ensures Moves(s, AfterOther(s, Arrive(t, b)), t)
  {}

  lemma StartKeeps(s: Sys, t: nat, kind: Kind)
    requires Inv(s) && t !in s.threads && (kind.ForTool? || kind.ForReconcile? || kind.First?)
    ensures Moves(s, StartedWork(s, t, kind), t) && Moves(s, Go(s, t, Drain(s.f.epoch)), t)
  {}

  lemma ReloadKeeps(s: Sys, t: nat, why: LoadFailure)
    requires Inv(s) && t !in s.threads && GateFree(s)
    ensures Moves(s, Reloading(s, t, why), t)
  {}

  /** The session's own fields change, but for the epoch; the note may be set, by now or earlier. */
  lemma FieldsKeep(s: Sys, s': Sys)
    requires Inv(s) && s' == s.(f := s'.f, leaving := s'.leaving, setBack := s'.setBack) && s'.f.epoch == s.f.epoch
    requires (s'.f.k == s.f.k || s'.f.k == s.f.k.(unsureDue := s'.f.k.unsureDue))
    requires (s'.f.note == s.f.note && s'.setBack == s.setBack) || (s'.f.note.on && s'.setBack == (s.noted != {}))
    ensures Inv(s')
  {
    forall i <- s'.threads ensures ThreadOk(s', s'.threads[i]) { assert ThreadOk(s, s.threads[i]); }
  }

  lemma TickKeeps(s: Sys)
    requires Inv(s)
    ensures Inv(s.(now := s.now + 1))
  {
    forall i <- s.threads ensures ThreadOk(s.(now := s.now + 1), s.threads[i]) { assert ThreadOk(s, s.threads[i]); }
  }

  lemma RepointKeeps(s: Sys, disk: Disk, other: Option<nat>)
    requires Inv(s) && CanOther(s, Repoint(disk, other))
    ensures Inv(AfterOther(s, Repoint(disk, other)))
  {
    var s' := AfterOther(s, Repoint(disk, other));
    forall i <- s'.threads ensures ThreadOk(s', s'.threads[i]) { assert ThreadOk(s, s.threads[i]); }
  }

  /** What other processes leave of the cache: it shows no less. */
  lemma CacheKeeps(s: Sys, disk: Disk, other: Option<nat>)
    requires Inv(s) && (forall p :: s.disk.shows(p) <= disk.shows(p)) && TimesOk(s.(disk := disk, other := other))
    requires other.None? || (LockFree(s) && other == Some(s.now)) || other == s.other
    ensures Inv(s.(disk := disk, other := other))
  {
    var s' := s.(disk := disk, other := other);
    assert Before(s.told, s.now);
    hide TimesOk;
    forall i <- s'.threads ensures ThreadOk(s', s'.threads[i]) { assert ThreadOk(s, s.threads[i]); }
  }

  predicate OfCache(step: Step) {
    step.OtherWrites? || step.OtherStarts? || step.OtherFinishes? || step.OtherGivesUp? || step.Prune?
  }

  lemma OfCacheKeeps(s: Sys, step: Step)
    requires Inv(s) && CanOther(s, step) && OfCache(step)
    ensures Inv(AfterOther(s, step))
  {
    var s' := AfterOther(s, step);
    assert TimesOk(s);
    hide Inv, LockFree;
    CacheKeeps(s, s'.disk, s'.other);
  }

  predicate Starts(step: Step) { step.Arrive? || step.StartDrain? || step.Start? || step.StartReload? }

  lemma StartsKeep(s: Sys, step: Step)
    requires Inv(s) && CanOther(s, step) && Starts(step)
    ensures Inv(AfterOther(s, step))
  {
    var s' := AfterOther(s, step);
    hide Inv, Moves, GateFree, CanOther, Reloading, StartedWork, Go, Callback, Drain, Paths;
    match step {
      case Arrive(t, b) => ArriveKeeps(s, t, b);
      case StartDrain(t) => StartKeeps(s, t, ForTool);
      case Start(t, kind) => StartKeeps(s, t, kind);
      case StartReload(t, why) => ReloadKeeps(s, t, why);
    }
    ThreadMoves(s, s', step.t);
  }

  lemma OtherKeeps(s: Sys, step: Step)
    requires Inv(s) && CanOther(s, step) && !OfThread(step) && !OfCache(step) && !Starts(step)
    ensures Inv(AfterOther(s, step))
  {
    var s' := AfterOther(s, step);
    hide Inv, CanOther;
    match step {
      case Tick => TickKeeps(s);
      case Repoint(disk, other) => RepointKeeps(s, disk, other);
      case _ => FieldsKeep(s, s');
    }
  }

  /** Whatever comes next, everything stays right. */
  lemma StepKeeps(s: Sys, step: Step)
    requires Inv(s) && Can(s, step)
    ensures Inv(After(s, step))
  {
    hide Inv, CanThread, CanOther, AfterThread, AfterOther, Moves;
    if OfThread(step) {
      OfThreadKeeps(s, step.t, step);
      ThreadMoves(s, After(s, step), step.t);
    } else if OfCache(step) {
      OfCacheKeeps(s, step);
    } else if Starts(step) {
      StartsKeep(s, step);
    } else {
      OtherKeeps(s, step);
    }
  }
}
