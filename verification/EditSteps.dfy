/** Every order in which the sections of PendingEdits can come: callbacks of the watcher, drains, rebuilds, reloads and
    re-points of one session, and other processes that write its cache. Each step is what one thread does at once. */
module EditSteps {
  import opened Common
  import opened PendingEdits

  /** A change of a file: when it was made, and to which workspace (counted re-points) it belongs. */
  datatype Edit = Edit(path: string, at: nat, epoch: nat)

  /** A batch of the watcher: changed paths, or - where it lost events - a full reconcile for edits it cannot name. */
  datatype Batch = Batch(full: bool, edits: set<Edit>)

  function Paths(edits: set<Edit>): set<string> { set e <- edits :: e.path }

  /** What a piece of work that swaps an index in was started for. */
  datatype Kind = ForCallback | ForDrain | ForTool | ForReconcile | First | Compaction | Reload

  /** Does the work end by clearing the note? */
  predicate Clears(kind: Kind) { kind.ForCallback? || kind.ForDrain? || kind.ForTool? || kind.ForReconcile? }

  /** Where a thread is in what it does: a callback, a drain, or a piece of work on the index. */
  datatype Place =
    | Told | Passed | Queued | Entered | Clear
    | Draining | Drains
    | Waits | Builds | Wrote | Installed
    | Noting(next: Place) | EndsHold | Commits | SawNewer | GivesUp | Leaves

  /** A thread: the epoch it began in, whether it holds the build gate, the write lock of its workspace's cache, and a
      count of `rebuilding`; the edits it carries (of a full batch?); and the work it does, by a walk that began at
      `since`. */
  datatype Thread = Thread(epoch: nat, at: Place, gated: bool, locked: bool, counted: bool, full: bool,
    edits: set<Edit>, kind: Kind, since: nat)

  function Callback(epoch: nat, batch: Batch): Thread {
    Thread(epoch, Told, false, false, false, batch.full, batch.edits, ForCallback, 0)
  }

  function Drain(epoch: nat): Thread { Thread(epoch, Draining, false, false, false, false, {}, ForDrain, 0) }

  function Work(epoch: nat, kind: Kind): Thread {
    Thread(epoch, Waits, false, false, kind.ForReconcile?, false, {}, kind, 0)
  }

  /** Goes to its end: the lock is released, and what it carried is not in its hands any more. */
  function Ends(h: Thread, next: Place): Thread { h.(at := next, locked := false, edits := {}) }

  /** The cache on disk: up to when it shows each path, and the time stamped on it - by a walk, or by a prune of it. */
  datatype Disk = Disk(shows: string -> nat, stamp: nat, pruned: bool)

  /** The session, and what goes on around it. For the proof: the edits it was told of; those left to a rebuild that is
      pending; those the note speaks for; and whether the time of the note was set back since. */
  datatype Sys = Sys(f: Fields, leaving: bool, threads: map<nat, Thread>, other: Option<nat>, disk: Disk, now: nat,
                     told: set<Edit>, waiting: set<Edit>, noted: set<Edit>, setBack: bool)

  datatype Step =
    | Tick
    | Arrive(t: nat, batch: Batch)
    | Look(t: nat)
    | ReadState(t: nat)
    | Enter(t: nat)
    | Section(t: nat, why: LoadFailure, outcome: Applying, compact: bool)
    | Decide(t: nat, auto: bool)
    | MakeNote(t: nat)
    | Take(t: nat, hold: LoadFailure, refresh: LoadFailure, outcome: Applying)
    | Defer(t: nat)
    | FindsOther(t: nat, why: LoadFailure)
    | Write(t: nat)
    | Swap(t: nat)
    | ClearNote(t: nat)
    | EndHold(t: nat)
    | EnterNewer(t: nat)
    | GiveUp(t: nat)
    | Commit(t: nat)
    | Throw(t: nat)
    | Cancel(t: nat)
    | Release(t: nat)
    | Uncount(t: nat)
    | StartDrain(t: nat)
    | Start(t: nat, kind: Kind)
    | StartReload(t: nat, why: LoadFailure)
    | Load
    | FoundNewer
    | TooBig
    | RetryDue
    | IgnoreNote(at: nat)
    | StartLeaving
    | Repoint(disk: Disk, other: Option<nat>)
    | OtherWrites(shows: string -> nat)
    | OtherStarts
    | OtherFinishes
    | OtherGivesUp
    | Prune

  // ---- steps ----

  ghost predicate GateFree(s: Sys) { forall i <- s.threads :: !s.threads[i].gated }

  /** No process holds the write lock of the cache. */
  ghost predicate LockFree(s: Sys) {
    s.other.None? && forall i <- s.threads :: s.threads[i].locked ==> s.threads[i].epoch != s.f.epoch
  }

  /** A thread that waits or builds notices that the session was re-pointed, or is about to be. */
  predicate Abandoned(s: Sys, t: Thread) { s.leaving || t.epoch < s.f.epoch }

  predicate Throws(h: Thread) {
    (h.at.Entered? || h.at.Clear? || h.at.Drains? || h.at.Builds? || h.at.Commits?) || (h.at.Wrote? && !h.kind.Reload?)
  }

  predicate Unserved(f: Fields) { f.state == NotStarted || f.state == NeedsCliBuild }

  ghost predicate CanThread(s: Sys, h: Thread, step: Step) {
    match step
    case Look(_) => h.at.Told? || h.at.Entered?
    case ReadState(_) => h.at.Passed? || (h.at.Clear? && s.f.state != Ready)
    case Enter(_) => (h.at.Queued? || h.at.Draining? || h.at.Waits?) && GateFree(s) && s.other.None?
    case Section(_, _, _, _) => h.at.Clear? && !h.full && h.epoch == s.f.epoch
    case Decide(_, _) => h.at.Clear? && h.full
    case MakeNote(_) => h.at.Noting?
    case Take(_, _, _, _) => h.at.Drains? && h.epoch == s.f.epoch
    case Defer(_) => h.at.Builds? && h.kind.ForDrain?
    case FindsOther(_, why) => h.at.Builds? && h.kind.First? && (why.Fine? || why.Transient? || why.NewerFormat?)
    case Write(_) => h.at.Builds?
    case Swap(_) => h.at.Wrote?
    case ClearNote(_) => h.at.Installed?
    case EndHold(_) => h.at.EndsHold?
    case EnterNewer(_) => h.at.SawNewer?
    case GiveUp(_) => h.at.GivesUp?
    case Commit(_) => h.at.Commits?
    case Throw(_) => Throws(h)
    case Cancel(_) =>
      && Abandoned(s, h)
      && (h.at.Queued? || h.at.Draining? || h.at.Waits? || h.at.Entered? || h.at.Drains? || h.at.Builds?)
    case Release(_) => h.at.Leaves? && h.gated
    case Uncount(_) => h.at.Leaves? && h.counted
    case _ => false
  }

  ghost predicate CanOther(s: Sys, step: Step) {
    match step
    case Arrive(t, b) => t !in s.threads && forall e <- b.edits :: e.at <= s.now && e.epoch <= s.f.epoch
    case StartDrain(t) => t !in s.threads
    case Start(t, kind) =>
      && t !in s.threads && (kind.ForTool? || kind.ForReconcile? || kind.First?)
      && (kind.First? ==> Unserved(s.f))
    case StartReload(t, why) => t !in s.threads && GateFree(s) && s.f.state == Ready && s.f.rebuilding == 0
    case Load => Unserved(s.f)
    case FoundNewer => Unserved(s.f)
    case TooBig => Unserved(s.f)
    case IgnoreNote(at) => at <= s.now && !s.leaving
    case Repoint(disk, other) => disk.stamp <= s.now && (other.Some? ==> other.value <= s.now)
    case OtherWrites(shows) => LockFree(s) && forall p :: s.disk.shows(p) <= shows(p)
    case OtherStarts => LockFree(s)
    case OtherFinishes => s.other.Some?
    case OtherGivesUp => s.other.Some?
    case Prune => LockFree(s)
    case _ => step.Tick? || step.RetryDue? || step.StartLeaving?
  }

  predicate OfThread(step: Step) {
    && !step.Tick? && !step.Arrive? && !step.StartDrain? && !step.Start? && !step.StartReload? && !step.Load?
    && !step.FoundNewer? && !step.TooBig? && !step.RetryDue? && !step.IgnoreNote? && !step.StartLeaving?
    && !step.Repoint? && !step.OtherWrites? && !step.OtherStarts? && !step.OtherFinishes? && !step.OtherGivesUp?
    && !step.Prune?
  }

  ghost predicate Can(s: Sys, step: Step) {
    if OfThread(step) then step.t in s.threads && CanThread(s, s.threads[step.t], step) else CanOther(s, step)
  }

  function Go(s: Sys, t: nat, h: Thread): Sys { s.(threads := s.threads[t := h]) }

  function Pending(s: Sys, k: Kept): Sys { s.(f := s.f.(k := k)) }

  function Later(shows: string -> nat, since: nat): string -> nat { p => if shows(p) < since then since else shows(p) }

  function Applied(shows: string -> nat, paths: set<string>, now: nat): string -> nat {
    p => if p in paths && shows(p) < now then now else shows(p)
  }

  /** The edits it was told of at some paths. */
  function ToldAt(s: Sys, paths: set<string>): set<Edit> { set e <- s.told | e.path in paths }

  /** Is a rebuild pending for its own sake, so that a reload may not cancel it? */
  predicate Wanted(k: Kept) { k.reconcile && !k.holdWants }

  /** Edits that were listed and are not any more, with a rebuild pending for its own sake, are left to it. */
  function NowWaiting(s: Sys, k: Kept, paths: set<string>): set<Edit> {
    if Wanted(k) then s.waiting + ToldAt(s, paths - k.paths) else s.waiting
  }

  /** A callback's look whether its batch can be applied now: it is captured, or goes on. */
  function Looked(s: Sys, t: nat, h: Thread): Sys {
    if !Busy(s.f) then Go(s, t, h.(at := if h.at.Told? then Passed else Clear))
    else if s.f.newerFormat then Go(s, t, Ends(h, Leaves))
    else
      var k := Captured(s.f.k, h.full, Paths(h.edits));
      Go(Pending(s, k), t, Ends(h, Leaves))
      .(waiting := NowWaiting(s, k, s.f.k.paths + Paths(h.edits)) + if h.full then h.edits else {})
  }

  /** A callback looks again whether an index is served: if not, it gives its batch up. */
  function StateRead(s: Sys, t: nat, h: Thread): Sys {
    Go(s, t, if s.f.state == Ready then h.(at := Queued) else Ends(h, Leaves))
  }

  /** A walk begins, with the gates taken. A rebuild that a tool asked for diverts the watcher from now on; a
      reconcile did when it started. */
  function Walks(s: Sys, t: nat, h: Thread): Sys {
    var tool := h.kind.ForTool?;
    Go(s, t, h.(gated := true, locked := true, at := Builds, since := s.now, counted := h.counted || tool))
    .(f := s.f.(rebuilding := s.f.rebuilding + if tool then 1 else 0))
  }

  /** Takes the gates. */
  function InGates(s: Sys, t: nat, h: Thread): Sys {
    if h.at.Waits? then Walks(s, t, h)
    else Go(s, t, h.(gated := true, locked := true, at := if h.at.Queued? then Entered else Drains))
  }

  /** A batch is applied, and what was pending with it. */
  function BatchWritten(s: Sys, t: nat, h: Thread, k: Kept, outcome: Applying, compact: bool): Sys {
    Go(s, t, if compact then h.(at := Wrote, edits := {}, kind := Compaction, counted := true) else Ends(h, Commits))
    .(f := s.f.(k := k, serving := true, rebuilding := s.f.rebuilding + if compact then 1 else 0),
      disk := DiskApplied(s, s.f.k.paths + Paths(h.edits), outcome))
  }

  function BatchHeld(s: Sys, t: nat, h: Thread, k: Kept): Sys {
    Go(Pending(s, k), t, Ends(h, Leaves)).(waiting := NowWaiting(s, k, s.f.k.paths + Paths(h.edits)))
  }

  /** The section that applies a callback's batch. */
  function Sectioned(s: Sys, t: nat, h: Thread, why: LoadFailure, outcome: Applying, compact: bool): Sys {
    var k := BatchApplied(s.f.k, Paths(h.edits), why, outcome);
    match why
    case Fine => BatchWritten(s, t, h, k, outcome, compact)
    case NewerFormat => Go(s, t, Ends(h, SawNewer))
    case _ => BatchHeld(s, t, h, k)
  }

  /** What an apply leaves on disk: what was answered for is shown as it is now. */
  function DiskApplied(s: Sys, paths: set<string>, outcome: Applying): Disk {
    if outcome.Threw? then s.disk else s.disk.(shows := Applied(s.disk.shows, paths - outcome.unsure, s.now))
  }

  function TakenToRebuild(s: Sys, t: nat, h: Thread, k: Kept): Sys {
    Go(Pending(s, k), t, h.(at := Builds, since := s.now, counted := true,
                            edits := ToldAt(s, TakenPaths(s.f.k)) + s.waiting))
    .(f := s.f.(k := k, rebuilding := s.f.rebuilding + 1), waiting := {})
  }

  function TakenToApply(s: Sys, t: nat, h: Thread, k: Kept, outcome: Applying): Sys {
    Go(Pending(s, k), t, Ends(h, Commits)).(disk := DiskApplied(s, TakenPaths(s.f.k), outcome))
  }

  function TakenToHold(s: Sys, t: nat, h: Thread, k: Kept): Sys {
    Go(Pending(s, k), t, Ends(h, Leaves)).(waiting := NowWaiting(s, k, TakenPaths(s.f.k)))
  }

  /** A drain's section. */
  function TookPending(s: Sys, t: nat, h: Thread, hold: LoadFailure, refresh: LoadFailure, outcome: Applying): Sys {
    var ready := s.f.state == Ready;
    var k := Taken(s.f.k, ready, hold, refresh, outcome);
    match TakeNext(s.f.k, ready, hold, refresh)
    case Rebuild => TakenToRebuild(s, t, h, k)
    case Applied => TakenToApply(s, t, h, k, outcome)
    case Failed(why) =>
      if why.NewerFormat? then Go(Pending(s, k), t, Ends(h, SawNewer)) else TakenToHold(s, t, h, k)
    case _ => Go(Pending(s, k), t, Ends(h, Leaves))
  }

  /** The edits are spoken for by the note from here. A callback that may rebuild then does. */
  function Noted(s: Sys, t: nat, h: Thread): Sys
    requires h.at.Noting?
  {
    var u := s.(f := s.f.(note := Note(true, s.now)), noted := s.noted + (set e <- h.edits | e.epoch == s.f.epoch),
                setBack := false);
    if h.at.next.Builds? then
      Go(u, t, h.(at := Builds, since := s.now, counted := true, edits := {}))
        .(f := u.f.(rebuilding := s.f.rebuilding + 1))
    else Go(u, t, Ends(h, h.at.next))
  }

  function FellBack(s: Sys): Sys { s.(f := s.f.(state := NeedsCliBuild, k := Dropped(s.f.k)), waiting := {}) }

  /** A callback's work threw: an index that is installed goes on serving; without one, everything waits for a terminal
      build. Only a full reconcile that it was for is noted. */
  function CallbackThrew(s: Sys, t: nat, h: Thread): Sys {
    if !s.f.serving then FellBack(Go(s, t, Ends(h, Leaves)))
    else
      Go(s, t, if h.full then h.(at := Noting(Leaves), locked := false) else Ends(h, Leaves))
        .(f := s.f.(state := Ready))
  }

  function Thrown(s: Sys, t: nat, h: Thread): Sys {
    if h.kind.ForCallback? || h.kind.Compaction? then CallbackThrew(s, t, h)
    else if h.kind.First? then FellBack(Go(s, t, Ends(h, Leaves)))
    else if h.kind.ForDrain? && (h.at.Builds? || h.at.Wrote?) then Go(s, t, h.(at := Noting(EndsHold), locked := false))
    else Go(s, t, Ends(h, Leaves))
  }

  /** What was built is on disk - of the workspace it was begun for. */
  function Written(s: Sys, t: nat, h: Thread): Sys {
    Go(s, t, h.(at := Wrote))
    .(disk := if h.epoch == s.f.epoch then Disk(Later(s.disk.shows, h.since), s.now, false) else s.disk)
  }

  function Serving(s: Sys): Sys { s.(f := s.f.(serving := true, state := Ready, newerFormat := false)) }

  function Swapped(s: Sys, t: nat, h: Thread): Sys {
    if h.epoch != s.f.epoch then Go(s, t, Ends(h, Leaves))
    else Go(Serving(s), t, Ends(h, if Clears(h.kind) || h.kind.Reload? then Installed else Leaves))
  }

  /** After a rebuild of its own, the session clears the note; after a reload, it compares the times. */
  function NoteCleared(s: Sys, t: nat, h: Thread): Sys {
    var note := if h.kind.Reload? then Compared(s.f.note, s.disk.stamp) else s.f.note.(on := false);
    Go(s, t, Ends(h, if h.kind.ForDrain? then EndsHold else Leaves))
    .(f := s.f.(note := note), noted := if note.on then s.noted else {})
  }

  /** A first build that finds an index by now: it takes it, or leaves it alone. */
  function FoundOther(s: Sys, t: nat, h: Thread, why: LoadFailure): Sys {
    if why == Fine then Go(s, t, h.(at := Wrote))
    else Go(s, t, Ends(h, if why == NewerFormat then SawNewer else Leaves)).(f := s.f.(state := NotStarted))
  }

  /** A newer version wrote the index on disk: nothing here can write the edits. */
  function NewerEntered(s: Sys, t: nat, h: Thread): Sys {
    Go(s, t, Ends(h, GivesUp)).(f := s.f.(serving := false, state := NotStarted, k := Dropped(s.f.k)), waiting := {})
  }

  function Uncounted(s: Sys, t: nat, h: Thread): Sys {
    Go(s, t, h.(counted := false)).(f := s.f.(rebuilding := if s.f.rebuilding > 0 then s.f.rebuilding - 1 else 0))
  }

  function AfterThread(s: Sys, t: nat, h: Thread, step: Step): Sys
    requires CanThread(s, h, step)
  {
    match step
    case Look(_) => Looked(s, t, h)
    case ReadState(_) => StateRead(s, t, h)
    case Enter(_) => InGates(s, t, h)
    case Section(_, why, outcome, compact) => Sectioned(s, t, h, why, outcome, compact)
    case Decide(_, auto) => Go(s, t, h.(at := Noting(if auto then Builds else Leaves)))
    case MakeNote(_) => Noted(s, t, h)
    case Take(_, hold, refresh, outcome) => TookPending(s, t, h, hold, refresh, outcome)
    case Defer(_) => Go(s, t, h.(at := Noting(EndsHold)))
    case FindsOther(_, why) => FoundOther(s, t, h, why)
    case Write(_) => Written(s, t, h)
    case Swap(_) => Swapped(s, t, h)
    case ClearNote(_) => NoteCleared(s, t, h)
    case EndHold(_) => Go(Pending(s, HoldEnded(s.f.k)), t, Ends(h, Leaves))
    case EnterNewer(_) => NewerEntered(s, t, h)
    case GiveUp(_) => Go(s, t, Ends(h, Leaves)).(f := s.f.(newerFormat := true))
    case Commit(_) => Go(s, t, Ends(h, Leaves))
    case Throw(_) => Thrown(s, t, h)
    case Cancel(_) => Go(s, t, Ends(h, Leaves))
    case Release(_) => Go(s, t, h.(gated := false))
    case Uncount(_) => Uncounted(s, t, h)
  }

  function Reloading(s: Sys, t: nat, why: LoadFailure): Sys {
    Go(s, t,
      Work(s.f.epoch, Reload).(gated := true,
        at := if why == Fine then Wrote else if why == NewerFormat then SawNewer else Leaves))
  }

  function StartedWork(s: Sys, t: nat, kind: Kind): Sys {
    Go(s, t, Work(s.f.epoch, kind))
    .(f := if kind.ForReconcile? then s.f.(rebuilding := s.f.rebuilding + 1)
           else if kind.First? then s.f.(state := Building) else s.f)
  }

  function AfterOther(s: Sys, step: Step): Sys
    requires CanOther(s, step)
  {
    match step
    case Tick => s.(now := s.now + 1)
    case Arrive(t, b) => Go(s, t, Callback(s.f.epoch, b)).(told := s.told + b.edits)
    case StartDrain(t) => Go(s, t, Drain(s.f.epoch))
    case Start(t, kind) => StartedWork(s, t, kind)
    case StartReload(t, why) => Reloading(s, t, why)
    case Load => Serving(s)
    case FoundNewer => s.(f := s.f.(newerFormat := true))
    case TooBig => s.(f := s.f.(state := NeedsCliBuild))
    case RetryDue => Pending(s, s.f.k.(unsureDue := s.f.k.unsure != {}))
    case IgnoreNote(at) => s.(f := s.f.(note := Note(true, at)), setBack := s.noted != {})
    case StartLeaving => s.(leaving := true)
    case Repoint(disk, other) =>
      s.(f := Started(s.f.epoch + 1), leaving := false, disk := disk, other := other, waiting := {},
        noted := {}, setBack := false)
    case OtherWrites(shows) => s.(disk := s.disk.(shows := shows))
    case OtherStarts => s.(other := Some(s.now))
    case OtherFinishes => s.(other := None, disk := Disk(Later(s.disk.shows, s.other.value), s.now, false))
    case OtherGivesUp => s.(other := None)
    case Prune => s.(disk := s.disk.(stamp := s.now, pruned := true))
  }

  function After(s: Sys, step: Step): Sys
    requires Can(s, step)
  {
    if OfThread(step) then AfterThread(s, step.t, s.threads[step.t], step) else AfterOther(s, step)
  }
}
