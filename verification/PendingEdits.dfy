/** What a session keeps of the edits it was told of and has not yet brought into its index: the fields that its index
    lock guards, and the sections that change them. Each section is one method, tied to what it leaves of the fields;
    EditRuns puts them together, in every order. */
module PendingEdits {
  import opened Common

  datatype State = NotStarted | Building | Ready | NeedsCliBuild

  /** The edits that are pending (or a rebuild for them, wanted perhaps by a hold alone), those held back, and those
      the disk did not answer for (and whether to ask again). */
  datatype Kept = Kept(paths: set<string>, reconcile: bool, holdWants: bool, heldBack: bool, held: set<string>,
                       unsure: set<string>, unsureDue: bool)

  const NOTHING := Kept({}, false, false, false, {}, {}, false)

  /** The note that results miss edits, and the time it was set. */
  datatype Note = Note(on: bool, at: nat)

  /** All of a session's fields. */
  datatype Fields = Fields(state: State, serving: bool, rebuilding: nat, newerFormat: bool, epoch: nat, k: Kept,
    note: Note)

  /** A session that was just pointed to a workspace. */
  function Started(epoch: nat): Fields { Fields(NotStarted, false, 0, false, epoch, NOTHING, Note(false, 0)) }

  const MAX_PENDING_PATHS := 50_000

  predicate TooMany(paths: set<string>) { |paths| > MAX_PENDING_PATHS }

  predicate Busy(f: Fields) { f.state != Ready || f.rebuilding > 0 }

  /** What applying edits came to: it threw, or the disk answered for all but some paths (some of them not in the
      batch). */
  datatype Applying = Threw | Did(unsure: set<string>)

  // ---- what the sections leave of the edits ----

  /** Everything that is pending is left to a rebuild. */
  function Forgotten(k: Kept): Kept { k.(paths := {}, reconcile := true, holdWants := false) }

  function Captured(k: Kept, full: bool, paths: set<string>): Kept {
    var g := if full then k.(reconcile := true) else k.(paths := k.paths + paths);
    var h := if TooMany(g.paths) then Forgotten(g) else g;
    if h.reconcile then h.(holdWants := false) else h
  }

  function Held(k: Kept, paths: set<string>, why: LoadFailure): Kept {
    var wants := (why == Missing || why == Corrupt) && !k.reconcile;
    var g := k.(held := k.held + paths, paths := k.paths + paths, heldBack := true,
                reconcile := k.reconcile || wants, holdWants := k.holdWants || wants);
    if TooMany(g.held) || TooMany(g.paths) then Forgotten(g.(held := {})) else g
  }

  function HoldEnded(k: Kept): Kept { k.(heldBack := false, held := {}) }

  /** The index on disk loaded: a rebuild that only the hold asked for is not needed. */
  function HoldCleared(k: Kept): Kept {
    HoldEnded(k).(reconcile := k.reconcile && !k.holdWants, holdWants := false)
  }

  function Settled(k: Kept, paths: set<string>, retried: set<string>, outcome: Applying): Kept {
    k.(unsure := match outcome case Did(unsure) => k.unsure - paths + unsure case Threw => k.unsure + retried)
  }

  /** The section that applies a batch. Reloading the index on disk came to `why`. */
  function BatchApplied(k: Kept, paths: set<string>, why: LoadFailure, outcome: Applying): Kept {
    match why
    case Fine => Settled((if k.heldBack then HoldCleared(k) else k).(paths := {}), k.paths + paths, {}, outcome)
    case NewerFormat => k
    case _ => Held(k, paths, why)
  }

  /** The paths to ask the disk about again; one that was edited again meanwhile is no retry. */
  function Retried(k: Kept): set<string> { if k.unsureDue then k.unsure - k.paths else {} }

  function TakenPaths(k: Kept): set<string> { k.paths + Retried(k) }

  /** What a drain does next. */
  datatype Next = Done | NotReady | Failed(why: LoadFailure) | Applied | Rebuild

  /** Is the rebuild that is pending one that a reload may spare? Then the index is reloaded first, which came to
      `hold`. */
  predicate Asks(k: Kept, ready: bool) { k.reconcile && k.holdWants && ready }

  /** What becomes of all that is pending. `refresh`: what reloading the index before applying comes to. */
  function TakeNext(k: Kept, ready: bool, hold: LoadFailure, refresh: LoadFailure): Next {
    if TakenPaths(k) == {} && (!k.reconcile || (Asks(k, ready) && hold == Fine)) then Done
    else if Asks(k, ready) && (hold == Transient || hold == NewerFormat) then Failed(hold)
    else if k.reconcile && !(Asks(k, ready) && hold == Fine) then if ready then Rebuild else NotReady
    else if !ready then NotReady
    else if refresh == Fine then Applied
    else Failed(refresh)
  }

  /** Nothing is pending: it was all taken. */
  function Emptied(k: Kept): Kept {
    k.(reconcile := false, holdWants := false, paths := {}, unsureDue := false,
      unsure := if k.unsureDue then {} else k.unsure)
  }

  function Taken(k: Kept, ready: bool, hold: LoadFailure, refresh: LoadFailure, outcome: Applying): Kept {
    var g := Emptied(k);
    match TakeNext(k, ready, hold, refresh)
    case Done => if k.reconcile then HoldCleared(g) else g
    case NotReady => g.(reconcile := k.reconcile, paths := TakenPaths(k))
    case Applied => Settled(HoldCleared(g), TakenPaths(k), Retried(k), outcome)
    case Rebuild => g
    case Failed(why) =>
      if why == NewerFormat then g
      else if Asks(k, ready) && hold == Transient then g.(reconcile := true, holdWants := true, paths := TakenPaths(k))
      else Held(g, TakenPaths(k), why)
  }

  /** No index here can take the edits: nothing stays pending. */
  function Dropped(k: Kept): Kept { HoldEnded(k).(paths := {}, reconcile := false, holdWants := false) }

  function Compared(n: Note, built: nat): Note { n.(on := n.on && built <= n.at) }

  // ---- the sections ----

  class Session {
    var state: State
    var serving: bool
    var rebuilding: nat
    var newerFormat: bool
    var epoch: nat
    var k: Kept
    var note: Note

    method ForgetPendingForReconcile()
      modifies `k
      ensures k == Forgotten(old(k))
    {
      k := k.(paths := {}, reconcile := true, holdWants := false);
    }

    method ClearHold()
      modifies `k
      ensures k == HoldCleared(old(k))
    {
      k := k.(heldBack := false, held := {});
      if k.holdWants { k := k.(reconcile := false, holdWants := false); }
    }

    /** Keeps edits that cannot be written now. Missing or corrupt, the index also needs a rebuild. */
    method HoldBack(paths: set<string>, why: LoadFailure)
      modifies `k
      ensures k == Held(old(k), paths, why)
    {
      hide TooMany;
      k := k.(held := k.held + paths, paths := k.paths + paths);
      if (why == Missing || why == Corrupt) && !k.reconcile { k := k.(reconcile := true, holdWants := true); }
      k := k.(heldBack := true);
      if TooMany(k.held) || TooMany(k.paths) {
        k := k.(held := {});
        ForgetPendingForReconcile();
      }
    }

    /** Captures a batch where it cannot be applied now - with a newer format on disk, where nothing here could write
        it, by leaving it to a session that can. */
    method CaptureIfBusy(full: bool, paths: set<string>) returns (captured: bool)
      modifies `k
      ensures captured <==> state != Ready || rebuilding > 0
      ensures k == if captured && !newerFormat then Captured(old(k), full, paths) else old(k)
    {
      hide TooMany;
      if state == Ready && rebuilding == 0 { return false; }
      captured := true;
      if newerFormat { return; }
      if full { k := k.(reconcile := true); } else { k := k.(paths := k.paths + paths); }
      if TooMany(k.paths) { ForgetPendingForReconcile(); }
      if k.reconcile { k := k.(holdWants := false); }
    }

    /** What the disk did not answer for is asked about again; of an apply that threw, only what was a retry. */
    method ApplyIncremental(paths: set<string>, retried: set<string>, outcome: Applying)
      modifies `k
      ensures k == Settled(old(k), paths, retried, outcome)
    {
      match outcome {
        case Did(unsure) => k := k.(unsure := k.unsure - paths + unsure);
        case Threw => k := k.(unsure := k.unsure + retried);
      }
    }

    method TakePending(batch: set<string>) returns (all: set<string>)
      modifies `k
      ensures all == old(k).paths + batch
      ensures k == (if old(k).heldBack then HoldCleared(old(k)) else old(k)).(paths := {})
    {
      if k.heldBack { ClearHold(); }
      all := k.paths + batch;
      k := k.(paths := {});
    }

    /** Applies a batch, and with it what is pending; holds it back where the index on disk cannot be read. */
    method ApplyBatch(paths: set<string>, why: LoadFailure, outcome: Applying, compact: bool)
      modifies `k, `serving, `rebuilding
      ensures k == BatchApplied(old(k), paths, why, outcome)
      ensures serving == (old(serving) || why == Fine)
      ensures rebuilding == old(rebuilding) + if why == Fine && compact then 1 else 0
    {
      hide TooMany;
      if why == Fine {
        serving := true;
        var all := TakePending(paths);
        ApplyIncremental(all, {}, outcome);
        if compact { rebuilding := rebuilding + 1; }
      } else if why != NewerFormat {
        HoldBack(paths, why);
      }
    }

    method TakeAll() returns (paths: set<string>, retried: set<string>)
      modifies `k
      ensures paths == TakenPaths(old(k)) && retried == Retried(old(k)) && k == Emptied(old(k))
    {
      k := k.(reconcile := false, holdWants := false);
      paths, retried := k.paths, {};
      k := k.(paths := {});
      if k.unsureDue {
        retried := k.unsure - paths;
        k := k.(unsureDue := false, unsure := {});
        paths := paths + retried;
      }
    }

    /** Takes everything that is pending: to apply it, to rebuild for it, or to keep it. */
    method Take(hold: LoadFailure, refresh: LoadFailure, outcome: Applying) returns (next: Next)
      modifies `k, `rebuilding
      ensures next == TakeNext(old(k), state == Ready, hold, refresh)
      ensures k == Taken(old(k), state == Ready, hold, refresh, outcome)
      ensures rebuilding == old(rebuilding) + if next == Rebuild then 1 else 0
    {
      hide TooMany, Held, Settled, HoldCleared, TakenPaths, Retried;
      var reconcile, holdCaused := k.reconcile, k.holdWants;
      var paths, retried := TakeAll();
      if paths == {} && !reconcile { return Done; }
      var why := if reconcile && holdCaused && state == Ready then hold else Missing;
      if why == Fine {
        reconcile := false;
        if paths == {} {
          ClearHold();
          return Done;
        }
      }
      assert {} + paths == paths;
      if why == Transient || why == NewerFormat {
        if why == Transient { k := k.(reconcile := true, holdWants := true, paths := k.paths + paths); }
        next := Failed(why);
      } else if state != Ready {
        k := k.(reconcile := reconcile, paths := k.paths + paths);
        next := NotReady;
      } else if reconcile {
        rebuilding := rebuilding + 1;
        next := Rebuild;
      } else {
        next := ApplyTaken(paths, retried, refresh, outcome);
      }
    }

    /** Applies what was taken, or holds it back again. */
    method ApplyTaken(paths: set<string>, retried: set<string>, refresh: LoadFailure, outcome: Applying)
        returns (next: Next)
      modifies `k
      ensures next == if refresh == Fine then Applied else Failed(refresh)
      ensures k == if refresh == Fine then Settled(HoldCleared(old(k)), paths, retried, outcome)
                   else if refresh == NewerFormat then old(k)
                   else Held(old(k), paths, refresh)
    {
      hide TooMany, Held;
      if refresh == Fine {
        ClearHold();
        ApplyIncremental(paths, retried, outcome);
        return Applied;
      }
      if refresh != NewerFormat { HoldBack(paths, refresh); }
      next := Failed(refresh);
    }

    method EnterNewerFormat()
      modifies `k, `serving, `state
      ensures k == Dropped(old(k)) && !serving && state == NotStarted
    {
      serving, state := false, NotStarted;
      k := k.(paths := {}, reconcile := false, holdWants := false);
      k := k.(heldBack := false, held := {});
    }

    /** A callback's work threw: an index that is installed goes on serving. */
    method KeepServing() returns (kept: bool)
      modifies `k, `state
      ensures kept == serving
      ensures if kept then state == Ready && k == old(k) else state == NeedsCliBuild && k == Dropped(old(k))
    {
      kept := serving;
      if kept {
        state := Ready;
      } else {
        state := NeedsCliBuild;
        k := k.(paths := {}, reconcile := false, holdWants := false, held := {}, heldBack := false);
      }
    }

    /** Installs an index, unless the session was re-pointed since the work on it began. */
    method Swap(since: nat) returns (installed: bool)
      modifies `serving, `state, `newerFormat
      ensures installed == (since == epoch)
      ensures if installed then serving && state == Ready && !newerFormat else unchanged(this)
    {
      installed := since == epoch;
      if installed { serving, state, newerFormat := true, Ready, false; }
    }

    /** The note goes where the index on disk was built after it was set - by the time stamped on it. */
    method ClearEventsLostIfRefreshed(built: nat)
      modifies `note
      ensures note == Compared(old(note), built)
    {
      if note.on && built > note.at { note := note.(on := false); }
    }
  }
}
