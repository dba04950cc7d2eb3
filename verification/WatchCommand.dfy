/** The watch command: an index kept in memory, changed by the watcher's batches one at a time. Any step of a batch may
    throw; a batch that cannot be applied is held back, and a path the disk did not answer for is asked about again. */
module WatchCommand {
  import opened Common

  /** The step of a batch that throws, if any. */
  datatype Throws = Nowhere | AtAcquire | AtBuild | AtSnapshot | AtApply | AtPersist | AtUpdate | AtCompact | AtCommit

  /** A batch: changed paths - none, from the retry timer - or, where events were lost, a full reconcile. */
  datatype Batch = Batch(full: bool, paths: set<string>)

  /** What applying comes to: the paths the disk did not answer for, whether nothing was touched, whether an ignore file
      changed (and the tree may be walked for it), and whether segments have piled up. */
  datatype Applied = Applied(unsure: set<string>, untouched: bool, walk: bool, compact: bool)

  /** What became of a batch. */
  datatype Outcome = Ignored | Rebuilt | Held | Stopped | NothingToDo | Done | Threw

  /** What is kept for later: the edits held back, the paths to ask about again, and whether a timer is armed for
      them. */
  datatype Lists = Lists(heldBack: set<string>, unsure: set<string>, armed: bool)

  /** The edits that were delivered, and are not in the index; and those that only a full reconcile was to bring in,
      for which there is no name to keep. */
  datatype Trace = Trace(owed: set<string>, lost: set<string>)

  const MIN_RETRY := 1_000
  const MAX_RETRY := 30_000

  function Clamp(x: int, lo: int, hi: int): int { if x < lo then lo else if x > hi then hi else x }

  /** The paths that a retry looks at again, and that no edit waits for. */
  function Retried(k: Lists, batch: Batch): set<string> { if batch.paths == {} then k.unsure - k.heldBack else {} }

  function ToApply(k: Lists, batch: Batch): set<string> { k.heldBack + batch.paths + Retried(k, batch) }

  /** Does applying throw, where it is reached? */
  predicate ApplyThrows(c: Applied, throws: Throws) {
    || throws == AtApply || (throws == AtPersist && !c.untouched)
       || ((throws == AtUpdate || throws == AtSnapshot) && c.walk)
    || (throws == AtCompact && c.compact && !c.untouched) || (throws == AtCommit && !c.untouched)
  }

  /** Does a rebuild throw? */
  predicate BuildThrows(throws: Throws) { throws == AtBuild || throws == AtSnapshot || throws == AtCommit }

  /** What becomes of a batch. `loaded`: the index in memory is that of the disk; `idle`: there is nothing to apply. */
  function OutcomeOf(stopped: bool, full: bool, loaded: bool, idle: bool, why: LoadFailure, c: Applied,
      throws: Throws): Outcome {
    if stopped then Ignored
    else if throws == AtAcquire then Threw
    else if full then if BuildThrows(throws) then Threw else Rebuilt
    else if loaded || (why == Fine && throws != AtSnapshot) then
      if idle then NothingToDo else if ApplyThrows(c, throws) then Threw else Done
    else if why == NewerFormat then Stopped
    else if why == Missing || why == Corrupt then if BuildThrows(throws) then Threw else Rebuilt
    else if why == Transient then Held
    else Threw
  }

  /** What a batch leaves of the lists. */
  ghost predicate ListsAfter(k: Lists, k': Lists, batch: Batch, c: Applied, outcome: Outcome) {
    match outcome
    case Rebuilt => k' == Lists({}, {}, k.armed)
    case Done =>
      var unsure := (if batch.paths == {} then {} else k.unsure) - ToApply(k, batch) + c.unsure;
      k' == Lists({}, unsure, k.armed || unsure != {})
    case NothingToDo => k' == k
    case Ignored => k' == k
    case _ =>
      && k'.heldBack == k.heldBack + batch.paths && k'.unsure + k'.heldBack == k.unsure + k'.heldBack
      && k'.armed == (k.armed || outcome == Held)
  }

  /** What a batch leaves of the edits that are missing: a rebuild brings in all; an apply, what it applied and the disk
      answered for, and what a walk for a changed ignore file found. */
  ghost predicate TraceAfter(g: Trace, g': Trace, k: Lists, batch: Batch, c: Applied, walked: set<string>,
      outcome: Outcome) {
    match outcome
    case Rebuilt => g' == Trace({}, {})
    case Done =>
      g' == Trace(g.owed + batch.paths - (ToApply(k, batch) - c.unsure), g.lost - if c.walk then walked else {})
    case NothingToDo => g' == g
    case Ignored => g' == g
    case _ => g' == Trace(g.owed + batch.paths, g.lost)
  }

  class Watch {
    // The index on disk: its token, and which edits it shows. The same for the one in memory.
    var diskGen: nat
    var diskShown: set<string>
    var nextGen: nat
    var loadedGen: nat
    var shown: set<string>

    var k: Lists
    var stopped: bool
    var newerFormat: bool
    var retryMs: int
    var unsureMs: int

    ghost var g: Trace

    /** Nothing that was delivered by name is forgotten; and an index in memory whose token is the one on disk shows
        just what that one shows. */
    ghost predicate Valid()
      reads this
    {
      && (forall p <- g.owed :: p in k.heldBack || p in k.unsure)
      && diskGen < nextGen && loadedGen < nextGen
      && (loadedGen == diskGen ==> shown == diskShown)
    }

    constructor (shown: set<string>)
      ensures Valid() && g == Trace({}, {}) && k == Lists({}, {}, false) && !stopped && diskShown == shown
    {
      diskGen, diskShown, nextGen, loadedGen, this.shown := 0, shown, 1, 0, shown;
      k, stopped, newerFormat, retryMs, unsureMs := Lists({}, {}, false), false, false, 0, 0;
      g := Trace({}, {});
    }

    /** Another process writes the index. */
    method OtherWriter(more: set<string>)
      requires Valid()
      modifies `diskGen, `diskShown, `nextGen
      ensures Valid() && diskShown == old(diskShown) + more && diskGen != loadedGen
    {
      diskShown, diskGen, nextGen := diskShown + more, nextGen, nextGen + 1;
    }

    /** Publishes a write. */
    method Bump()
      modifies `diskGen, `nextGen
      ensures diskGen == old(nextGen) && nextGen == old(nextGen) + 1
    {
      diskGen, nextGen := nextGen, nextGen + 1;
    }

    /** Builds the index anew: it shows every edit made by now. Ok, unless a step threw. */
    method Rebuild(throws: Throws, everything: set<string>) returns (ok: bool)
      requires diskShown <= everything
      modifies `diskGen, `diskShown, `nextGen, `loadedGen, `shown, `k, `retryMs, `unsureMs, `g
      ensures ok == !BuildThrows(throws)
      ensures diskShown == if throws == AtBuild then old(diskShown) else everything
      ensures ok ==> loadedGen == diskGen == old(nextGen) && nextGen == diskGen + 1 && shown == diskShown
                     && k == Lists({}, {}, old(k).armed) && g == Trace({}, {}) && retryMs == unsureMs == 0
      ensures !ok ==> unchanged(`k, `g, `diskGen, `nextGen, `loadedGen)
    {
      if throws == AtBuild { return false; }
      diskShown, shown := everything, everything;
      if throws == AtSnapshot || throws == AtCommit { return false; }
      Bump();
      loadedGen := diskGen;
      k, g := k.(heldBack := {}, unsure := {}), Trace({}, {});
      retryMs, unsureMs := 0, 0;
      ok := true;
    }

    /** What the index on disk came to be, in memory: reloaded, where another process wrote it. */
    method Refresh(why: LoadFailure, throws: Throws) returns (ok: bool)
      requires Valid()
      modifies `loadedGen, `shown
      ensures Valid()
      ensures ok == (old(loadedGen) == diskGen || (why == Fine && throws != AtSnapshot))
      ensures ok ==> loadedGen == diskGen
      ensures !ok ==> loadedGen != diskGen
    {
      if loadedGen == diskGen { return true; }
      if why != Fine || throws == AtSnapshot { return false; }
      shown, loadedGen := diskShown, diskGen;
      ok := true;
    }

    /** Applies paths to the index in memory, and writes it. Ok, unless a step threw: then some of it may be written. */
    method ApplyAndWrite(paths: set<string>, c: Applied, throws: Throws, walked: set<string>, part: set<string>)
      returns (ok: bool)
      requires Valid() && loadedGen == diskGen && part <= paths && (c.untouched ==> !c.walk)
      modifies `diskGen, `diskShown, `nextGen, `loadedGen, `shown
      ensures ok == !ApplyThrows(c, throws)
      ensures old(diskShown) <= diskShown && diskGen < nextGen && loadedGen < nextGen
      ensures ok ==> loadedGen == diskGen && shown == diskShown
      ensures ok && !c.untouched ==> paths - c.unsure <= diskShown && diskGen == old(nextGen)
      ensures ok && c.untouched ==> diskGen == old(diskGen) && diskShown == old(diskShown)
      ensures !ok ==> diskGen == old(diskGen) && nextGen == old(nextGen) && loadedGen == old(loadedGen)
    {
      if throws == AtApply {
        shown := shown + part;
        return false;
      }
      if !c.untouched {
        shown := shown + (paths - c.unsure);
        if throws == AtPersist {
          diskShown := diskShown + part;
          return false;
        }
        diskShown := shown;
      }
      if c.walk {
        if throws == AtUpdate || throws == AtSnapshot { return false; }
        diskShown := diskShown + walked;
        shown := diskShown;
      }
      if !c.untouched && c.compact && throws == AtCompact { return false; }
      if !c.untouched {
        if throws == AtCommit { return false; }
        Bump();
        loadedGen := diskGen;
      }
      ok := true;
    }

    /** Keeps what a batch carried, for the next change or the retry timer. A throw publishes a token: what is on disk
        may have changed. */
    method Hold(paths: set<string>, retried: set<string>)
      requires diskGen < nextGen && loadedGen < nextGen
      requires forall p <- g.owed :: p in k.heldBack || p in k.unsure || p in paths || p in retried
      modifies `k, `diskGen, `nextGen
      ensures Valid() && diskGen != loadedGen
      ensures k == old(k).(heldBack := old(k).heldBack + paths, unsure := old(k).unsure + retried)
    {
      k := k.(heldBack := k.heldBack + paths, unsure := k.unsure + retried);
      Bump();
    }

    method Arm(delay: int) returns (next: int)
      modifies `k
      ensures k == old(k).(armed := true) && MIN_RETRY <= next <= MAX_RETRY
      ensures MIN_RETRY <= 2 * delay <= MAX_RETRY ==> next == 2 * delay
      ensures 2 * delay < MIN_RETRY ==> next == MIN_RETRY
      ensures 2 * delay > MAX_RETRY ==> next == MAX_RETRY
    {
      next := Clamp(delay * 2, MIN_RETRY, MAX_RETRY);
      k := k.(armed := true);
    }

    /** The part of a batch that follows once the index in memory is that of the disk. */
    method ApplyHeld(batch: Batch, c: Applied, throws: Throws, walked: set<string>, part: set<string>)
      returns (outcome: Outcome)
      requires Valid() && loadedGen == diskGen && !batch.full && (c.untouched ==> !c.walk)
      requires part <= k.heldBack + batch.paths
      modifies `diskGen, `diskShown, `nextGen, `loadedGen, `shown, `k, `retryMs, `unsureMs, `g
      ensures Valid() && old(diskShown) <= diskShown
      ensures outcome == if ToApply(old(k), batch) == {} then NothingToDo else if ApplyThrows(c, throws) then Threw
              else Done
      ensures ListsAfter(old(k), k, batch, c, outcome) && TraceAfter(old(g), g, old(k), batch, c, walked, outcome)
      ensures outcome == Done && !c.untouched ==> ToApply(old(k), batch) - c.unsure <= diskShown
      ensures loadedGen == diskGen <==> outcome != Threw
    {
      hide ApplyThrows;
      var retried := Retried(k, batch);
      var paths := ToApply(k, batch);
      if paths == {} { return NothingToDo; }
      var ok := ApplyAndWrite(paths, c, throws, walked, part);
      g := g.(owed := g.owed + batch.paths);
      if ok {
        if c.walk { g := g.(lost := g.lost - walked); }
        Settle(batch, paths, c);
        outcome := Done;
      } else {
        if batch.paths == {} { k := k.(unsure := {}); }
        Hold(batch.paths, retried);
        outcome := Threw;
      }
    }

    /** What was applied is not held any more; what the disk did not answer for is asked about again. */
    method Settle(batch: Batch, paths: set<string>, c: Applied)
      requires paths == ToApply(k, batch)
      requires forall p <- g.owed :: p in k.heldBack || p in k.unsure || p in batch.paths
      modifies `k, `g, `retryMs, `unsureMs
      ensures g == old(g).(owed := old(g).owed - (paths - c.unsure)) && forall p <- g.owed :: p in k.unsure
      ensures var unsure := (if batch.paths == {} then {} else old(k).unsure) - paths + c.unsure;
              k == Lists({}, unsure, old(k).armed || unsure != {})
    {
      g := g.(owed := g.owed - (paths - c.unsure));
      k := k.(unsure := (if batch.paths == {} then {} else k.unsure) - paths + c.unsure, heldBack := {});
      retryMs := 0;
      if k.unsure == {} { unsureMs := 0; } else { unsureMs := Arm(unsureMs); }
    }

    /** A batch of the watcher, or - an empty one - of the retry timer, which has then fired. What the watcher lost
        before a full reconcile, `unnamed`, has no name to be kept by: it is brought in exactly if a batch ends in a
        rebuild, or a walk for an ignore file finds it. A batch that throws arms no timer, and keeps no more than its
        paths. */
    method OnBatch(batch: Batch, timer: bool, why: LoadFailure, c: Applied, throws: Throws, walked: set<string>,
                   part: set<string>, everything: set<string>, ghost unnamed: set<string>) returns (outcome: Outcome)
      requires Valid() && part <= k.heldBack + batch.paths && (c.untouched ==> !c.walk)
      requires diskShown <= everything && g.owed <= everything && g.lost <= everything && unnamed <= everything
      requires batch.paths <= everything && (unnamed != {} ==> batch.full)
      modifies this
      ensures Valid() && old(diskShown) <= diskShown
      ensures outcome ==
              OutcomeOf(old(stopped), batch.full, old(loadedGen == diskGen), ToApply(old(k), batch) == {}, why, c,
                        throws)
      ensures outcome == Ignored ==> unchanged(this)
      ensures outcome != Ignored ==>
                var was := old(k).(armed := old(k).armed && !timer);
                && ListsAfter(was, k, batch, c, outcome)
                && TraceAfter(old(g).(lost := old(g).lost + unnamed), g, was, batch, c, walked, outcome)
      ensures outcome == Rebuilt ==> loadedGen == diskGen && diskShown == everything
      ensures outcome == Done ==>
                loadedGen == diskGen && (!c.untouched ==> ToApply(old(k), batch) - c.unsure <= diskShown)
      ensures outcome == Held || outcome == Stopped ==> diskShown == old(diskShown)
      ensures stopped == (old(stopped) || outcome == Stopped) && (outcome == Stopped ==> newerFormat)
    {
      if stopped { return Ignored; }
      Begin(timer, unnamed);
      assert ToApply(k, batch) == ToApply(old(k), batch);
      hide *;
      outcome := Process(batch, why, c, throws, walked, part, everything);
    }

    /** The timer has fired; what is lost by now is more. */
    method Begin(timer: bool, ghost unnamed: set<string>)
      requires Valid()
      modifies `k, `g
      ensures Valid() && k == old(k).(armed := old(k).armed && !timer) && g == old(g).(lost := old(g).lost + unnamed)
    {
      if timer { k := k.(armed := false); }
      g := g.(lost := g.lost + unnamed);
    }

    /** The rest of a batch. */
    method Process(batch: Batch, why: LoadFailure, c: Applied, throws: Throws, walked: set<string>, part: set<string>,
                   everything: set<string>) returns (outcome: Outcome)
      requires Valid() && !stopped && part <= k.heldBack + batch.paths && (c.untouched ==> !c.walk)
               && diskShown <= everything
      modifies this
      ensures Valid() && old(diskShown) <= diskShown && outcome != Ignored
      ensures outcome ==
              OutcomeOf(false, batch.full, old(loadedGen == diskGen), ToApply(old(k), batch) == {}, why, c, throws)
      ensures ListsAfter(old(k), k, batch, c, outcome) && TraceAfter(old(g), g, old(k), batch, c, walked, outcome)
      ensures outcome == Rebuilt ==> loadedGen == diskGen && diskShown == everything
      ensures outcome == Done ==>
                loadedGen == diskGen && (!c.untouched ==> ToApply(old(k), batch) - c.unsure <= diskShown)
      ensures outcome == Held || outcome == Stopped ==> diskShown == old(diskShown)
      ensures stopped == (outcome == Stopped) && (outcome == Stopped ==> newerFormat)
    {
      hide ApplyThrows, BuildThrows, ListsAfter, TraceAfter, ToApply;
      if throws == AtAcquire {
        outcome := NotBegun(batch, c, walked);
      } else if batch.full {
        outcome := RebuildFor(batch, throws, everything, c, walked);
      } else {
        outcome := Targeted(batch, why, c, throws, walked, part, everything);
      }
    }

    /** The lock could not be taken. */
    method NotBegun(batch: Batch, ghost c: Applied, ghost walked: set<string>) returns (outcome: Outcome)
      requires Valid()
      modifies `k, `g
      ensures Valid() && outcome == Threw
      ensures ListsAfter(old(k), k, batch, c, outcome) && TraceAfter(old(g), g, old(k), batch, c, walked, outcome)
    {
      k := k.(heldBack := k.heldBack + batch.paths);
      g := g.(owed := g.owed + batch.paths);
      outcome := Threw;
    }

    /** A batch of changed paths: applied once the index in memory is that of the disk. */
    method Targeted(batch: Batch, why: LoadFailure, c: Applied, throws: Throws, walked: set<string>, part: set<string>,
                    everything: set<string>) returns (outcome: Outcome)
      requires Valid() && !stopped && throws != AtAcquire && !batch.full
      requires part <= k.heldBack + batch.paths && (c.untouched ==> !c.walk) && diskShown <= everything
      modifies this
      ensures Valid() && old(diskShown) <= diskShown
      ensures outcome ==
              OutcomeOf(false, false, old(loadedGen == diskGen), ToApply(old(k), batch) == {}, why, c, throws)
      ensures ListsAfter(old(k), k, batch, c, outcome) && TraceAfter(old(g), g, old(k), batch, c, walked, outcome)
      ensures outcome == Rebuilt ==> loadedGen == diskGen && diskShown == everything
      ensures outcome == Done ==>
                loadedGen == diskGen && (!c.untouched ==> ToApply(old(k), batch) - c.unsure <= diskShown)
      ensures outcome == Held || outcome == Stopped ==> diskShown == old(diskShown)
      ensures stopped == (outcome == Stopped) && (outcome == Stopped ==> newerFormat)
    {
      hide ApplyThrows, BuildThrows, ListsAfter, TraceAfter;
      var ok := Refresh(why, throws);
      if ok {
        outcome := ApplyHeld(batch, c, throws, walked, part);
      } else {
        outcome := NotLoaded(batch, why, throws, everything, c, walked);
      }
    }

    /** A rebuild, for lost events or for an index that is missing or corrupt. */
    method RebuildFor(batch: Batch, throws: Throws, everything: set<string>, ghost c: Applied,
        ghost walked: set<string>)
      returns (outcome: Outcome)
      requires Valid() && diskShown <= everything
      modifies `diskGen, `diskShown, `nextGen, `loadedGen, `shown, `k, `retryMs, `unsureMs, `g
      ensures Valid() && old(diskShown) <= diskShown
      ensures outcome == if BuildThrows(throws) then Threw else Rebuilt
      ensures ListsAfter(old(k), k, batch, c, outcome) && TraceAfter(old(g), g, old(k), batch, c, walked, outcome)
      ensures outcome == Rebuilt ==> loadedGen == diskGen && diskShown == everything
    {
      g := g.(owed := g.owed + batch.paths);
      var ok := Rebuild(throws, everything);
      if ok { return Rebuilt; }
      Hold(batch.paths, {});
      outcome := Threw;
    }

    /** The index on disk could not be loaded: nothing is written to the stale copy. */
    method NotLoaded(batch: Batch, why: LoadFailure, throws: Throws, everything: set<string>, ghost c: Applied,
                     ghost walked: set<string>) returns (outcome: Outcome)
      requires Valid() && !stopped && diskShown <= everything && (why != Fine || throws == AtSnapshot)
      modifies this
      ensures Valid() && old(diskShown) <= diskShown
      ensures outcome == if why == Fine then Threw
                         else if why == NewerFormat then Stopped
                         else if why == Transient then Held
                         else if BuildThrows(throws) then Threw else Rebuilt
      ensures ListsAfter(old(k), k, batch, c, outcome) && TraceAfter(old(g), g, old(k), batch, c, walked, outcome)
      ensures outcome == Rebuilt ==> loadedGen == diskGen && diskShown == everything
      ensures outcome == Held || outcome == Stopped ==> diskShown == old(diskShown)
      ensures stopped == (outcome == Stopped) && (outcome == Stopped ==> newerFormat)
    {
      if why == Missing || why == Corrupt {
        k := k.(heldBack := k.heldBack + batch.paths);
        outcome := RebuildFor(batch, throws, everything, c, walked);
        return;
      }
      g := g.(owed := g.owed + batch.paths);
      if why == Fine {
        Hold(batch.paths, {});
        return Threw;
      }
      k := k.(heldBack := k.heldBack + batch.paths);
      if why == NewerFormat {
        stopped, newerFormat := true, true;
        return Stopped;
      }
      retryMs := Arm(retryMs);
      outcome := Held;
    }
  }

  /** A full reconcile throws, and the next change is applied: the index on disk is the one in memory, nothing is held
      or asked about again, no timer runs - and what the watcher lost is not in the index. */
  method ReconcileForgotten(p: string, q: string) returns (w: Watch)
    requires p != q
    ensures fresh(w) && w.Valid() && w.g.lost == {p} && w.k == Lists({}, {}, false) && !w.stopped
            && w.loadedGen == w.diskGen
  {
    w := new Watch({});
    var nothing := Applied({}, false, false, false);
    var threw := w.OnBatch(Batch(true, {}), false, Fine, nothing, AtBuild, {}, {}, {p, q}, {p});
    var done := w.OnBatch(Batch(false, {q}), false, Fine, nothing, Nowhere, {}, {}, {p, q} + w.diskShown, {});
  }

  /** The share does not answer for a path, and the timer fires to ask again: the retry throws. The path is still to be
      asked about, and no timer runs. */
  method RetryUnarmed(p: string) returns (w: Watch)
    ensures fresh(w) && w.Valid() && w.g.owed == {p} && w.k == Lists({}, {p}, false) && !w.stopped
  {
    w := new Watch({});
    var unanswered := Applied({p}, false, false, false);
    var done := w.OnBatch(Batch(false, {p}), false, Fine, unanswered, Nowhere, {}, {}, {p}, {});
    assert done == Done && w.k.armed;
    var threw := w.OnBatch(Batch(false, {}), true, Fine, unanswered, AtApply, {}, {}, {p} + w.diskShown, {});
    assert threw == Threw;
  }
}
