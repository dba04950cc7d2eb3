/** Over any run of EditSteps, an edit that the session was told of is in a place that leads to the index, or it is in
    the index on disk, or it left by one of the exits that are named. */
module EditRuns {
  import opened Common
  import opened PendingEdits
  import opened EditSteps
  import opened EditInvariant

  /** An edit is in a list that is applied or asked about again, in a thread's hands, left to a rebuild that is
      pending for its own sake, or spoken for by the note. */
  ghost predicate Placed(s: Sys, e: Edit) {
    || e.path in s.f.k.paths || e.path in s.f.k.unsure || e in s.waiting || e in s.noted
    || exists i <- s.threads :: e in s.threads[i].edits
  }

  ghost predicate Safe(s: Sys, e: Edit) { Shown(s.disk, e) || Placed(s, e) }

  /** An edit of the workspace that is served, while the session is not about to leave it. */
  predicate Live(s: Sys, e: Edit) { !s.leaving && e.epoch == s.f.epoch }

  /** A rebuild that is pending, and a note, are what the session shows for the edits in their care. */
  lemma InCare(s: Sys, e: Edit)
    requires Inv(s)
    ensures e in s.waiting ==> s.f.k.reconcile && !s.f.k.holdWants
    ensures e in s.noted ==> s.f.note.on
  {}

  // ---- the exits ----

  /** The index on disk is a newer version's: its edits are left to a session that can write it. */
  predicate HandsOver(s: Sys, h: Thread, step: Step, e: Edit) {
    match step
    case Look(_) => Busy(s.f) && s.f.newerFormat && e in h.edits
    case Section(_, why, _, _) => why.NewerFormat? && e in h.edits
    case Take(_, hold, refresh, _) =>
      TakeNext(s.f.k, s.f.state == Ready, hold, refresh) == Failed(NewerFormat) && e.path in TakenPaths(s.f.k)
    case EnterNewer(_) => e.path in s.f.k.paths || e in s.waiting
    case _ => false
  }

  /** Nothing is served any more when a callback that found the session free looks again. */
  predicate GivesItUp(s: Sys, h: Thread, step: Step, e: Edit) {
    step.ReadState? && s.f.state != Ready && e in h.edits
  }

  /** Work throws, and no index is served - or it was the first build: everything waits for a terminal build. */
  predicate GivesAllUp(s: Sys, h: Thread, step: Step) {
    step.Throw? && (h.kind.First? || ((h.kind.ForCallback? || h.kind.Compaction?) && !s.f.serving))
  }

  predicate FallsBack(s: Sys, h: Thread, step: Step, e: Edit) {
    && GivesAllUp(s, h, step)
    && (e.path in s.f.k.paths || e in s.waiting || e in h.edits)
  }

  /** An apply threw, or a callback with a batch in its hands did. */
  predicate ThrowsAway(s: Sys, h: Thread, step: Step, e: Edit) {
    match step
    case Section(_, why, outcome, _) => why.Fine? && outcome.Threw? && e.path in s.f.k.paths + Paths(h.edits)
    case Take(_, hold, refresh, outcome) =>
      && TakeNext(s.f.k, s.f.state == Ready, hold, refresh) == PendingEdits.Applied && outcome.Threw?
      && e.path in s.f.k.paths
    case Throw(_) => (h.kind.ForCallback? || h.kind.Compaction?) && s.f.serving && !h.full && e in h.edits
    case _ => false
  }

  /** A reload clears the note, by a time that a prune stamped or that is later only because the note was set back. */
  predicate ClearsEarly(s: Sys, h: Thread, step: Step, e: Edit) {
    && step.ClearNote? && h.kind.Reload? && s.disk.stamp > s.f.note.at && (s.disk.pruned || s.setBack)
    && e in s.noted && !Shown(s.disk, e)
  }

  predicate Out(s: Sys, h: Thread, step: Step, e: Edit) {
    || HandsOver(s, h, step, e) || GivesItUp(s, h, step, e) || FallsBack(s, h, step, e) || ThrowsAway(s, h, step, e)
    || ClearsEarly(s, h, step, e)
  }

  predicate Exit(s: Sys, step: Step, e: Edit) {
    OfThread(step) && step.t in s.threads && Out(s, s.threads[step.t], step, e)
  }

  // ---- what an exit leaves ----

  /** Does a step that is an exit take all that is pending? */
  predicate TakesPending(s: Sys, h: Thread, step: Step) {
    step.Take? || (step.Section? && step.why.Fine?) || step.EnterNewer? || GivesAllUp(s, h, step)
  }

  /** Something that the step does not touch has the edit too: the index on disk, another thread, the note, or a
      list. */
  ghost predicate Elsewhere(s: Sys, t: nat, step: Step, e: Edit)
    requires t in s.threads
  {
    var h := s.threads[t];
    || Shown(s.disk, e) || Aside(s, t, e)
    || (e in s.noted && !step.ClearNote?)
    || (e.path in s.f.k.unsure && !(step.Take? && s.f.k.unsureDue))
    || (e in s.waiting && !step.EnterNewer? && !GivesAllUp(s, h, step))
    || (e.path in s.f.k.paths && !TakesPending(s, h, step))
  }

  /** A step forgets an edit: it is an exit for it, and nothing else has it. */
  ghost predicate Forgets(s: Sys, step: Step, e: Edit) { Exit(s, step, e) && !Elsewhere(s, step.t, step, e) }

  // ---- no step but an exit takes an edit away ----

  lemma CapturedPlaces(k: Kept, full: bool, paths: set<string>, p: string)
    requires p in k.paths || (!full && p in paths)
    ensures var k' := Captured(k, full, paths); p in k'.paths || Wanted(k')
  {
    hide TooMany;
  }

  lemma CapturedUnsure(k: Kept, full: bool, paths: set<string>)
    ensures Captured(k, full, paths).unsure == k.unsure
  {
    hide TooMany;
  }

  /** Edits that are held back stay pending, or are left to a rebuild. */
  lemma HeldPlaces(k: Kept, paths: set<string>, why: LoadFailure, p: string)
    ensures var k' := Held(k, paths, why);
            k'.unsure == k.unsure && (p in k.paths + paths ==> p in k'.paths || Wanted(k'))
  {
    hide TooMany;
  }

  /** What another thread carries stays in its hands. */
  ghost predicate Aside(s: Sys, t: nat, e: Edit) { exists i <- s.threads :: i != t && e in s.threads[i].edits }

  lemma StaysAside(s: Sys, s': Sys, t: nat, e: Edit)
    requires Aside(s, t, e) && t in s'.threads && s'.threads == s.threads[t := s'.threads[t]]
    ensures Placed(s', e)
  {
    var i :| i in s.threads && i != t && e in s.threads[i].edits;
    assert i in s'.threads && e in s'.threads[i].edits;
  }

  lemma TimesOfTold(s: Sys, e: Edit)
    requires Inv(s) && e in s.told
    ensures e.at <= s.now && e.epoch <= s.f.epoch
  {}

  lemma CapturedStays(s: Sys, t: nat, h: Thread, e: Edit)
    requires e in s.told && Busy(s.f) && !s.f.newerFormat
    requires e.path in s.f.k.paths || e.path in s.f.k.unsure || e in h.edits
    ensures Placed(Looked(s, t, h), e)
  {
    var paths := Paths(h.edits);
    var k := Captured(s.f.k, h.full, paths);
    CapturedUnsure(s.f.k, h.full, paths);
    if e in h.edits { assert e.path in paths; }
    if e.path in s.f.k.paths || (!h.full && e in h.edits) { CapturedPlaces(s.f.k, h.full, paths, e.path); }
    assert Wanted(k) && e.path !in k.paths && e.path in s.f.k.paths + paths ==>
           e in NowWaiting(s, k, s.f.k.paths + paths);
    hide Captured, Busy, Paths, NowWaiting;
  }

  /** A callback that finds the session busy leaves its edits to it. */
  lemma LookPlaces(s: Sys, t: nat, h: Thread, e: Edit)
    requires t in s.threads && h == s.threads[t] && (h.at.Told? || h.at.Entered?) && e in s.told
    requires Placed(s, e) && !Aside(s, t, e)
    ensures Placed(Looked(s, t, h), e) || HandsOver(s, h, Look(t), e)
  {
    if Busy(s.f) && !s.f.newerFormat && (e.path in s.f.k.paths || e.path in s.f.k.unsure || e in h.edits) {
      CapturedStays(s, t, h, e);
    } else {
      hide Captured, Paths;
      assert t in Looked(s, t, h).threads;
    }
  }

  lemma StatePlaces(s: Sys, t: nat, h: Thread, e: Edit)
    requires t in s.threads && h == s.threads[t] && Placed(s, e) && !Aside(s, t, e)
    ensures Placed(StateRead(s, t, h), e) || GivesItUp(s, h, ReadState(t), e)
  {
    assert t in StateRead(s, t, h).threads;
  }

  lemma WrittenStays(s: Sys, t: nat, h: Thread, outcome: Applying, compact: bool, e: Edit)
    requires e in s.told && e.at <= s.now
    requires e.path in s.f.k.paths || e.path in s.f.k.unsure || e.path in Paths(h.edits) || e in s.waiting
             || e in s.noted
    ensures Safe(BatchWritten(s, t, h, BatchApplied(s.f.k, Paths(h.edits), Fine, outcome), outcome, compact), e)
            || (outcome.Threw? && e.path in s.f.k.paths + Paths(h.edits))
  {
    hide Paths, Ends;
  }

  lemma HeldStays(s: Sys, t: nat, h: Thread, why: LoadFailure, e: Edit)
    requires e in s.told
    requires e.path in s.f.k.paths || e.path in s.f.k.unsure || e.path in Paths(h.edits) || e in s.waiting
             || e in s.noted
    ensures Placed(BatchHeld(s, t, h, Held(s.f.k, Paths(h.edits), why)), e)
  {
    HeldPlaces(s.f.k, Paths(h.edits), why, e.path);
    hide Paths, Ends, Held;
  }

  /** The section that applies a batch keeps each edit in its place or shows it, but for what an exit says. */
  lemma SectionPlaces(s: Sys, t: nat, h: Thread, why: LoadFailure, outcome: Applying, compact: bool, e: Edit)
    requires Inv(s) && t in s.threads && h == s.threads[t] && h.at.Clear? && !h.full && e in s.told
    requires Placed(s, e) && !Aside(s, t, e)
    ensures var step := Section(t, why, outcome, compact);
            Safe(Sectioned(s, t, h, why, outcome, compact), e) || HandsOver(s, h, step, e) || ThrowsAway(s, h, step, e)
  {
    TimesOfTold(s, e);
    if e in h.edits { assert e.path in Paths(h.edits); }
    assert e.path in s.f.k.paths || e.path in s.f.k.unsure || e.path in Paths(h.edits) || e in s.waiting
           || e in s.noted;
    if why.Fine? { WrittenStays(s, t, h, outcome, compact, e); }
    else if !why.NewerFormat? { HeldStays(s, t, h, why, e); }
    hide Inv, Aside, Paths, BatchWritten, BatchHeld, Held;
  }

  /** Where a path is after a drain's section, that was pending, or that the disk had not answered for. */
  ghost predicate TookWell(k: Kept, k': Kept, next: Next, outcome: Applying, p: string) {
    || p in k'.unsure || p in k'.paths
    || match next
       case Rebuild => p in TakenPaths(k)
       case Applied => p in TakenPaths(k) && if outcome.Did? then p !in outcome.unsure else p in k.paths
       case Failed(why) => if why.NewerFormat? then p in TakenPaths(k) else p in TakenPaths(k) && Wanted(k')
       case _ => false
  }

  lemma TakenPlaces(k: Kept, ready: bool, hold: LoadFailure, refresh: LoadFailure, outcome: Applying, p: string)
    requires p in k.paths || p in k.unsure
    ensures TookWell(k, Taken(k, ready, hold, refresh, outcome), TakeNext(k, ready, hold, refresh), outcome, p)
  {
    var g := Emptied(k);
    HeldPlaces(g, TakenPaths(k), refresh, p);
    hide Held;
  }

  lemma TakenStays(s: Sys, t: nat, h: Thread, k: Kept, next: Next, outcome: Applying, e: Edit)
    requires e in s.told && e.at <= s.now && TookWell(s.f.k, k, next, outcome, e.path)
    ensures next == Rebuild ==> Placed(TakenToRebuild(s, t, h, k), e)
    ensures next == PendingEdits.Applied ==>
              Safe(TakenToApply(s, t, h, k, outcome), e) || (outcome.Threw? && e.path in s.f.k.paths)
    ensures next.Failed? && !next.why.NewerFormat? ==> Placed(TakenToHold(s, t, h, k), e)
    ensures next.Failed? && next.why.NewerFormat? ==>
              Placed(Go(Pending(s, k), t, Ends(h, SawNewer)), e) || e.path in TakenPaths(s.f.k)
    ensures next.Done? || next.NotReady? ==> Placed(Go(Pending(s, k), t, Ends(h, Leaves)), e)
  {
    hide TakenPaths, Wanted;
    if next == Rebuild && e.path in TakenPaths(s.f.k) { assert t in TakenToRebuild(s, t, h, k).threads; }
  }

  lemma NotedStays(s: Sys, t: nat, h: Thread, k: Kept, outcome: Applying, e: Edit)
    requires e in s.noted
    ensures Placed(TakenToRebuild(s, t, h, k), e) && Placed(TakenToApply(s, t, h, k, outcome), e)
    ensures Placed(TakenToHold(s, t, h, k), e) && Placed(Go(Pending(s, k), t, Ends(h, SawNewer)), e)
    ensures Placed(Go(Pending(s, k), t, Ends(h, Leaves)), e)
  {}

  lemma WaitingStays(s: Sys, t: nat, h: Thread, k: Kept, e: Edit)
    requires e in s.waiting
    ensures Placed(TakenToRebuild(s, t, h, k), e) && Placed(Go(Pending(s, k), t, Ends(h, Leaves)), e)
  {
    assert t in TakenToRebuild(s, t, h, k).threads;
  }

  lemma CareStays(s: Sys, t: nat, h: Thread, hold: LoadFailure, refresh: LoadFailure, outcome: Applying, e: Edit)
    requires Inv(s) && t in s.threads && (e in s.waiting || e in s.noted)
    ensures Placed(TookPending(s, t, h, hold, refresh, outcome), e)
  {
    InCare(s, e);
    var ready := s.f.state == Ready;
    var k := Taken(s.f.k, ready, hold, refresh, outcome);
    TakenKeeps(s.f.k, ready, hold, refresh, outcome);
    if e in s.noted { NotedStays(s, t, h, k, outcome, e); } else { WaitingStays(s, t, h, k, e); }
    hide Taken, TakeNext, TakenToRebuild, TakenToApply, TakenToHold, Placed, Go, Pending, Ends, Inv;
  }

  /** So does the section of a drain, in every branch. */
  lemma TakePlaces(s: Sys, t: nat, h: Thread, hold: LoadFailure, refresh: LoadFailure, outcome: Applying, e: Edit)
    requires Inv(s) && t in s.threads && h == s.threads[t] && h.at.Drains? && h.edits == {} && e in s.told
    requires Placed(s, e) && !Aside(s, t, e)
    ensures var step := Take(t, hold, refresh, outcome);
            Safe(TookPending(s, t, h, hold, refresh, outcome), e) || HandsOver(s, h, step, e)
              || ThrowsAway(s, h, step, e)
  {
    TimesOfTold(s, e);
    if e in s.waiting || e in s.noted {
      CareStays(s, t, h, hold, refresh, outcome, e);
    } else {
      var ready := s.f.state == Ready;
      TakenPlaces(s.f.k, ready, hold, refresh, outcome, e.path);
      TakenStays(s, t, h, Taken(s.f.k, ready, hold, refresh, outcome), TakeNext(s.f.k, ready, hold, refresh),
        outcome, e);
      hide Taken, TakeNext, TakenPaths, TakenToRebuild, TakenToApply, TakenToHold, Placed, Go, Pending, Ends,
           TookWell, Inv;
    }
  }

  lemma ThrowPlaces(s: Sys, t: nat, h: Thread, e: Edit)
    requires t in s.threads && h == s.threads[t] && Throws(h) && Shape(h) && Placed(s, e) && !Aside(s, t, e)
    ensures Placed(Thrown(s, t, h), e) || FallsBack(s, h, Throw(t), e) || ThrowsAway(s, h, Throw(t), e)
  {
    assert t in Thrown(s, t, h).threads;
  }

  lemma NotePlaces(s: Sys, t: nat, h: Thread, e: Edit)
    requires Inv(s) && t in s.threads && h == s.threads[t] && h.at.Noting? && Placed(s, e) && !Aside(s, t, e)
    requires e.epoch == s.f.epoch
    ensures Placed(Noted(s, t, h), e)
  {
    assert t in Noted(s, t, h).threads;
  }

  /** What a rebuild of its own took with it is on disk when it is swapped in. */
  lemma SwapPlaces(s: Sys, t: nat, h: Thread, e: Edit)
    requires Inv(s) && t in s.threads && h == s.threads[t] && h.at.Wrote? && Placed(s, e) && !Aside(s, t, e)
    requires e.epoch == s.f.epoch
    ensures Safe(Swapped(s, t, h), e)
  {
    assert ThreadOk(s, h);
    hide Inv, Clears;
    assert t in Swapped(s, t, h).threads;
  }

  /** What the note spoke for is on disk when it goes - but for prunes, and for a note that was set back. */
  lemma ClearPlaces(s: Sys, t: nat, h: Thread, e: Edit)
    requires Inv(s) && t in s.threads && h == s.threads[t] && h.at.Installed? && Placed(s, e) && !Aside(s, t, e)
    requires e.epoch == s.f.epoch && h.edits == {}
    ensures Safe(NoteCleared(s, t, h), e) || ClearsEarly(s, h, ClearNote(t), e)
  {
    assert ThreadOk(s, h) && TimesOk(s);
    hide Inv, OneGated;
    assert t in NoteCleared(s, t, h).threads;
  }

  lemma FoundPlaces(s: Sys, t: nat, h: Thread, why: LoadFailure, e: Edit)
    requires t in s.threads && h == s.threads[t] && h.edits == {} && Placed(s, e) && !Aside(s, t, e)
    ensures Placed(FoundOther(s, t, h, why), e)
  {
    assert t in FoundOther(s, t, h, why).threads;
  }

  lemma NewerPlaces(s: Sys, t: nat, h: Thread, e: Edit)
    requires t in s.threads && h == s.threads[t] && h.at.SawNewer? && h.edits == {} && Placed(s, e) && !Aside(s, t, e)
    ensures Placed(NewerEntered(s, t, h), e) || HandsOver(s, h, EnterNewer(t), e)
  {
    assert t in NewerEntered(s, t, h).threads;
  }

  /** A thread goes to another place with what it carries, or with nothing in its hands. */
  lemma GoPlaces(s: Sys, s': Sys, t: nat, h: Thread, h': Thread, e: Edit)
    requires t in s.threads && h == s.threads[t] && Placed(s, e) && !Aside(s, t, e)
    requires (h'.edits == h.edits || e !in h.edits) && s'.threads == s.threads[t := h'] && s'.waiting == s.waiting
             && s'.noted == s.noted
    requires s'.f.k.paths == s.f.k.paths && s'.f.k.unsure == s.f.k.unsure
    ensures Placed(s', e)
  {
    assert t in s'.threads;
  }

  lemma SectionsPlace(s: Sys, t: nat, step: Step, e: Edit)
    requires Inv(s) && Sections(step) && step.t == t && t in s.threads && CanThread(s, s.threads[t], step)
    requires e in s.told && e.epoch == s.f.epoch && !s.leaving && Placed(s, e) && !Aside(s, t, e)
    ensures Safe(AfterThread(s, t, s.threads[t], step), e) || Out(s, s.threads[t], step, e)
  {
    var h := s.threads[t];
    Known(s, t);
    assert Shape(h);
    hide *;
    match step {
      case Look(_) => LookPlaces(s, t, h, e);
      case ReadState(_) => StatePlaces(s, t, h, e);
      case Section(_, why, outcome, compact) => SectionPlaces(s, t, h, why, outcome, compact, e);
      case MakeNote(_) => NotePlaces(s, t, h, e);
      case Take(_, hold, refresh, outcome) => TakePlaces(s, t, h, hold, refresh, outcome, e);
    }
  }

  lemma SwapsPlace(s: Sys, t: nat, step: Step, e: Edit)
    requires Inv(s) && Swaps(step) && step.t == t && t in s.threads && CanThread(s, s.threads[t], step)
    requires e in s.told && e.epoch == s.f.epoch && !s.leaving && Placed(s, e) && !Aside(s, t, e)
    ensures Safe(AfterThread(s, t, s.threads[t], step), e) || Out(s, s.threads[t], step, e)
  {
    var h := s.threads[t];
    Known(s, t);
    assert Shape(h);
    hide *;
    match step {
      case FindsOther(_, why) => FoundPlaces(s, t, h, why, e);
      case Swap(_) => SwapPlaces(s, t, h, e);
      case ClearNote(_) => ClearPlaces(s, t, h, e);
      case EnterNewer(_) => NewerPlaces(s, t, h, e);
      case Throw(_) => ThrowPlaces(s, t, h, e);
    }
  }

  lemma MovePlaces(s: Sys, t: nat, step: Step, e: Edit)
    requires Inv(s) && OfThread(step) && !Works(step) && step.t == t && t in s.threads
             && CanThread(s, s.threads[t], step)
    requires e in s.told && e.epoch == s.f.epoch && !s.leaving && Placed(s, e) && !Aside(s, t, e)
    ensures Placed(AfterThread(s, t, s.threads[t], step), e)
  {
    var h := s.threads[t];
    Known(s, t);
    assert step.Cancel? ==> e !in h.edits by { assert ThreadOk(s, h); }
    var s' := AfterThread(s, t, h, step);
    hide Inv, Placed, Aside;
    GoPlaces(s, s', t, h, s'.threads[t], e);
  }

  lemma StepKeepsShown(s: Sys, step: Step, e: Edit)
    requires Inv(s) && Can(s, step) && Shown(s.disk, e) && Live(After(s, step), e) && e in s.told
    ensures Shown(After(s, step).disk, e)
  {
    hide CanThread, AfterThread;
    TimesOfTold(s, e);
    if OfThread(step) {
      OfThreadKeeps(s, step.t, step);
      hide Inv;
    }
  }

  lemma StaysAsideOf(s: Sys, t: nat, step: Step, e: Edit)
    requires Inv(s) && OfThread(step) && step.t == t && t in s.threads && CanThread(s, s.threads[t], step)
             && Aside(s, t, e)
    ensures Placed(AfterThread(s, t, s.threads[t], step), e)
  {
    OfThreadKeeps(s, t, step);
    StaysAside(s, AfterThread(s, t, s.threads[t], step), t, e);
  }

  /** More threads, and the same in everybody's care. */
  lemma MorePlaces(s: Sys, s': Sys, e: Edit)
    requires Placed(s, e) && (forall i <- s.threads :: i in s'.threads && s'.threads[i] == s.threads[i])
    requires s'.f.k.paths == s.f.k.paths && s'.f.k.unsure == s.f.k.unsure && s'.waiting == s.waiting
             && s'.noted == s.noted
    ensures Placed(s', e)
  {}

  lemma OtherLeaves(s: Sys, step: Step)
    requires !OfThread(step) && CanOther(s, step) && !step.Repoint?
    ensures var s' := AfterOther(s, step);
            && (forall i <- s.threads :: i in s'.threads && s'.threads[i] == s.threads[i])
            && s'.f.k.paths == s.f.k.paths && s'.f.k.unsure == s.f.k.unsure && s'.waiting == s.waiting
            && s'.noted == s.noted
  {}

  lemma OtherPlaces(s: Sys, step: Step, e: Edit)
    requires Inv(s) && !OfThread(step) && CanOther(s, step) && e in s.told && Placed(s, e)
             && Live(AfterOther(s, step), e)
    ensures Placed(AfterOther(s, step), e)
  {
    TimesOfTold(s, e);
    hide Inv, Placed;
    if step.Repoint? { return; }
    OtherLeaves(s, step);
    hide AfterOther, CanOther;
    MorePlaces(s, AfterOther(s, step), e);
  }

  lemma LiveBefore(s: Sys, step: Step, e: Edit)
    requires Inv(s) && Can(s, step) && e in s.told && Live(After(s, step), e)
    ensures Live(s, e)
  {
    TimesOfTold(s, e);
    hide Inv, CanThread, AfterThread;
    if OfThread(step) { OfThreadKeeps(s, step.t, step); }
  }

  /** An edit of the workspace that is served, that the session was told of, is in its place or on disk after every
      step, unless the step is an exit for it. */
  lemma StepKeepsEdit(s: Sys, step: Step, e: Edit)
    requires Inv(s) && Can(s, step) && e in s.told && Safe(s, e) && Live(After(s, step), e)
    ensures Safe(After(s, step), e) || Exit(s, step, e)
  {
    LiveBefore(s, step, e);
    if Shown(s.disk, e) { StepKeepsShown(s, step, e); }
    hide Inv, CanThread, AfterThread, CanOther, AfterOther, Placed, Aside, Out;
    if !Shown(s.disk, e) {
      if !OfThread(step) { OtherPlaces(s, step, e); }
      else if Aside(s, step.t, e) { StaysAsideOf(s, step.t, step, e); }
      else if Sections(step) { SectionsPlace(s, step.t, step, e); }
      else if Swaps(step) { SwapsPlace(s, step.t, step, e); }
      else { MovePlaces(s, step.t, step, e); }
    }
  }

  // ---- an exit takes an edit away if and only if nothing else has it ----

  /** An edit is in no list, and the thread does not carry it. */
  predicate InNoList(s: Sys, t: nat, e: Edit) {
    && t in s.threads && s.threads[t].edits == {} && e !in s.waiting && e !in s.noted
    && e.path !in s.f.k.paths && e.path !in s.f.k.unsure
  }

  /** Something of the lists has an edit. */
  predicate InList(s: Sys, e: Edit) {
    e in s.waiting || e in s.noted || e.path in s.f.k.paths || e.path in s.f.k.unsure
  }

  /** What an exit leaves of an edit that is in nobody else's hands: nothing, or what another list has. */
  ghost predicate LeavesJust(s: Sys, t: nat, step: Step, e: Edit, s': Sys)
    requires t in s.threads
  {
    && s'.disk == s.disk && (Elsewhere(s, t, step, e) ==> InList(s', e))
    && (!Elsewhere(s, t, step, e) ==> InNoList(s', t, e))
  }

  lemma LookLeaves(s: Sys, t: nat, h: Thread, e: Edit)
    requires t in s.threads && h == s.threads[t] && !Shown(s.disk, e) && !Aside(s, t, e)
    requires HandsOver(s, h, Look(t), e)
    ensures LeavesJust(s, t, Look(t), e, Looked(s, t, h))
  {
    hide Aside, Shown, Busy, Captured;
  }

  lemma StateLeaves(s: Sys, t: nat, h: Thread, e: Edit)
    requires t in s.threads && h == s.threads[t] && !Shown(s.disk, e) && !Aside(s, t, e)
    requires GivesItUp(s, h, ReadState(t), e)
    ensures LeavesJust(s, t, ReadState(t), e, StateRead(s, t, h))
  {
    hide Aside, Shown;
  }

  lemma SectionLeaves(s: Sys, t: nat, h: Thread, why: LoadFailure, outcome: Applying, compact: bool, e: Edit)
    requires t in s.threads && h == s.threads[t] && !Shown(s.disk, e) && !Aside(s, t, e)
    requires var step := Section(t, why, outcome, compact); HandsOver(s, h, step, e) || ThrowsAway(s, h, step, e)
    ensures LeavesJust(s, t, Section(t, why, outcome, compact), e, Sectioned(s, t, h, why, outcome, compact))
  {
    hide Aside, Shown, Held, Paths;
  }

  lemma TakeLeaves(s: Sys, t: nat, h: Thread, hold: LoadFailure, refresh: LoadFailure, outcome: Applying, e: Edit)
    requires t in s.threads && h == s.threads[t] && !Shown(s.disk, e) && !Aside(s, t, e)
    requires var step := Take(t, hold, refresh, outcome); HandsOver(s, h, step, e) || ThrowsAway(s, h, step, e)
    ensures LeavesJust(s, t, Take(t, hold, refresh, outcome), e, TookPending(s, t, h, hold, refresh, outcome))
  {
    hide Aside, Shown, Held;
  }

  lemma NewerLeaves(s: Sys, t: nat, h: Thread, e: Edit)
    requires t in s.threads && h == s.threads[t] && !Shown(s.disk, e) && !Aside(s, t, e)
    requires HandsOver(s, h, EnterNewer(t), e)
    ensures LeavesJust(s, t, EnterNewer(t), e, NewerEntered(s, t, h))
  {
    hide Aside, Shown;
  }

  lemma ThrowLeaves(s: Sys, t: nat, h: Thread, e: Edit)
    requires t in s.threads && h == s.threads[t] && !Shown(s.disk, e) && !Aside(s, t, e)
    requires FallsBack(s, h, Throw(t), e) || ThrowsAway(s, h, Throw(t), e)
    ensures LeavesJust(s, t, Throw(t), e, Thrown(s, t, h))
  {
    hide Aside, Shown;
  }

  lemma ClearLeaves(s: Sys, t: nat, h: Thread, e: Edit)
    requires t in s.threads && h == s.threads[t] && !Shown(s.disk, e) && !Aside(s, t, e)
    requires ClearsEarly(s, h, ClearNote(t), e)
    ensures LeavesJust(s, t, ClearNote(t), e, NoteCleared(s, t, h))
  {
    hide Aside, Shown;
  }

  lemma ExitLeaves(s: Sys, t: nat, step: Step, e: Edit)
    requires OfThread(step) && step.t == t && t in s.threads && CanThread(s, s.threads[t], step)
    requires Out(s, s.threads[t], step, e) && !Shown(s.disk, e) && !Aside(s, t, e)
    ensures LeavesJust(s, t, step, e, AfterThread(s, t, s.threads[t], step))
  {
    var h := s.threads[t];
    hide LeavesJust, Looked, StateRead, Sectioned, TookPending, NewerEntered, Thrown, NoteCleared, Shown, Aside,
         TakeNext,
         TakenPaths, CanThread;
    match step {
      case Look(_) => LookLeaves(s, t, h, e);
      case ReadState(_) => StateLeaves(s, t, h, e);
      case Section(_, why, outcome, compact) => SectionLeaves(s, t, h, why, outcome, compact, e);
      case Take(_, hold, refresh, outcome) => TakeLeaves(s, t, h, hold, refresh, outcome, e);
      case EnterNewer(_) => NewerLeaves(s, t, h, e);
      case Throw(_) => ThrowLeaves(s, t, h, e);
      case ClearNote(_) => ClearLeaves(s, t, h, e);
      case _ =>
    }
  }

  lemma NotPlaced(s: Sys, s': Sys, t: nat, e: Edit)
    requires !Aside(s, t, e) && t in s'.threads && s'.threads == s.threads[t := s'.threads[t]] && InNoList(s', t, e)
    ensures !Placed(s', e)
  {
    assert forall i <- s'.threads :: i != t ==> s'.threads[i] == s.threads[i];
  }

  lemma ListPlaces(s: Sys, e: Edit)
    requires InList(s, e)
    ensures Placed(s, e)
  {}

  /** An exit takes an edit away exactly if nothing that the step does not touch has it. */
  lemma ExitTakes(s: Sys, step: Step, e: Edit)
    requires Inv(s) && Can(s, step) && e in s.told && Live(After(s, step), e) && Exit(s, step, e)
    ensures Safe(After(s, step), e) <==> Elsewhere(s, step.t, step, e)
  {
    var t := step.t;
    if Shown(s.disk, e) {
      StepKeepsShown(s, step, e);
    } else if Aside(s, t, e) {
      StaysAsideOf(s, t, step, e);
    } else {
      ExitLeaves(s, t, step, e);
      OfThreadKeeps(s, t, step);
      var s' := AfterThread(s, t, s.threads[t], step);
      hide Inv, CanThread, AfterThread, Aside, Placed, InList, InNoList, Out, Elsewhere;
      if Elsewhere(s, t, step, e) { ListPlaces(s', e); } else { NotPlaced(s, s', t, e); }
    }
  }

  /** A step forgets an edit exactly if it is an exit for it, and nothing that the step does not touch has it. */
  lemma ForgottenExactly(s: Sys, step: Step, e: Edit)
    requires Inv(s) && Can(s, step) && e in s.told && Safe(s, e) && Live(After(s, step), e)
    ensures !Safe(After(s, step), e) <==> Forgets(s, step, e)
  {
    StepKeepsEdit(s, step, e);
    hide Inv, Can, After, Live, Safe, Elsewhere, Exit;
    if Exit(s, step, e) { ExitTakes(s, step, e); }
  }

  // ---- runs ----

  predicate Initial(s: Sys) {
    && s.f == Started(s.f.epoch) && !s.leaving && s.threads == map[] && s.disk.stamp <= s.now
    && (s.other.Some? ==> s.other.value <= s.now) && s.told == {} && s.waiting == {} && s.noted == {} && !s.setBack
  }

  ghost predicate IsRun(s: Sys, steps: seq<Step>)
    decreases |steps|
  {
    steps == [] || (Can(s, steps[0]) && IsRun(After(s, steps[0]), steps[1..]))
  }

  ghost function End(s: Sys, steps: seq<Step>): Sys
    requires IsRun(s, steps)
    decreases |steps|
  {
    if steps == [] then s else End(After(s, steps[0]), steps[1..])
  }

  /** A step from one state to another, and a run that reaches one. */
  ghost predicate Leads(s: Sys, step: Step, s': Sys) { Can(s, step) && After(s, step) == s' }

  ghost predicate Reaches(s: Sys, steps: seq<Step>, s': Sys) { IsRun(s, steps) && End(s, steps) == s' }

  lemma {:induction false} Then(s: Sys, steps: seq<Step>, s': Sys, step: Step, s'': Sys)
    requires Reaches(s, steps, s') && Leads(s', step, s'')
    ensures Reaches(s, steps + [step], s'')
    decreases |steps|
  {
    hide Can, After;
    if steps == [] {
      assert steps + [step] == [step] && [step][1..] == [];
      assert IsRun(s'', []) && End(s'', []) == s'';
    } else {
      Then(After(s, steps[0]), steps[1..], s', step, s'');
      assert (steps + [step])[1..] == steps[1..] + [step];
    }
  }

  /** Some step of a run forgets an edit. */
  ghost predicate Left(s: Sys, steps: seq<Step>, e: Edit)
    requires IsRun(s, steps)
    decreases |steps|
  {
    steps != [] && (Forgets(s, steps[0], e) || Left(After(s, steps[0]), steps[1..], e))
  }

  lemma InitialOk(s: Sys)
    requires Initial(s)
    ensures Inv(s)
  {}

  lemma NewlyTold(s: Sys, step: Step, e: Edit)
    requires Inv(s) && Can(s, step)
    ensures e in After(s, step).told ==> e in s.told || Placed(After(s, step), e)
  {
    hide Inv, CanThread, AfterThread;
    if OfThread(step) { OfThreadKeeps(s, step.t, step); }
    assert step.Arrive? ==> step.t in After(s, step).threads;
  }

  lemma {:induction false} LiveAll(s: Sys, steps: seq<Step>, e: Edit)
    requires Inv(s) && IsRun(s, steps) && e in s.told && Live(End(s, steps), e)
    ensures Live(s, e)
    decreases |steps|
  {
    hide Inv, Can, After, Live;
    if steps != [] {
      StepKeeps(s, steps[0]);
      StaysTold(s, steps[0]);
      LiveAll(After(s, steps[0]), steps[1..], e);
      LiveBefore(s, steps[0], e);
    }
  }

  lemma StaysTold(s: Sys, step: Step)
    requires Inv(s) && Can(s, step)
    ensures s.told <= After(s, step).told
  {
    hide Inv, CanThread, AfterThread;
    if OfThread(step) { OfThreadKeeps(s, step.t, step); }
  }

  /** Over any run: an edit that the session was told of, of the workspace that it serves at the end, is in its place
      or on disk then, unless a step of the run forgot it. */
  lemma {:induction false} NeverForgotten(s: Sys, steps: seq<Step>, e: Edit)
    requires Inv(s) && IsRun(s, steps) && (e in s.told ==> Safe(s, e))
    ensures e in End(s, steps).told && Live(End(s, steps), e) ==> Safe(End(s, steps), e) || Left(s, steps, e)
    decreases |steps|
  {
    hide Inv, Can, After, Live, Safe, Forgets;
    if steps != [] && e in End(s, steps).told && Live(End(s, steps), e) {
      var step, s' := steps[0], After(s, steps[0]);
      StepKeeps(s, step);
      StaysTold(s, step);
      if e in s'.told {
        LiveAll(s', steps[1..], e);
        if e in s.told { ForgottenExactly(s, step, e); } else { NewlyTold(s, step, e); IsSafe(s', e); }
      }
      if !Forgets(s, step, e) { NeverForgotten(s', steps[1..], e); }
    }
  }

  lemma IsSafe(s: Sys, e: Edit)
    requires Placed(s, e)
    ensures Safe(s, e)
  {}

  lemma FromTheStart(s: Sys, steps: seq<Step>, e: Edit)
    requires Initial(s) && IsRun(s, steps) && e in End(s, steps).told && Live(End(s, steps), e)
    ensures Safe(End(s, steps), e) || Left(s, steps, e)
  {
    InitialOk(s);
    NeverForgotten(s, steps, e);
  }

  // ---- an apply that throws, and a note that goes, exactly ----

  /** An apply that throws keeps, of what was pending, just the paths that the disk had not answered for before and that
      were not edited again since: an edit that is nowhere else is kept if and only if its path is one. */
  lemma ThrewKeepsRetries(s: Sys, t: nat, hold: LoadFailure, refresh: LoadFailure, e: Edit)
    requires Inv(s) && Can(s, Take(t, hold, refresh, Threw))
    requires TakeNext(s.f.k, s.f.state == Ready, hold, refresh) == PendingEdits.Applied && e.path in TakenPaths(s.f.k)
    requires !Aside(s, t, e) && e !in s.noted && !Shown(s.disk, e)
    ensures Safe(After(s, Take(t, hold, refresh, Threw)), e) <==>
            e.path in s.f.k.unsure && (s.f.k.unsureDue ==> e.path !in s.f.k.paths)
  {
    TakenKeeps(s.f.k, s.f.state == Ready, hold, refresh, Threw);
    assert s.waiting == {};
    var s' := After(s, Take(t, hold, refresh, Threw));
    assert s'.threads[t].edits == {};
    hide Inv;
    assert forall i <- s'.threads :: i != t ==> s'.threads[i] == s.threads[i];
  }

  /** A callback retries nothing: of an edit that its apply took, and that is nowhere else, nothing is left but where
      the disk had not answered for the path before. */
  lemma ThrewInSection(s: Sys, t: nat, compact: bool, e: Edit)
    requires Inv(s) && Can(s, Section(t, Fine, Threw, compact))
    requires e.path in s.f.k.paths + Paths(s.threads[t].edits)
    requires !Aside(s, t, e) && e !in s.noted && e !in s.waiting && !Shown(s.disk, e)
    ensures Safe(After(s, Section(t, Fine, Threw, compact)), e) <==> e.path in s.f.k.unsure
  {
    var s' := After(s, Section(t, Fine, Threw, compact));
    hide Inv;
    assert s'.threads[t].edits == {} && s'.f.k.paths == {};
    assert forall i <- s'.threads :: i != t ==> s'.threads[i] == s.threads[i];
  }

  /** When a reload compares the times, and the stamp is the later one, an edit that only the note spoke for is kept
      if and only if the cache shows it; and it does, unless the stamp is a prune's or the note was set back. */
  lemma ReloadClears(s: Sys, t: nat, e: Edit)
    requires Inv(s) && Can(s, ClearNote(t)) && s.threads[t].kind.Reload? && s.disk.stamp > s.f.note.at && e in s.noted
    requires !Aside(s, t, e) && e !in s.waiting && e.path !in s.f.k.paths && e.path !in s.f.k.unsure
    ensures Safe(After(s, ClearNote(t)), e) <==> Shown(s.disk, e)
    ensures !s.disk.pruned && !s.setBack ==> Shown(s.disk, e)
  {
    assert TimesOk(s);
    Known(s, t);
    var s' := After(s, ClearNote(t));
    hide Inv;
    assert s'.threads[t].edits == {};
    assert forall i <- s'.threads :: i != t ==> s'.threads[i] == s.threads[i];
  }

  /** After a rebuild of its own, the session has nothing noted, whatever the times say; after a reload, exactly where
      the stamp is later than the note. */
  lemma NoteGoesOff(s: Sys, t: nat)
    requires Inv(s) && Can(s, ClearNote(t)) && s.f.note.on
    ensures !After(s, ClearNote(t)).f.note.on <==> !s.threads[t].kind.Reload? || s.disk.stamp > s.f.note.at
    ensures !After(s, ClearNote(t)).f.note.on ==> After(s, ClearNote(t)).noted == {}
  {
    hide Inv;
  }
}
