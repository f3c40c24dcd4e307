/** What can still go well: from wherever a migration has got to with nothing broken, some continuation brings
it to its end, with a guest that runs. */
module MigrationProgress {
  import opened Basics
  import opened VolumeLock
  import opened MigrationProtocol
  import opened MigrationSafety
  import MigrationWorld
  import opened Runs

  // One step of each kind.

  lemma GoHandover(s: State, e: Step) returns (t: State)
    requires HandoverEnabled(s, e)
    ensures t == HandoverApply(s, e) && Leads(Next, s, t)
  {
    t := HandoverApply(s, e);
    LeadsByStep(Next, s, e, t);
  }

  lemma GoRescue(s: State, e: Step) returns (t: State)
    requires RescueEnabled(s, e)
    ensures t == RescueApply(s, e) && Leads(Next, s, t)
  {
    t := RescueApply(s, e);
    LeadsByStep(Next, s, e, t);
  }

  lemma GoKill(s: State, e: Step) returns (t: State)
    requires KillEnabled(s, e)
    ensures t == KillApply(s, e) && Leads(Next, s, t)
  {
    t := KillApply(s, e);
    LeadsByStep(Next, s, e, t);
  }

  lemma GoServe(s: State, e: Step) returns (t: State)
    requires ServeEnabled(s, e)
    ensures t == ServeApply(s, e) && Leads(Next, s, t)
  {
    t := ServeApply(s, e);
    LeadsByStep(Next, s, e, t);
  }

  lemma GoClean(s: State, e: Step) returns (t: State)
    requires CleanEnabled(s, e)
    ensures t == CleanApply(s, e) && Leads(Next, s, t)
  {
    t := CleanApply(s, e);
    LeadsByStep(Next, s, e, t);
  }

  lemma GoWorld(s: State, e: Step) returns (t: State)
    requires WorldEnabled(s, e)
    ensures t == WorldApply(s, e) && Leads(Next, s, t)
  {
    t := WorldApply(s, e);
    LeadsByStep(Next, s, e, t);
  }

  lemma Then(s: State, t: State, u: State)
    requires Leads(Next, s, t) && Leads(Next, t, u)
    ensures Leads(Next, s, u)
  {
    LeadsOn(Next, s, t, u);
  }

  // --------------------------------------------------------------------------------- volume by volume

  /** Only locks differ. */
  predicate SameButLocks(s: State, t: State) {
    && t == s.(vols := t.vols, lostBySource := t.lostBySource, lostByTarget := t.lostByTarget)
    && t.vols.Keys == s.vols.Keys
  }

  /** An unlock that works. */
  function Give(h: Host, a: ImageLock): (r: (UnlockOutcome, ImageLock))
    ensures UnlockStep(h, a, r.0, r.1) && r.0 != ReplyLost && r.1.owner != Some(h)
    ensures r.1.owner == None || r.1.owner == a.owner
  {
    if Removes(h, a) then (Released, ImageLock(None, a.marked - {h})) else (Skipped, a)
  }

  /** Someone else's lock goes. */
  lemma ComesFree(s: State, d: Disk, h: Host) returns (t: State)
    requires d in s.vols && (h == SRC || h == TGT) && s.vols[d].owner != Some(if h == SRC then TGT else SRC)
    ensures Leads(Next, s, t) && SameButLocks(s, t)
    ensures t.vols == s.vols[d := t.vols[d]] && (t.vols[d].owner == None || t.vols[d].owner == Some(h))
  {
    var a := s.vols[d];
    if a.owner == None || a.owner == Some(h) {
      t := s;
      LeadsToItself<State, Step>(Next, s);
      assert t.vols == s.vols[d := t.vols[d]];
    } else {
      var other := a.owner.value;
      t := GoWorld(s, OtherUnlocks(other, d, Released, ImageLock(None, a.marked - {other})));
    }
  }

  /** A lock that works. */
  function Take(h: Host, a: ImageLock): (r: (LockOutcome, ImageLock))
    requires a.owner == None || a.owner == Some(h)
    ensures LockStep(h, a, r.0, r.1) && r.0 != LockRaised && r.1.owner == Some(h)
  {
    if a.owner == None then (Acquired, ImageLock(Some(h), a.marked + {h})) else (Reused, a)
  }

  lemma TargetTakes(s: State, d: Disk) returns (t: State)
    requires s.tpc.TLocking? && d in s.tpc.todo && d in s.vols && (s.vols[d].owner == None || s.vols[d].owner == Some(TGT))
    ensures Leads(Next, s, t) && SameButLocks(s.(tpc := TLocking(s.tpc.todo - {d}, s.tpc.request)), t)
    ensures t.vols == s.vols[d := t.vols[d]] && t.vols[d].owner == Some(TGT)
  {
    hide Leads;
    var l := Take(TGT, s.vols[d]);
    t := GoServe(s, TLock(d, l.0, l.1));
  }

  lemma TargetLocksOne(s: State, d: Disk) returns (t: State)
    requires s.tpc.TLocking? && d in s.tpc.todo && d in s.vols && s.vols[d].owner != Some(SRC)
    ensures Leads(Next, s, t) && SameButLocks(s.(tpc := TLocking(s.tpc.todo - {d}, s.tpc.request)), t)
    ensures t.vols == s.vols[d := t.vols[d]] && t.vols[d].owner == Some(TGT)
  {
    hide Leads;
    var a := ComesFree(s, d, TGT);
    t := TargetTakes(a, d);
    Then(s, a, t);
  }

  lemma {:induction false} TargetLocksAll(s: State) returns (t: State)
    requires s.tpc.TLocking? && s.tpc.todo <= s.vols.Keys && HoldsNone(s.vols, SRC)
    ensures Leads(Next, s, t) && SameButLocks(s.(tpc := TLocking({}, s.tpc.request)), t)
    ensures HoldsNone(t.vols, SRC)
    decreases |s.tpc.todo|
  {
    hide Leads;
    if s.tpc.todo == {} {
      t := s;
      LeadsToItself<State, Step>(Next, s);
    } else {
      var d :| d in s.tpc.todo;
      var a := TargetLocksOne(s, d);
      t := TargetLocksAll(a);
      Then(s, a, t);
    }
  }

  lemma SourceTakes(s: State, d: Disk) returns (t: State)
    requires s.spc.Relocking? && d in s.spc.todo && d in s.vols && (s.vols[d].owner == None || s.vols[d].owner == Some(SRC))
    ensures Leads(Next, s, t) && SameButLocks(s.(spc := Relocking(s.spc.todo - {d})), t)
    ensures t.vols == s.vols[d := t.vols[d]] && t.vols[d].owner == Some(SRC)
  {
    hide Leads;
    var l := Take(SRC, s.vols[d]);
    t := GoRescue(s, Relock(d, l.0, l.1));
  }

  lemma SourceLocksOne(s: State, d: Disk) returns (t: State)
    requires s.spc.Relocking? && d in s.spc.todo && d in s.vols && s.vols[d].owner != Some(TGT)
    ensures Leads(Next, s, t) && SameButLocks(s.(spc := Relocking(s.spc.todo - {d})), t)
    ensures t.vols == s.vols[d := t.vols[d]] && t.vols[d].owner == Some(SRC)
  {
    hide Leads;
    var a := ComesFree(s, d, SRC);
    t := SourceTakes(a, d);
    Then(s, a, t);
  }

  lemma {:induction false} SourceLocksAll(s: State) returns (t: State)
    requires s.spc.Relocking? && s.spc.todo <= s.vols.Keys
    requires forall d :: d in s.spc.todo ==> s.vols[d].owner != Some(TGT)
    ensures Leads(Next, s, t) && SameButLocks(s.(spc := Relocking({})), t)
    ensures forall d :: d in t.vols ==> if d in s.spc.todo then t.vols[d].owner == Some(SRC) else t.vols[d] == s.vols[d]
    decreases |s.spc.todo|
  {
    hide Leads;
    if s.spc.todo == {} {
      t := s;
      LeadsToItself<State, Step>(Next, s);
    } else {
      var d :| d in s.spc.todo;
      var a := SourceLocksOne(s, d);
      t := SourceLocksAll(a);
      Then(s, a, t);
    }
  }

  lemma SourceReleasesOne(s: State, d: Disk) returns (t: State)
    requires s.spc.Releasing? && !s.spc.failed && d in s.spc.todo && d in s.vols
    ensures Leads(Next, s, t) && SameButLocks(s.(spc := Releasing(s.spc.todo - {d}, false)), t)
    ensures t.vols == s.vols[d := t.vols[d]] && t.vols[d].owner != Some(SRC)
  {
    hide Leads;
    var u := Give(SRC, s.vols[d]);
    t := GoHandover(s, Release(d, u.0, u.1));
  }

  lemma {:induction false} SourceReleasesAll(s: State) returns (t: State)
    requires s.spc.Releasing? && !s.spc.failed && s.spc.todo <= s.vols.Keys
    requires forall d :: d in s.vols && d !in s.spc.todo ==> s.vols[d].owner != Some(SRC)
    ensures Leads(Next, s, t) && SameButLocks(s.(spc := Releasing({}, false)), t) && HoldsNone(t.vols, SRC)
    decreases |s.spc.todo|
  {
    hide Leads;
    if s.spc.todo == {} {
      t := s;
      LeadsToItself<State, Step>(Next, s);
    } else {
      var d :| d in s.spc.todo;
      var a := SourceReleasesOne(s, d);
      t := SourceReleasesAll(a);
      Then(s, a, t);
    }
  }

  lemma SourceDropsOne(s: State, d: Disk) returns (t: State)
    requires s.spc.SDropping? && d in s.spc.todo && d in s.vols
    ensures Leads(Next, s, t) && SameButLocks(s.(spc := SDropping(s.spc.todo - {d}, s.spc.reason)), t)
    ensures t.vols == s.vols[d := t.vols[d]] && t.vols[d].owner != Some(SRC)
  {
    hide Leads;
    var u := Give(SRC, s.vols[d]);
    t := GoKill(s, Drop(d, u.0, u.1));
  }

  lemma {:induction false} SourceDropsAll(s: State) returns (t: State)
    requires s.spc.SDropping? && s.spc.todo <= s.vols.Keys
    ensures Leads(Next, s, t) && SameButLocks(s.(spc := SDropping({}, s.spc.reason)), t)
    decreases |s.spc.todo|
  {
    hide Leads;
    if s.spc.todo == {} {
      t := s;
      LeadsToItself<State, Step>(Next, s);
    } else {
      var d :| d in s.spc.todo;
      var a := SourceDropsOne(s, d);
      t := SourceDropsAll(a);
      Then(s, a, t);
    }
  }

  lemma TargetUnlocksOne(s: State, d: Disk) returns (t: State)
    requires s.tpc.TUnlocking? && s.tpc.reason.ForDestroy? && d in s.tpc.todo && d in s.vols
    ensures Leads(Next, s, t) && SameButLocks(s.(tpc := TUnlocking(s.tpc.todo - {d}, s.tpc.reason)), t)
    ensures t.vols == s.vols[d := t.vols[d]] && t.vols[d].owner != Some(TGT)
  {
    hide Leads;
    var u := Give(TGT, s.vols[d]);
    t := GoClean(s, TUnlock(d, u.0, u.1));
  }

  lemma {:induction false} TargetUnlocksAll(s: State) returns (t: State)
    requires s.tpc.TUnlocking? && s.tpc.reason.ForDestroy? && s.tpc.todo <= s.vols.Keys
    requires forall d :: d in s.vols && d !in s.tpc.todo ==> s.vols[d].owner != Some(TGT)
    ensures Leads(Next, s, t) && SameButLocks(s.(tpc := TUnlocking({}, s.tpc.reason)), t) && HoldsNone(t.vols, TGT)
    decreases |s.tpc.todo|
  {
    hide Leads;
    if s.tpc.todo == {} {
      t := s;
      LeadsToItself<State, Step>(Next, s);
    } else {
      var d :| d in s.tpc.todo;
      var a := TargetUnlocksOne(s, d);
      t := TargetUnlocksAll(a);
      Then(s, a, t);
    }
  }

  // --------------------------------------------------------------------------- the target's answers

  /** The target waits for requests, or is about to. */
  predicate Listening(s: State) {
    AtRest(s.tpc) && s.finished == Undecided
  }

  lemma Listens(s: State) returns (t: State)
    requires Listening(s)
    ensures Leads(Next, s, t) && t == s.(tpc := Serving)
  {
    if s.tpc == TLooping {
      t := GoServe(s, TLoop);
    } else {
      t := s;
      LeadsToItself<State, Step>(Next, s);
    }
  }

  lemma AnswersAcquire(s: State) returns (t: State)
    requires Listening(s) && s.requests.acquire == Pending && HoldsNone(s.vols, SRC)
    ensures Leads(Next, s, t)
    ensures SameButLocks(s.(tpc := TLooping, requests := s.requests.(acquire := Granted)), t)
  {
    hide Leads;
    var a := Listens(s);
    var b := GoServe(a, TStart(AcquireLocks));
    var c := TargetLocksAll(b);
    t := GoServe(c, TLockDone);
    Then(s, a, b);
    Then(s, b, c);
    Then(s, c, t);
  }

  lemma AnswersPrepare(s: State) returns (t: State)
    requires Listening(s) && s.requests.prepare == Pending && s.targetGuest == NoGuest
    ensures Leads(Next, s, t)
    ensures t == s.(tpc := TLooping, targetGuest := Inmigrate, requests := s.requests.(prepare := Granted))
  {
    hide Leads;
    var a := Listens(s);
    var b := GoServe(a, TStart(Prepare));
    t := GoServe(b, TPrepare(true, true));
    Then(s, a, b);
    Then(s, b, t);
  }

  lemma AnswersFinish(s: State) returns (t: State)
    requires Listening(s) && s.requests.finish == Pending && s.targetGuest == Running
    ensures Leads(Next, s, t)
    ensures t == s.(tpc := TEnded, finished := Success, requests := s.requests.(finish := Granted))
  {
    hide Leads;
    var a := Listens(s);
    var b := GoServe(a, TStart(Finish));
    var c := GoServe(b, TFinish(true));
    t := GoServe(c, TLoop);
    Then(s, a, b);
    Then(s, b, c);
    Then(s, c, t);
  }

  lemma AnswersRescue(s: State) returns (t: State)
    requires Listening(s) && s.requests.rescue == Pending && s.targetGuest == Running && HoldsNone(s.vols, SRC)
    ensures Leads(Next, s, t)
    ensures SameButLocks(s.(tpc := TLooping, requests := s.requests.(rescue := Granted)), t)
  {
    hide Leads;
    var a := Listens(s);
    var b := GoServe(a, TStart(Rescue));
    var c := GoServe(b, TRescue(Some(true)));
    var d := TargetLocksAll(c);
    t := GoServe(d, TLockDone);
    Then(s, a, b);
    Then(s, b, c);
    Then(s, c, d);
    Then(s, d, t);
  }

  lemma AnswersDestroy(s: State) returns (t: State)
    requires Listening(s) && s.requests.destroy == Pending
    ensures Leads(Next, s, t) && HoldsNone(t.vols, TGT)
    ensures t.spc == s.spc && t.sourceGuest == s.sourceGuest && t.targetGuest == NoGuest && t.vols.Keys == s.vols.Keys
  {
    hide Leads;
    var a := Listens(s);
    var b := GoServe(a, TStart(Destroy));
    var c := GoClean(b, TKill(KillDone));
    var d := TargetUnlocksAll(c);
    t := GoClean(d, TUnlockDone);
    Then(s, a, b);
    Then(s, b, c);
    Then(s, c, d);
    Then(s, d, t);
  }

  // ------------------------------------------------------------------------------------ the handover

  /** The guest has moved: its new host runs it and has left its loop with success. */
  predicate TargetHasIt(t: State) {
    t.tpc == TEnded && t.finished == Success && t.targetGuest == Running && t.sourceGuest == NoGuest
  }

  /** `_destroy` on the source up to the end of its unlocks. */
  lemma Destroys(s: State, reason: KillReason) returns (t: State)
    requires s.spc == SKilling(reason)
    ensures Leads(Next, s, t)
    ensures SameButLocks(s.(sourceGuest := NoGuest, wire := false, spc := SDropping({}, reason)), t)
  {
    hide Leads;
    var a := GoKill(s, Kill(KillDone));
    t := SourceDropsAll(a);
    Then(s, a, t);
  }

  lemma FromMigrated(s: State) returns (t: State)
    requires s.spc == SKilling(AfterMigration) && Listening(s) && s.targetGuest == Running
    ensures Leads(Next, s, t) && t.spc == SEnded(Migrated) && TargetHasIt(t)
  {
    hide Leads;
    var a := Destroys(s, AfterMigration);
    var b := GoKill(a, DropDone);
    var c := AnswersFinish(b);
    t := GoKill(c, FinishReturns);
    Then(s, a, b);
    Then(s, b, c);
    Then(s, c, t);
  }

  lemma FromStarting(s: State) returns (t: State)
    requires s.spc == Starting && Listening(s) && s.sourceGuest == Running && s.targetGuest == Inmigrate
    ensures Leads(Next, s, t) && t.spc == SEnded(Migrated) && TargetHasIt(t)
  {
    hide Leads;
    var a := GoHandover(s, StartMigration(true, true));
    t := FromPolling(a);
    Then(s, a, t);
  }

  lemma FromPolling(s: State) returns (t: State)
    requires s.spc == Polling && Listening(s)
    requires if s.wire then s.sourceGuest == Running && s.targetGuest == Inmigrate
             else s.sourceGuest == Postmigrate && s.targetGuest == Running
    ensures Leads(Next, s, t) && t.spc == SEnded(Migrated) && TargetHasIt(t)
  {
    hide Leads;
    var a := s;
    LeadsToItself<State, Step>(Next, s);
    if s.wire {
      a := GoWorld(s, Complete);
    }
    var b := GoHandover(a, Poll(true));
    t := FromMigrated(b);
    Then(s, a, b);
    Then(s, b, t);
  }

  lemma FromWaitPrepare(s: State) returns (t: State)
    requires s.spc == WaitPrepare && Listening(s) && s.sourceGuest == Running
    requires if s.requests.prepare == Pending then s.targetGuest == NoGuest
             else s.requests.prepare == Granted && s.targetGuest == Inmigrate
    ensures Leads(Next, s, t) && t.spc == SEnded(Migrated) && TargetHasIt(t)
  {
    hide Leads;
    var a := s;
    LeadsToItself<State, Step>(Next, s);
    if s.requests.prepare == Pending {
      a := AnswersPrepare(s);
    }
    var b := GoHandover(a, PrepareReturns(true));
    t := FromStarting(b);
    Then(s, a, b);
    Then(s, b, t);
  }

  lemma FromConfiguring(s: State) returns (t: State)
    requires s.spc == Configuring && Listening(s) && s.sourceGuest == Running && s.targetGuest == NoGuest
    ensures Leads(Next, s, t) && t.spc == SEnded(Migrated) && TargetHasIt(t)
  {
    hide Leads;
    var a := GoHandover(s, Configured(true));
    t := FromWaitPrepare(a);
    Then(s, a, t);
  }

  lemma FromWaitAcquire(s: State) returns (t: State)
    requires s.spc == WaitAcquire && Listening(s) && s.sourceGuest == Running && s.targetGuest == NoGuest
    requires s.requests.acquire == Granted || (s.requests.acquire == Pending && HoldsNone(s.vols, SRC))
    ensures Leads(Next, s, t) && t.spc == SEnded(Migrated) && TargetHasIt(t)
  {
    hide Leads;
    var a := s;
    LeadsToItself<State, Step>(Next, s);
    if s.requests.acquire == Pending {
      a := AnswersAcquire(s);
    }
    var b := GoHandover(a, AcquireReturns(true));
    t := FromConfiguring(b);
    Then(s, a, b);
    Then(s, b, t);
  }

  lemma FromReleasing(s: State) returns (t: State)
    requires s.spc.Releasing? && !s.spc.failed && s.spc.todo <= s.vols.Keys
    requires Listening(s) && s.sourceGuest == Running && s.targetGuest == NoGuest
    requires forall d :: d in s.vols && d !in s.spc.todo ==> s.vols[d].owner != Some(SRC)
    ensures Leads(Next, s, t) && t.spc == SEnded(Migrated) && TargetHasIt(t)
  {
    hide Leads;
    var a := SourceReleasesAll(s);
    var b := GoHandover(a, ReleaseDone);
    t := FromWaitAcquire(b);
    Then(s, a, b);
    Then(s, b, t);
  }

  lemma FromTheStart(s: State) returns (t: State)
    requires (s.spc == Connecting || s.spc == MigLocking) && Listening(s)
    requires s.sourceGuest == Running && s.targetGuest == NoGuest
    ensures Leads(Next, s, t) && t.spc == SEnded(Migrated) && TargetHasIt(t)
  {
    hide Leads;
    var a := s;
    LeadsToItself<State, Step>(Next, s);
    if s.spc == Connecting {
      a := GoHandover(s, Connect(true));
    }
    var b := GoHandover(a, MigrationLocks(true));
    t := FromReleasing(b);
    Then(s, a, b);
    Then(s, b, t);
  }

  /** Nothing is broken yet: the source hands over, the target listens and has not refused, and the guest is
  where it should be by then. */
  predicate HandingOver(s: State) {
    && Listening(s)
    && match s.spc
       case Connecting => s.sourceGuest == Running
       case MigLocking => s.sourceGuest == Running
       case Releasing(_, failed) => !failed && s.sourceGuest == Running
       case WaitAcquire => s.requests.acquire in {Pending, Granted} && s.sourceGuest == Running
       case Configuring => s.sourceGuest == Running
       case WaitPrepare =>
         && s.sourceGuest == Running
         && (s.requests.prepare == Pending || (s.requests.prepare == Granted && s.targetGuest == Inmigrate))
       case Starting => s.sourceGuest == Running && s.targetGuest == Inmigrate
       case Polling => s.wire || (s.sourceGuest == Postmigrate && s.targetGuest == Running)
       case SKilling(AfterMigration) => s.targetGuest == Running
       case _ => false
  }

  // ---------------------------------------------------------------------- what every run keeps for it

  /** The source's loops are over volumes of the guest. */
  predicate TodoInv(s: State) {
    (s.spc.Releasing? || s.spc.Relocking? || s.spc.SDropping?) ==> s.spc.todo <= s.vols.Keys
  }

  lemma HandoverKeepsTodo(s: State, e: Step)
    requires TodoInv(s) && HandoverEnabled(s, e)
    ensures TodoInv(HandoverApply(s, e))
  {
    hide LockStep, UnlockStep, Robs, TakesUnseen;
  }

  lemma RescueKeepsTodo(s: State, e: Step)
    requires TodoInv(s) && RescueEnabled(s, e)
    ensures TodoInv(RescueApply(s, e))
  {
    hide LockStep, UnlockStep, Robs, TakesUnseen;
  }

  lemma KillKeepsTodo(s: State, e: Step)
    requires TodoInv(s) && KillEnabled(s, e)
    ensures TodoInv(KillApply(s, e))
  {
    hide LockStep, UnlockStep, Robs, TakesUnseen;
  }

  lemma NextKeepsTodo(s: State, e: Step, t: State)
    requires TodoInv(s) && Next(s, e, t)
    ensures TodoInv(t)
  {
    hide TodoInv;
    if HandoverEnabled(s, e) {
      HandoverKeepsTodo(s, e);
    } else if RescueEnabled(s, e) {
      RescueKeepsTodo(s, e);
    } else if KillEnabled(s, e) {
      KillKeepsTodo(s, e);
    } else {
      MigrationWorld.OthersKeepSource(s, e);
      OthersKeepTodo(s, t);
    }
  }

  lemma OthersKeepTodo(s: State, t: State)
    requires TodoInv(s) && t.spc == s.spc && MigrationWorld.NoneGained(s.vols, t.vols, SRC)
    ensures TodoInv(t)
  {
  }

  lemma {:induction false} RunKeepsTodo(states: seq<State>, steps: seq<Step>, i: nat)
    requires IsRun(states, steps) && i < |states|
    ensures TodoInv(states[i])
  {
    if i > 0 {
      RunKeepsTodo(states, steps, i - 1);
      NextKeepsTodo(states[i - 1], steps[i - 1], states[i]);
    }
  }

  predicate NothingPrepared(s: State) {
    var pc := s.spc;
    || pc.Connecting? || pc.MigLocking? || pc.Releasing? || pc.WaitAcquire? || pc.Configuring?
    || (pc.WaitPrepare? && s.requests.prepare == Pending)
  }

  /** What the invariant says about a handover under way. */
  lemma HandingOverInv(s: State)
    requires Inv(s) && HandingOver(s)
    ensures NothingPrepared(s) ==> s.targetGuest == NoGuest
    ensures s.spc.Releasing? ==> forall d :: d in s.vols && d !in s.spc.todo ==> s.vols[d].owner != Some(SRC)
    ensures s.spc.WaitAcquire? ==> HoldsNone(s.vols, SRC)
    ensures s.wire ==> s.sourceGuest == Running && s.targetGuest == Inmigrate
  {
    hide HandoverInv, SourceInv, EndInv, VerdictInv, RequestInv, BegunInv;
  }

  lemma Hands(s: State) returns (t: State)
    requires Inv(s) && TodoInv(s) && HandingOver(s)
    ensures Leads(Next, s, t) && t.spc == SEnded(Migrated) && TargetHasIt(t)
  {
    HandingOverInv(s);
    hide Leads, Inv, HoldsNone, TargetHasIt, Listening;
    match s.spc
    case Connecting => t := FromTheStart(s);
    case MigLocking => t := FromTheStart(s);
    case Releasing(_, _) => t := FromReleasing(s);
    case WaitAcquire => t := FromWaitAcquire(s);
    case Configuring => t := FromConfiguring(s);
    case WaitPrepare => t := FromWaitPrepare(s);
    case Starting => t := FromStarting(s);
    case Polling => t := FromPolling(s);
    case SKilling(_) => t := FromMigrated(s);
  }

  /** A migration can always succeed as long as nothing has gone wrong: from every reachable state in which the
  source hands over and nothing is broken yet, some continuation ends with exit code 0 on the source and the
  target's server, and the target running the guest. */
  lemma HandoverCanSucceed(states: seq<State>, steps: seq<Step>, i: nat)
    requires IsRun(states, steps) && i < |states| && HandingOver(states[i])
    ensures exists t :: Leads(Next, states[i], t) && t.spc == SEnded(Migrated) && TargetHasIt(t)
  {
    hide IsRun, Leads, Inv, TodoInv, HandingOver, TargetHasIt;
    RunKeepsInv(states, steps, i);
    RunKeepsTodo(states, steps, i);
    var t := Hands(states[i]);
  }

  // -------------------------------------------------------------------------------------- the rescue

  lemma FromConfirmed(s: State) returns (t: State)
    requires s.spc == SKilling(AfterRemoteRescue) && s.targetGuest == Running
    requires s.finished == Success && (s.tpc == TLooping || s.tpc == TEnded)
    ensures Leads(Next, s, t) && t.spc == SEnded(RescuedRemotely) && TargetHasIt(t)
  {
    hide Leads;
    var a := Destroys(s, AfterRemoteRescue);
    var b := GoKill(a, DropDone);
    Then(s, a, b);
    t := b;
    if b.tpc == TLooping {
      t := GoServe(b, TLoop);
      Then(s, b, t);
    }
  }

  lemma FromWaitRescueFinish(s: State) returns (t: State)
    requires s.spc == WaitRescueFinish && s.targetGuest == Running
    requires || (s.requests.finish == Pending && Listening(s))
             || (s.requests.finish == Granted && s.finished == Success && (s.tpc == TLooping || s.tpc == TEnded))
    ensures Leads(Next, s, t) && t.spc == SEnded(RescuedRemotely) && TargetHasIt(t)
  {
    hide Leads;
    var a := s;
    LeadsToItself<State, Step>(Next, s);
    if s.requests.finish == Pending {
      a := AnswersFinish(s);
    }
    var b := GoRescue(a, RescueFinishReturns(true));
    t := FromConfirmed(b);
    Then(s, a, b);
    Then(s, b, t);
  }

  lemma FromWaitRescue(s: State) returns (t: State)
    requires s.spc == WaitRescue && s.targetGuest == Running && Listening(s)
    requires s.requests.rescue == Granted || (s.requests.rescue == Pending && HoldsNone(s.vols, SRC))
    ensures Leads(Next, s, t) && t.spc == SEnded(RescuedRemotely) && TargetHasIt(t)
  {
    hide Leads;
    var a := s;
    LeadsToItself<State, Step>(Next, s);
    if s.requests.rescue == Pending {
      a := AnswersRescue(s);
    }
    var b := GoRescue(a, RescueReturns(true));
    t := FromWaitRescueFinish(b);
    Then(s, a, b);
    Then(s, b, t);
  }

  lemma FromRescuing(s: State) returns (t: State)
    requires s.spc == Rescuing && s.targetGuest == Running && Listening(s) && HoldsNone(s.vols, SRC)
    ensures Leads(Next, s, t) && t.spc == SEnded(RescuedRemotely) && TargetHasIt(t)
  {
    hide Leads;
    var a := GoRescue(s, AskRescue);
    t := FromWaitRescue(a);
    Then(s, a, t);
  }

  /** The target runs the guest and the source is in the remote rescue: about to ask for it, or with the
  answer granted or still open, or confirming, or destroying its own after that. While something is to be
  asked or answered, the target listens. */
  predicate Rescuable(s: State) {
    && s.targetGuest == Running
    && match s.spc
       case Rescuing => Listening(s)
       case WaitRescue => Listening(s) && s.requests.rescue in {Pending, Granted}
       case WaitRescueFinish => s.requests.finish == Granted || (s.requests.finish == Pending && Listening(s))
       case SKilling(AfterRemoteRescue) => true
       case _ => false
  }

  lemma RescuableInv(s: State)
    requires Inv(s) && Rescuable(s)
    ensures HoldsNone(s.vols, SRC)
    ensures s.spc == SKilling(AfterRemoteRescue) || s.requests.finish == Granted ==>
              s.finished == Success && (s.tpc == TLooping || s.tpc == TEnded)
  {
    hide HandoverInv, SourceInv, EndInv, RequestInv;
  }

  lemma Rescues(s: State) returns (t: State)
    requires Inv(s) && Rescuable(s)
    ensures Leads(Next, s, t) && t.spc == SEnded(RescuedRemotely) && TargetHasIt(t)
  {
    RescuableInv(s);
    hide Leads, Inv, HoldsNone, TargetHasIt, Listening;
    match s.spc
    case Rescuing => t := FromRescuing(s);
    case WaitRescue => t := FromWaitRescue(s);
    case WaitRescueFinish => t := FromWaitRescueFinish(s);
    case SKilling(_) => t := FromConfirmed(s);
  }

  /** A guest that has arrived can always be kept, whatever made the source doubt it: from every reachable
  state of the remote rescue with the target running the guest, its rescue granted or still to be asked for,
  some continuation ends with exit code 0 on both sides and the target running the guest. */
  lemma RescueCanKeepTheGuest(states: seq<State>, steps: seq<Step>, i: nat)
    requires IsRun(states, steps) && i < |states| && Rescuable(states[i])
    ensures exists t :: Leads(Next, states[i], t) && t.spc == SEnded(RescuedRemotely) && TargetHasIt(t)
  {
    hide IsRun, Leads, Inv, Rescuable, TargetHasIt;
    RunKeepsInv(states, steps, i);
    var t := Rescues(states[i]);
  }

  /** The source runs the guest and takes its locks back, or is about to once the target has destroyed. */
  predicate RescuableLocally(s: State) {
    && s.sourceGuest == Running
    && match s.spc
       case WaitDestroy => Listening(s) && s.requests.destroy == Pending
       case Relocking(todo) => forall d :: d in todo && d in s.vols ==> s.vols[d].owner != Some(TGT)
       case Checking => true
       case _ => false
  }

  lemma FromRelocking(s: State) returns (t: State)
    requires s.spc.Relocking? && s.spc.todo <= s.vols.Keys && s.sourceGuest == Running
    requires forall d :: d in s.spc.todo ==> s.vols[d].owner != Some(TGT)
    ensures Leads(Next, s, t) && t.spc == SEnded(ContinuedLocally) && t.sourceGuest == Running
    ensures t.vols.Keys == s.vols.Keys && forall d :: d in s.spc.todo ==> t.vols[d].owner == Some(SRC)
  {
    hide Leads;
    var a := SourceLocksAll(s);
    var b := GoRescue(a, RelockDone);
    t := GoRescue(b, Check(true));
    Then(s, a, b);
    Then(s, b, t);
  }

  lemma FromWaitDestroy(s: State) returns (t: State)
    requires s.spc == WaitDestroy && s.requests.destroy == Pending && Listening(s) && s.sourceGuest == Running
    ensures Leads(Next, s, t) && t.spc == SEnded(ContinuedLocally) && t.sourceGuest == Running
    ensures Holds(t.vols, SRC)
  {
    hide Leads;
    var a := AnswersDestroy(s);
    var b := GoRescue(a, DestroyReturns);
    t := FromRelocking(b);
    Then(s, a, b);
    Then(s, b, t);
  }

  /** A source whose guest still runs can always go on: from every reachable state in which it takes its locks
  back from a target that has none of them, or waits for a target that listens to destroy, some continuation
  ends with the guest running on the source, in the latter case under all of its locks. */
  lemma SourceCanGoOn(states: seq<State>, steps: seq<Step>, i: nat)
    requires IsRun(states, steps) && i < |states| && RescuableLocally(states[i])
    ensures exists t :: Leads(Next, states[i], t) && t.spc == SEnded(ContinuedLocally) && t.sourceGuest == Running
                        && (states[i].spc == WaitDestroy ==> Holds(t.vols, SRC))
  {
    RunKeepsTodo(states, steps, i);
    hide IsRun, Leads, Holds, Listening;
    var s := states[i];
    match s.spc
    case WaitDestroy =>
      var t := FromWaitDestroy(s);
    case Relocking(_) =>
      var t := FromRelocking(s);
    case Checking =>
      var t := GoRescue(s, Check(true));
  }

  // ------------------------------------------------------------------------------------ to the end

  /** How far the source is from its end if everything fails from now on. */
  function SourceDistance(pc: SourcePc): nat {
    match pc
    case SEnded(_) => 0
    case WaitFinish => 1
    case SKilling(_) => 2
    case SDropping(todo, _) => 2 + |todo|
    case Checking => 3
    case Relocking(_) => 4
    case WaitDestroy => 5
    case WaitRescue => 6
    case WaitRescueFinish => 6
    case Rescuing => 7
    case Connecting => 5
    case Releasing(todo, _) => 9 + |todo|
    case _ => 8
  }

  lemma ReleaseGoesOn(s: State) returns (t: State)
    requires TodoInv(s) && s.spc.Releasing?
    ensures Leads(Next, s, t) && SourceDistance(t.spc) < SourceDistance(s.spc)
  {
    hide Leads;
    if s.spc.todo == {} {
      t := GoHandover(s, ReleaseDone);
    } else {
      var d :| d in s.spc.todo;
      t := GoHandover(s, Release(d, UnlockRaised, s.vols[d]));
    }
  }

  lemma DropGoesOn(s: State) returns (t: State)
    requires TodoInv(s) && s.spc.SDropping?
    ensures Leads(Next, s, t) && SourceDistance(t.spc) < SourceDistance(s.spc)
  {
    hide Leads;
    if s.spc.todo == {} {
      t := GoKill(s, DropDone);
    } else {
      var d :| d in s.spc.todo;
      t := GoKill(s, Drop(d, UnlockRaised, s.vols[d]));
    }
  }

  lemma HandoverFailsOn(s: State) returns (t: State)
    requires TodoInv(s)
    requires || s.spc.Connecting? || s.spc.MigLocking? || s.spc.WaitCancel? || s.spc.Releasing? || s.spc.WaitAcquire?
             || s.spc.Configuring? || s.spc.WaitPrepare? || s.spc.Starting? || s.spc.Polling?
    ensures Leads(Next, s, t) && SourceDistance(t.spc) < SourceDistance(s.spc)
  {
    hide Leads;
    match s.spc
    case Connecting => t := GoHandover(s, Connect(false));
    case MigLocking => t := GoHandover(s, MigrationLocks(false));
    case WaitCancel => t := GoHandover(s, CancelReturns);
    case Releasing(todo, _) =>
      t := ReleaseGoesOn(s);
    case WaitAcquire => t := GoHandover(s, AcquireReturns(false));
    case Configuring => t := GoHandover(s, Configured(false));
    case WaitPrepare => t := GoHandover(s, PrepareReturns(false));
    case Starting => t := GoHandover(s, StartMigration(false, false));
    case Polling => t := GoHandover(s, Poll(false));
  }

  lemma RescueFailsOn(s: State) returns (t: State)
    requires TodoInv(s)
    requires || s.spc.Rescuing? || s.spc.WaitRescue? || s.spc.WaitRescueFinish? || s.spc.WaitDestroy?
             || s.spc.Relocking? || s.spc.Checking?
    ensures Leads(Next, s, t) && SourceDistance(t.spc) < SourceDistance(s.spc)
  {
    hide Leads;
    match s.spc
    case Rescuing => t := GoRescue(s, AskRescue);
    case WaitRescue => t := GoRescue(s, RescueReturns(false));
    case WaitRescueFinish => t := GoRescue(s, RescueFinishReturns(false));
    case WaitDestroy => t := GoRescue(s, DestroyReturns);
    case Relocking(todo) =>
      if todo == {} {
        t := GoRescue(s, RelockDone);
      } else {
        var d :| d in todo;
        t := GoRescue(s, Relock(d, LockRaised, s.vols[d]));
      }
    case Checking => t := GoRescue(s, Check(false));
  }

  lemma DestroyGoesOn(s: State) returns (t: State)
    requires TodoInv(s) && (s.spc.SKilling? || s.spc.SDropping? || s.spc.WaitFinish?)
    ensures Leads(Next, s, t) && SourceDistance(t.spc) < SourceDistance(s.spc)
  {
    hide Leads;
    match s.spc
    case SKilling(_) => t := GoKill(s, Kill(KillTimesOut));
    case SDropping(todo, _) =>
      t := DropGoesOn(s);
    case WaitFinish => t := GoKill(s, FinishReturns);
  }

  /** A continuation in which everything fails, and in which only the source acts. */
  lemma {:induction false} SourceEnds(s: State) returns (t: State)
    requires TodoInv(s)
    ensures Leads(Next, s, t) && t.spc.SEnded?
    decreases SourceDistance(s.spc)
  {
    hide Leads, TodoInv;
    if s.spc.SEnded? {
      t := s;
      LeadsToItself<State, Step>(Next, s);
    } else {
      var a := SourceComesCloser(s);
      t := SourceEnds(a);
      Then(s, a, t);
    }
  }

  lemma SourceComesCloser(s: State) returns (t: State)
    requires TodoInv(s) && !s.spc.SEnded?
    ensures Leads(Next, s, t) && SourceDistance(t.spc) < SourceDistance(s.spc) && TodoInv(t)
  {
    hide SourceDistance, TodoInv;
    if s.spc.SKilling? || s.spc.SDropping? || s.spc.WaitFinish? {
      t := DestroyGoesOn(s);
    } else if s.spc.Rescuing? || s.spc.WaitRescue? || s.spc.WaitRescueFinish? || s.spc.WaitDestroy?
              || s.spc.Relocking? || s.spc.Checking? {
      t := RescueFailsOn(s);
    } else {
      t := HandoverFailsOn(s);
    }
    LeadsKeepsTodo(s, t);
  }

  lemma LeadsKeepsTodo(s: State, t: State)
    requires TodoInv(s) && Leads(Next, s, t)
    ensures TodoInv(t)
  {
    var states: seq<State>, steps: seq<Step> :| IsPath(Next, states, steps) && states[0] == s && states[|steps|] == t;
    PathKeepsTodo(states, steps, |steps|);
  }

  lemma {:induction false} PathKeepsTodo(states: seq<State>, steps: seq<Step>, i: nat)
    requires IsPath(Next, states, steps) && i < |states| && TodoInv(states[0])
    ensures TodoInv(states[i])
  {
    if i > 0 {
      PathKeepsTodo(states, steps, i - 1);
      NextKeepsTodo(states[i - 1], steps[i - 1], states[i]);
    }
  }

  /** The target's loops are over volumes of the guest. */
  predicate ServerTodoInv(s: State) {
    (s.tpc.TLocking? || s.tpc.TUnlocking?) ==> s.tpc.todo <= s.vols.Keys
  }

  lemma ServeKeepsServerTodo(s: State, e: Step)
    requires ServerTodoInv(s) && ServeEnabled(s, e)
    ensures ServerTodoInv(ServeApply(s, e))
  {
    hide LockStep, UnlockStep, Robs, TakesUnseen;
  }

  lemma CleanKeepsServerTodo(s: State, e: Step)
    requires ServerTodoInv(s) && CleanEnabled(s, e)
    ensures ServerTodoInv(CleanApply(s, e))
  {
    hide LockStep, UnlockStep, Robs, TakesUnseen;
  }

  lemma ClientsKeepServerTodo(s: State, t: State)
    requires ServerTodoInv(s) && t.tpc == s.tpc && MigrationWorld.NoneGained(s.vols, t.vols, TGT)
    ensures ServerTodoInv(t)
  {
  }

  lemma NextKeepsServerTodo(s: State, e: Step, t: State)
    requires ServerTodoInv(s) && Next(s, e, t)
    ensures ServerTodoInv(t)
  {
    hide ServerTodoInv;
    if SourceEnabled(s, e) || WorldEnabled(s, e) {
      MigrationWorld.ClientsKeepServer(s, e);
      ClientsKeepServerTodo(s, t);
    } else if ServeEnabled(s, e) {
      ServeKeepsServerTodo(s, e);
    } else {
      CleanKeepsServerTodo(s, e);
    }
  }

  lemma {:induction false} RunKeepsServerTodo(states: seq<State>, steps: seq<Step>, i: nat)
    requires IsRun(states, steps) && i < |states|
    ensures ServerTodoInv(states[i])
  {
    if i > 0 {
      RunKeepsServerTodo(states, steps, i - 1);
      NextKeepsServerTodo(states[i - 1], steps[i - 1], states[i]);
    }
  }

  /** How far the target is from its end if everything fails from now on, and nothing more arrives. */
  function ServerDistance(s: State): nat {
    match s.tpc
    case TEnded => 0
    case TUnlocking(todo, reason) => if reason == ForEnd then 1 else 4 + |todo|
    case TKilling(onRequest) => if onRequest == None then 1 else 4
    case Serving => 2
    case TLooping => 3
    case TPreparing => 5 + |s.vols.Keys|
    case TLocking(_, _) => 5
    case _ => 4
  }

  lemma HandlerGoesOn(s: State) returns (t: State)
    requires ServerTodoInv(s)
    requires s.tpc.Serving? || s.tpc.TLooping? || s.tpc.TPreparing? || s.tpc.TRescuing? || s.tpc.TFinishing?
    ensures Leads(Next, s, t) && ServerDistance(t) < ServerDistance(s) && ServerTodoInv(t) && t.spc == s.spc
  {
    hide Leads;
    match s.tpc
    case Serving => t := GoServe(s, TExpire);
    case TLooping => t := GoServe(s, TLoop);
    case TPreparing => t := GoServe(s, TPrepare(false, false));
    case TRescuing => t := GoServe(s, TRescue(None));
    case TFinishing => t := GoServe(s, TFinish(false));
  }

  lemma LockingGoesOn(s: State) returns (t: State)
    requires ServerTodoInv(s) && s.tpc.TLocking?
    ensures Leads(Next, s, t) && ServerDistance(t) < ServerDistance(s) && ServerTodoInv(t) && t.spc == s.spc
  {
    hide Leads;
    if s.tpc.todo == {} {
      t := GoServe(s, TLockDone);
    } else {
      var d :| d in s.tpc.todo;
      t := GoServe(s, TLock(d, LockRaised, s.vols[d]));
    }
  }

  lemma KillingGoesOn(s: State) returns (t: State)
    requires ServerTodoInv(s) && s.tpc.TKilling?
    ensures Leads(Next, s, t) && ServerDistance(t) < ServerDistance(s) && ServerTodoInv(t) && t.spc == s.spc
  {
    hide Leads;
    t := GoClean(s, TKill(KillTimesOut));
  }

  lemma UnlockingOneGoesOn(s: State) returns (t: State)
    requires ServerTodoInv(s) && s.tpc.TUnlocking? && s.tpc.reason != ForEnd && s.tpc.todo != {}
    ensures Leads(Next, s, t) && ServerDistance(t) < ServerDistance(s) && ServerTodoInv(t) && t.spc == s.spc
  {
    hide Leads;
    var d :| d in s.tpc.todo;
    t := GoClean(s, TUnlock(d, UnlockRaised, s.vols[d]));
  }

  lemma UnlockingGoesOn(s: State) returns (t: State)
    requires ServerTodoInv(s) && s.tpc.TUnlocking?
    ensures Leads(Next, s, t) && ServerDistance(t) < ServerDistance(s) && ServerTodoInv(t) && t.spc == s.spc
  {
    hide Leads;
    if s.tpc.reason == ForEnd {
      t := GoClean(s, TLeave);
    } else if s.tpc.todo == {} {
      t := GoClean(s, TUnlockDone);
    } else {
      t := UnlockingOneGoesOn(s);
    }
  }

  lemma {:induction false} ServerEnds(s: State) returns (t: State)
    requires ServerTodoInv(s)
    ensures Leads(Next, s, t) && t.tpc == TEnded && t.spc == s.spc
    decreases ServerDistance(s)
  {
    hide Leads, ServerTodoInv, ServerDistance;
    if s.tpc == TEnded {
      t := s;
      LeadsToItself<State, Step>(Next, s);
    } else {
      var a: State;
      if s.tpc.TLocking? {
        a := LockingGoesOn(s);
      } else if s.tpc.TKilling? {
        a := KillingGoesOn(s);
      } else if s.tpc.TUnlocking? {
        a := UnlockingGoesOn(s);
      } else {
        a := HandlerGoesOn(s);
      }
      t := ServerEnds(a);
      Then(s, a, t);
    }
  }

  /** Nothing gets stuck: from every reachable state, whatever has gone wrong and even if everything fails from
  then on, some continuation ends both the source's call and the target's server. */
  lemma BothCanEnd(states: seq<State>, steps: seq<Step>, i: nat)
    requires IsRun(states, steps) && i < |states|
    ensures exists t :: Leads(Next, states[i], t) && t.spc.SEnded? && t.tpc == TEnded
  {
    RunKeepsTodo(states, steps, i);
    RunKeepsServerTodo(states, steps, i);
    hide IsRun, Leads, TodoInv, ServerTodoInv;
    var a := SourceEnds(states[i]);
    LeadsKeepsServerTodo(states[i], a);
    var t := ServerEnds(a);
    Then(states[i], a, t);
  }

  lemma LeadsKeepsServerTodo(s: State, t: State)
    requires ServerTodoInv(s) && Leads(Next, s, t)
    ensures ServerTodoInv(t)
  {
    var states: seq<State>, steps: seq<Step> :| IsPath(Next, states, steps) && states[0] == s && states[|steps|] == t;
    PathKeepsServerTodo(states, steps, |steps|);
  }

  lemma {:induction false} PathKeepsServerTodo(states: seq<State>, steps: seq<Step>, i: nat)
    requires IsPath(Next, states, steps) && i < |states| && ServerTodoInv(states[0])
    ensures ServerTodoInv(states[i])
  {
    if i > 0 {
      PathKeepsServerTodo(states, steps, i - 1);
      NextKeepsServerTodo(states[i - 1], steps[i - 1], states[i]);
    }
  }
}
