/** Concrete runs of the migration protocol: the happy path, and one run for each way in which a
guarantee of module `MigrationSafety` is lost once its condition is. All have one volume. */
module MigrationWitness {
  import opened Basics
  import opened VolumeLock
  import opened MigrationProtocol

  function One(owner: Option<Host>, marked: set<Host>): Volumes {
    map[Root := ImageLock(owner, marked)]
  }

  function Start(): State {
    State(One(Some(SRC), {}), {}, {}, Running, NoGuest, false, Connecting, Serving, Undecided,
          Requests(Unsent, Unsent, Unsent, Unsent, Unsent, Unsent),
          false, Faults(false, false, false, false, false))
  }

  ghost predicate Reaches(s: State, steps: seq<Step>) {
    exists states :: IsRun(states, steps) && states[|steps|] == s
  }

  lemma Begin()
    ensures Reaches(Start(), [])
  {
    assert Holds(Start().vols, SRC);
    assert Root in Start().vols;
    var states := [Start()];
    assert IsRun(states, []);
  }

  lemma Go(s: State, steps: seq<Step>, e: Step, t: State)
    requires Reaches(s, steps) && Next(s, e, t)
    ensures Reaches(t, steps + [e])
  {
    var states :| IsRun(states, steps) && states[|steps|] == s;
    var states', steps' := states + [t], steps + [e];
    assert states'[|steps'|] == t;
    assert forall i :: 0 <= i < |steps'| ==> Next(states'[i], steps'[i], states'[i + 1]);
    assert IsRun(states', steps');
  }

  // One more step of each kind.

  lemma GoHandover(s: State, steps: seq<Step>, e: Step) returns (t: State, steps': seq<Step>)
    requires Reaches(s, steps) && HandoverEnabled(s, e)
    ensures t == HandoverApply(s, e) && Reaches(t, steps') && steps' == steps + [e]
  {
    t, steps' := HandoverApply(s, e), steps + [e];
    Go(s, steps, e, t);
  }

  lemma GoRescue(s: State, steps: seq<Step>, e: Step) returns (t: State, steps': seq<Step>)
    requires Reaches(s, steps) && RescueEnabled(s, e)
    ensures t == RescueApply(s, e) && Reaches(t, steps') && steps' == steps + [e]
  {
    t, steps' := RescueApply(s, e), steps + [e];
    Go(s, steps, e, t);
  }

  lemma GoKill(s: State, steps: seq<Step>, e: Step) returns (t: State, steps': seq<Step>)
    requires Reaches(s, steps) && KillEnabled(s, e)
    ensures t == KillApply(s, e) && Reaches(t, steps') && steps' == steps + [e]
  {
    t, steps' := KillApply(s, e), steps + [e];
    Go(s, steps, e, t);
  }

  lemma GoServe(s: State, steps: seq<Step>, e: Step) returns (t: State, steps': seq<Step>)
    requires Reaches(s, steps) && ServeEnabled(s, e)
    ensures t == ServeApply(s, e) && Reaches(t, steps') && steps' == steps + [e]
  {
    t, steps' := ServeApply(s, e), steps + [e];
    Go(s, steps, e, t);
  }

  lemma GoClean(s: State, steps: seq<Step>, e: Step) returns (t: State, steps': seq<Step>)
    requires Reaches(s, steps) && CleanEnabled(s, e)
    ensures t == CleanApply(s, e) && Reaches(t, steps') && steps' == steps + [e]
  {
    t, steps' := CleanApply(s, e), steps + [e];
    Go(s, steps, e, t);
  }

  lemma GoWorld(s: State, steps: seq<Step>, e: Step) returns (t: State, steps': seq<Step>)
    requires Reaches(s, steps) && WorldEnabled(s, e)
    ensures t == WorldApply(s, e) && Reaches(t, steps') && steps' == steps + [e]
  {
    t, steps' := WorldApply(s, e), steps + [e];
    Go(s, steps, e, t);
  }

  /** The source has given its lock up and asks the target to take it. */
  lemma SourceReleased() returns (s: State, run: seq<Step>)
    ensures Reaches(s, run)
    ensures s == Start().(vols := One(None, {}), begun := true, spc := WaitAcquire,
                          requests := Start().requests.(acquire := Pending))
  {
    Begin();
    s, run := Start(), [];
    s, run := GoHandover(s, run, Connect(true));
    s, run := GoHandover(s, run, MigrationLocks(true));
    s, run := GoHandover(s, run, Release(Root, Released, ImageLock(None, {})));
    assert {Root} - {Root} == {};
    s, run := GoHandover(s, run, ReleaseDone);
  }

  /** The target holds the lock and has answered so. */
  lemma TargetLocked() returns (s: State, run: seq<Step>)
    ensures Reaches(s, run)
    ensures s == Start().(vols := One(Some(TGT), {TGT}), begun := true, spc := WaitAcquire,
                          requests := Start().requests.(acquire := Granted))
  {
    hide Reaches;
    s, run := SourceReleased();
    s, run := GoServe(s, run, TStart(AcquireLocks));
    assert {} + {TGT} == {TGT};
    s, run := GoServe(s, run, TLock(Root, Acquired, ImageLock(Some(TGT), {TGT})));
    s, run := GoServe(s, run, TLockDone);
    s, run := GoServe(s, run, TLoop);
  }

  /** The target works on its in-migration. */
  lemma TargetPreparing() returns (s: State, run: seq<Step>)
    ensures Reaches(s, run)
    ensures s == Start().(vols := One(Some(TGT), {TGT}), begun := true, spc := WaitPrepare, tpc := TPreparing,
                          requests := Start().requests.(acquire := Granted, prepare := InHand))
  {
    hide Reaches;
    s, run := TargetLocked();
    s, run := GoHandover(s, run, AcquireReturns(true));
    s, run := GoHandover(s, run, Configured(true));
    s, run := GoServe(s, run, TStart(Prepare));
  }

  /** The target's qemu waits for the guest, and the source knows. */
  lemma TargetPrepared() returns (s: State, run: seq<Step>)
    ensures Reaches(s, run)
    ensures s == Start().(vols := One(Some(TGT), {TGT}), begun := true, spc := Starting,
                          targetGuest := Inmigrate,
                          requests := Start().requests.(acquire := Granted, prepare := Granted))
  {
    hide Reaches;
    s, run := TargetPreparing();
    s, run := GoServe(s, run, TPrepare(true, true));
    s, run := GoServe(s, run, TLoop);
    s, run := GoHandover(s, run, PrepareReturns(true));
  }

  /** An in-migration that fails after its qemu came up gives the target's locks up with that qemu there. */
  lemma FailedPrepareFreesUnderGuest() returns (s: State, run: seq<Step>)
    ensures Reaches(s, run) && s.faults == Start().faults
    ensures s.targetGuest == Inmigrate && HoldsNone(s.vols, TGT)
  {
    hide Reaches;
    s, run := TargetPreparing();
    s, run := GoServe(s, run, TPrepare(false, true));
    s, run := GoClean(s, run, TUnlock(Root, Released, ImageLock(None, {})));
  }

  /** The guest was handed over and the source has cleaned up. */
  lemma HandedOver() returns (s: State, run: seq<Step>)
    ensures Reaches(s, run)
    ensures s == Start().(vols := One(Some(TGT), {TGT}), begun := true, spc := WaitFinish,
                          sourceGuest := NoGuest, targetGuest := Running,
                          requests := Start().requests.(acquire := Granted, prepare := Granted, finish := Pending))
  {
    hide Reaches;
    s, run := TargetPrepared();
    s, run := GoHandover(s, run, StartMigration(true, true));
    s, run := GoWorld(s, run, Complete);
    s, run := GoHandover(s, run, Poll(true));
    s, run := GoKill(s, run, Kill(KillDone));
    s, run := GoKill(s, run, Drop(Root, Skipped, ImageLock(Some(TGT), {TGT})));
    assert {Root} - {Root} == {};
    s, run := GoKill(s, run, DropDone);
  }

  lemma GuestAccepted() returns (s: State, run: seq<Step>)
    ensures Reaches(s, run)
    ensures s == Start().(vols := One(Some(TGT), {TGT}), begun := true, spc := WaitFinish, tpc := TLooping,
                          finished := Success, sourceGuest := NoGuest, targetGuest := Running,
                          requests := Start().requests.(acquire := Granted, prepare := Granted, finish := Granted))
  {
    hide Reaches;
    s, run := HandedOver();
    s, run := GoServe(s, run, TStart(Finish));
    s, run := GoServe(s, run, TFinish(true));
  }

  lemma HappyPath() returns (s: State, run: seq<Step>)
    ensures Reaches(s, run) && s.spc == SEnded(Migrated) && s.tpc == TEnded
    ensures s.targetGuest == Running && s.sourceGuest == NoGuest && Holds(s.vols, TGT)
  {
    hide Reaches;
    s, run := GuestAccepted();
    s, run := GoKill(s, run, FinishReturns);
    s, run := GoServe(s, run, TLoop);
  }

  /** The request `finish_incoming` is lost: the source reports success, the target's server runs out
  of time and destroys the guest, which now runs nowhere; nothing else went wrong. */
  lemma LostFinishLosesGuest() returns (s: State, run: seq<Step>)
    ensures Reaches(s, run) && s.spc == SEnded(Migrated)
    ensures s.targetGuest == NoGuest && s.sourceGuest == NoGuest && s.faults == Start().faults
  {
    hide Reaches;
    s, run := HandedOver();
    s, run := GoKill(s, run, FinishReturns);
    s, run := GoServe(s, run, TExpire);
    s, run := GoClean(s, run, TKill(KillDone));
  }

  /** The source lost the target's answer and asks for a rescue. */
  lemma RescueAsked() returns (s: State, run: seq<Step>)
    ensures Reaches(s, run)
    ensures s == Start().(vols := One(Some(TGT), {TGT}), begun := true, spc := WaitRescue, tpc := TRescuing,
                          requests := Start().requests.(acquire := Granted, rescue := InHand))
  {
    hide Reaches;
    s, run := TargetLocked();
    s, run := GoHandover(s, run, AcquireReturns(false));
    s, run := GoRescue(s, run, AskRescue);
    s, run := GoServe(s, run, TStart(Rescue));
  }

  /** The target releases its lock for a rescue that cannot succeed, and is told that it failed to. */
  lemma RescueUnlocked() returns (s: State, run: seq<Step>)
    ensures Reaches(s, run)
    ensures s == Start().(vols := One(None, {TGT}), begun := true, spc := WaitRescue,
                          tpc := TUnlocking({}, ForRequest(Rescue)), faults := Start().faults.(staleFlag := true),
                          requests := Start().requests.(acquire := Granted, rescue := InHand))
  {
    hide Reaches;
    s, run := RescueAsked();
    s, run := GoServe(s, run, TRescue(Some(false)));
    assert s.vols.Keys == {Root};
    s, run := GoClean(s, run, TUnlock(Root, ReplyLost, ImageLock(None, {TGT})));
    assert {Root} - {Root} == {};
    assert s.vols == One(None, {TGT});
  }

  /** The rescue ends, and the source asks for the target's destruction. */
  lemma RescueFailedTwice() returns (s: State, run: seq<Step>)
    ensures Reaches(s, run)
    ensures s == Start().(vols := One(None, {TGT}), begun := true, spc := WaitDestroy,
                          faults := Start().faults.(staleFlag := true),
                          requests := Start().requests.(acquire := Granted, rescue := Failed, destroy := Pending))
  {
    hide Reaches;
    s, run := RescueUnlocked();
    s, run := GoClean(s, run, TUnlockDone);
    s, run := GoServe(s, run, TLoop);
    s, run := GoRescue(s, run, RescueReturns(false));
  }

  /** The source has taken its lock back and gone on, with the request to destroy still on its way. */
  lemma ContinuedBeforeDestroy() returns (s: State, run: seq<Step>)
    ensures Reaches(s, run)
    ensures s == Start().(vols := One(Some(SRC), {SRC, TGT}), begun := true, spc := SEnded(ContinuedLocally),
                          faults := Start().faults.(staleFlag := true),
                          requests := Start().requests.(acquire := Granted, rescue := Failed, destroy := Pending))
  {
    hide Reaches;
    s, run := RescueFailedTwice();
    s, run := GoRescue(s, run, DestroyReturns);
    assert {TGT} + {SRC} == {SRC, TGT};
    s, run := GoRescue(s, run, Relock(Root, Acquired, ImageLock(Some(SRC), {SRC, TGT})));
    assert {Root} - {Root} == {};
    s, run := GoRescue(s, run, RelockDone);
    s, run := GoRescue(s, run, Check(true));
  }

  /** A lost `lock rm` reply on the target, then a late `destroy`: the source went on with its guest
  under its own lock, and the target's stale flag takes that lock away. */
  lemma StaleFlagUnlocksRunningSource() returns (s: State, run: seq<Step>)
    ensures Reaches(s, run) && s.spc == SEnded(ContinuedLocally)
    ensures s.sourceGuest == Running && !Holds(s.vols, SRC) && s.lostBySource == {Root}
    ensures !s.faults.sourceDestroy && !s.faults.sourceLocal
  {
    hide Reaches;
    s, run := ContinuedBeforeDestroy();
    s, run := GoServe(s, run, TStart(Destroy));
    s, run := GoClean(s, run, TKill(KillDone));
    assert {SRC, TGT} - {TGT} == {SRC};
    s, run := GoClean(s, run, TUnlock(Root, Released, ImageLock(None, {SRC})));
    assert Root in s.vols && s.vols[Root].owner == None;
  }

  /** The source gave its lock up, heard from no request, and is about to lock again. */
  lemma NothingHeard() returns (s: State, run: seq<Step>)
    ensures Reaches(s, run)
    ensures s == Start().(vols := One(None, {}), begun := true, spc := Relocking({Root}),
                          requests := Start().requests.(acquire := Pending, rescue := Pending, destroy := Pending))
  {
    hide Reaches;
    s, run := SourceReleased();
    s, run := GoHandover(s, run, AcquireReturns(false));
    s, run := GoRescue(s, run, AskRescue);
    s, run := GoRescue(s, run, RescueReturns(false));
    s, run := GoRescue(s, run, DestroyReturns);
    assert s.vols == One(None, {}) && s.vols.Keys == {Root};
  }

  /** `_destroy` running out of its budget on the source: the call ends, the guest runs on, and its
  volume is another host's. */
  lemma FailedDestroyLeavesUnlockedGuest() returns (s: State, run: seq<Step>)
    ensures Reaches(s, run) && s.spc == SEnded(DestroyedLocally)
    ensures s.sourceGuest == Running && Holds(s.vols, 2) && !s.faults.staleFlag
  {
    hide Reaches;
    s, run := NothingHeard();
    assert {} + {2} == {2};
    s, run := GoWorld(s, run, OtherLocks(2, Root, Acquired, ImageLock(Some(2), {2})));
    s, run := GoRescue(s, run, Relock(Root, LockRaised, ImageLock(Some(2), {2})));
    s, run := GoKill(s, run, Kill(KillTimesOut));
  }

  /** No target was ever found, the source held its lock all along, and one failing command while
  relocking costs it its running guest. */
  lemma LocalFailureDestroysSource() returns (s: State, run: seq<Step>)
    ensures Reaches(s, run) && s.spc == SEnded(DestroyedLocally) && !s.begun
    ensures s.sourceGuest == NoGuest && !s.faults.staleFlag && !s.faults.sourceDestroy
  {
    Begin();
    s, run := Start(), [];
    s, run := GoHandover(s, run, Connect(false));
    s, run := GoRescue(s, run, Relock(Root, LockRaised, ImageLock(Some(SRC), {})));
    s, run := GoKill(s, run, Kill(KillDone));
    s, run := GoKill(s, run, Drop(Root, UnlockRaised, ImageLock(Some(SRC), {})));
    assert {Root} - {Root} == {};
    s, run := GoKill(s, run, DropDone);
  }

  /** As `Start`, but a third host has a stale flag for the volume. */
  function Flagged(): State {
    Start().(vols := One(Some(SRC), {2}))
  }

  lemma FlaggedReleased() returns (s: State, run: seq<Step>)
    ensures Reaches(s, run)
    ensures s == Start().(vols := One(None, {2}), begun := true, spc := WaitAcquire,
                          requests := Start().requests.(acquire := Pending))
  {
    BeginFlagged();
    hide Reaches;
    s, run := Flagged(), [];
    s, run := GoHandover(s, run, Connect(true));
    s, run := GoHandover(s, run, MigrationLocks(true));
    assert {2} - {SRC} == {2};
    s, run := GoHandover(s, run, Release(Root, Released, ImageLock(None, {2})));
    assert {Root} - {Root} == {};
    s, run := GoHandover(s, run, ReleaseDone);
  }

  lemma FlaggedLocked() returns (s: State, run: seq<Step>)
    ensures Reaches(s, run)
    ensures s == Start().(vols := One(Some(TGT), {2, TGT}), begun := true, spc := WaitAcquire,
                          requests := Start().requests.(acquire := Granted))
  {
    hide Reaches;
    s, run := FlaggedReleased();
    s, run := GoServe(s, run, TStart(AcquireLocks));
    assert {2} + {TGT} == {2, TGT};
    s, run := GoServe(s, run, TLock(Root, Acquired, ImageLock(Some(TGT), {2, TGT})));
    s, run := GoServe(s, run, TLockDone);
    s, run := GoServe(s, run, TLoop);
  }

  lemma BeginFlagged()
    ensures Reaches(Flagged(), [])
  {
    assert Holds(Flagged().vols, SRC);
    assert Root in Flagged().vols;
    var states := [Flagged()];
    assert IsRun(states, []);
  }

  lemma FlaggedPreparing() returns (s: State, run: seq<Step>)
    ensures Reaches(s, run)
    ensures s == Start().(vols := One(Some(TGT), {2, TGT}), begun := true, spc := WaitPrepare, tpc := TPreparing,
                          requests := Start().requests.(acquire := Granted, prepare := InHand))
  {
    hide Reaches;
    s, run := FlaggedLocked();
    s, run := GoHandover(s, run, AcquireReturns(true));
    s, run := GoHandover(s, run, Configured(true));
    s, run := GoServe(s, run, TStart(Prepare));
  }

  lemma FlaggedPrepared() returns (s: State, run: seq<Step>)
    ensures Reaches(s, run)
    ensures s == Start().(vols := One(Some(TGT), {2, TGT}), begun := true, spc := Starting,
                          targetGuest := Inmigrate,
                          requests := Start().requests.(acquire := Granted, prepare := Granted))
  {
    hide Reaches;
    s, run := FlaggedPreparing();
    s, run := GoServe(s, run, TPrepare(true, true));
    s, run := GoServe(s, run, TLoop);
    s, run := GoHandover(s, run, PrepareReturns(true));
  }

  lemma FlaggedRelocking() returns (s: State, run: seq<Step>)
    ensures Reaches(s, run)
    ensures s == Start().(vols := One(None, {TGT}), lostByTarget := {Root}, begun := true, spc := Relocking({Root}),
                          wire := true, targetGuest := Inmigrate,
                          requests := Start().requests.(acquire := Granted, prepare := Granted, rescue := Pending,
                          destroy := Pending))
  {
    hide Reaches;
    s, run := FlaggedPrepared();
    s, run := GoHandover(s, run, StartMigration(true, true));
    s, run := GoHandover(s, run, Poll(false));
    s, run := GoRescue(s, run, AskRescue);
    s, run := GoRescue(s, run, RescueReturns(false));
    s, run := GoRescue(s, run, DestroyReturns);
    assert s.vols.Keys == {Root};
    assert {2, TGT} - {2} == {TGT} && {} + {Root} == {Root};
    s, run := GoWorld(s, run, OtherUnlocks(2, Root, Released, ImageLock(None, {TGT})));
    assert s.vols == One(None, {TGT});
  }

  /** A third host's stale flag takes the target's lock while qemu still migrates: the source locks again and
  reports that it goes on, and then its guest moves to a target without any lock. */
  lemma RobbedTargetGetsTheGuest() returns (s: State, run: seq<Step>)
    ensures Reaches(s, run) && s.spc == SEnded(ContinuedLocally) && s.faults == Start().faults
    ensures s.sourceGuest == Postmigrate && s.targetGuest == Running && HoldsNone(s.vols, TGT)
  {
    hide Reaches;
    s, run := FlaggedRelocking();
    assert {TGT} + {SRC} == {SRC, TGT};
    s, run := GoRescue(s, run, Relock(Root, Acquired, ImageLock(Some(SRC), {SRC, TGT})));
    assert {Root} - {Root} == {};
    s, run := GoRescue(s, run, RelockDone);
    s, run := GoRescue(s, run, Check(true));
    s, run := GoWorld(s, run, Complete);
  }
}
