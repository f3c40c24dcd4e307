/** What every run of the migration protocol keeps, and the theorems that follow. */
module MigrationSafety {
  import opened Basics
  import opened VolumeLock
  import opened MigrationProtocol

  predicate Sent(q: Request) { q != Unsent }

  /** On the line to a completed migration, the source has sent exactly these requests. */
  predicate OnlySent(r: Requests, acquire: bool, prepare: bool) {
    && r.cancel == r.finish == r.rescue == r.destroy == Unsent
    && Sent(r.acquire) == acquire && Sent(r.prepare) == prepare
  }

  /** `_destroy` on the source, for the given reason. */
  predicate Destroying(pc: SourcePc, reason: KillReason) {
    (pc.SKilling? || pc.SDropping?) && pc.reason == reason
  }

  /** The requests sent by the time the source is at a given point. */
  predicate SentInv(s: State) {
    var r, pc := s.requests, s.spc;
    && (pc.Connecting? || pc.MigLocking? || pc.Releasing? ==> OnlySent(r, false, false))
    && (pc.WaitAcquire? || pc.Configuring? ==> OnlySent(r, true, false))
    && (pc.WaitPrepare? || pc.Starting? || pc.Polling? || Destroying(pc, AfterMigration) ==>
          OnlySent(r, true, true))
    && (pc.WaitCancel? ==> r.finish == r.rescue == r.destroy == Unsent && Sent(r.cancel))
    && (pc.Rescuing? ==> r.finish == r.rescue == r.destroy == Unsent)
    && (pc.WaitRescue? ==> r.finish == r.destroy == Unsent)
    && (pc.WaitRescueFinish? || Destroying(pc, AfterRemoteRescue) ==> r.destroy == Unsent)
    && (Sent(r.cancel) ==> !s.begun)
    && (Sent(r.acquire) || Sent(r.prepare) ==> s.begun)
    && (Sent(r.prepare) || pc.Configuring? ==> r.acquire == Granted)
    && (pc.Starting? ==> r.prepare == Granted)
    && (pc.WaitRescueFinish? || pc.WaitFinish? || Destroying(pc, AfterRemoteRescue) || Moved(pc) ==> Sent(r.prepare))
  }

  /** The call has ended and says that the guest has moved. */
  predicate Moved(pc: SourcePc) {
    pc.SEnded? && (pc.result == Migrated || pc.result == RescuedRemotely)
  }

  /** The source has passed the start of `transfer_ceph_locks` wherever it could not be otherwise. */
  predicate BegunInv(s: State) {
    var pc := s.spc;
    && (pc.Connecting? || pc.MigLocking? || pc.WaitCancel? ==> !s.begun)
    && (pc.Releasing? || pc.WaitAcquire? || pc.Configuring? || pc.WaitPrepare? || pc.Starting? || pc.Polling? ==>
          s.begun)
    && (pc.WaitRescueFinish? || pc.WaitFinish? ==> s.begun)
    && (Destroying(pc, AfterMigration) || Destroying(pc, AfterRemoteRescue) ==> s.begun)
    && (Moved(pc) ==> s.begun)
  }

  /** The request the target works on, if any, was sent and is neither open nor over. */
  predicate RequestInv(s: State) {
    var r := s.requests;
    && (r.rescue == Granted ==> Sent(r.prepare))
    && match s.tpc {
      case TLocking(_, m) => (m == AcquireLocks && r.acquire == InHand) || (m == Rescue && r.rescue == InHand && Sent(r.prepare))
      case TPreparing => r.prepare == InHand
      case TRescuing => r.rescue == InHand
      case TFinishing => r.finish == InHand
      case TKilling(Some(m)) => DestroyInHand(r, m)
      case TUnlocking(_, ForRequest(m)) => (m == Prepare && r.prepare == InHand) || (m == Rescue && r.rescue == InHand)
      case TUnlocking(_, ForCancel(_)) => r.cancel == InHand
      case TUnlocking(_, ForDestroy(m)) => DestroyInHand(r, m)
      case _ => true
    }
  }

  predicate DestroyInHand(r: Requests, m: Msg) {
    (m == Rescue && r.rescue == InHand) || (m == Destroy && r.destroy == InHand)
  }

  /** The target's guest exists only because of `Prepare`, runs only under all of the target's locks that
  nobody took from it, and is gone when the target gives locks up, except after a failed `Prepare`. */
  predicate TargetInv(s: State) {
    && (s.targetGuest == Running ==> HoldsBut(s.vols, s.lostByTarget, TGT) && s.sourceGuest != Running)
    && (s.wire ==>
          && HoldsBut(s.vols, s.lostByTarget, TGT) && s.targetGuest == Inmigrate && s.sourceGuest == Running
          && s.requests.prepare == Granted)
    && (s.targetGuest != NoGuest ==>
          && s.begun && Sent(s.requests.prepare) && s.requests.prepare != Pending
          && s.tpc != TPreparing)
    && (s.tpc.TLocking? ==>
          && HoldsBut(s.vols, s.tpc.todo + s.lostByTarget, TGT)
          && (s.tpc.request == Rescue ==> s.targetGuest == Running || s.faults.targetDied))
    && (s.tpc.TUnlocking? ==>
          s.targetGuest == NoGuest || (s.tpc.reason == ForRequest(Prepare) && s.targetGuest == Inmigrate))
  }

  predicate AtRest(pc: TargetPc) { pc == Serving || pc == TLooping }

  /** Between the target's locking and the start of the migration, nothing but its own failure or its
  end makes the target give locks up. */
  predicate HandoverInv(s: State) {
    var r, pc, lost := s.requests, s.spc, s.lostByTarget;
    && ((pc.WaitAcquire? || pc.Configuring?) && r.acquire == Granted && AtRest(s.tpc) ==> HoldsBut(s.vols, lost, TGT))
    && (pc.WaitPrepare? && (s.tpc == TPreparing || (AtRest(s.tpc) && r.prepare == Pending)) ==>
          HoldsBut(s.vols, lost, TGT))
    && ((pc.WaitPrepare? || pc.Starting?) && r.prepare == Granted && s.targetGuest == Inmigrate ==>
          HoldsBut(s.vols, lost, TGT))
  }

  /** The source has started to take its locks back, or to give up. */
  predicate Retaking(pc: SourcePc) {
    || pc.Relocking? || pc.Checking? || Destroying(pc, GivingUpLocally)
    || (pc.SEnded? && !Moved(pc))
  }

  /** What the source gave up it does not have again until it starts to take its locks back; and what was
  taken from a host it does not have. */
  predicate OutInv(s: State) {
    && (forall d :: d in s.lostBySource ==> d in s.vols && s.vols[d].owner != Some(SRC))
    && (forall d :: d in s.lostByTarget ==> d in s.vols && s.vols[d].owner != Some(TGT))
    && (Sent(s.requests.acquire) && !Retaking(s.spc) ==> HoldsNone(s.vols, SRC))
    && (s.spc.Releasing? && !s.spc.failed ==>
          forall d :: d in s.vols && d !in s.spc.todo ==> s.vols[d].owner != Some(SRC))
  }

  predicate SourceInv(s: State) {
    && (s.spc.Relocking? ==> HoldsBut(s.vols, s.spc.todo + s.lostBySource, SRC))
    && (s.spc == Checking || s.spc == SEnded(ContinuedLocally) ==> HoldsBut(s.vols, s.lostBySource, SRC))
    && (!s.begun && !s.faults.sourceLocal ==>
          if GivenUp(s.spc) then s.lostBySource != {}
          else HoldsBut(s.vols, s.lostBySource, SRC) && s.sourceGuest == Running && !s.spc.SKilling? && !s.spc.SDropping?)
  }

  predicate EndInv(s: State) {
    && (s.spc == SEnded(ContinuedLocally) ==> s.sourceGuest == Running || s.sourceGuest == NoGuest || AllLost(s))
    && (s.spc.SDropping? ==> s.sourceGuest == NoGuest)
    && (s.spc == WaitFinish || (s.spc.SEnded? && s.spc.result != ContinuedLocally) ==>
          s.sourceGuest == NoGuest || s.faults.sourceDestroy)
    && (s.spc == SEnded(Crashed) ==> s.faults.sourceDestroy)
    && (s.faults.sourceLocal ==>
          s.sourceGuest == NoGuest || s.faults.sourceDestroy || s.spc == SKilling(GivingUpLocally))
  }

  /** Each volume's lock was taken from one of the two hosts that had it. */
  predicate AllLost(s: State) {
    forall d :: d in s.vols ==> d in s.lostBySource || d in s.lostByTarget
  }

  /** The source could not take its locks back. */
  predicate GivenUp(pc: SourcePc) {
    Destroying(pc, GivingUpLocally) || pc == SEnded(DestroyedLocally) || pc == SEnded(Crashed)
  }

  /** Past the start of `transfer_ceph_locks`, but qemu was not told to migrate yet. */
  predicate BeforeMigration(pc: SourcePc) {
    pc.Releasing? || pc.WaitAcquire? || pc.Configuring? || pc.WaitPrepare? || pc.Starting?
  }

  /** The target keeps its guest at its end exactly if `finish_incoming` was served. */
  predicate VerdictInv(s: State) {
    && (!s.begun || BeforeMigration(s.spc) ==> s.sourceGuest != Postmigrate && !s.wire)
    && (s.finished == Success <==> s.requests.finish == Granted)
    && (s.finished == Success ==>
          && (s.tpc == TLooping || s.tpc == TEnded)
          && (s.targetGuest == Running || s.faults.targetDied))
    && (s.tpc == TEnded && s.finished != Success ==> s.targetGuest == NoGuest || s.faults.targetDestroy)
    && (s.spc == SEnded(RescuedRemotely) || Destroying(s.spc, AfterRemoteRescue) ==> s.requests.finish == Granted)
  }

  predicate Inv(s: State) {
    && s.vols != map[] && SentInv(s) && BegunInv(s) && RequestInv(s) && TargetInv(s) && HandoverInv(s)
    && OutInv(s) && SourceInv(s) && EndInv(s) && VerdictInv(s)
  }

  predicate SameLocks(s: State, t: State) {
    t.vols == s.vols && t.lostBySource == s.lostBySource && t.lostByTarget == s.lostByTarget
  }

  lemma InitInv(s: State)
    requires Init(s)
    ensures Inv(s)
  {
  }

  lemma HandoverKeepsRequests(s: State, e: Step)
    requires SentInv(s) && BegunInv(s) && RequestInv(s) && HandoverEnabled(s, e)
    ensures var t := HandoverApply(s, e); SentInv(t) && BegunInv(t) && RequestInv(t)
  {
  }

  lemma RescueRepliesKeepRequests(s: State, e: Step)
    requires SentInv(s) && RequestInv(s) && RescueEnabled(s, e)
    requires e.RescueReturns? || e.RescueFinishReturns?
    ensures var t := RescueApply(s, e); SentInv(t) && BegunInv(t) && RequestInv(t)
  {
  }

  lemma OtherRescueKeepsRequests(s: State, e: Step)
    requires SentInv(s) && RequestInv(s) && RescueEnabled(s, e)
    requires !(e.RescueReturns? || e.RescueFinishReturns?)
    ensures var t := RescueApply(s, e); SentInv(t) && BegunInv(t) && RequestInv(t)
  {
  }

  lemma RescueKeepsRequests(s: State, e: Step)
    requires SentInv(s) && RequestInv(s) && RescueEnabled(s, e)
    ensures var t := RescueApply(s, e); SentInv(t) && BegunInv(t) && RequestInv(t)
  {
    hide SentInv, BegunInv, RequestInv, TargetInv, HandoverInv, OutInv, SourceInv, EndInv, VerdictInv;
    if e.RescueReturns? || e.RescueFinishReturns? {
      RescueRepliesKeepRequests(s, e);
    } else {
      OtherRescueKeepsRequests(s, e);
    }
  }

  lemma KilledKeepsRequests(s: State, e: Step)
    requires SentInv(s) && RequestInv(s) && KillEnabled(s, e) && e.Kill?
    requires e.how == KillDone
    ensures var t := KillApply(s, e); SentInv(t) && BegunInv(t) && RequestInv(t)
  {
  }

  lemma KillFailedKeepsRequests(s: State, e: Step)
    requires SentInv(s) && RequestInv(s) && KillEnabled(s, e) && e.Kill?
    requires !(e.how == KillDone)
    ensures var t := KillApply(s, e); SentInv(t) && BegunInv(t) && RequestInv(t)
  {
  }

  lemma KillKeepsRequests(s: State, e: Step)
    requires SentInv(s) && RequestInv(s) && KillEnabled(s, e) && e.Kill?
    ensures var t := KillApply(s, e); SentInv(t) && BegunInv(t) && RequestInv(t)
  {
    hide SentInv, BegunInv, RequestInv, TargetInv, HandoverInv, OutInv, SourceInv, EndInv, VerdictInv;
    if e.how == KillDone {
      KilledKeepsRequests(s, e);
    } else {
      KillFailedKeepsRequests(s, e);
    }
  }

  lemma DropKeepsRequests(s: State, e: Step)
    requires SentInv(s) && RequestInv(s) && KillEnabled(s, e) && !e.Kill?
    ensures var t := KillApply(s, e); SentInv(t) && BegunInv(t) && RequestInv(t)
  {
  }

  lemma StartLocksKeepsRequests(s: State, e: Step)
    requires SentInv(s) && BegunInv(s) && RequestInv(s) && ServeEnabled(s, e) && e.TStart?
    requires e.m == Cancel || e.m == AcquireLocks || e.m == Prepare
    ensures var t := ServeApply(s, e); SentInv(t) && BegunInv(t) && RequestInv(t)
  {
  }

  lemma StartEndKeepsRequests(s: State, e: Step)
    requires SentInv(s) && BegunInv(s) && RequestInv(s) && ServeEnabled(s, e) && e.TStart?
    requires !(e.m == Cancel || e.m == AcquireLocks || e.m == Prepare)
    ensures var t := ServeApply(s, e); SentInv(t) && BegunInv(t) && RequestInv(t)
  {
  }

  lemma StartKeepsRequests(s: State, e: Step)
    requires SentInv(s) && BegunInv(s) && RequestInv(s) && ServeEnabled(s, e) && e.TStart?
    ensures var t := ServeApply(s, e); SentInv(t) && BegunInv(t) && RequestInv(t)
  {
    hide SentInv, BegunInv, RequestInv, TargetInv, HandoverInv, OutInv, SourceInv, EndInv, VerdictInv;
    if e.m == Cancel || e.m == AcquireLocks || e.m == Prepare {
      StartLocksKeepsRequests(s, e);
    } else {
      StartEndKeepsRequests(s, e);
    }
  }

  lemma ServeKeepsRequests(s: State, e: Step)
    requires TargetInv(s) && SentInv(s) && BegunInv(s) && RequestInv(s) && ServeEnabled(s, e) && !e.TStart?
    ensures var t := ServeApply(s, e); SentInv(t) && BegunInv(t) && RequestInv(t)
  {
  }

  lemma CleanKeepsRequests(s: State, e: Step)
    requires SentInv(s) && BegunInv(s) && RequestInv(s) && CleanEnabled(s, e) && e.TKill?
    ensures var t := CleanApply(s, e); SentInv(t) && BegunInv(t) && RequestInv(t)
  {
  }

  lemma UnlockKeepsRequests(s: State, e: Step)
    requires SentInv(s) && BegunInv(s) && RequestInv(s) && CleanEnabled(s, e) && !e.TKill?
    ensures var t := CleanApply(s, e); SentInv(t) && BegunInv(t) && RequestInv(t)
  {
  }

  lemma WorldKeepsRequests(s: State, e: Step)
    requires SentInv(s) && BegunInv(s) && RequestInv(s) && WorldEnabled(s, e)
    ensures var t := WorldApply(s, e); SentInv(t) && BegunInv(t) && RequestInv(t)
  {
  }

  lemma ReleaseKeepsGuests(s: State, e: Step)
    requires SentInv(s) && RequestInv(s) && TargetInv(s) && HandoverInv(s)
    requires HandoverEnabled(s, e)
    requires e.Release?
    ensures var t := HandoverApply(s, e); TargetInv(t) && HandoverInv(t)
  {
  }

  lemma OtherHandoverKeepsGuests(s: State, e: Step)
    requires SentInv(s) && RequestInv(s) && TargetInv(s) && HandoverInv(s)
    requires HandoverEnabled(s, e)
    requires !(e.Release?)
    ensures var t := HandoverApply(s, e); TargetInv(t) && HandoverInv(t)
  {
  }

  lemma HandoverKeepsGuests(s: State, e: Step)
    requires SentInv(s) && RequestInv(s) && TargetInv(s) && HandoverInv(s)
    requires HandoverEnabled(s, e)
    ensures var t := HandoverApply(s, e); TargetInv(t) && HandoverInv(t)
  {
    hide SentInv, BegunInv, RequestInv, TargetInv, HandoverInv, OutInv, SourceInv, EndInv, VerdictInv;
    if e.Release? {
      ReleaseKeepsGuests(s, e);
    } else {
      OtherHandoverKeepsGuests(s, e);
    }
  }

  lemma RescueKeepsGuests(s: State, e: Step)
    requires TargetInv(s) && RescueEnabled(s, e)
    ensures var t := RescueApply(s, e); TargetInv(t) && HandoverInv(t)
  {
    if e.Relock? || e.RelockUnseen? {
      assert TargetInv(RescueApply(s, e));
    }
  }

  lemma KillKeepsGuests(s: State, e: Step)
    requires TargetInv(s) && KillEnabled(s, e) && e.Kill?
    ensures var t := KillApply(s, e); TargetInv(t) && HandoverInv(t)
  {
  }

  lemma DropKeepsGuests(s: State, e: Step)
    requires TargetInv(s) && KillEnabled(s, e) && !e.Kill?
    ensures var t := KillApply(s, e); TargetInv(t) && HandoverInv(t)
  {
  }

  lemma StartKeepsGuests(s: State, e: Step)
    requires SentInv(s) && TargetInv(s) && HandoverInv(s) && ServeEnabled(s, e) && e.TStart?
    ensures var t := ServeApply(s, e); TargetInv(t) && HandoverInv(t)
  {
  }

  lemma TargetLockKeepsGuests(s: State, e: Step)
    requires SentInv(s) && RequestInv(s) && TargetInv(s) && HandoverInv(s) && ServeEnabled(s, e) && !e.TStart?
    requires e.TLock? || e.TLockUnseen?
    ensures var t := ServeApply(s, e); TargetInv(t) && HandoverInv(t)
  {
  }

  lemma OtherServeKeepsGuests(s: State, e: Step)
    requires SentInv(s) && RequestInv(s) && TargetInv(s) && HandoverInv(s) && ServeEnabled(s, e) && !e.TStart?
    requires !(e.TLock? || e.TLockUnseen?)
    ensures var t := ServeApply(s, e); TargetInv(t) && HandoverInv(t)
  {
  }

  lemma ServeKeepsGuests(s: State, e: Step)
    requires SentInv(s) && RequestInv(s) && TargetInv(s) && HandoverInv(s) && ServeEnabled(s, e) && !e.TStart?
    ensures var t := ServeApply(s, e); TargetInv(t) && HandoverInv(t)
  {
    hide SentInv, BegunInv, RequestInv, TargetInv, HandoverInv, OutInv, SourceInv, EndInv, VerdictInv;
    if e.TLock? || e.TLockUnseen? {
      TargetLockKeepsGuests(s, e);
    } else {
      OtherServeKeepsGuests(s, e);
    }
  }

  lemma CleanKeepsGuests(s: State, e: Step)
    requires SentInv(s) && RequestInv(s) && TargetInv(s) && HandoverInv(s) && CleanEnabled(s, e) && e.TKill?
    ensures var t := CleanApply(s, e); TargetInv(t) && HandoverInv(t)
  {
  }

  lemma UnlockKeepsGuests(s: State, e: Step)
    requires SentInv(s) && RequestInv(s) && TargetInv(s)
    requires CleanEnabled(s, e) && !e.TKill?
    ensures var t := CleanApply(s, e); TargetInv(t) && HandoverInv(t)
  {
  }

  lemma WorldKeepsGuests(s: State, e: Step)
    requires RequestInv(s) && TargetInv(s) && HandoverInv(s) && WorldEnabled(s, e)
    ensures var t := WorldApply(s, e); TargetInv(t) && HandoverInv(t)
  {
  }

  lemma HandoverKeepsVerdict(s: State, e: Step)
    requires BegunInv(s) && VerdictInv(s) && HandoverEnabled(s, e)
    ensures var t := HandoverApply(s, e); VerdictInv(t)
  {
  }

  lemma RescueRepliesKeepVerdict(s: State, e: Step)
    requires SentInv(s) && VerdictInv(s) && RescueEnabled(s, e)
    requires e.RescueReturns? || e.RescueFinishReturns?
    ensures var t := RescueApply(s, e); VerdictInv(t)
  {
  }

  lemma OtherRescueKeepsVerdict(s: State, e: Step)
    requires SentInv(s) && VerdictInv(s) && RescueEnabled(s, e)
    requires !(e.RescueReturns? || e.RescueFinishReturns?)
    ensures var t := RescueApply(s, e); VerdictInv(t)
  {
  }

  lemma RescueKeepsVerdict(s: State, e: Step)
    requires SentInv(s) && VerdictInv(s) && RescueEnabled(s, e)
    ensures var t := RescueApply(s, e); VerdictInv(t)
  {
    hide SentInv, BegunInv, RequestInv, TargetInv, HandoverInv, OutInv, SourceInv, EndInv, VerdictInv;
    if e.RescueReturns? || e.RescueFinishReturns? {
      RescueRepliesKeepVerdict(s, e);
    } else {
      OtherRescueKeepsVerdict(s, e);
    }
  }

  lemma KillKeepsVerdict(s: State, e: Step)
    requires SentInv(s) && VerdictInv(s) && KillEnabled(s, e) && e.Kill?
    ensures var t := KillApply(s, e); VerdictInv(t)
  {
  }

  lemma DropKeepsVerdict(s: State, e: Step)
    requires SentInv(s) && VerdictInv(s) && KillEnabled(s, e) && !e.Kill?
    ensures var t := KillApply(s, e); VerdictInv(t)
  {
  }

  lemma StartKeepsVerdict(s: State, e: Step)
    requires VerdictInv(s) && ServeEnabled(s, e) && e.TStart?
    ensures var t := ServeApply(s, e); VerdictInv(t)
  {
  }

  lemma ServeKeepsVerdict(s: State, e: Step)
    requires RequestInv(s) && VerdictInv(s) && ServeEnabled(s, e) && !e.TStart?
    ensures var t := ServeApply(s, e); VerdictInv(t)
  {
  }

  lemma CleanKeepsVerdict(s: State, e: Step)
    requires VerdictInv(s) && CleanEnabled(s, e) && e.TKill?
    ensures var t := CleanApply(s, e); VerdictInv(t)
  {
  }

  lemma UnlockKeepsVerdict(s: State, e: Step)
    requires TargetInv(s) && VerdictInv(s) && CleanEnabled(s, e) && !e.TKill?
    ensures var t := CleanApply(s, e); VerdictInv(t)
  {
  }

  lemma WorldKeepsVerdict(s: State, e: Step)
    requires TargetInv(s) && VerdictInv(s) && WorldEnabled(s, e)
    ensures var t := WorldApply(s, e); VerdictInv(t)
  {
  }

  lemma HandoverKeepsOut(s: State, e: Step)
    requires OutInv(s) && HandoverEnabled(s, e)
    ensures OutInv(HandoverApply(s, e))
  {
    if !e.Release? {
      assert SameLocks(s, HandoverApply(s, e));
    }
  }

  lemma RelockKeepsOut(s: State, e: Step)
    requires OutInv(s) && RescueEnabled(s, e) && (e.Relock? || e.RelockUnseen?)
    ensures OutInv(RescueApply(s, e))
  {
  }

  lemma RescueKeepsOut(s: State, e: Step)
    requires OutInv(s) && RescueEnabled(s, e)
    ensures OutInv(RescueApply(s, e))
  {
    hide OutInv;
    if e.Relock? || e.RelockUnseen? {
      RelockKeepsOut(s, e);
    } else {
      OutStays(s, RescueApply(s, e));
    }
  }

  /** Where locks stay, only the requests sent and the source's whereabouts matter. */
  lemma OutStays(s: State, t: State)
    requires OutInv(s) && SameLocks(s, t)
    requires Sent(t.requests.acquire) && !Retaking(t.spc) ==> Sent(s.requests.acquire) && !Retaking(s.spc)
    requires t.spc.Releasing? ==> t.spc == s.spc
    ensures OutInv(t)
  {
  }

  lemma KillKeepsOut(s: State, e: Step)
    requires OutInv(s) && KillEnabled(s, e) && e.Kill?
    ensures OutInv(KillApply(s, e))
  {
    hide OutInv;
    OutStays(s, KillApply(s, e));
  }

  lemma DropOneKeepsOut(s: State, e: Step)
    requires OutInv(s) && KillEnabled(s, e) && !e.Kill?
    requires e.Drop?
    ensures OutInv(KillApply(s, e))
  {
  }

  lemma DropKeepsOut(s: State, e: Step)
    requires OutInv(s) && KillEnabled(s, e) && !e.Kill?
    ensures OutInv(KillApply(s, e))
  {
    hide OutInv;
    if e.Drop? {
      DropOneKeepsOut(s, e);
    } else {
      OutStays(s, KillApply(s, e));
    }
  }

  lemma StartKeepsOut(s: State, e: Step)
    requires OutInv(s) && ServeEnabled(s, e) && e.TStart?
    ensures OutInv(ServeApply(s, e))
  {
    hide OutInv;
    OutStays(s, ServeApply(s, e));
  }

  lemma TargetLockKeepsOut(s: State, e: Step)
    requires RequestInv(s) && OutInv(s) && ServeEnabled(s, e) && !e.TStart? && (e.TLock? || e.TLockUnseen?)
    ensures OutInv(ServeApply(s, e))
  {
    var t := ServeApply(s, e);
    assert t.vols == s.vols[e.d := e.after] && t.lostBySource == s.lostBySource && t.spc == s.spc;
  }

  lemma ServeKeepsOut(s: State, e: Step)
    requires RequestInv(s) && OutInv(s) && ServeEnabled(s, e) && !e.TStart?
    ensures OutInv(ServeApply(s, e))
  {
    hide OutInv;
    if e.TLock? || e.TLockUnseen? {
      TargetLockKeepsOut(s, e);
    } else {
      OutStays(s, ServeApply(s, e));
    }
  }

  lemma CleanKeepsOut(s: State, e: Step)
    requires RequestInv(s) && OutInv(s) && CleanEnabled(s, e) && e.TKill?
    ensures OutInv(CleanApply(s, e))
  {
    hide OutInv;
    OutStays(s, CleanApply(s, e));
  }

  lemma UnlockOneKeepsOut(s: State, e: Step)
    requires RequestInv(s) && OutInv(s) && CleanEnabled(s, e) && !e.TKill?
    requires e.TUnlock?
    ensures OutInv(CleanApply(s, e))
  {
  }

  lemma UnlockKeepsOut(s: State, e: Step)
    requires RequestInv(s) && OutInv(s) && CleanEnabled(s, e) && !e.TKill?
    ensures OutInv(CleanApply(s, e))
  {
    hide OutInv;
    if e.TUnlock? {
      UnlockOneKeepsOut(s, e);
    } else {
      OutStays(s, CleanApply(s, e));
    }
  }

  lemma WorldKeepsOut(s: State, e: Step)
    requires OutInv(s) && WorldEnabled(s, e)
    ensures OutInv(WorldApply(s, e))
  {
  }

  lemma ReleaseKeepsSource(s: State, e: Step)
    requires BegunInv(s) && SourceInv(s) && HandoverEnabled(s, e) && e.Release?
    ensures SourceInv(HandoverApply(s, e))
  {
  }

  lemma HandoverKeepsSource(s: State, e: Step)
    requires BegunInv(s) && SourceInv(s) && HandoverEnabled(s, e)
    ensures SourceInv(HandoverApply(s, e))
  {
    if e.Release? {
      ReleaseKeepsSource(s, e);
    } else {
      assert SameLocks(s, HandoverApply(s, e));
    }
  }

  lemma RelockKeepsSource(s: State, e: Step)
    requires BegunInv(s) && SourceInv(s) && RescueEnabled(s, e)
    requires e.Relock? || e.RelockUnseen?
    ensures SourceInv(RescueApply(s, e))
  {
  }

  lemma OtherRescueKeepsSource(s: State, e: Step)
    requires BegunInv(s) && SourceInv(s) && RescueEnabled(s, e)
    requires !(e.Relock? || e.RelockUnseen?)
    ensures SourceInv(RescueApply(s, e))
  {
  }

  lemma RescueKeepsSource(s: State, e: Step)
    requires BegunInv(s) && SourceInv(s) && RescueEnabled(s, e)
    ensures SourceInv(RescueApply(s, e))
  {
    hide SentInv, BegunInv, RequestInv, TargetInv, HandoverInv, OutInv, SourceInv, EndInv, VerdictInv;
    if e.Relock? || e.RelockUnseen? {
      RelockKeepsSource(s, e);
    } else {
      OtherRescueKeepsSource(s, e);
    }
  }

  lemma KillKeepsSource(s: State, e: Step)
    requires SourceInv(s) && KillEnabled(s, e) && e.Kill?
    ensures SourceInv(KillApply(s, e))
  {
  }

  lemma DropKeepsSource(s: State, e: Step)
    requires SourceInv(s) && KillEnabled(s, e) && !e.Kill?
    ensures SourceInv(KillApply(s, e))
  {
  }

  lemma StartKeepsSource(s: State, e: Step)
    requires SourceInv(s) && ServeEnabled(s, e) && e.TStart?
    ensures SourceInv(ServeApply(s, e))
  {
  }

  lemma TargetLockKeepsSource(s: State, e: Step)
    requires SentInv(s) && TargetInv(s) && SourceInv(s) && ServeEnabled(s, e) && !e.TStart? && (e.TLock? || e.TLockUnseen?)
    ensures SourceInv(ServeApply(s, e))
  {
  }

  lemma ServeKeepsSource(s: State, e: Step)
    requires SentInv(s) && TargetInv(s) && SourceInv(s) && ServeEnabled(s, e) && !e.TStart?
    ensures SourceInv(ServeApply(s, e))
  {
    if e.TLock? || e.TLockUnseen? {
      TargetLockKeepsSource(s, e);
    } else {
      assert SameLocks(s, ServeApply(s, e));
    }
  }

  lemma CleanKeepsSource(s: State, e: Step)
    requires SourceInv(s) && CleanEnabled(s, e) && e.TKill?
    ensures SourceInv(CleanApply(s, e))
  {
  }

  lemma UnlockKeepsSource(s: State, e: Step)
    requires SourceInv(s) && CleanEnabled(s, e) && !e.TKill?
    ensures SourceInv(CleanApply(s, e))
  {
    if !e.TUnlock? {
      assert SameLocks(s, CleanApply(s, e));
    }
  }

  lemma WorldKeepsSource(s: State, e: Step)
    requires TargetInv(s) && SourceInv(s) && WorldEnabled(s, e)
    ensures SourceInv(WorldApply(s, e))
  {
  }

  lemma HandoverKeepsEnd(s: State, e: Step)
    requires EndInv(s) && HandoverEnabled(s, e)
    ensures EndInv(HandoverApply(s, e))
  {
  }

  lemma RescueKeepsEnd(s: State, e: Step)
    requires EndInv(s) && RescueEnabled(s, e)
    ensures EndInv(RescueApply(s, e))
  {
  }

  lemma KillKeepsEnd(s: State, e: Step)
    requires EndInv(s) && KillEnabled(s, e) && e.Kill?
    ensures EndInv(KillApply(s, e))
  {
    hide AllLost, Locked, Unlocked, LockOn, UnlockOn;
  }

  lemma DropKeepsEnd(s: State, e: Step)
    requires EndInv(s) && KillEnabled(s, e) && !e.Kill?
    ensures EndInv(KillApply(s, e))
  {
  }

  lemma StartKeepsEnd(s: State, e: Step)
    requires EndInv(s) && ServeEnabled(s, e) && e.TStart?
    ensures EndInv(ServeApply(s, e))
  {
  }

  lemma TargetLockKeepsEnd(s: State, e: Step)
    requires SourceInv(s) && OutInv(s) && EndInv(s) && ServeEnabled(s, e) && (e.TLock? || e.TLockUnseen?)
    ensures EndInv(ServeApply(s, e))
  {
    var t := ServeApply(s, e);
    assert t.vols == s.vols[e.d := e.after] && t.lostBySource == s.lostBySource && t.spc == s.spc;
    assert t.sourceGuest == s.sourceGuest && t.faults == s.faults;
  }

  lemma ServeKeepsEnd(s: State, e: Step)
    requires SourceInv(s) && OutInv(s) && EndInv(s) && ServeEnabled(s, e) && !e.TStart?
    ensures EndInv(ServeApply(s, e))
  {
    if e.TLock? || e.TLockUnseen? {
      TargetLockKeepsEnd(s, e);
    } else {
      assert SameLocks(s, ServeApply(s, e));
    }
  }

  lemma CleanKeepsEnd(s: State, e: Step)
    requires EndInv(s) && CleanEnabled(s, e) && e.TKill?
    ensures EndInv(CleanApply(s, e))
  {
  }

  lemma UnlockKeepsEnd(s: State, e: Step)
    requires EndInv(s) && CleanEnabled(s, e) && !e.TKill?
    ensures EndInv(CleanApply(s, e))
  {
  }

  lemma WorldKeepsEnd(s: State, e: Step)
    requires TargetInv(s) && SourceInv(s) && EndInv(s) && WorldEnabled(s, e)
    ensures EndInv(WorldApply(s, e))
  {
  }

  lemma HandoverKeepsInv(s: State, e: Step)
    requires Inv(s) && HandoverEnabled(s, e)
    ensures Inv(HandoverApply(s, e))
  {
    hide SentInv, BegunInv, RequestInv, TargetInv, HandoverInv, OutInv, SourceInv, EndInv, VerdictInv;
    HandoverKeepsRequests(s, e);
    HandoverKeepsVerdict(s, e);
    HandoverKeepsGuests(s, e);
    HandoverKeepsOut(s, e);
    HandoverKeepsSource(s, e);
    HandoverKeepsEnd(s, e);
  }

  lemma RescueKeepsInv(s: State, e: Step)
    requires Inv(s) && RescueEnabled(s, e)
    ensures Inv(RescueApply(s, e))
  {
    hide SentInv, BegunInv, RequestInv, TargetInv, HandoverInv, OutInv, SourceInv, EndInv, VerdictInv;
    RescueKeepsRequests(s, e);
    RescueKeepsVerdict(s, e);
    RescueKeepsGuests(s, e);
    RescueKeepsOut(s, e);
    RescueKeepsSource(s, e);
    RescueKeepsEnd(s, e);
  }

  lemma KillKeepsInv(s: State, e: Step)
    requires Inv(s) && KillEnabled(s, e) && e.Kill?
    ensures Inv(KillApply(s, e))
  {
    hide SentInv, BegunInv, RequestInv, TargetInv, HandoverInv, OutInv, SourceInv, EndInv, VerdictInv;
    KillKeepsRequests(s, e);
    KillKeepsVerdict(s, e);
    KillKeepsGuests(s, e);
    KillKeepsOut(s, e);
    KillKeepsSource(s, e);
    KillKeepsEnd(s, e);
  }

  lemma DropKeepsInv(s: State, e: Step)
    requires Inv(s) && KillEnabled(s, e) && !e.Kill?
    ensures Inv(KillApply(s, e))
  {
    hide SentInv, BegunInv, RequestInv, TargetInv, HandoverInv, OutInv, SourceInv, EndInv, VerdictInv;
    DropKeepsRequests(s, e);
    DropKeepsVerdict(s, e);
    DropKeepsGuests(s, e);
    DropKeepsOut(s, e);
    DropKeepsSource(s, e);
    DropKeepsEnd(s, e);
  }

  lemma ServeKeepsInv(s: State, e: Step)
    requires Inv(s) && ServeEnabled(s, e)
    ensures Inv(ServeApply(s, e))
  {
    hide SentInv, BegunInv, RequestInv, TargetInv, HandoverInv, OutInv, SourceInv, EndInv, VerdictInv;
    if !e.TStart? {
      ServeKeepsRequests(s, e);
      ServeKeepsVerdict(s, e);
      ServeKeepsGuests(s, e);
      ServeKeepsOut(s, e);
      ServeKeepsSource(s, e);
      ServeKeepsEnd(s, e);
    } else {
      StartKeepsRequests(s, e);
      StartKeepsVerdict(s, e);
      StartKeepsGuests(s, e);
      StartKeepsOut(s, e);
      StartKeepsSource(s, e);
      StartKeepsEnd(s, e);
    }
  }

  lemma CleanKeepsInv(s: State, e: Step)
    requires Inv(s) && CleanEnabled(s, e)
    ensures Inv(CleanApply(s, e))
  {
    hide SentInv, BegunInv, RequestInv, TargetInv, HandoverInv, OutInv, SourceInv, EndInv, VerdictInv;
    if e.TKill? {
      CleanKeepsRequests(s, e);
      CleanKeepsVerdict(s, e);
      CleanKeepsGuests(s, e);
      CleanKeepsOut(s, e);
      CleanKeepsSource(s, e);
      CleanKeepsEnd(s, e);
    } else {
      UnlockKeepsRequests(s, e);
      UnlockKeepsVerdict(s, e);
      UnlockKeepsGuests(s, e);
      UnlockKeepsOut(s, e);
      UnlockKeepsSource(s, e);
      UnlockKeepsEnd(s, e);
    }
  }

  lemma WorldKeepsInv(s: State, e: Step)
    requires Inv(s) && WorldEnabled(s, e)
    ensures Inv(WorldApply(s, e))
  {
    hide SentInv, BegunInv, RequestInv, TargetInv, HandoverInv, OutInv, SourceInv, EndInv, VerdictInv;
    WorldKeepsRequests(s, e);
    WorldKeepsVerdict(s, e);
    WorldKeepsGuests(s, e);
    WorldKeepsOut(s, e);
    WorldKeepsSource(s, e);
    WorldKeepsEnd(s, e);
  }

  lemma NextKeepsInv(s: State, e: Step, t: State)
    requires Inv(s) && Next(s, e, t)
    ensures Inv(t)
  {
    hide Inv;
    if HandoverEnabled(s, e) {
      HandoverKeepsInv(s, e);
    } else if RescueEnabled(s, e) {
      RescueKeepsInv(s, e);
    } else if KillEnabled(s, e) {
      if e.Kill? {
        KillKeepsInv(s, e);
      } else {
        DropKeepsInv(s, e);
      }
    } else if ServeEnabled(s, e) {
      ServeKeepsInv(s, e);
    } else if CleanEnabled(s, e) {
      CleanKeepsInv(s, e);
    } else {
      WorldKeepsInv(s, e);
    }
  }

  // ------------------------------------------------------------------------------- the theorems

  lemma {:induction false} RunKeepsInv(states: seq<State>, steps: seq<Step>, i: nat)
    requires IsRun(states, steps) && i < |states|
    ensures Inv(states[i])
  {
    if i == 0 {
      InitInv(states[0]);
    } else {
      RunKeepsInv(states, steps, i - 1);
      NextKeepsInv(states[i - 1], steps[i - 1], states[i]);
    }
  }

  /** `h` has every volume's lock but exactly those that were taken from it. */
  predicate HoldsExactlyBut(vols: Volumes, lost: set<Disk>, h: Host) {
    forall d :: d in vols ==> (vols[d].owner == Some(h) <==> d !in lost)
  }

  /** No two hosts ever run the guest, in any run at all. Whatever requests and replies are lost or late,
  while the target's guest runs the target has every volume's lock but exactly those that another host's
  unlock took from it. */
  lemma TargetRunsOnlyUnderAllLocks(states: seq<State>, steps: seq<Step>, i: nat)
    requires IsRun(states, steps) && i < |states|
    ensures states[i].targetGuest == Running ==>
              states[i].sourceGuest != Running && HoldsExactlyBut(states[i].vols, states[i].lostByTarget, TGT)
  {
    RunKeepsInv(states, steps, i);
  }

  /** From the end of `Outgoing.__call__` on, whatever the target still serves, a source whose `_destroy`
  works has its guest gone, or running under every lock but exactly those taken from it; or each volume's
  lock was taken from one of the two hosts. Where the exit code says that the guest has moved, the source
  holds no lock. */
  lemma SourceEndsGoneOrLocked(states: seq<State>, steps: seq<Step>, i: nat)
    requires IsRun(states, steps) && i < |states|
    requires states[i].spc.SEnded?
    ensures states[i].spc.result in {Migrated, RescuedRemotely} ==> HoldsNone(states[i].vols, SRC)
    ensures states[i].spc.result == ContinuedLocally ==>
              HoldsExactlyBut(states[i].vols, states[i].lostBySource, SRC)
    ensures || states[i].sourceGuest == NoGuest
            || (states[i].spc.result != ContinuedLocally && states[i].faults.sourceDestroy)
            || (states[i].spc.result == ContinuedLocally && states[i].sourceGuest == Running)
            || AllLost(states[i])
    ensures !(states[i].sourceGuest == Running && states[i].targetGuest == Running) && states[i].vols != map[]
  {
    RunKeepsInv(states, steps, i);
  }

  /** A migration that ends before `transfer_ceph_locks`, whatever rescue, destroy or cancel requests
  reach the target, leaves the guest running under all of the source's locks exactly if nothing
  failed on the source itself and no lock taken from it is still missing. */
  lemma FailureBeforeTransfer(states: seq<State>, steps: seq<Step>, i: nat)
    requires IsRun(states, steps) && i < |states|
    requires !states[i].faults.sourceDestroy && !states[i].begun
    ensures !states[i].faults.sourceLocal && states[i].lostBySource == {} ==>
              states[i].sourceGuest == Running && Holds(states[i].vols, SRC)
    ensures states[i].spc.SEnded? ==>
              (!states[i].faults.sourceLocal && states[i].lostBySource == {}
               <==> states[i].sourceGuest == Running && Holds(states[i].vols, SRC))
  {
    RunKeepsInv(states, steps, i);
  }

  /** Once both sides ended and the target's guest did not die by itself nor outlive its destruction,
  the target runs the guest exactly if it served `finish_incoming`. */
  lemma FinishDecides(states: seq<State>, steps: seq<Step>, i: nat)
    requires IsRun(states, steps) && i < |states|
    requires !states[i].faults.targetDestroy && !states[i].faults.targetDied
    requires states[i].spc.SEnded? && states[i].tpc == TEnded
    ensures states[i].targetGuest == Running <==> states[i].requests.finish == Granted
    ensures states[i].spc.result == RescuedRemotely ==> states[i].targetGuest == Running
  {
    RunKeepsInv(states, steps, i);
  }

  /** Where the two sides give locks up: the target never under a running guest, and under a guest that
  exists only after a failed `prepare_incoming`; the source's `_destroy` only with its guest gone. */
  lemma UnlocksSpareTheRunningGuest(states: seq<State>, steps: seq<Step>, i: nat)
    requires IsRun(states, steps) && i < |steps|
    ensures steps[i].TUnlock? ==>
              states[i].targetGuest == NoGuest
              || (states[i].targetGuest == Inmigrate && states[i].tpc.TUnlocking? && states[i].tpc.reason == ForRequest(Prepare))
    ensures steps[i].Drop? ==> states[i].sourceGuest == NoGuest
  {
    hide SentInv, BegunInv, RequestInv, HandoverInv, OutInv, SourceInv, VerdictInv;
    RunKeepsInv(states, steps, i);
    assert Next(states[i], steps[i], states[i + 1]);
  }

  // ------------------------------------------------------------------------ who takes whose locks

  /** Between the two, locks were at most taken while free, or given up by `h`. */
  predicate OnlyFrom(before: Volumes, after: Volumes, h: Host) {
    && before.Keys == after.Keys
    && forall d :: d in before && before[d].owner.Some? && before[d].owner != Some(h) ==>
                     after[d].owner == before[d].owner
  }

  /** The host that locks or unlocks in a step. */
  function LockActor(e: Step): Host {
    match e
    case TLock(_, _, _) => TGT
    case TLockUnseen(_, _) => TGT
    case TUnlock(_, _, _) => TGT
    case OtherLocks(h, _, _, _) => h
    case OtherUnlocks(h, _, _, _) => h
    case _ => SRC
  }

  predicate Unlocks(e: Step) { e.Release? || e.Drop? || e.TUnlock? || e.OtherUnlocks? }

  predicate Locks(e: Step) { e.Relock? || e.TLock? || e.OtherLocks? || e.RelockUnseen? || e.TLockUnseen? }

  function LockResult(e: Step): LockOutcome
    requires Locks(e)
  {
    if e.RelockUnseen? || e.TLockUnseen? then LockRaised else e.l
  }

  /** What a step does to locks and flags. */
  predicate LocksEffect(s: State, e: Step, t: State) {
    if Unlocks(e) then
      && UnlockOn(s, LockActor(e), e.d, e.u, e.after)
      && var w := Unlocked(s, LockActor(e), e.d, e.u, e.after);
      SameLocks(w, t) && t.faults.staleFlag == w.faults.staleFlag
    else if Locks(e) then
      && LockOn(s, LockActor(e), e.d, LockResult(e), e.after)
      && SameLocks(Locked(s, LockActor(e), e.d, e.after), t) && t.faults.staleFlag == s.faults.staleFlag
    else SameLocks(s, t) && t.faults.staleFlag == s.faults.staleFlag
  }

  lemma ReleaseLocksEffect(s: State, e: Step)
    requires HandoverEnabled(s, e)
    requires e.Release?
    ensures LocksEffect(s, e, HandoverApply(s, e))
  {
  }

  lemma OtherHandoverLocksEffect(s: State, e: Step)
    requires HandoverEnabled(s, e)
    requires !(e.Release?)
    ensures LocksEffect(s, e, HandoverApply(s, e))
  {
  }

  lemma HandoverLocksEffect(s: State, e: Step)
    requires HandoverEnabled(s, e)
    ensures LocksEffect(s, e, HandoverApply(s, e))
  {
    hide LocksEffect;
    if e.Release? {
      ReleaseLocksEffect(s, e);
    } else {
      OtherHandoverLocksEffect(s, e);
    }
  }

  lemma RescueLocksEffect(s: State, e: Step)
    requires RescueEnabled(s, e)
    ensures LocksEffect(s, e, RescueApply(s, e))
  {
  }

  lemma KilledLocksEffect(s: State, e: Step)
    requires KillEnabled(s, e)
    requires e.Kill?
    ensures LocksEffect(s, e, KillApply(s, e))
  {
    hide Locked, Unlocked, LockOn, UnlockOn;
  }

  lemma DropLocksEffect(s: State, e: Step)
    requires KillEnabled(s, e)
    requires !(e.Kill?)
    ensures LocksEffect(s, e, KillApply(s, e))
  {
  }

  lemma KillLocksEffect(s: State, e: Step)
    requires KillEnabled(s, e)
    ensures LocksEffect(s, e, KillApply(s, e))
  {
    hide LocksEffect;
    if e.Kill? {
      KilledLocksEffect(s, e);
    } else {
      DropLocksEffect(s, e);
    }
  }

  lemma ServeLocksEffect(s: State, e: Step)
    requires ServeEnabled(s, e)
    ensures LocksEffect(s, e, ServeApply(s, e))
  {
    if !e.TLock? && !e.TLockUnseen? {
      assert SameLocks(s, ServeApply(s, e));
    }
  }

  lemma CleanLocksEffect(s: State, e: Step)
    requires CleanEnabled(s, e)
    ensures LocksEffect(s, e, CleanApply(s, e))
  {
  }

  lemma WorldLocksEffect(s: State, e: Step)
    requires WorldEnabled(s, e)
    ensures LocksEffect(s, e, WorldApply(s, e))
  {
  }

  lemma NextLocksEffect(s: State, e: Step, t: State)
    requires Next(s, e, t)
    ensures LocksEffect(s, e, t)
  {
    hide LocksEffect, Unlocks, Locks;
    if HandoverEnabled(s, e) {
      HandoverLocksEffect(s, e);
    } else if RescueEnabled(s, e) {
      RescueLocksEffect(s, e);
    } else if KillEnabled(s, e) {
      KillLocksEffect(s, e);
    } else if ServeEnabled(s, e) {
      ServeLocksEffect(s, e);
    } else if CleanEnabled(s, e) {
      CleanLocksEffect(s, e);
    } else {
      WorldLocksEffect(s, e);
    }
  }

  lemma RunShape(states: seq<State>, steps: seq<Step>)
    requires IsRun(states, steps)
    ensures |states| == |steps| + 1 && states[0].lostBySource == {} && states[0].lostByTarget == {}
  {
  }

  lemma ActorLocks(s: State, e: Step)
    requires Enabled(s, e)
    ensures Unlocks(e) || Locks(e) ==> Actor(s, e) == LockActor(e)
  {
  }

  lemma RunLocksEffect(states: seq<State>, steps: seq<Step>, i: nat)
    requires IsRun(states, steps) && i < |steps|
    ensures LocksEffect(states[i], steps[i], states[i + 1])
    ensures Unlocks(steps[i]) || Locks(steps[i]) ==> Actor(states[i], steps[i]) == LockActor(steps[i])
  {
    hide LocksEffect, Unlocks, Locks;
    assert Next(states[i], steps[i], states[i + 1]);
    NextLocksEffect(states[i], steps[i], states[i + 1]);
    ActorLocks(states[i], steps[i]);
  }

  /** The step is an unlock that takes effect on another host's lock, by the guard of `unlock`. */
  predicate RobsBy(s: State, e: Step) {
    Unlocks(e) && e.d in s.vols && Robs(LockActor(e), s.vols[e.d], e.u)
  }

  lemma EffectRobsExactly(s: State, e: Step, t: State)
    requires LocksEffect(s, e, t)
    ensures OnlyFrom(s.vols, t.vols, LockActor(e)) <==> !RobsBy(s, e)
    ensures !Unlocks(e) && !Locks(e) ==> t.vols == s.vols
  {
    if Unlocks(e) || Locks(e) {
      assert t.vols == s.vols[e.d := e.after];
    }
  }

  /** A step of the protocol, the `_destroy` of a migrated source included, takes a lock away from another
  host if and only if it is an unlock that takes effect while its caller's flag is set and another host's
  lock is on the volume. */
  lemma LocksLeaveOnlyTheirOwner(states: seq<State>, steps: seq<Step>, i: nat)
    requires IsRun(states, steps) && i < |steps|
    ensures OnlyFrom(states[i].vols, states[i + 1].vols, Actor(states[i], steps[i])) <==> !RobsBy(states[i], steps[i])
  {
    RunShape(states, steps);
    hide LocksEffect, IsRun, RobsBy;
    RunLocksEffect(states, steps, i);
    EffectRobsExactly(states[i], steps[i], states[i + 1]);
  }

  function Lost(s: State, h: Host): set<Disk> {
    if h == SRC then s.lostBySource else if h == TGT then s.lostByTarget else {}
  }

  predicate RobsFrom(s: State, e: Step, h: Host, d: Disk) {
    RobsBy(s, e) && e.d == d && s.vols[d].owner == Some(h)
  }

  lemma StepLosesExactly(s: State, e: Step, t: State, h: Host, d: Disk)
    requires LocksEffect(s, e, t) && d in s.vols && (h == SRC || h == TGT)
    requires d in Lost(s, h) ==> s.vols[d].owner != Some(h)
    ensures d in t.vols && (d in Lost(t, h) ==> t.vols[d].owner != Some(h))
    ensures d in Lost(t, h) <==> RobsFrom(s, e, h, d) || (d in Lost(s, h) && t.vols[d].owner != Some(h))
  {
    if Unlocks(e) {
      assert t.vols == s.vols[e.d := e.after];
      assert d != e.d ==> (d in Lost(t, h) <==> d in Lost(s, h));
    } else if Locks(e) {
      assert t.vols == s.vols[e.d := e.after];
      assert d != e.d ==> (d in Lost(t, h) <==> d in Lost(s, h));
    }
  }

  lemma OutOfInv(states: seq<State>, steps: seq<Step>, i: nat)
    requires IsRun(states, steps) && i < |states|
    ensures OutInv(states[i])
  {
    hide SentInv, BegunInv, RequestInv, TargetInv, HandoverInv, OutInv, SourceInv, EndInv, VerdictInv;
    RunKeepsInv(states, steps, i);
  }

  lemma RunLosesExactly(states: seq<State>, steps: seq<Step>, i: nat, h: Host, d: Disk)
    requires IsRun(states, steps) && i < |steps| && d in states[i].vols && (h == SRC || h == TGT)
    ensures d in states[i + 1].vols
    ensures d in Lost(states[i + 1], h) <==>
              RobsFrom(states[i], steps[i], h, d) || (d in Lost(states[i], h) && states[i + 1].vols[d].owner != Some(h))
    ensures d in Lost(states[i + 1], h) ==> states[i + 1].vols[d].owner != Some(h)
  {
    RunShape(states, steps);
    hide LocksEffect, RobsFrom, IsRun;
    OutOfInv(states, steps, i);
    RunLocksEffect(states, steps, i);
    StepLosesExactly(states[i], steps[i], states[i + 1], h, d);
  }

  predicate RobbedAndNotBack(states: seq<State>, steps: seq<Step>, h: Host, d: Disk, i: nat, j: nat)
    requires |states| == |steps| + 1 && j < i < |states|
  {
    && RobsFrom(states[j], steps[j], h, d)
    && forall k :: j < k <= i ==> d in states[k].vols && states[k].vols[d].owner != Some(h)
  }

  /** Some step up to the given state took the lock, and the host has not had it again. */
  predicate Missing(states: seq<State>, steps: seq<Step>, h: Host, d: Disk, i: nat)
    requires |states| == |steps| + 1 && i < |states|
  {
    exists j :: 0 <= j < i && RobbedAndNotBack(states, steps, h, d, i, j)
  }

  lemma NothingMissingYet(states: seq<State>, steps: seq<Step>, h: Host, d: Disk)
    requires |states| == |steps| + 1
    ensures !Missing(states, steps, h, d, 0)
  {
  }

  lemma MissingGrows(states: seq<State>, steps: seq<Step>, h: Host, d: Disk, i: nat)
    requires |states| == |steps| + 1 && i < |steps| && d in states[i + 1].vols
    ensures Missing(states, steps, h, d, i + 1) <==>
              && states[i + 1].vols[d].owner != Some(h)
              && (RobsFrom(states[i], steps[i], h, d) || Missing(states, steps, h, d, i))
  {
    hide RobsFrom;
    var n := i + 1;
    if j: nat :| j < n && RobbedAndNotBack(states, steps, h, d, n, j) {
      assert j < i ==> RobbedAndNotBack(states, steps, h, d, i, j);
    }
    if states[i + 1].vols[d].owner != Some(h) {
      if RobsFrom(states[i], steps[i], h, d) {
        assert RobbedAndNotBack(states, steps, h, d, i + 1, i);
      }
      if j: nat :| j < i && RobbedAndNotBack(states, steps, h, d, i, j) {
        assert RobbedAndNotBack(states, steps, h, d, i + 1, j);
      }
    }
  }

  /** The locks that count as taken from a host are exactly those that some step took, and that the host has
  not had again since. */
  lemma {:induction false} LostExactly(states: seq<State>, steps: seq<Step>, i: nat, h: Host, d: Disk)
    requires IsRun(states, steps) && i < |states| && d in states[0].vols && (h == SRC || h == TGT)
    ensures |states| == |steps| + 1 && d in states[i].vols
    ensures d in Lost(states[i], h) <==> Missing(states, steps, h, d, i)
  {
    RunShape(states, steps);
    hide RobsFrom, IsRun, RobbedAndNotBack, Missing;
    if i == 0 {
      NothingMissingYet(states, steps, h, d);
    } else {
      LostExactly(states, steps, i - 1, h, d);
      RunLosesExactly(states, steps, i - 1, h, d);
      MissingGrows(states, steps, h, d, i - 1);
    }
  }

  // ------------------------------------------------------------- runs without a lost `lock rm` reply

  /** All flags tell the truth, and nothing was taken from either host. */
  predicate Untouched(s: State) {
    AllHonest(s.vols) && s.lostBySource == {} && s.lostByTarget == {}
  }

  /** A step that does not lose a `lock rm` reply under a set flag keeps it so. */
  lemma EffectKeepsUntouched(s: State, e: Step, t: State)
    requires LocksEffect(s, e, t)
    ensures s.faults.staleFlag ==> t.faults.staleFlag
    ensures Untouched(s) && !t.faults.staleFlag ==> Untouched(t) && !RobsBy(s, e)
  {
    if Untouched(s) && Unlocks(e) {
      UnlockHonestExactly(LockActor(e), s.vols[e.d], e.u, e.after);
    }
  }

  lemma {:induction false} RunStaysUntouched(states: seq<State>, steps: seq<Step>, i: nat)
    requires IsRun(states, steps) && i < |states|
    requires AllHonest(states[0].vols) && !states[i].faults.staleFlag
    ensures Untouched(states[i])
  {
    hide LocksEffect, IsRun;
    RunShape(states, steps);
    if i > 0 {
      RunLocksEffect(states, steps, i - 1);
      EffectKeepsUntouched(states[i - 1], steps[i - 1], states[i]);
      RunStaysUntouched(states, steps, i - 1);
    }
  }

  /** In particular: if all flags are honest at the start and no `lock rm` has lost its reply under a set
  flag, the target's guest runs only under all locks, and the source ends with its guest gone or running
  under all locks. */
  lemma WithoutLostReplies(states: seq<State>, steps: seq<Step>, i: nat)
    requires IsRun(states, steps) && i < |states|
    requires AllHonest(states[0].vols) && !states[i].faults.staleFlag
    ensures states[i].targetGuest == Running ==> Holds(states[i].vols, TGT)
    ensures states[i].spc.SEnded? && !states[i].faults.sourceDestroy ==>
              || states[i].sourceGuest == NoGuest
              || (states[i].sourceGuest == Running && Holds(states[i].vols, SRC) && states[i].targetGuest != Running)
  {
    RunStaysUntouched(states, steps, i);
    hide IsRun;
    TargetRunsOnlyUnderAllLocks(states, steps, i);
    if states[i].spc.SEnded? {
      SourceEndsGoneOrLocked(states, steps, i);
    }
  }

  /** And then no step took another host's lock. */
  lemma WithoutLostRepliesNobodyRobs(states: seq<State>, steps: seq<Step>, i: nat)
    requires IsRun(states, steps) && i < |steps|
    requires AllHonest(states[0].vols) && !states[i + 1].faults.staleFlag
    ensures OnlyFrom(states[i].vols, states[i + 1].vols, Actor(states[i], steps[i]))
  {
    RunShape(states, steps);
    hide LocksEffect, RobsBy, IsRun;
    RunLocksEffect(states, steps, i);
    EffectKeepsUntouched(states[i], steps[i], states[i + 1]);
    RunStaysUntouched(states, steps, i);
    LocksLeaveOnlyTheirOwner(states, steps, i);
  }
}
