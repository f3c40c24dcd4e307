/** Why the source of a migration leaves its way: each turn it takes for the worse has its cause in the run,
and each such cause makes it turn. */
module MigrationCauses {
  import opened Basics
  import opened VolumeLock
  import opened MigrationProtocol
  import opened MigrationSafety
  import MigrationWorld

  /** How far the source has given up: 0 handing the guest over, 1 having it rescued by the target, 2 rescuing
  it locally, 3 destroying it. */
  function Stage(pc: SourcePc): nat {
    match pc
    case Rescuing => 1
    case WaitRescue => 1
    case WaitRescueFinish => 1
    case WaitDestroy => 2
    case Relocking(_) => 2
    case Checking => 2
    case SKilling(reason) => StageOf(reason)
    case SDropping(_, reason) => StageOf(reason)
    case SEnded(Migrated) => 0
    case SEnded(RescuedRemotely) => 1
    case SEnded(ContinuedLocally) => 2
    case SEnded(_) => 3
    case _ => 0
  }

  function StageOf(reason: KillReason): nat {
    match reason
    case AfterMigration => 0
    case AfterRemoteRescue => 1
    case GivingUpLocally => 3
  }

  /** A step of the handover fails, or a request of it raises. */
  predicate HandoverFails(s: State, e: Step) {
    match e
    case Connect(found) => !found
    case MigrationLocks(got) => !got
    case CancelReturns => true
    case ReleaseDone => s.spc.Releasing? && s.spc.failed
    case AcquireReturns(ok) => !ok
    case Configured(ok) => !ok
    case PrepareReturns(ok) => !ok
    case StartMigration(ok, _) => !ok
    case Poll(completed) => !completed
    case Kill(how) => how == KillRaises && s.spc == SKilling(AfterMigration)
    case _ => false
  }

  /** The target's rescue is refused or not heard of, or the `_destroy` after it raises. */
  predicate RemoteRescueFails(s: State, e: Step) {
    match e
    case RescueReturns(ok) => !ok
    case RescueFinishReturns(ok) => !ok
    case Kill(how) => how == KillRaises && s.spc == SKilling(AfterRemoteRescue)
    case _ => false
  }

  /** There is no target, or its rescue fails. */
  predicate TargetFails(s: State, e: Step) {
    e == Connect(false) || RemoteRescueFails(s, e)
  }

  /** A lock cannot be taken back, or the guest is not seen running. */
  predicate LocalRescueFails(s: State, e: Step) {
    match e
    case Relock(_, l, _) => l == LockRaised
    case Check(ok) => !ok
    case _ => false
  }

  /** One step: the source is past each stage exactly if it was or the step takes it there. */
  predicate TurnsBy(s: State, e: Step, t: State) {
    && (Stage(t.spc) >= 1 <==> Stage(s.spc) >= 1 || HandoverFails(s, e))
    && (Stage(t.spc) >= 2 <==> Stage(s.spc) >= 2 || TargetFails(s, e))
    && (Stage(t.spc) == 3 <==> Stage(s.spc) == 3 || LocalRescueFails(s, e))
  }

  /** The step sends the request. */
  predicate Sends(m: Msg, s: State, e: Step) {
    match m
    case Cancel => e == AskCancel
    case AcquireLocks => e == ReleaseDone && s.spc.Releasing? && !s.spc.failed
    case Prepare => e == Configured(true)
    case Finish => e == RescueReturns(true) || GuestHandedOver(s, e)
    case Rescue => e == AskRescue
    case Destroy => RemoteRescueFails(s, e)
  }

  /** The source's `_destroy` of a migrated guest returns. */
  predicate GuestHandedOver(s: State, e: Step) {
    || (e == DropDone && Destroying(s.spc, AfterMigration))
    || (e == Kill(KillTimesOut) && s.spc == SKilling(AfterMigration))
  }

  /** One step: a request counts as sent exactly if it did or the step sends it. */
  predicate SendsOnly(s: State, e: Step, t: State) {
    && (Sent(t.requests.cancel) <==> Sent(s.requests.cancel) || Sends(Cancel, s, e))
    && (Sent(t.requests.acquire) <==> Sent(s.requests.acquire) || Sends(AcquireLocks, s, e))
    && (Sent(t.requests.prepare) <==> Sent(s.requests.prepare) || Sends(Prepare, s, e))
    && (Sent(t.requests.finish) <==> Sent(s.requests.finish) || Sends(Finish, s, e))
    && (Sent(t.requests.rescue) <==> Sent(s.requests.rescue) || Sends(Rescue, s, e))
    && (Sent(t.requests.destroy) <==> Sent(s.requests.destroy) || Sends(Destroy, s, e))
  }

  lemma HandoverTurns(s: State, e: Step)
    requires HandoverEnabled(s, e)
    ensures TurnsBy(s, e, HandoverApply(s, e))
  {
    hide LockStep, UnlockStep, Robs, TakesUnseen;
  }

  lemma HandoverSends(s: State, e: Step)
    requires HandoverEnabled(s, e)
    ensures SendsOnly(s, e, HandoverApply(s, e))
  {
    hide LockStep, UnlockStep, Robs, TakesUnseen;
  }

  lemma RescueTurns(s: State, e: Step)
    requires RescueEnabled(s, e)
    ensures TurnsBy(s, e, RescueApply(s, e))
  {
    hide LockStep, UnlockStep, Robs, TakesUnseen;
  }

  lemma RescueSends(s: State, e: Step)
    requires RescueEnabled(s, e)
    ensures SendsOnly(s, e, RescueApply(s, e))
  {
    hide LockStep, UnlockStep, Robs, TakesUnseen;
  }

  lemma KillTurns(s: State, e: Step)
    requires KillEnabled(s, e)
    ensures TurnsBy(s, e, KillApply(s, e))
  {
    hide LockStep, UnlockStep, Robs, TakesUnseen;
  }

  lemma KillSends(s: State, e: Step)
    requires KillEnabled(s, e)
    ensures SendsOnly(s, e, KillApply(s, e))
  {
    hide LockStep, UnlockStep, Robs, TakesUnseen;
  }

  lemma StartSends(s: State, e: Step)
    requires ServeEnabled(s, e) && e.TStart?
    ensures SendsOnly(s, e, ServeApply(s, e))
  {
    hide LockStep, UnlockStep, Robs, TakesUnseen;
    assert ServeApply(s, e).requests == With(s.requests, e.m, InHand);
  }

  lemma ReplySends(s: State, e: Step)
    requires RequestInv(s) && ServeEnabled(s, e) && !e.TStart?
    ensures SendsOnly(s, e, ServeApply(s, e))
  {
    hide LockStep, UnlockStep, Robs, TakesUnseen;
  }

  lemma ServeSends(s: State, e: Step)
    requires RequestInv(s) && ServeEnabled(s, e)
    ensures SendsOnly(s, e, ServeApply(s, e))
  {
    hide SendsOnly, RequestInv;
    if e.TStart? {
      StartSends(s, e);
    } else {
      ReplySends(s, e);
    }
  }

  lemma KillSendsNothing(s: State, e: Step)
    requires RequestInv(s) && CleanEnabled(s, e) && e.TKill?
    ensures SendsOnly(s, e, CleanApply(s, e))
  {
  }

  lemma UnlockSendsNothing(s: State, e: Step)
    requires RequestInv(s) && CleanEnabled(s, e) && !e.TKill?
    ensures SendsOnly(s, e, CleanApply(s, e))
  {
    hide LockStep, UnlockStep, Robs, TakesUnseen;
  }

  lemma CleanSends(s: State, e: Step)
    requires RequestInv(s) && CleanEnabled(s, e)
    ensures SendsOnly(s, e, CleanApply(s, e))
  {
    hide SendsOnly, RequestInv;
    if e.TKill? {
      KillSendsNothing(s, e);
    } else {
      UnlockSendsNothing(s, e);
    }
  }

  lemma WorldSends(s: State, e: Step)
    requires WorldEnabled(s, e)
    ensures SendsOnly(s, e, WorldApply(s, e))
  {
    hide LockStep, UnlockStep, Robs, TakesUnseen;
  }

  lemma OthersFailNothing(s: State, e: Step)
    requires ServeEnabled(s, e) || CleanEnabled(s, e) || WorldEnabled(s, e)
    ensures !HandoverFails(s, e) && !TargetFails(s, e) && !LocalRescueFails(s, e)
  {
  }

  lemma OthersTurnNothing(s: State, e: Step, t: State)
    requires !HandoverFails(s, e) && !TargetFails(s, e) && !LocalRescueFails(s, e) && t.spc == s.spc
    ensures TurnsBy(s, e, t)
  {
  }

  lemma NextTurns(s: State, e: Step, t: State)
    requires Next(s, e, t)
    ensures TurnsBy(s, e, t)
  {
    hide TurnsBy, HandoverFails, TargetFails, LocalRescueFails, MigrationWorld.NoneGained;
    if HandoverEnabled(s, e) {
      HandoverTurns(s, e);
    } else if RescueEnabled(s, e) {
      RescueTurns(s, e);
    } else if KillEnabled(s, e) {
      KillTurns(s, e);
    } else {
      OthersFailNothing(s, e);
      MigrationWorld.OthersKeepSource(s, e);
      OthersTurnNothing(s, e, t);
    }
  }

  lemma NextSends(s: State, e: Step, t: State)
    requires RequestInv(s) && Next(s, e, t)
    ensures SendsOnly(s, e, t)
  {
    hide SendsOnly, RequestInv;
    if HandoverEnabled(s, e) {
      HandoverSends(s, e);
    } else if RescueEnabled(s, e) {
      RescueSends(s, e);
    } else if KillEnabled(s, e) {
      KillSends(s, e);
    } else if ServeEnabled(s, e) {
      ServeSends(s, e);
    } else if CleanEnabled(s, e) {
      CleanSends(s, e);
    } else {
      WorldSends(s, e);
    }
  }

  /** A step of the kind has been taken by then. */
  ghost predicate Happened(kind: (State, Step) -> bool, states: seq<State>, steps: seq<Step>, i: nat) {
    i <= |steps| < |states| && exists j: nat :: j < i && kind(states[j], steps[j])
  }

  lemma HappenedGrows(kind: (State, Step) -> bool, states: seq<State>, steps: seq<Step>, i: nat)
    requires i < |steps| < |states|
    ensures Happened(kind, states, steps, i + 1) <==> Happened(kind, states, steps, i) || kind(states[i], steps[i])
  {
    if j: nat :| j < i && kind(states[j], steps[j]) {
      assert Happened(kind, states, steps, i + 1);
    } else if kind(states[i], steps[i]) {
      assert Happened(kind, states, steps, i + 1);
    }
  }

  /** Every turn of the source has its cause, and every cause makes it turn. In every run it is past the
  handover exactly if a step of the handover failed; past the remote rescue exactly if it found no target, or
  the target's rescue or its confirmation was refused or lost, or the `_destroy` after them raised; and
  destroying its guest without the target having it exactly if it could not take a lock back or did not see its
  guest running. */
  lemma {:induction false} TurnsExactly(states: seq<State>, steps: seq<Step>, i: nat)
    requires IsRun(states, steps) && i < |states|
    ensures Stage(states[i].spc) >= 1 <==> Happened(HandoverFails, states, steps, i)
    ensures Stage(states[i].spc) >= 2 <==> Happened(TargetFails, states, steps, i)
    ensures Stage(states[i].spc) == 3 <==> Happened(LocalRescueFails, states, steps, i)
  {
    RunShape(states, steps);
    hide IsRun, Stage, Happened, HandoverFails, TargetFails, LocalRescueFails;
    if i == 0 {
      StartsWithNothing(states, steps);
    } else {
      var k := i - 1;
      TurnsExactly(states, steps, k);
      RunTurns(states, steps, k);
      HappenedGrows(HandoverFails, states, steps, k);
      HappenedGrows(TargetFails, states, steps, k);
      HappenedGrows(LocalRescueFails, states, steps, k);
    }
  }

  function Sending(m: Msg): (State, Step) -> bool {
    (s, e) => Sends(m, s, e)
  }

  /** Every request that was sent has its cause, and every cause sends it. In particular the target is told to
  destroy the guest exactly if its rescue or its confirmation was refused or lost, or the `_destroy` after
  them raised; so never after a rescue that went well. */
  lemma {:induction false} SentExactly(states: seq<State>, steps: seq<Step>, i: nat, m: Msg)
    requires IsRun(states, steps) && i < |states|
    ensures Sent(Status(states[i].requests, m)) <==> Happened(Sending(m), states, steps, i)
  {
    RunShape(states, steps);
    hide IsRun, Happened, Sends;
    if i == 0 {
      StartsWithNothing(states, steps);
    } else {
      var k := i - 1;
      SentExactly(states, steps, k, m);
      RunSends(states, steps, k);
      HappenedGrows(Sending(m), states, steps, k);
    }
  }

  lemma StartsWithNothing(states: seq<State>, steps: seq<Step>)
    requires IsRun(states, steps)
    ensures Stage(states[0].spc) == 0 && forall m :: !Sent(Status(states[0].requests, m))
    ensures forall kind :: !Happened(kind, states, steps, 0)
  {
  }

  lemma RunTurns(states: seq<State>, steps: seq<Step>, i: nat)
    requires IsRun(states, steps) && i < |steps|
    ensures TurnsBy(states[i], steps[i], states[i + 1])
  {
    hide TurnsBy;
    NextTurns(states[i], steps[i], states[i + 1]);
  }

  lemma RunSends(states: seq<State>, steps: seq<Step>, i: nat)
    requires IsRun(states, steps) && i < |steps|
    ensures SendsOnly(states[i], steps[i], states[i + 1])
  {
    hide SendsOnly, SentInv, BegunInv, RequestInv, TargetInv, HandoverInv, OutInv, SourceInv, EndInv, VerdictInv;
    RunKeepsInv(states, steps, i);
    NextSends(states[i], steps[i], states[i + 1]);
  }

  // ------------------------------------------------------------------------------------ the target

  /** What decides the target's loop in each way. */
  predicate Decides(v: Verdict, s: State, e: Step) {
    match v
    case Undecided => false
    case Success => e == TFinish(true)
    case Cancelled => e == TUnlockDone && s.tpc.TUnlocking? && s.tpc.reason == ForCancel(false)
    case Destroyed =>
      || e == TStart(Destroy)
      || (e.TLock? && e.l == LockRaised && s.tpc.TLocking? && s.tpc.request == Rescue)
  }

  /** Once decided, the target only finishes the request at hand, or clears up. */
  predicate DecidedInv(s: State) {
    s.finished != Undecided ==>
      match s.tpc
      case TLooping => true
      case TKilling(Some(m)) => s.finished == Destroyed
      case TUnlocking(_, ForDestroy(_)) => s.finished == Destroyed
      case TKilling(None) => s.finished != Success
      case TUnlocking(_, ForEnd) => s.finished != Success
      case TEnded => true
      case _ => false
  }

  /** The target gives the guest up, or has given it up, at the end of its loop. */
  predicate Abandons(s: State) {
    || s.tpc == TKilling(None)
    || (s.tpc.TUnlocking? && s.tpc.reason == ForEnd)
    || (s.tpc == TEnded && s.finished != Success)
  }

  predicate DecidesBy(s: State, e: Step, t: State) {
    && DecidedInv(t)
    && (forall v :: v != Undecided ==> (t.finished == v <==> s.finished == v || Decides(v, s, e)))
    && (Abandons(t) ==> Abandons(s) || e == TExpire || t.finished == Cancelled || t.finished == Destroyed)
  }

  predicate OthersEnabled(s: State, e: Step) {
    SourceEnabled(s, e) || WorldEnabled(s, e)
  }

  lemma OthersMakeNoDecision(s: State, e: Step)
    requires OthersEnabled(s, e)
    ensures forall v :: !Decides(v, s, e)
  {
    hide LockStep, UnlockStep, Robs, TakesUnseen, LockOn, UnlockOn;
  }

  lemma OthersDecideNothing(s: State, e: Step, t: State)
    requires DecidedInv(s) && t.tpc == s.tpc && t.finished == s.finished && forall v :: !Decides(v, s, e)
    ensures DecidesBy(s, e, t)
  {
    hide Decides;
  }

  lemma StartDecides(s: State, e: Step)
    requires DecidedInv(s) && ServeEnabled(s, e) && e.TStart?
    ensures DecidesBy(s, e, ServeApply(s, e))
  {
  }

  lemma ServeDecides(s: State, e: Step)
    requires DecidedInv(s) && ServeEnabled(s, e) && !e.TStart?
    ensures DecidesBy(s, e, ServeApply(s, e))
  {
    hide LockStep, UnlockStep, Robs, TakesUnseen;
  }

  lemma CleanDecides(s: State, e: Step)
    requires RequestInv(s) && DecidedInv(s) && CleanEnabled(s, e)
    ensures DecidesBy(s, e, CleanApply(s, e))
  {
    hide LockStep, UnlockStep, Robs, TakesUnseen;
  }

  lemma NextDecides(s: State, e: Step, t: State)
    requires RequestInv(s) && DecidedInv(s) && Next(s, e, t)
    ensures DecidesBy(s, e, t)
  {
    hide DecidesBy, DecidedInv, RequestInv;
    if OthersEnabled(s, e) {
      OthersMakeNoDecision(s, e);
      MigrationWorld.ClientsKeepServer(s, e);
      OthersDecideNothing(s, e, t);
    } else if ServeEnabled(s, e) {
      if e.TStart? {
        StartDecides(s, e);
      } else {
        ServeDecides(s, e);
      }
    } else {
      CleanDecides(s, e);
    }
  }

  function Deciding(v: Verdict): (State, Step) -> bool {
    (s, e) => Decides(v, s, e)
  }

  function Expiring(): (State, Step) -> bool {
    (s, e) => e == TExpire
  }

  /** The target decides for a cause, and for each cause it decides: for success by serving `finish_incoming`,
  against by a cancel whose unlocks all worked, by a destroy request, or by a rescue that could not take a
  lock. Without one of the latter it gives its guest up only when its deadline has passed. */
  lemma {:induction false} VerdictExactly(states: seq<State>, steps: seq<Step>, i: nat)
    requires IsRun(states, steps) && i < |states|
    ensures DecidedInv(states[i])
    ensures forall v :: v != Undecided ==> (states[i].finished == v <==> Happened(Deciding(v), states, steps, i))
    ensures Abandons(states[i]) ==>
              || Happened(Deciding(Cancelled), states, steps, i) || Happened(Deciding(Destroyed), states, steps, i)
              || Happened(Expiring(), states, steps, i)
  {
    RunShape(states, steps);
    hide IsRun, Happened, Decides, DecidedInv, Abandons;
    if i == 0 {
      StartsUndecided(states, steps);
    } else {
      var k := i - 1;
      VerdictExactly(states, steps, k);
      RunDecides(states, steps, k);
      forall v ensures Happened(Deciding(v), states, steps, i) <==>
                         Happened(Deciding(v), states, steps, k) || Decides(v, states[k], steps[k]) {
        HappenedGrows(Deciding(v), states, steps, k);
      }
      HappenedGrows(Expiring(), states, steps, k);
    }
  }

  lemma StartsUndecided(states: seq<State>, steps: seq<Step>)
    requires IsRun(states, steps)
    ensures DecidedInv(states[0]) && states[0].finished == Undecided && !Abandons(states[0])
    ensures forall kind :: !Happened(kind, states, steps, 0)
  {
  }

  lemma RunDecides(states: seq<State>, steps: seq<Step>, i: nat)
    requires IsRun(states, steps) && i < |steps| && DecidedInv(states[i])
    ensures DecidesBy(states[i], steps[i], states[i + 1])
  {
    hide DecidesBy, DecidedInv;
    hide SentInv, BegunInv, RequestInv, TargetInv, HandoverInv, OutInv, SourceInv, EndInv, VerdictInv;
    RunKeepsInv(states, steps, i);
    NextDecides(states[i], steps[i], states[i + 1]);
  }
}
