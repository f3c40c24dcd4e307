/** Live migration of one guest from a source host to a target host, as a transition system.

The source is the control flow of `Outgoing`, exceptions included; the target is the control flow
of `IncomingServer` and its message handlers. A request the source sends becomes pending; the
target may serve it then, later (also after the source saw an error and went on) or never, in any
order, but at most once. The source may see an error for any request at any time and sees success
only if the target served the request successfully. Volume locks change one volume at a time, by
the steps of module `VolumeLock`, and other hosts lock and unlock volumes throughout. A lock call whose
`lock add` took effect unseen, and was undone by another host before the call tried again, has one more step
for that. */
module MigrationProtocol {
  import opened Basics
  import opened VolumeLock

  const SRC: Host := 0
  const TGT: Host := 1

  datatype Guest = NoGuest | Inmigrate | Running | Postmigrate

  datatype Msg = Cancel | AcquireLocks | Prepare | Finish | Rescue | Destroy

  /** `IncomingServer.finished`. */
  datatype Verdict = Undecided | Success | Cancelled | Destroyed

  datatype KillReason = AfterMigration | AfterRemoteRescue | GivingUpLocally

  datatype Result = Migrated | RescuedRemotely | ContinuedLocally | DestroyedLocally | Crashed

  /** How `_destroy` ends: guest gone, budget used up with a warning only, or an exception. */
  datatype KillResult = KillDone | KillTimesOut | KillRaises

  datatype SourcePc =
    | Connecting | MigLocking | WaitCancel
    | Releasing(todo: set<Disk>, failed: bool) | WaitAcquire
    | Configuring | WaitPrepare | Starting | Polling
    | Rescuing | WaitRescue | WaitRescueFinish | WaitDestroy
    | Relocking(todo: set<Disk>) | Checking
    | SKilling(reason: KillReason) | SDropping(todo: set<Disk>, reason: KillReason) | WaitFinish
    | SEnded(result: Result)

  datatype UnlockReason = ForRequest(failing: Msg) | ForCancel(failed: bool) | ForDestroy(request: Msg) | ForEnd

  datatype TargetPc =
    | Serving
    | TLocking(todo: set<Disk>, request: Msg)
    | TPreparing | TRescuing | TFinishing
    | TKilling(onRequest: Option<Msg>)
    | TUnlocking(todo: set<Disk>, reason: UnlockReason)
    | TLooping
    | TEnded

  /** What went wrong beyond lost requests: a `lock rm` that lost its reply while the caller's flag was
  set; a `_destroy` on the source that left the guest; a local failure on the source, that is, its
  guest dying by itself, relocking failing on a volume that is its own then, or its running guest not recognised; a
  destruction on the target that left the guest; the target's guest dying by itself. */
  datatype Faults = Faults(
    staleFlag: bool, sourceDestroy: bool, sourceLocal: bool, targetDestroy: bool, targetDied: bool)

  /** What became of a request: each is sent at most once and served at most once. `Failed` covers a
  request that raised on the target; whether the source learns the end of a served request is open. */
  datatype Request = Unsent | Pending | InHand | Failed | Granted

  datatype Requests = Requests(
    cancel: Request, acquire: Request, prepare: Request, finish: Request, rescue: Request, destroy: Request)

  function Status(r: Requests, m: Msg): Request {
    match m
    case Cancel => r.cancel
    case AcquireLocks => r.acquire
    case Prepare => r.prepare
    case Finish => r.finish
    case Rescue => r.rescue
    case Destroy => r.destroy
  }

  function With(r: Requests, m: Msg, q: Request): Requests {
    match m
    case Cancel => r.(cancel := q)
    case AcquireLocks => r.(acquire := q)
    case Prepare => r.(prepare := q)
    case Finish => r.(finish := q)
    case Rescue => r.(rescue := q)
    case Destroy => r.(destroy := q)
  }

  /** `lostBySource`, `lostByTarget`: volumes whose lock another host's unlock has taken from the host, up
  to when the host has it again. `wire`: the source's qemu has an accepted migration to the target's qemu under way.
  `begun`: the source has entered `transfer_ceph_locks`. */
  datatype State = State(
    vols: Volumes, lostBySource: set<Disk>, lostByTarget: set<Disk>, sourceGuest: Guest, targetGuest: Guest, wire: bool,
    spc: SourcePc, tpc: TargetPc, finished: Verdict,
    requests: Requests, begun: bool, faults: Faults)

  datatype Step =
    // Outgoing
    | Connect(found: bool) | MigrationLocks(got: bool) | AskCancel | CancelReturns
    | Release(d: Disk, u: UnlockOutcome, after: ImageLock) | ReleaseDone
    | AcquireReturns(ok: bool) | Configured(ok: bool) | PrepareReturns(ok: bool)
    | StartMigration(ok: bool, accepted: bool) | Poll(completed: bool)
    | AskRescue | RescueReturns(ok: bool) | RescueFinishReturns(ok: bool) | DestroyReturns
    | RelockUnseen(d: Disk, after: ImageLock) | Relock(d: Disk, l: LockOutcome, after: ImageLock) | RelockDone | Check(ok: bool)
    | Kill(how: KillResult) | Drop(d: Disk, u: UnlockOutcome, after: ImageLock) | DropDone
    | FinishReturns
    // IncomingServer
    | TStart(m: Msg) | TLockUnseen(d: Disk, after: ImageLock) | TLock(d: Disk, l: LockOutcome, after: ImageLock) | TLockDone
    | TPrepare(ok: bool, spawned: bool) | TRescue(seen: Option<bool>) | TFinish(ok: bool)
    | TKill(how: KillResult) | TUnlock(d: Disk, u: UnlockOutcome, after: ImageLock) | TUnlockDone
    | TLoop | TExpire | TLeave
    // qemu and the rest of the world
    | Complete | MigrationFails(targetExits: bool) | SourceDies | TargetDies
    | OtherLocks(h: Host, d: Disk, l: LockOutcome, after: ImageLock)
    | OtherUnlocks(h: Host, d: Disk, u: UnlockOutcome, after: ImageLock)

  type Volumes = map<Disk, ImageLock>

  /** `h` holds the locks of all volumes but those still to do. */
  predicate HoldsBut(vols: Volumes, todo: set<Disk>, h: Host) {
    forall d :: d in vols && d !in todo ==> vols[d].owner == Some(h)
  }

  predicate Holds(vols: Volumes, h: Host) {
    forall d :: d in vols ==> vols[d].owner == Some(h)
  }

  predicate HoldsNone(vols: Volumes, h: Host) {
    forall d :: d in vols ==> vols[d].owner != Some(h)
  }

  predicate AllHonest(vols: Volumes) {
    forall d :: d in vols ==> Honest(vols[d])
  }

  predicate Init(s: State) {
    && s.vols != map[] && Holds(s.vols, SRC) && s.lostBySource == {} && s.lostByTarget == {}
    && s.sourceGuest == Running && s.targetGuest == NoGuest && !s.wire
    && s.spc == Connecting && s.tpc == Serving && s.finished == Undecided
    && s.requests == Requests(Unsent, Unsent, Unsent, Unsent, Unsent, Unsent)
    && !s.begun && s.faults == Faults(false, false, false, false, false)
  }

  function Send(s: State, m: Msg): State {
    s.(requests := With(s.requests, m, Pending))
  }

  /** A handler ends, by return or exception. */
  function Reply(s: State, m: Msg, ok: bool): State {
    s.(requests := With(s.requests, m, if ok then Granted else Failed), tpc := TLooping)
  }

  predicate UnlockOn(s: State, h: Host, d: Disk, u: UnlockOutcome, after: ImageLock) {
    d in s.vols && UnlockStep(h, s.vols[d], u, after)
  }

  predicate LockOn(s: State, h: Host, d: Disk, l: LockOutcome, after: ImageLock) {
    d in s.vols && LockStep(h, s.vols[d], l, after)
  }

  /** An unlock of `h` takes effect on another host's lock: `h` has the flag set and sees a lock, and goes
  by the flag. */
  predicate Robs(h: Host, a: ImageLock, u: UnlockOutcome) {
    (u == Released || u == ReplyLost) && h in a.marked && a.owner.Some? && a.owner != Some(h)
  }

  /** A `lock add` takes the free lock and reports failure; the call goes on. */
  predicate TakesUnseen(s: State, h: Host, d: Disk, after: ImageLock) {
    d in s.vols && s.vols[d].owner == None && LockOn(s, h, d, LockRaised, after) && after.owner == Some(h)
  }

  function Unlocked(s: State, h: Host, d: Disk, u: UnlockOutcome, after: ImageLock): State
    requires d in s.vols
  {
    var a := s.vols[d];
    s.(vols := s.vols[d := after],
       lostBySource := if Robs(h, a, u) && a.owner == Some(SRC) then s.lostBySource + {d} else s.lostBySource,
       lostByTarget := if Robs(h, a, u) && a.owner == Some(TGT) then s.lostByTarget + {d} else s.lostByTarget,
       faults := s.faults.(staleFlag := s.faults.staleFlag || (u == ReplyLost && h in a.marked)))
  }

  function Locked(s: State, h: Host, d: Disk, after: ImageLock): State
    requires d in s.vols
  {
    s.(vols := s.vols[d := after],
       lostBySource := if h == SRC && after.owner == Some(SRC) then s.lostBySource - {d} else s.lostBySource,
       lostByTarget := if h == TGT && after.owner == Some(TGT) then s.lostByTarget - {d} else s.lostByTarget)
  }

  /** What follows once a `_destroy` on the source returned. */
  function AfterKill(s: State, reason: KillReason): State {
    match reason
    case AfterMigration => Send(s, Finish).(spc := WaitFinish)
    case AfterRemoteRescue => s.(spc := SEnded(RescuedRemotely))
    case GivingUpLocally => s.(spc := SEnded(DestroyedLocally))
  }

  function AfterKillRaised(s: State, reason: KillReason): State {
    match reason
    case AfterMigration => s.(spc := Rescuing)
    case AfterRemoteRescue => Send(s, Destroy).(spc := WaitDestroy)
    case GivingUpLocally => s.(spc := SEnded(Crashed))
  }

  /** The serving loop's test of `finished` after a request. */
  function AfterRequest(s: State): State {
    match s.finished
    case Undecided => s.(tpc := Serving)
    case Success => s.(tpc := TEnded)
    case _ => s.(tpc := TKilling(None))
  }

  /** `connect` to the end of polling: the way to a migrated guest, and where it is left. */
  predicate HandoverEnabled(s: State, e: Step) {
    match e
    case Connect(_) => s.spc == Connecting
    case MigrationLocks(_) => s.spc == MigLocking
    case AskCancel => s.spc == MigLocking
    case CancelReturns => s.spc == WaitCancel
    case Release(d, u, after) => s.spc.Releasing? && d in s.spc.todo && UnlockOn(s, SRC, d, u, after)
    case ReleaseDone => s.spc.Releasing? && s.spc.todo == {}
    case AcquireReturns(ok) => s.spc == WaitAcquire && (ok ==> s.requests.acquire == Granted)
    case Configured(_) => s.spc == Configuring
    case PrepareReturns(ok) => s.spc == WaitPrepare && (ok ==> s.requests.prepare == Granted)
    case StartMigration(_, _) => s.spc == Starting
    case Poll(completed) => s.spc == Polling && (completed ==> s.sourceGuest == Postmigrate)
    case _ => false
  }

  function HandoverApply(s: State, e: Step): State
    requires HandoverEnabled(s, e)
  {
    match e
    case Connect(found) => s.(spc := if found then MigLocking else Relocking(s.vols.Keys))
    case MigrationLocks(got) =>
      if got then s.(begun := true, spc := Releasing(s.vols.Keys, false)) else s.(spc := Rescuing)
    case AskCancel => Send(s, Cancel).(spc := WaitCancel)
    case CancelReturns => s.(spc := Rescuing)
    case Release(d, u, after) =>
      Unlocked(s, SRC, d, u, after).(
      spc := Releasing(s.spc.todo - {d}, s.spc.failed || u == UnlockRaised || u == ReplyLost))
    case ReleaseDone => if s.spc.failed then s.(spc := Rescuing) else Send(s, AcquireLocks).(spc := WaitAcquire)
    case AcquireReturns(ok) => s.(spc := if ok then Configuring else Rescuing)
    case Configured(ok) => if ok then Send(s, Prepare).(spc := WaitPrepare) else s.(spc := Rescuing)
    case PrepareReturns(ok) => s.(spc := if ok then Starting else Rescuing)
    case StartMigration(ok, accepted) =>
      s.(wire := s.wire || (accepted && s.sourceGuest == Running && s.targetGuest == Inmigrate),
         spc := if ok then Polling else Rescuing)
    case Poll(completed) => s.(spc := if completed then SKilling(AfterMigration) else Rescuing)
  }

  /** `Outgoing.rescue` up to its decisions to destroy the guest. */
  predicate RescueEnabled(s: State, e: Step) {
    match e
    case AskRescue => s.spc == Rescuing
    case RescueReturns(ok) => s.spc == WaitRescue && (ok ==> s.requests.rescue == Granted)
    case RescueFinishReturns(ok) => s.spc == WaitRescueFinish && (ok ==> s.requests.finish == Granted)
    case DestroyReturns => s.spc == WaitDestroy
    case RelockUnseen(d, after) => s.spc.Relocking? && d in s.spc.todo && TakesUnseen(s, SRC, d, after)
    case Relock(d, l, after) => s.spc.Relocking? && d in s.spc.todo && LockOn(s, SRC, d, l, after)
    case RelockDone => s.spc.Relocking? && s.spc.todo == {}
    case Check(ok) => s.spc == Checking && (ok ==> s.sourceGuest == Running)
    case _ => false
  }

  function RescueApply(s: State, e: Step): State
    requires RescueEnabled(s, e)
  {
    match e
    case AskRescue => Send(s, Rescue).(spc := WaitRescue)
    case RescueReturns(ok) =>
      if ok then Send(s, Finish).(spc := WaitRescueFinish) else Send(s, Destroy).(spc := WaitDestroy)
    case RescueFinishReturns(ok) =>
      if ok then s.(spc := SKilling(AfterRemoteRescue)) else Send(s, Destroy).(spc := WaitDestroy)
    case DestroyReturns => s.(spc := Relocking(s.vols.Keys))
    case RelockUnseen(d, after) => Locked(s, SRC, d, after)
    case Relock(d, l, after) =>
      var t := Locked(s, SRC, d, after);
      if l == LockRaised then
        t.(spc := SKilling(GivingUpLocally),
           faults := s.faults.(sourceLocal := s.faults.sourceLocal || after.owner == Some(SRC)))
      else t.(spc := Relocking(s.spc.todo - {d}))
    case RelockDone => s.(spc := Checking)
    case Check(ok) =>
      if ok then s.(spc := SEnded(ContinuedLocally))
      else
        s.(spc := SKilling(GivingUpLocally),
           faults := s.faults.(sourceLocal := s.faults.sourceLocal || s.sourceGuest == Running))
  }

  /** `Agent._destroy` on the source, and the end of `migrate`. */
  predicate KillEnabled(s: State, e: Step) {
    match e
    case Kill(_) => s.spc.SKilling?
    case Drop(d, u, after) => s.spc.SDropping? && d in s.spc.todo && UnlockOn(s, SRC, d, u, after)
    case DropDone => s.spc.SDropping? && s.spc.todo == {}
    case FinishReturns => s.spc == WaitFinish
    case _ => false
  }

  function KillApply(s: State, e: Step): State
    requires KillEnabled(s, e)
  {
    match e
    case Kill(how) => SourceKilled(s, s.spc.reason, how)
    case Drop(d, u, after) => Unlocked(s, SRC, d, u, after).(spc := SDropping(s.spc.todo - {d}, s.spc.reason))
    case DropDone => AfterKill(s, s.spc.reason)
    case FinishReturns => s.(spc := SEnded(Migrated))
  }

  function SourceKilled(s: State, reason: KillReason, how: KillResult): State {
    match how
    case KillDone => s.(sourceGuest := NoGuest, wire := false, spc := SDropping(s.vols.Keys, reason))
    case KillTimesOut => AfterKill(s.(faults := s.faults.(sourceDestroy := true)), reason)
    case KillRaises => AfterKillRaised(s.(faults := s.faults.(sourceDestroy := true)), reason)
  }

  /** The first state of each message handler. */
  function Started(s: State, m: Msg): State {
    match m
    case Cancel =>
      s.(requests := s.requests.(cancel := InHand), tpc := TUnlocking(s.vols.Keys, ForCancel(false)))
    case AcquireLocks =>
      s.(requests := s.requests.(acquire := InHand), tpc := TLocking(s.vols.Keys, AcquireLocks))
    case Prepare => s.(requests := s.requests.(prepare := InHand), tpc := TPreparing)
    case Finish => s.(requests := s.requests.(finish := InHand), tpc := TFinishing)
    case Rescue => s.(requests := s.requests.(rescue := InHand), tpc := TRescuing)
    case Destroy =>
      s.(requests := s.requests.(destroy := InHand), finished := Destroyed, tpc := TKilling(Some(Destroy)))
  }

  /** `_destroy` for a request, or the destruction at the end of `run`. */
  function TargetKilled(s: State, onRequest: Option<Msg>, how: KillResult): State {
    if how == KillDone then
      s.(targetGuest := NoGuest, wire := false,
         tpc := TUnlocking(s.vols.Keys, if onRequest.Some? then ForDestroy(onRequest.value) else ForEnd))
    else
      var t := s.(faults := s.faults.(targetDestroy := true));
      if onRequest == None then t.(tpc := TEnded)
      else Reply(t, onRequest.value, how == KillTimesOut && onRequest.value == Destroy)
  }

  /** What a handler does once it went through all volumes. */
  function UnlocksDone(s: State, reason: UnlockReason): State {
    match reason
    case ForRequest(m) => Reply(s, m, false)
    case ForCancel(failed) => Reply(if failed then s else s.(finished := Cancelled), Cancel, !failed)
    case ForDestroy(m) => Reply(s, m, m == Destroy)
    case ForEnd => s.(tpc := TEnded)
  }

  /** `IncomingServer.run` and its handlers, but for destroying and unlocking. */
  predicate ServeEnabled(s: State, e: Step) {
    match e
    case TStart(m) => s.tpc == Serving && Status(s.requests, m) == Pending
    case TLockUnseen(d, after) => s.tpc.TLocking? && d in s.tpc.todo && TakesUnseen(s, TGT, d, after)
    case TLock(d, l, after) => s.tpc.TLocking? && d in s.tpc.todo && LockOn(s, TGT, d, l, after)
    case TLockDone => s.tpc.TLocking? && s.tpc.todo == {}
    case TPrepare(ok, _) => s.tpc == TPreparing && (ok ==> s.targetGuest == NoGuest)
    case TRescue(seen) =>
      && s.tpc == TRescuing
      && (seen == Some(true) ==> s.targetGuest == Running)
      && (seen == Some(false) ==> s.targetGuest == NoGuest)
    case TFinish(ok) => s.tpc == TFinishing && (ok ==> s.targetGuest == Running)
    case TLoop => s.tpc == TLooping
    case TExpire => s.tpc == Serving
    case _ => false
  }

  function ServeApply(s: State, e: Step): State
    requires ServeEnabled(s, e)
  {
    match e
    case TStart(m) => Started(s, m)
    case TLockUnseen(d, after) => Locked(s, TGT, d, after)
    case TLock(d, l, after) =>
      var t := Locked(s, TGT, d, after);
      if l != LockRaised then t.(tpc := TLocking(s.tpc.todo - {d}, s.tpc.request))
      else if s.tpc.request == Rescue then t.(finished := Destroyed, tpc := TKilling(Some(Rescue)))
      else Reply(t, s.tpc.request, false)
    case TLockDone => Reply(s, s.tpc.request, true)
    case TPrepare(ok, spawned) =>
      if ok then Reply(s.(targetGuest := Inmigrate), Prepare, true)
      else
        s.(targetGuest := if spawned && s.targetGuest == NoGuest then Inmigrate else s.targetGuest,
           tpc := TUnlocking(s.vols.Keys, ForRequest(Prepare)))
    case TRescue(Some(true)) => s.(tpc := TLocking(s.vols.Keys, Rescue))
    case TRescue(Some(false)) => s.(tpc := TUnlocking(s.vols.Keys, ForRequest(Rescue)))
    case TRescue(None) => Reply(s, Rescue, false)
    case TFinish(ok) => Reply(if ok then s.(finished := Success) else s, Finish, ok)
    case TLoop => AfterRequest(s)
    case TExpire => s.(tpc := TKilling(None))
  }

  /** Destroying the target's guest and giving up the target's locks. */
  predicate CleanEnabled(s: State, e: Step) {
    match e
    case TKill(_) => s.tpc.TKilling?
    case TUnlock(d, u, after) => s.tpc.TUnlocking? && d in s.tpc.todo && UnlockOn(s, TGT, d, u, after)
    case TUnlockDone => s.tpc.TUnlocking? && s.tpc.todo == {}
    case TLeave => s.tpc.TUnlocking? && s.tpc.reason == ForEnd
    case _ => false
  }

  function CleanApply(s: State, e: Step): State
    requires CleanEnabled(s, e)
  {
    match e
    case TKill(how) => TargetKilled(s, s.tpc.onRequest, how)
    case TUnlock(d, u, after) =>
      var reason := if s.tpc.reason.ForCancel? then
                      ForCancel(s.tpc.reason.failed || u == UnlockRaised || u == ReplyLost)
                    else s.tpc.reason;
      Unlocked(s, TGT, d, u, after).(tpc := TUnlocking(s.tpc.todo - {d}, reason))
    case TUnlockDone => UnlocksDone(s, s.tpc.reason)
    case TLeave => s.(tpc := TEnded)
  }

  predicate WorldEnabled(s: State, e: Step) {
    match e
    case Complete => s.wire && s.sourceGuest == Running && s.targetGuest == Inmigrate
    case MigrationFails(_) => s.wire
    case SourceDies => true
    case TargetDies => true
    case OtherLocks(h, d, l, after) => h > TGT && LockOn(s, h, d, l, after)
    case OtherUnlocks(h, d, u, after) => h > TGT && UnlockOn(s, h, d, u, after)
    case _ => false
  }

  function WorldApply(s: State, e: Step): State
    requires WorldEnabled(s, e)
  {
    match e
    case Complete => s.(sourceGuest := Postmigrate, targetGuest := Running, wire := false)
    case MigrationFails(targetExits) =>
      s.(wire := false, targetGuest := if targetExits then NoGuest else s.targetGuest)
    case SourceDies => s.(sourceGuest := NoGuest, wire := false, faults := s.faults.(sourceLocal := true))
    case TargetDies => s.(targetGuest := NoGuest, wire := false, faults := s.faults.(targetDied := true))
    case OtherLocks(h, d, l, after) => Locked(s, h, d, after)
    case OtherUnlocks(h, d, u, after) => Unlocked(s, h, d, u, after)
  }

  predicate SourceEnabled(s: State, e: Step) {
    HandoverEnabled(s, e) || RescueEnabled(s, e) || KillEnabled(s, e)
  }

  predicate TargetEnabled(s: State, e: Step) {
    ServeEnabled(s, e) || CleanEnabled(s, e)
  }

  predicate Enabled(s: State, e: Step) {
    SourceEnabled(s, e) || TargetEnabled(s, e) || WorldEnabled(s, e)
  }

  function Apply(s: State, e: Step): State
    requires Enabled(s, e)
  {
    if HandoverEnabled(s, e) then HandoverApply(s, e)
    else if RescueEnabled(s, e) then RescueApply(s, e)
    else if KillEnabled(s, e) then KillApply(s, e)
    else if ServeEnabled(s, e) then ServeApply(s, e)
    else if CleanEnabled(s, e) then CleanApply(s, e)
    else WorldApply(s, e)
  }

  predicate Next(s: State, e: Step, t: State) {
    Enabled(s, e) && t == Apply(s, e)
  }

  /** The host on whose behalf a step acts on volume locks. */
  function Actor(s: State, e: Step): Host {
    if e.OtherLocks? || e.OtherUnlocks? then e.h
    else if SourceEnabled(s, e) then SRC else TGT
  }

  predicate IsRun(states: seq<State>, steps: seq<Step>) {
    && |states| == |steps| + 1
    && Init(states[0])
    && forall i :: 0 <= i < |steps| ==> Next(states[i], steps[i], states[i + 1])
  }
}
