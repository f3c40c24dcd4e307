/** The host-wide migration locks, for any number of hosts and of migrations between them.

The first part is the protocol over all hosts: each migration takes the lock of its source host, then
asks its target's server to take the target host's lock, and backs off if either fails. Requests may
be lost or served late. The second part is the code of one attempt and of the retry loop. */
module MigrationLocks {
  import opened Basics
  import opened FileLock
  import opened Runs

  type Mig = nat

  datatype Side = Out | In

  /** The process that has the lock file of a host locked. */
  datatype Holder = Holder(m: Mig, side: Side)

  datatype Answer = Granted | Refused | Failed

  datatype Request = NotSent | Sent | Answered(answer: Answer)

  datatype Pc = Trying | Asking | Transferring | Ended(ok: bool)

  /** `outFd`, `inFd`: `_migration_lock_fd` is set on either side. `late`: requests the source gave up
  on and the target may still serve. `serving`: the target's server has not ended. */
  datatype Migration = Migration(
    src: Host, dst: Host, pc: Pc, outFd: bool, inFd: bool, request: Request, late: nat, serving: bool)

  datatype State = State(locks: map<Host, Holder>, migs: map<Mig, Migration>)

  datatype Step =
    | TryLocal | Serve | ServeLate
    | AskReturns(heartbeatFailed: bool) | AskFails | GiveUp
    | TransferEnds(success: bool) | ServeRelease | ServerEnds | SourceExits

  predicate Init(s: State) {
    && s.locks == map[]
    && forall m :: m in s.migs ==>
                     s.migs[m] == Migration(s.migs[m].src, s.migs[m].dst, Trying, false, false, NotSent, 0, true)
  }

  predicate Enabled(r: Migration, e: Step) {
    match e
    case TryLocal => r.pc == Trying
    case Serve => r.serving && r.request == Sent
    case ServeLate => r.serving && r.late > 0
    case AskReturns(_) => r.pc == Asking && r.request.Answered?
    case AskFails => r.pc == Asking
    case GiveUp => r.pc == Trying
    case TransferEnds(_) => r.pc == Transferring
    case ServeRelease => r.pc == Ended(true) && r.serving && r.inFd
    case ServerEnds => r.serving
    case SourceExits => true
  }

  /** Frees what `h` holds on a host. */
  function Free(locks: map<Host, Holder>, host: Host, h: Holder): map<Host, Holder> {
    if host in locks && locks[host] == h then locks - {host} else locks
  }

  function Put(s: State, m: Mig, r: Migration): State {
    s.(migs := s.migs[m := r])
  }

  /** The source gives its own lock back and starts over. */
  function BackOff(s: State, m: Mig, r: Migration): State {
    Put(s.(locks := Free(s.locks, r.src, Holder(m, Out))), m, r.(pc := Trying, outFd := false, request := NotSent))
  }

  /** `acquire_migration_lock` on the target: an assertion fails if its lock is already open. */
  function Attempt(s: State, m: Mig, r: Migration): (State, Answer) {
    if r.inFd then (s, Failed)
    else if r.dst in s.locks then (s, Refused)
    else (Put(s.(locks := s.locks[r.dst := Holder(m, In)]), m, r.(inFd := true)), Granted)
  }

  function Apply(s: State, m: Mig, e: Step): State
    requires m in s.migs && Enabled(s.migs[m], e)
  {
    var r := s.migs[m];
    match e
    case TryLocal =>
      if r.src in s.locks then s
      else Put(s.(locks := s.locks[r.src := Holder(m, Out)]), m, r.(pc := Asking, outFd := true, request := Sent))
    case Serve =>
      var (t, a) := Attempt(s, m, r);
      Put(t, m, t.migs[m].(request := Answered(a)))
    case ServeLate =>
      var (t, a) := Attempt(s, m, r);
      Put(t, m, t.migs[m].(late := r.late - 1))
    case AskReturns(heartbeatFailed) =>
      if r.request.answer == Granted && !heartbeatFailed then Put(s, m, r.(pc := Transferring))
      else BackOff(s, m, r)
    case AskFails => BackOff(s, m, r.(late := if r.request == Sent then r.late + 1 else r.late))
    case GiveUp => Put(s, m, r.(pc := Ended(false)))
    case TransferEnds(success) =>
      if success then
        Put(s.(locks := Free(s.locks, r.src, Holder(m, Out))), m, r.(pc := Ended(true), outFd := false))
      else Put(s, m, r.(pc := Ended(false)))
    case ServeRelease => Put(s.(locks := Free(s.locks, r.dst, Holder(m, In))), m, r.(inFd := false))
    case ServerEnds =>
      Put(s.(locks := Free(s.locks, r.dst, Holder(m, In))), m, r.(inFd := false, serving := false))
    case SourceExits =>
      Put(s.(locks := Free(s.locks, r.src, Holder(m, Out))), m, r.(pc := Ended(false), outFd := false))
  }

  predicate Next(s: State, m: Mig, e: Step, t: State) {
    m in s.migs && Enabled(s.migs[m], e) && t == Apply(s, m, e)
  }

  predicate Steps(s: State, e: (Mig, Step), t: State) {
    Next(s, e.0, e.1, t)
  }

  /** Every open lock descriptor is the one holder of its host's lock, and the other way round. */
  predicate LocksInv(s: State) {
    && (forall h :: h in s.locks ==>
          var o := s.locks[h];
          && o.m in s.migs
          && (if o.side == Out then s.migs[o.m].src == h && s.migs[o.m].outFd
              else s.migs[o.m].dst == h && s.migs[o.m].inFd))
    && (forall m :: m in s.migs && s.migs[m].outFd ==>
          s.migs[m].src in s.locks && s.locks[s.migs[m].src] == Holder(m, Out))
    && (forall m :: m in s.migs && s.migs[m].inFd ==>
          s.migs[m].dst in s.locks && s.locks[s.migs[m].dst] == Holder(m, In))
  }

  /** A migration past the granted request has both locks, but for a target whose server has ended. */
  predicate MigInv(r: Migration) {
    && (r.pc == Trying ==> !r.outFd && r.request == NotSent)
    && (r.pc == Asking || r.pc == Transferring ==> r.outFd)
    && (r.inFd ==> r.serving)
    && ((r.pc == Asking && r.request == Answered(Granted)) || r.pc == Transferring ==> (r.inFd <==> r.serving))
  }

  predicate Inv(s: State) {
    LocksInv(s) && forall m :: m in s.migs ==> MigInv(s.migs[m])
  }

  /** The migration as it was, but for its descriptor on one side. */
  predicate OnlyFd(r: Migration, r': Migration, side: Side, fd: bool) {
    && r'.src == r.src && r'.dst == r.dst
    && (if side == Out then r'.outFd == fd && r'.inFd == r.inFd else r'.inFd == fd && r'.outFd == r.outFd)
  }

  function HostOf(r: Migration, side: Side): Host {
    if side == Out then r.src else r.dst
  }

  lemma TakeKeepsLocks(s: State, m: Mig, side: Side, r': Migration)
    requires LocksInv(s) && m in s.migs
    requires OnlyFd(s.migs[m], r', side, true) && HostOf(r', side) !in s.locks
    ensures LocksInv(Put(s.(locks := s.locks[HostOf(r', side) := Holder(m, side)]), m, r'))
  {
  }

  lemma FreeKeepsLocks(s: State, m: Mig, side: Side, r': Migration)
    requires LocksInv(s) && m in s.migs
    requires OnlyFd(s.migs[m], r', side, false)
    ensures LocksInv(Put(s.(locks := Free(s.locks, HostOf(r', side), Holder(m, side))), m, r'))
  {
  }

  lemma SameKeepsLocks(s: State, m: Mig, r': Migration)
    requires LocksInv(s) && m in s.migs
    requires OnlyFd(s.migs[m], r', Out, s.migs[m].outFd)
    ensures LocksInv(Put(s, m, r'))
  {
  }

  lemma AttemptKeepsLocks(s: State, m: Mig, r': Migration)
    requires LocksInv(s) && m in s.migs
    requires var (t, _) := Attempt(s, m, s.migs[m]); OnlyFd(t.migs[m], r', Out, t.migs[m].outFd)
    ensures LocksInv(Put(Attempt(s, m, s.migs[m]).0, m, r'))
  {
    var r := s.migs[m];
    if !r.inFd && r.dst !in s.locks {
      TakeKeepsLocks(s, m, In, r.(inFd := true));
    }
    SameKeepsLocks(Attempt(s, m, r).0, m, r');
  }

  lemma NextKeepsLocks(s: State, m: Mig, e: Step, t: State)
    requires LocksInv(s) && Next(s, m, e, t)
    ensures LocksInv(t)
  {
    var r := s.migs[m];
    var r' := t.migs[m];
    if e.Serve? || e.ServeLate? {
      AttemptKeepsLocks(s, m, r');
    } else if e.TryLocal? {
      if r.src !in s.locks { TakeKeepsLocks(s, m, Out, r'); }
    } else if e.ServeRelease? || e.ServerEnds? {
      FreeKeepsLocks(s, m, In, r');
    } else if r'.pc == Transferring || e.GiveUp? || (e.TransferEnds? && !e.success) {
      SameKeepsLocks(s, m, r');
    } else {
      FreeKeepsLocks(s, m, Out, r');
    }
  }

  /** A step is about one migration and keeps it sound. */
  lemma NextKeepsMig(s: State, m: Mig, e: Step, t: State)
    requires Next(s, m, e, t) && MigInv(s.migs[m])
    ensures t.migs == s.migs[m := t.migs[m]] && MigInv(t.migs[m])
  {
  }

  lemma NextKeepsInv(s: State, m: Mig, e: Step, t: State)
    requires Inv(s) && Next(s, m, e, t)
    ensures Inv(t) && t.migs.Keys == s.migs.Keys
  {
    NextKeepsLocks(s, m, e, t);
    NextKeepsMig(s, m, e, t);
  }

  predicate IsRun(states: seq<State>, steps: seq<(Mig, Step)>) {
    && |states| == |steps| + 1
    && forall i :: 0 <= i < |steps| ==> Next(states[i], steps[i].0, steps[i].1, states[i + 1])
  }

  lemma {:induction false} RunKeepsInv(states: seq<State>, steps: seq<(Mig, Step)>, i: nat)
    requires IsRun(states, steps) && Init(states[0]) && i < |states|
    ensures Inv(states[i])
  {
    if i > 0 {
      RunKeepsInv(states, steps, i - 1);
      assert Next(states[i - 1], steps[i - 1].0, steps[i - 1].1, states[i]);
      NextKeepsInv(states[i - 1], steps[i - 1].0, steps[i - 1].1, states[i]);
    }
  }

  predicate TransfersUnderBoth(s: State, m: Mig) {
    m in s.migs && s.migs[m].pc == Transferring && s.migs[m].serving
  }

  /** In every run: who reached `transfer_ceph_locks` holds the source host's lock, and the target
  host's exactly while the target's server is up; and the migrations holding both are a matching, no
  two of them sharing a host and none being of a host with itself. */
  lemma TransfersAreMatching(states: seq<State>, steps: seq<(Mig, Step)>, i: nat)
    requires IsRun(states, steps) && Init(states[0]) && i < |states|
    ensures var s := states[i];
            forall m :: m in s.migs && s.migs[m].pc == Transferring ==>
                          var r := s.migs[m];
                          && r.src in s.locks && s.locks[r.src] == Holder(m, Out)
                          && (r.serving <==> r.dst in s.locks && s.locks[r.dst] == Holder(m, In))
    ensures var s := states[i];
            forall m :: TransfersUnderBoth(s, m) ==> s.migs[m].src != s.migs[m].dst
    ensures var s := states[i];
            forall m, n :: TransfersUnderBoth(s, m) && TransfersUnderBoth(s, n) && m != n ==>
                             {s.migs[m].src, s.migs[m].dst} !! {s.migs[n].src, s.migs[n].dst}
  {
    RunKeepsInv(states, steps, i);
  }

  /** The target has the lock and the source does not know, its answer having been lost, come late or
  been overtaken by a failed heartbeat; or the target is gone. */
  predicate Stranded(r: Migration) {
    && r.pc != Transferring && r.pc != Ended(true)
    && (r.inFd || !r.serving)
    && r.request != Answered(Granted)
  }

  lemma StrandedStays(s: State, m: Mig, k: Mig, e: Step, t: State)
    requires Next(s, k, e, t) && m in s.migs && Stranded(s.migs[m])
    ensures m in t.migs && Stranded(t.migs[m])
  {
  }

  /** After a lost grant the migration never gets to the transfer: the target's next attempts fail on
  its own open lock for as long as its server lives. */
  lemma {:induction false} LostGrantIsFinal(states: seq<State>, steps: seq<(Mig, Step)>, m: Mig, i: nat)
    requires IsRun(states, steps) && i < |states|
    requires m in states[0].migs && Stranded(states[0].migs[m])
    ensures m in states[i].migs && Stranded(states[i].migs[m])
  {
    if i > 0 {
      LostGrantIsFinal(states, steps, m, i - 1);
      assert Next(states[i - 1], steps[i - 1].0, steps[i - 1].1, states[i]);
      StrandedStays(states[i - 1], m, steps[i - 1].0, steps[i - 1].1, states[i]);
    }
  }

  /** A source about to try is stranded, or can get to the transfer as soon as both locks are free. */
  lemma UnstrandedCanTransfer(s: State, m: Mig) returns (t: State)
    requires m in s.migs && s.migs[m].pc == Trying && MigInv(s.migs[m]) && !Stranded(s.migs[m])
    requires s.migs[m].src !in s.locks && s.migs[m].dst !in s.locks && s.migs[m].src != s.migs[m].dst
    ensures exists a, b :: Next(s, m, TryLocal, a) && Next(a, m, Serve, b) && Next(b, m, AskReturns(false), t)
    ensures TransfersUnderBoth(t, m) && Leads(Steps, s, t)
  {
    var a := Apply(s, m, TryLocal);
    var b := Apply(a, m, Serve);
    t := Apply(b, m, AskReturns(false));
    assert Next(s, m, TryLocal, a) && Next(a, m, Serve, b) && Next(b, m, AskReturns(false), t);
    LeadsByStep(Steps, s, (m, TryLocal), a);
    LeadsByStep(Steps, a, (m, Serve), b);
    LeadsByStep(Steps, b, (m, AskReturns(false)), t);
    LeadsOn(Steps, s, a, b);
    LeadsOn(Steps, s, b, t);
  }

  /** How the holder of a lock comes to give it up without any other process: a source backs off, ends its
  transfer or exits once it has ended; a target's server ends. */
  function GivesUp(s: State, o: Holder): Step
    requires o.m in s.migs
  {
    if o.side == In then ServerEnds
    else match s.migs[o.m].pc
      case Asking => AskFails
      case Transferring => TransferEnds(true)
      case _ => SourceExits
  }

  /** A lock held for another migration comes free by a step of its holder alone, with nothing changed for
  this one. */
  lemma LockComesFree(s: State, m: Mig, h: Host) returns (t: State)
    requires Inv(s) && m in s.migs && (h in s.locks ==> s.locks[h].m != m)
    ensures Inv(t) && Leads(Steps, s, t)
    ensures m in t.migs && t.migs[m] == s.migs[m] && t.locks == s.locks - {h}
  {
    if h in s.locks {
      var o := s.locks[h];
      var e := GivesUp(s, o);
      t := Apply(s, o.m, e);
      assert Next(s, o.m, e, t);
      NextKeepsInv(s, o.m, e, t);
      LeadsByStep(Steps, s, (o.m, e), t);
    } else {
      t := s;
      LeadsToItself<State, (Mig, Step)>(Steps, s);
    }
  }

  lemma TryingCanTransfer(s: State, m: Mig) returns (t: State)
    requires Inv(s) && m in s.migs && s.migs[m].pc == Trying && !Stranded(s.migs[m])
    requires s.migs[m].src != s.migs[m].dst
    ensures TransfersUnderBoth(t, m) && Leads(Steps, s, t)
  {
    var r := s.migs[m];
    var a := LockComesFree(s, m, r.src);
    var b := LockComesFree(a, m, r.dst);
    assert r.src !in b.locks && r.dst !in b.locks;
    t := UnstrandedCanTransfer(b, m);
    LeadsOn(Steps, s, a, b);
    LeadsOn(Steps, s, b, t);
  }

  /** `m` is on its way and some continuation brings it to the transfer with both locks. */
  ghost predicate CanTransfer(s: State, m: Mig) {
    exists t :: Leads(Steps, s, t) && TransfersUnderBoth(t, m)
  }

  lemma OnItsWayCanTransfer(s: State, m: Mig) returns (t: State)
    requires Inv(s) && m in s.migs && (s.migs[m].pc == Trying || s.migs[m].pc == Asking)
    requires s.migs[m].src != s.migs[m].dst && s.migs[m].serving && !Stranded(s.migs[m])
    ensures TransfersUnderBoth(t, m) && Leads(Steps, s, t)
  {
    var r := s.migs[m];
    if r.pc == Trying {
      t := TryingCanTransfer(s, m);
    } else if r.request == Answered(Granted) {
      t := Apply(s, m, AskReturns(false));
      LeadsByStep(Steps, s, (m, AskReturns(false)), t);
    } else {
      var a := Apply(s, m, AskFails);
      assert Next(s, m, AskFails, a);
      NextKeepsInv(s, m, AskFails, a);
      LeadsByStep(Steps, s, (m, AskFails), a);
      t := TryingCanTransfer(a, m);
      LeadsOn(Steps, s, a, t);
    }
  }

  lemma ServerStaysDown(s: State, m: Mig, k: Mig, e: Step, t: State)
    requires Next(s, k, e, t) && m in s.migs
    ensures m in t.migs && t.migs[m].src == s.migs[m].src && t.migs[m].dst == s.migs[m].dst
    ensures !s.migs[m].serving ==> !t.migs[m].serving
  {
  }

  lemma {:induction false} RunKeepsServerDown(states: seq<State>, steps: seq<(Mig, Step)>, m: Mig, i: nat)
    requires IsRun(states, steps) && Inv(states[0]) && i < |states| && m in states[0].migs
    ensures Inv(states[i]) && m in states[i].migs
    ensures states[i].migs[m].src == states[0].migs[m].src && states[i].migs[m].dst == states[0].migs[m].dst
    ensures !states[0].migs[m].serving ==> !states[i].migs[m].serving
  {
    if i > 0 {
      RunKeepsServerDown(states, steps, m, i - 1);
      assert Next(states[i - 1], steps[i - 1].0, steps[i - 1].1, states[i]);
      NextKeepsInv(states[i - 1], steps[i - 1].0, steps[i - 1].1, states[i]);
      ServerStaysDown(states[i - 1], m, steps[i - 1].0, steps[i - 1].1, states[i]);
    }
  }

  /** No deadlock. From every reachable state, whoever holds which locks and however many migrations wait in a
  circle, a migration that is trying or asking can still get to its transfer under both locks if and only if
  it is between two hosts, its target's server is up, and no grant was lost. */
  lemma NobodyBlocks(states: seq<State>, steps: seq<(Mig, Step)>, i: nat, m: Mig)
    requires IsRun(states, steps) && Init(states[0]) && i < |states| && m in states[i].migs
    requires states[i].migs[m].pc == Trying || states[i].migs[m].pc == Asking
    ensures var r := states[i].migs[m];
            CanTransfer(states[i], m) <==> r.src != r.dst && r.serving && !Stranded(r)
  {
    RunKeepsInv(states, steps, i);
    var s := states[i];
    var r := s.migs[m];
    if r.src != r.dst && r.serving && !Stranded(r) {
      var t := OnItsWayCanTransfer(s, m);
      assert CanTransfer(s, m);
    } else {
      forall t | Leads(Steps, s, t) ensures !TransfersUnderBoth(t, m) {
        NoWayToTransfer(s, m, t);
      }
    }
  }

  lemma NoWayToTransfer(s: State, m: Mig, t: State)
    requires Inv(s) && m in s.migs && Leads(Steps, s, t)
    requires s.migs[m].src == s.migs[m].dst || !s.migs[m].serving || Stranded(s.migs[m])
    ensures !TransfersUnderBoth(t, m)
  {
    var a: seq<State>, x: seq<(Mig, Step)> :| IsPath(Steps, a, x) && a[0] == s && a[|x|] == t;
    assert IsRun(a, x) by {
      forall i | 0 <= i < |x| ensures Next(a[i], x[i].0, x[i].1, a[i + 1]) {
        assert Steps(a[i], x[i], a[i + 1]);
      }
    }
    RunKeepsServerDown(a, x, m, |x|);
    if Stranded(s.migs[m]) {
      LostGrantIsFinal(a, x, m, |x|);
    }
  }

  // ---------------------------------------------------------------------------------------------

  /** The part of `Qemu` that takes the migration lock of its host. */
  class HostLock {
    const me: Holder
    /** The host's `qemu.migration.lock`. */
    const file: LockFile<Holder>
    var fd: bool

    /** The descriptor is open exactly while the lock is held. */
    ghost predicate Valid()
      reads this, file
    {
      fd <==> file.holder == Some(me)
    }

    constructor (me: Holder, file: LockFile<Holder>)
      requires file.holder != Some(me)
      ensures this.me == me && this.file == file && Valid() && !fd
    {
      this.me, this.file := me, file;
      fd := false;
    }

    method AcquireMigrationLock() returns (got: bool)
      requires Valid() && !fd
      modifies this`fd, file
      ensures Valid() && got == fd
      ensures !got ==> file.holder.Some?
    {
      fd := true;
      got := file.Lock(me, false);
      if !got { fd := false; }
    }

    method ReleaseMigrationLock()
      requires Valid() && fd
      modifies this`fd, file
      ensures Valid() && !fd
    {
      file.OthersAct(me);
      file.Unlock(me);
      fd := false;
    }
  }

  datatype LoopExit = BothAcquired | ConfigHasChanged | HeartbeatFailed | TimedOut

  function Pow2(n: nat): nat {
    if n == 0 then 1 else 2 * Pow2(n - 1)
  }

  lemma {:induction false} Pow2Grows(n: nat, k: nat)
    requires n <= k
    ensures 1 <= Pow2(n) <= Pow2(k)
  {
    if n < k {
      Pow2Grows(n, k - 1);
    } else if n > 0 {
      Pow2Grows(n - 1, n - 1);
    }
  }

  function Min(a: nat, b: nat): nat {
    if a <= b then a else b
  }

  /** The request `acquire_migration_lock`, which arrives or not and whose answer arrives or not. The target
  refuses only if another holds its lock. */
  method Ask(remote: HostLock, arrives: bool, answered: bool) returns (answer: Answer)
    requires remote.Valid()
    modifies remote`fd, remote.file
    ensures remote.Valid()
    ensures old(remote.fd) ==> remote.fd && answer == Failed
    ensures answer == if !arrives || old(remote.fd) || !answered then Failed
                      else if remote.fd then Granted else Refused
    ensures answer == Refused ==> remote.file.holder.Some?
    ensures !arrives ==> remote.fd == old(remote.fd)
  {
    if !arrives || remote.fd { return Failed; }
    var got := remote.AcquireMigrationLock();
    if !answered { return Failed; }
    answer := if got then Granted else Refused;
  }

  /** What the source hears in a round: has the configuration changed, is the heartbeat healthy, did it get its
  own lock, what did the target answer. */
  datatype Heard = Config(changed: bool) | Beat(healthy: bool) | Local(got: bool) | Asked(answer: Answer)

  /** What a record of rounds means: the loop ends so, or goes on after so many rounds. */
  datatype Reading = Ends(how: LoopExit) | GoesOn(rounds: nat) | NoRounds

  function AfterOne(r: Reading): Reading {
    if r.GoesOn? then GoesOn(r.rounds + 1) else r
  }

  function Read(h: seq<Heard>): Reading {
    if h == [] then GoesOn(0)
    else if h == [Config(true)] then Ends(ConfigHasChanged)
    else if h == [Config(false), Beat(false)] then Ends(HeartbeatFailed)
    else if |h| >= 3 && h[..3] == [Config(false), Beat(true), Local(false)] then AfterOne(Read(h[3..]))
    else if |h| >= 4 && h[..3] == [Config(false), Beat(true), Local(true)] && h[3].Asked? then
      if h[3].answer != Granted then AfterOne(Read(h[4..]))
      else if h[4..] == [Beat(true)] then Ends(BothAcquired)
      else if |h| >= 5 && h[4] == Beat(false) then AfterOne(Read(h[5..]))
      else NoRounds
    else NoRounds
  }

  /** How many entries the first round has, if it goes on. */
  function FirstRound(h: seq<Heard>): nat
    requires h != [] && Read(h).GoesOn?
    ensures 3 <= FirstRound(h) <= |h| && FirstRound(h) <= 5
    ensures Read(h[FirstRound(h)..]) == GoesOn(Read(h).rounds - 1) && Read(h).rounds > 0
  {
    if h[2] == Local(false) then 3 else if h[3].answer != Granted then 4 else 5
  }

  /** Each way a round can go, read. */
  lemma Rounds()
    ensures Read([]) == GoesOn(0)
    ensures Read([Config(true)]) == Ends(ConfigHasChanged)
    ensures Read([Config(false), Beat(false)]) == Ends(HeartbeatFailed)
    ensures Read([Config(false), Beat(true), Local(false)]) == GoesOn(1)
    ensures forall answer :: answer != Granted ==>
              Read([Config(false), Beat(true), Local(true)] + [Asked(answer)]) == GoesOn(1)
    ensures Read([Config(false), Beat(true), Local(true)] + [Asked(Granted), Beat(false)]) == GoesOn(1)
    ensures Read([Config(false), Beat(true), Local(true)] + [Asked(Granted), Beat(true)]) == Ends(BothAcquired)
  {
    var own := [Config(false), Beat(true), Local(true)];
    assert [Config(false), Beat(true), Local(false)][..3] == [Config(false), Beat(true), Local(false)];
    assert [Config(false), Beat(true), Local(false)][3..] == [];
    forall answer | answer != Granted ensures Read(own + [Asked(answer)]) == GoesOn(1) {
      assert (own + [Asked(answer)])[..3] == own && (own + [Asked(answer)])[4..] == [];
    }
    var bad, good := own + [Asked(Granted), Beat(false)], own + [Asked(Granted), Beat(true)];
    assert bad[..3] == own && bad[3] == Asked(Granted) && bad[4] == Beat(false) && bad[5..] == [];
    assert good[..3] == own && good[3] == Asked(Granted) && good[4..] == [Beat(true)];
  }

  lemma {:induction false} ReadOn(a: seq<Heard>, b: seq<Heard>)
    requires Read(a).GoesOn?
    ensures Read(a + b) == if Read(b).GoesOn? then GoesOn(Read(a).rounds + Read(b).rounds) else Read(b)
  {
    if a == [] {
      assert a + b == b;
    } else {
      var n := FirstRound(a);
      ReadOn(a[n..], b);
      assert (a + b)[n..] == a[n..] + b;
      assert (a + b)[..3] == a[..3];
      if n == 5 {
        assert (a + b)[4..] != [Beat(true)];
      }
    }
  }

  /** A grant with a healthy heartbeat right after it. */
  predicate GrantAt(h: seq<Heard>, k: nat) {
    k + 1 < |h| && h[k] == Asked(Granted) && h[k + 1] == Beat(true)
  }

  /** A record of rounds ends with both locks if and only if it has a grant under a healthy heartbeat. */
  lemma {:induction false} BothExactly(h: seq<Heard>)
    requires Read(h) != NoRounds
    ensures Read(h) == Ends(BothAcquired) <==> exists k: nat :: GrantAt(h, k)
    decreases |h|, 1
  {
    if |h| >= 3 && h[2] == Local(false) {
      BothLater(h, 3);
    } else if |h| >= 4 && h[3].answer != Granted {
      BothLater(h, 4);
    } else if |h| >= 5 && h[4] == Beat(false) {
      BothLater(h, 5);
    } else if |h| == 5 {
      assert GrantAt(h, 3);
    }
  }

  lemma {:induction false} BothLater(h: seq<Heard>, n: nat)
    requires 3 <= n <= |h| && Read(h) == AfterOne(Read(h[n..])) != NoRounds
    requires forall k: nat :: k < n ==> !GrantAt(h, k)
    ensures Read(h) == Ends(BothAcquired) <==> exists k: nat :: GrantAt(h, k)
    decreases |h|, 0
  {
    BothExactly(h[n..]);
    if k: nat :| GrantAt(h[n..], k) {
      assert GrantAt(h, n + k);
    }
    if k: nat :| GrantAt(h, k) {
      assert GrantAt(h[n..], k - n);
    }
  }

  /** The source in `acquire_migration_locks`, with its own lock, the target's, and what it has heard. */
  class Source {
    const own: HostLock
    const remote: HostLock
    ghost var heard: seq<Heard>

    ghost predicate Valid()
      reads this, own, own.file, remote, remote.file
    {
      own.Valid() && remote.Valid() && own != remote && own.file != remote.file
    }

    constructor (own: HostLock, remote: HostLock)
      requires own.Valid() && remote.Valid() && own != remote && own.file != remote.file
      ensures this.own == own && this.remote == remote && Valid() && heard == []
    {
      this.own, this.remote := own, remote;
      heard := [];
    }

    method HasNewConfig() returns (changed: bool)
      modifies this`heard
      ensures heard == old(heard) + [Config(changed)]
    {
      changed := *;
      heard := heard + [Config(changed)];
    }

    /** `Heartbeat.propagate`: raises if the heartbeat has failed. */
    method Propagate() returns (healthy: bool)
      modifies this`heard
      ensures heard == old(heard) + [Beat(healthy)]
    {
      healthy := *;
      heard := heard + [Beat(healthy)];
    }

    method TryLocal() returns (got: bool)
      requires Valid() && !own.fd
      modifies this`heard, own`fd, own.file
      ensures Valid() && got == own.fd && heard == old(heard) + [Local(got)]
      ensures !got ==> own.file.holder.Some?
    {
      got := own.AcquireMigrationLock();
      heard := heard + [Local(got)];
    }

    method AskRemote() returns (answer: Answer)
      requires Valid() && own.fd
      modifies this`heard, own.file, remote`fd, remote.file
      ensures Valid() && heard == old(heard) + [Asked(answer)]
      ensures old(remote.fd) ==> remote.fd && answer == Failed
      ensures answer == Granted ==> remote.fd
    {
      own.file.OthersAct(own.me);
      var arrives: bool, answered: bool := *, *;
      answer := Ask(remote, arrives, answered);
      heard := heard + [Asked(answer)];
    }

    /** The retry loop, with `rounds` as the number of ticks its 12 hours allow. It does what it hears: it ends
    with both locks in the first round that has its own lock, a grant and a healthy heartbeat after it, and if
    it times out, every round went on. The local lock is held at the end exactly with both; else it is never
    left behind, but the target's may be. With the target's lock open from the start it cannot succeed. In its
    n-th round it waits at most 2^min(n, 11) slots of 10 ms, so never more than 20.48 s. */
    method AcquireMigrationLocks(rounds: nat) returns (r: LoopExit, waits: seq<real>)
      requires Valid() && !own.fd
      modifies this`heard, own`fd, own.file, remote`fd, remote.file
      ensures Valid() && old(heard) <= heard
      ensures Read(heard[|old(heard)|..]) == if r == TimedOut then GoesOn(rounds) else Ends(r)
      ensures r == BothAcquired <==> exists k: nat :: GrantAt(heard[|old(heard)|..], k)
      ensures own.fd <==> r == BothAcquired
      ensures r == BothAcquired ==> remote.fd
      ensures old(remote.fd) ==> r != BothAcquired && remote.fd
      ensures forall i :: 0 <= i < |waits| ==>
                0.01 <= waits[i] <= (Pow2(Min(i + 1, 11)) as real) * 0.01 && waits[i] <= 20.48
    {
      hide Read, GrantAt;
      Rounds();
      waits := [];
      var tries, round, unserved := 0, 0, 0;
      ghost var start := heard;
      assert heard[|start|..] == [];
      while round < rounds
        invariant Valid() && !own.fd && round <= rounds
        invariant old(remote.fd) ==> remote.fd
        invariant start <= heard && Read(heard[|start|..]) == GoesOn(round)
        invariant round == |waits| && tries == Min(round, 11)
        invariant forall i :: 0 <= i < |waits| ==>
                    0.01 <= waits[i] <= (Pow2(Min(i + 1, 11)) as real) * 0.01 && waits[i] <= 20.48
      {
        round := round + 1;
        tries := Min(tries + 1, 11);
        var slots := RandomSlots(tries);
        Pow2Grows(tries, 11);
        assert Pow2(11) == 2048;
        waits := waits + [(slots as real) * 0.01];
        var late: bool := *;
        if late && unserved > 0 { var _ := Ask(remote, true, false); }
        ghost var before := heard;
        var ends := OneRound();
        ReadOn(before[|start|..], heard[|before|..]);
        assert heard[|start|..] == before[|start|..] + heard[|before|..];
        if ends.Some? {
          BothExactly(heard[|start|..]);
          return ends.value, waits;
        }
        if !own.fd { unserved := unserved + 1; }
      }
      r := TimedOut;
      BothExactly(heard[|start|..]);
    }

    /** One round: `None` if the loop goes on. */
    method OneRound() returns (ends: Option<LoopExit>)
      requires Valid() && !own.fd
      modifies this`heard, own`fd, own.file, remote`fd, remote.file
      ensures Valid() && old(heard) <= heard
      ensures Read(heard[|old(heard)|..]) == if ends == None then GoesOn(1) else Ends(ends.value)
      ensures own.fd <==> ends == Some(BothAcquired)
      ensures ends == Some(BothAcquired) ==> remote.fd && !old(remote.fd)
      ensures ends != Some(TimedOut) && (old(remote.fd) ==> remote.fd)
    {
      hide Read;
      Rounds();
      ghost var start := heard;
      var changed := HasNewConfig();
      if changed {
        assert heard[|start|..] == [Config(true)];
        return Some(ConfigHasChanged);
      }
      var healthy := Propagate();
      if !healthy {
        assert heard[|start|..] == [Config(false), Beat(false)];
        return Some(HeartbeatFailed);
      }
      var got := TryLocal();
      if !got {
        assert heard[|start|..] == [Config(false), Beat(true), Local(false)];
        return None;
      }
      ghost var before := heard;
      assert before[|start|..] == [Config(false), Beat(true), Local(true)];
      var both := AskUnderLocal();
      assert heard[|start|..] == before[|start|..] + heard[|before|..];
      return if both then Some(BothAcquired) else None;
    }

    /** The rest of a round under the own lock, which goes back unless the target grants its lock and the
    heartbeat is healthy. */
    method AskUnderLocal() returns (both: bool)
      requires Valid() && own.fd
      modifies this`heard, own`fd, own.file, remote`fd, remote.file
      ensures Valid() && old(heard) <= heard
      ensures if both then heard[|old(heard)|..] == [Asked(Granted), Beat(true)]
              else heard[|old(heard)|..] == [Asked(Granted), Beat(false)]
                   || exists answer :: answer != Granted && heard[|old(heard)|..] == [Asked(answer)]
      ensures own.fd <==> both
      ensures both ==> remote.fd && !old(remote.fd)
      ensures old(remote.fd) ==> remote.fd
    {
      ghost var start := heard;
      var answer := AskRemote();
      if answer != Granted {
        own.ReleaseMigrationLock();
        assert heard[|start|..] == [Asked(answer)];
        return false;
      }
      both := Propagate();
      if !both { own.ReleaseMigrationLock(); }
      assert heard[|start|..] == [Asked(Granted), Beat(both)];
    }
  }

  /** `random.randint(1, 2**tries)`. */
  method RandomSlots(tries: nat) returns (slots: nat)
    ensures 1 <= slots <= Pow2(tries)
  {
    slots := *;
    Pow2Grows(0, tries);
    if slots < 1 || slots > Pow2(tries) {
      slots := 1;
    }
  }
}
