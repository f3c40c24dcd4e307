/** `Outgoing`: the source's side of a migration, in the source's own control flow. Between any two
of its actions everyone else may act. */
module Outgoing {
  import opened Basics
  import opened VolumeLock
  import opened MigrationProtocol
  import MigrationSafety
  import opened MigrationWorld

  /** How the call leaves things. With exit code 0 the guest is gone, unless its destruction failed, and no lock
  is left. A source that goes on has every lock but exactly those taken from it. Without a failed `_destroy`
  the call does not raise, and the guest is gone or goes on, unless every volume's lock was taken from one of
  the hosts. Before the transfer, with nothing failed on the source, it runs on under all locks. */
  ghost predicate EndsWell(s: State, r: Outcome, exitcode: int) {
    && s.spc.SEnded?
    && (r == Returned && exitcode == 0 ==> HoldsNone(s.vols, SRC) && (s.sourceGuest == NoGuest || s.faults.sourceDestroy))
    && (s.spc.result == ContinuedLocally ==> MigrationSafety.HoldsExactlyBut(s.vols, s.lostBySource, SRC))
    && (s.sourceGuest == NoGuest || s.faults.sourceDestroy || MigrationSafety.AllLost(s)
        || (s.spc.result == ContinuedLocally && s.sourceGuest == Running))
    && (!s.faults.sourceDestroy ==> r == Returned)
    && (!s.begun && !s.faults.sourceLocal && s.lostBySource == {} ==>
          s.sourceGuest == Running && Holds(s.vols, SRC))
  }

  lemma InvEndsWell(s: State, r: Outcome, exitcode: int)
    requires MigrationSafety.Inv(s) && s.spc.SEnded?
    requires r == Raised <==> s.spc.result == Crashed
    requires r == Returned ==> (exitcode == 0 <==> s.spc.result in {Migrated, RescuedRemotely})
    ensures EndsWell(s, r, exitcode)
  {
  }

  class Outgoing {
    const world: World
    var exitcode: int
    var hasTarget: bool

    constructor (world: World)
      ensures this.world == world && !hasTarget
    {
      this.world := world;
      exitcode, hasTarget := 1, false;
    }

    /** `connect`: a target that answers pings, or an exception. */
    method Connect() returns (r: Outcome)
      requires world.Valid() && world.st.spc == Connecting && !hasTarget
      modifies world, this`hasTarget
      ensures world.Valid()
      ensures hasTarget <==> r == Returned
      ensures world.st.spc == if r == Returned then MigLocking else Relocking(world.st.vols.Keys)
      ensures old(world.badNews) <= world.badNews
      ensures r == Raised ==> old(world.badNews) < world.badNews
    {
      world.OthersAct();
      var found := world.Hears(true);
      world.DoHandover(MigrationProtocol.Connect(found));
      hasTarget := found;
      r := if found then Returned else Raised;
    }

    /** `acquire_migration_locks`, its loop left to module `MigrationLocks`. It goes on to the transfer, or
    into the rescue without having begun; it sends a cancel exactly if the configuration has changed. */
    method AcquireMigrationLocks() returns (r: Outcome, configChanged: bool)
      requires world.Valid() && world.st.spc == MigLocking
      modifies world
      ensures world.Valid()
      ensures world.st.spc == if r == Returned then Releasing(world.st.vols.Keys, false) else Rescuing
      ensures world.st.begun <==> r == Returned
      ensures configChanged <==> world.st.requests.cancel != Unsent
      ensures configChanged ==> r == Raised
      ensures old(world.badNews) <= world.badNews
      ensures r == Raised ==> old(world.badNews) < world.badNews
    {
      hide IsRun;
      world.OthersAct();
      world.InvHolds();
      configChanged := *;
      world.Notes(!configChanged);
      if configChanged {
        world.DoHandover(AskCancel);
        world.OthersAct();
        world.InvHolds();
        world.DoHandover(CancelReturns);
        return Raised, true;
      }
      var got := world.Hears(true);
      world.DoHandover(MigrationLocks(got));
      r := if got then Returned else Raised;
    }

    /** `transfer_ceph_locks`: all volumes are tried before a failed unlock is reported. */
    method TransferCephLocks() returns (r: Outcome)
      requires world.Valid() && world.st.spc == Releasing(world.st.vols.Keys, false)
      modifies world
      ensures world.Valid()
      ensures world.st.spc == if r == Returned then Configuring else Rescuing
      ensures r == Returned ==> HoldsNone(world.st.vols, SRC) && world.st.requests.acquire == Granted
      ensures old(world.badNews) <= world.badNews
      ensures r == Raised ==> old(world.badNews) < world.badNews
    {
      hide IsRun;
      var todo, failed := world.st.vols.Keys, false;
      while todo != {}
        invariant world.Valid() && world.st.spc == Releasing(todo, failed) && todo <= world.st.vols.Keys
        invariant old(world.badNews) <= world.badNews && (failed ==> old(world.badNews) < world.badNews)
        invariant !failed ==> forall d :: d in world.st.vols && world.st.vols[d].owner == Some(SRC) ==> d in todo
      {
        world.OthersAct();
        var d :| d in todo;
        var u, after := UnlockCall(SRC, world.st.vols[d]);
        world.DoHandover(Release(d, u, after));
        world.Notes(u != UnlockRaised && u != ReplyLost);
        todo, failed := todo - {d}, failed || u == UnlockRaised || u == ReplyLost;
      }
      world.DoHandover(ReleaseDone);
      if failed { return Raised; }
      world.OthersAct();
      var answered := world.Hears(world.st.requests.acquire == Granted);
      world.DoHandover(AcquireReturns(answered));
      r := if answered then Returned else Raised;
    }

    /** The first half of `migrate`: the running config goes to the target. */
    method PrepareTarget() returns (r: Outcome)
      requires world.Valid() && world.st.spc == Configuring
      modifies world
      ensures world.Valid()
      ensures world.st.spc == if r == Returned then Starting else Rescuing
      ensures old(world.badNews) <= world.badNews
      ensures r == Raised ==> old(world.badNews) < world.badNews
    {
      world.OthersAct();
      var ok := world.Hears(true);
      world.DoHandover(Configured(ok));
      if !ok { return Raised; }
      world.OthersAct();
      var answered := world.Hears(world.st.requests.prepare == Granted);
      world.DoHandover(PrepareReturns(answered));
      r := if answered then Returned else Raised;
    }

    /** The qemu migration and its polling, with the final check of the guest's status. */
    method RunMigration() returns (r: Outcome)
      requires world.Valid() && world.st.spc == Starting
      modifies world
      ensures world.Valid()
      ensures world.st.spc == if r == Returned then SKilling(AfterMigration) else Rescuing
      ensures old(world.badNews) <= world.badNews
      ensures r == Raised ==> old(world.badNews) < world.badNews
    {
      world.OthersAct();
      var ok := world.Hears(true);
      var accepted: bool := *;
      world.DoHandover(StartMigration(ok, accepted));
      if !ok { return Raised; }
      world.OthersAct();
      var completed := world.Hears(world.st.sourceGuest == Postmigrate);
      world.DoHandover(Poll(completed));
      r := if completed then Returned else Raised;
    }

    /** `migrate`; an exception of the final `finish_incoming` is swallowed. */
    method Migrate() returns (r: Outcome)
      requires world.Valid() && world.st.spc == Configuring
      modifies world
      ensures world.Valid()
      ensures world.st.spc == if r == Returned then SEnded(Migrated) else Rescuing
      ensures old(world.badNews) <= world.badNews
      ensures r == Raised ==> old(world.badNews) < world.badNews
    {
      hide IsRun;
      r := PrepareTarget();
      if r == Raised { return; }
      r := RunMigration();
      if r == Raised { return; }
      var how: KillResult;
      r, how := AgentDestroy(AfterMigration);
      if r == Raised { return; }
      world.OthersAct();
      world.DoKill(FinishReturns);
    }

    /** `Agent._destroy`: kill, and if the guest is gone, unlock whatever the outcome of each unlock. A
    normal return with the guest gone leaves locks only where unlocking raised; otherwise none is touched. */
    method AgentDestroy(reason: KillReason) returns (r: Outcome, how: KillResult)
      requires world.Valid() && world.st.spc == SKilling(reason)
      modifies world
      ensures world.Valid()
      ensures r == Raised <==> how == KillRaises
      ensures r == Returned ==> world.st.spc == AfterKill(world.st, reason).spc
      ensures r == Raised ==> world.st.spc == AfterKillRaised(world.st, reason).spc
      ensures how != KillDone ==> world.st.faults.sourceDestroy
      ensures how == KillDone ==>
                && world.st.sourceGuest == NoGuest
                && OnlyStuckLeft(world.st.vols, SRC, world.steps, |old(world.steps)|)
      ensures old(world.badNews) <= world.badNews
      ensures how != KillDone ==> old(world.badNews) < world.badNews
    {
      hide IsRun;
      world.OthersAct();
      how := world.HearsKill();
      world.DoKill(Kill(how));
      if how == KillTimesOut { return Returned, how; }
      if how == KillRaises { return Raised, how; }
      ghost var from := |world.steps|;
      DropAll(reason);
      world.InvHolds();
      StuckLater(world.st.vols, SRC, world.steps, DropDone, from, |old(world.steps)|);
      world.DoKill(DropDone);
      r := Returned;
    }

    /** `ceph.stop()` with its exception ignored. */
    method DropAll(reason: KillReason)
      requires world.Valid() && world.st.spc == SDropping(world.st.vols.Keys, reason)
      modifies world
      ensures world.Valid() && world.st.spc == SDropping({}, reason) && old(world.steps) <= world.steps
      ensures OnlyStuckLeft(world.st.vols, SRC, world.steps, |old(world.steps)|)
      ensures old(world.badNews) == world.badNews
    {
      hide IsRun;
      var todo := world.st.vols.Keys;
      while todo != {}
        invariant world.Valid() && world.st.spc == SDropping(todo, reason) && todo <= world.st.vols.Keys
        invariant old(world.steps) <= world.steps && old(world.badNews) == world.badNews
        invariant forall d :: d in world.st.vols && world.st.vols[d].owner == Some(SRC) && d !in todo ==>
                    StuckSince(world.steps, |old(world.steps)|, SRC, d)
      {
        ghost var before := world.steps;
        world.OthersAct();
        var d :| d in todo;
        var u, after := UnlockCall(SRC, world.st.vols[d]);
        world.DoKill(Drop(d, u, after));
        StuckStays(before, world.steps, |old(world.steps)|, SRC);
        assert u == UnlockRaised ==> IsStuck(world.steps[|world.steps| - 1], SRC, d);
        todo := todo - {d};
      }
    }

    /** `target.rescue` and `target.finish_incoming`. */
    method AskForRescue() returns (r: Outcome)
      requires world.Valid() && world.st.spc == Rescuing
      modifies world
      ensures world.Valid()
      ensures world.st.spc == if r == Returned then SKilling(AfterRemoteRescue) else WaitDestroy
      ensures old(world.badNews) <= world.badNews
      ensures r == Raised ==> old(world.badNews) < world.badNews
    {
      world.OthersAct();
      world.DoRescue(AskRescue);
      world.OthersAct();
      var answered := world.Hears(world.st.requests.rescue == Granted);
      world.DoRescue(RescueReturns(answered));
      if !answered { return Raised; }
      world.OthersAct();
      answered := world.Hears(world.st.requests.finish == Granted);
      world.DoRescue(RescueFinishReturns(answered));
      r := if answered then Returned else Raised;
    }

    /** The first `try` of `rescue`. */
    method RescueRemote() returns (r: Outcome)
      requires world.Valid() && world.st.spc == Rescuing
      modifies world
      ensures world.Valid()
      ensures world.st.spc == if r == Returned then SEnded(RescuedRemotely) else WaitDestroy
      ensures old(world.badNews) <= world.badNews
      ensures r == Raised ==> old(world.badNews) < world.badNews
    {
      r := AskForRescue();
      if r == Returned {
        var how: KillResult;
        r, how := AgentDestroy(AfterRemoteRescue);
      }
    }

    /** `ceph.lock()`, stopping at the first exception. */
    method RelockAll() returns (r: Outcome)
      requires world.Valid() && world.st.spc == Relocking(world.st.vols.Keys)
      modifies world
      ensures world.Valid()
      ensures world.st.spc == if r == Returned then Checking else SKilling(GivingUpLocally)
      ensures old(world.badNews) <= world.badNews
      ensures r == Raised ==> old(world.badNews) < world.badNews
    {
      hide IsRun;
      var todo := world.st.vols.Keys;
      while todo != {}
        invariant world.Valid() && world.st.spc == Relocking(todo) && todo <= world.st.vols.Keys
        invariant old(world.badNews) == world.badNews
      {
        world.OthersAct();
        var d :| d in todo;
        TakeUnseen(d);
        var l, after := LockCall(SRC, world.st.vols[d]);
        world.DoRescue(Relock(d, l, after));
        world.Notes(l != LockRaised);
        if l == LockRaised { return Raised; }
        todo := todo - {d};
      }
      world.DoRescue(RelockDone);
      r := Returned;
    }

    /** The locks, then the check that the guest runs. */
    method RelockAndCheck() returns (r: Outcome)
      requires world.Valid() && world.st.spc == Relocking(world.st.vols.Keys)
      modifies world
      ensures world.Valid()
      ensures world.st.spc == if r == Returned then SEnded(ContinuedLocally) else SKilling(GivingUpLocally)
      ensures r == Returned ==> world.st.sourceGuest == Running && MigrationSafety.HoldsExactlyBut(world.st.vols, world.st.lostBySource, SRC)
      ensures old(world.badNews) <= world.badNews
      ensures r == Raised ==> old(world.badNews) < world.badNews
    {
      hide IsRun, MigrationSafety.SentInv, MigrationSafety.BegunInv, MigrationSafety.RequestInv, MigrationSafety.TargetInv;
      hide MigrationSafety.HandoverInv, MigrationSafety.EndInv, MigrationSafety.VerdictInv;
      r := RelockAll();
      if r == Raised { return; }
      world.OthersAct();
      var running := world.Hears(world.st.sourceGuest == Running);
      world.DoRescue(Check(running));
      world.InvHolds();
      r := if running then Returned else Raised;
    }

    /** Within one `Volume.lock`: at most two `lock add` commands that took effect unseen. */
    method TakeUnseen(d: Disk)
      requires world.Valid() && world.st.spc.Relocking? && d in world.st.spc.todo && d in world.st.vols
      modifies world
      ensures world.Valid() && world.st.spc == old(world.st.spc) && world.st.vols.Keys == old(world.st.vols.Keys)
      ensures old(world.badNews) == world.badNews
    {
      hide IsRun;
      for n := 0 to 2
        invariant world.Valid() && world.st.spc == old(world.st.spc) && world.st.vols.Keys == old(world.st.vols.Keys)
        invariant old(world.badNews) == world.badNews
      {
        var a, takes: bool := world.st.vols[d], *;
        if takes && a.owner == None {
          world.DoRescue(RelockUnseen(d, ImageLock(Some(SRC), a.marked)));
          world.OthersAct();
        }
      }
    }

    /** `rescue`. */
    method Rescue() returns (r: Outcome)
      requires world.Valid()
      requires world.st.spc == if hasTarget then Rescuing else Relocking(world.st.vols.Keys)
      requires exitcode == 1
      modifies world, this`exitcode
      ensures world.Valid() && world.st.spc.SEnded?
      ensures r == Raised <==> world.st.spc.result == Crashed
      ensures r == Returned ==> (exitcode == 0 <==> world.st.spc.result == RescuedRemotely)
      ensures world.st.spc.result != Migrated && (exitcode == 0 || exitcode == 1)
      ensures old(world.badNews) <= world.badNews
      ensures old(world.badNews) == world.badNews ==>
                r == Returned && world.st.spc.result == if hasTarget then RescuedRemotely else ContinuedLocally
    {
      hide IsRun;
      if hasTarget {
        r := RescueRemote();
        if r == Returned {
          exitcode := 0;
          return;
        }
        world.OthersAct();
        world.DoRescue(DestroyReturns);
      }
      r := RelockAndCheck();
      if r == Raised {
        var how: KillResult;
        r, how := AgentDestroy(GivingUpLocally);
      }
    }

    /** `__call__` with the `with self` block and `__exit__`. An exception out of `rescue` makes
    `__exit__` call a method `destroy` that `Outgoing` does not have, so it stays an exception. */
    method Call() returns (r: Outcome)
      requires world.Valid() && world.st.spc == Connecting && !hasTarget
      modifies world, this
      ensures world.Valid() && world.st.spc.SEnded?
      ensures r == Raised <==> world.st.spc.result == Crashed
      ensures r == Returned ==> (exitcode == 0 <==> world.st.spc.result in {Migrated, RescuedRemotely})
      ensures EndsWell(world.st, r, exitcode)
      ensures old(world.badNews) == world.badNews ==> r == Returned && exitcode == 0 && world.st.spc == SEnded(Migrated)
    {
      hide IsRun, EndsWell, MigrationSafety.Inv;
      r := Connect();
      if r == Returned {
        var configChanged: bool;
        r, configChanged := AcquireMigrationLocks();
      }
      if r == Returned { r := TransferCephLocks(); }
      if r == Returned { r := Migrate(); }
      if r == Returned {
        exitcode := 0;
      } else {
        exitcode := 1;
        r := Rescue();
      }
      world.InvHolds();
      InvEndsWell(world.st, r, exitcode);
    }
  }
}
