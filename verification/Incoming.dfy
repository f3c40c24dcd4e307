/** `IncomingServer`: the target's side of a migration. Between any two of its actions the source,
qemu and other hosts may act. */
module Incoming {
  import opened Basics
  import opened VolumeLock
  import opened MigrationProtocol
  import MigrationSafety
  import opened MigrationWorld

  /** Work on the request has begun since. */
  predicate Served(before: seq<Step>, after: seq<Step>, m: Msg) {
    before < after && after[|before|] == TStart(m)
  }

  class IncomingServer {
    const world: World

    constructor (world: World)
      ensures this.world == world
    {
      this.world := world;
    }

    /** `ceph.lock()`: volume by volume, up to the first exception. A normal return means all locks but
    exactly those that another host's unlock took meanwhile. */
    method LockAll(m: Msg) returns (r: Outcome)
      requires world.Valid() && world.st.tpc == TLocking(world.st.vols.Keys, m)
      modifies world
      ensures world.Valid()
      ensures r == Returned ==> world.st.tpc == TLocking({}, m) && world.st.finished == old(world.st.finished)
      ensures r == Returned ==>
                && MigrationSafety.HoldsExactlyBut(world.st.vols, world.st.lostByTarget, TGT)
                && (m == MigrationProtocol.Rescue ==> world.st.targetGuest == Running || world.st.faults.targetDied)
      ensures r == Raised && m != MigrationProtocol.Rescue ==> world.st.tpc == TLooping && world.st.finished == old(world.st.finished)
      ensures r == Raised && m == AcquireLocks ==> world.st.requests.acquire == Failed
      ensures r == Raised && m == MigrationProtocol.Rescue ==> world.st.tpc == TKilling(Some(m)) && world.st.finished == Destroyed
      ensures old(world.badNews) <= world.badNews && (r == Raised ==> old(world.badNews) < world.badNews)
      ensures old(world.steps) <= world.steps && world.arrived == old(world.arrived)
    {
      hide IsRun, MigrationSafety.SentInv, MigrationSafety.BegunInv, MigrationSafety.HandoverInv;
      hide MigrationSafety.SourceInv, MigrationSafety.EndInv, MigrationSafety.VerdictInv, MigrationSafety.RequestInv;
      var todo := world.st.vols.Keys;
      while todo != {}
        invariant world.Valid() && world.st.tpc == TLocking(todo, m) && todo <= world.st.vols.Keys
        invariant world.badNews == old(world.badNews) && old(world.steps) <= world.steps
        invariant world.arrived == old(world.arrived)
        invariant world.st.finished == old(world.st.finished)
      {
        world.ClientsAct();
        var d :| d in todo;
        TakeUnseen(d);
        var l, after := LockCall(TGT, world.st.vols[d]);
        world.DoServe(TLock(d, l, after));
        world.Notes(l != LockRaised);
        if l == LockRaised { return Raised; }
        todo := todo - {d};
      }
      world.ClientsAct();
      world.InvHolds();
      r := Returned;
    }

    /** Within one `Volume.lock`: at most two `lock add` commands that took effect unseen. */
    method TakeUnseen(d: Disk)
      requires world.Valid() && world.st.tpc.TLocking? && d in world.st.tpc.todo && d in world.st.vols
      modifies world
      ensures world.Valid() && world.st.tpc == old(world.st.tpc) && world.st.finished == old(world.st.finished)
      ensures world.st.vols.Keys == old(world.st.vols.Keys)
      ensures world.badNews == old(world.badNews) && old(world.steps) <= world.steps && world.arrived == old(world.arrived)
    {
      hide IsRun;
      for n := 0 to 2
        invariant world.Valid() && world.st.tpc == old(world.st.tpc) && world.st.finished == old(world.st.finished)
        invariant world.badNews == old(world.badNews) && old(world.steps) <= world.steps
        invariant world.arrived == old(world.arrived)
        invariant world.st.vols.Keys == old(world.st.vols.Keys)
      {
        var a, takes: bool := world.st.vols[d], *;
        if takes && a.owner == None {
          world.DoServe(TLockUnseen(d, ImageLock(Some(TGT), a.marked)));
          world.ClientsAct();
        }
      }
    }

    /** `ceph.unlock()`: every volume is tried, whatever the others raised. A normal return means that
    none of this host's locks is left. */
    method UnlockAll(reason: UnlockReason) returns (r: Outcome)
      requires world.Valid() && world.st.tpc == TUnlocking(world.st.vols.Keys, reason)
      requires reason.ForCancel? ==> !reason.failed
      modifies world
      ensures world.Valid() && world.st.finished == old(world.st.finished)
      ensures world.st.tpc == TUnlocking({}, if reason.ForCancel? then ForCancel(r == Raised) else reason)
      ensures r == Returned ==> HoldsNone(world.st.vols, TGT)
      ensures old(world.steps) <= world.steps && OnlyStuckLeft(world.st.vols, TGT, world.steps, |old(world.steps)|)
      ensures old(world.badNews) <= world.badNews && (r == Raised ==> old(world.badNews) < world.badNews)
      ensures world.arrived == old(world.arrived)
    {
      hide IsRun;
      var todo, failed := world.st.vols.Keys, false;
      while todo != {}
        invariant world.Valid() && todo <= world.st.vols.Keys && world.st.finished == old(world.st.finished)
        invariant world.st.tpc == TUnlocking(todo, if reason.ForCancel? then ForCancel(failed) else reason)
        invariant !failed ==> forall d :: d in world.st.vols && world.st.vols[d].owner == Some(TGT) ==> d in todo
        invariant old(world.steps) <= world.steps && world.arrived == old(world.arrived)
        invariant old(world.badNews) <= world.badNews && (failed ==> old(world.badNews) < world.badNews)
        invariant forall d :: d in world.st.vols && world.st.vols[d].owner == Some(TGT) && d !in todo ==>
                    StuckSince(world.steps, |old(world.steps)|, TGT, d)
      {
        ghost var before := world.steps;
        var d :| d in todo;
        var u := UnlockOne(d);
        StuckStays(before, world.steps, |old(world.steps)|, TGT);
        todo, failed := todo - {d}, failed || u == UnlockRaised || u == ReplyLost;
      }
      r := if failed then Raised else Returned;
    }

    /** One volume's turn. */
    method UnlockOne(d: Disk) returns (u: UnlockOutcome)
      requires world.Valid() && world.st.tpc.TUnlocking? && d in world.st.tpc.todo && d in world.st.vols
      modifies world
      ensures world.Valid() && world.st.finished == old(world.st.finished) && old(world.steps) < world.steps
      ensures NoneGained(old(world.st.vols), world.st.vols, TGT)
      ensures world.st.tpc == TUnlocking(old(world.st.tpc.todo) - {d}, AfterUnlock(old(world.st.tpc.reason), u))
      ensures world.st.vols[d].owner == Some(TGT) ==> u == UnlockRaised && IsStuck(world.steps[|world.steps| - 1], TGT, d)
      ensures world.badNews == old(world.badNews) + if u == UnlockRaised || u == ReplyLost then 1 else 0
      ensures world.arrived == old(world.arrived)
    {
      hide IsRun;
      world.ClientsAct();
      var after: ImageLock;
      u, after := UnlockCall(TGT, world.st.vols[d]);
      world.Notes(u != UnlockRaised && u != ReplyLost);
      world.DoClean(TUnlock(d, u, after));
    }

    /** A cancel request remembers that an unlock raised. */
    function AfterUnlock(reason: UnlockReason, u: UnlockOutcome): UnlockReason {
      if reason.ForCancel? then ForCancel(reason.failed || u == UnlockRaised || u == ReplyLost) else reason
    }

    /** `acquire_ceph_locks`. */
    method AcquireCephLocks()
      requires world.Valid() && world.st.tpc == Serving && world.st.requests.acquire == Pending
      modifies world
      ensures world.Valid() && world.st.tpc == TLooping && world.st.finished == old(world.st.finished)
      ensures world.st.requests.acquire == Granted ==>
                MigrationSafety.HoldsExactlyBut(world.st.vols, world.st.lostByTarget, TGT)
      ensures world.st.requests.acquire == Granted || world.st.requests.acquire == Failed
      ensures world.badNews == old(world.badNews) ==> world.st.requests.acquire == Granted
      ensures old(world.badNews) <= world.badNews
      ensures Served(old(world.steps), world.steps, AcquireLocks) && world.arrived == old(world.arrived)
    {
      hide IsRun;
      world.DoServe(TStart(AcquireLocks));
      var r := LockAll(AcquireLocks);
      if r == Returned { world.DoServe(TLockDone); }
    }

    /** The rest of `prepare_incoming` after qemu's in-migration raised. */
    method UndoPrepare()
      requires world.Valid() && world.st.tpc == TUnlocking(world.st.vols.Keys, ForRequest(Prepare))
      modifies world
      ensures world.Valid() && world.st.tpc == TLooping && world.st.finished == old(world.st.finished)
      ensures world.st.requests.prepare == Failed
      ensures OnlyStuckLeft(world.st.vols, TGT, world.steps, |old(world.steps)|)
      ensures old(world.badNews) <= world.badNews
      ensures old(world.steps) <= world.steps && world.arrived == old(world.arrived)
    {
      hide IsRun;
      var _ := UnlockAll(ForRequest(Prepare));
      StuckLater(world.st.vols, TGT, world.steps, TUnlockDone, |old(world.steps)|, |old(world.steps)|);
      world.DoClean(TUnlockDone);
    }

    /** `prepare_incoming`: locks go if qemu's in-migration raised, whether or not it left a process. */
    method PrepareIncoming()
      requires world.Valid() && world.st.tpc == Serving && world.st.requests.prepare == Pending
      modifies world
      ensures world.Valid() && world.st.tpc == TLooping && world.st.finished == old(world.st.finished)
      ensures world.st.requests.prepare == Granted || world.st.requests.prepare == Failed
      ensures world.st.requests.prepare == Granted ==> world.st.targetGuest == Inmigrate
      ensures world.st.requests.prepare == Failed ==>
                OnlyStuckLeft(world.st.vols, TGT, world.steps, |old(world.steps)|)
      ensures world.badNews == old(world.badNews) ==> world.st.requests.prepare == Granted
      ensures old(world.badNews) <= world.badNews
      ensures Served(old(world.steps), world.steps, Prepare) && world.arrived == old(world.arrived)
    {
      hide LockStep, UnlockStep, Robs, TakesUnseen, Locked, Unlocked;
      hide IsRun;
      world.DoServe(TStart(Prepare));
      world.ClientsAct();
      var ok := world.Hears(world.st.targetGuest == NoGuest);
      var spawned: bool := *;
      world.DoServe(TPrepare(ok, spawned));
      if !ok {
        ghost var from := |world.steps|;
        UndoPrepare();
        StuckSinceEarlier(world.st.vols, TGT, world.steps, from, |old(world.steps)|);
      }
    }

    /** Does the guest run? It may not be possible to tell. */
    method LookAtGuest() returns (seen: Option<bool>)
      modifies world`badNews
      ensures seen == Some(true) ==> world.st.targetGuest == Running
      ensures seen == Some(false) ==> world.st.targetGuest == NoGuest
      ensures seen != Some(true) ==> old(world.badNews) < world.badNews
      ensures old(world.badNews) <= world.badNews
    {
      var looks := world.Hears(true);
      world.Notes(world.st.targetGuest == Running);
      seen := if !looks then None
        else if world.st.targetGuest == Running then Some(true)
        else if world.st.targetGuest == NoGuest then Some(false)
        else None;
    }

    /** `rescue`: granted with the guest running, unless it died meanwhile, under all locks that nobody took;
    refused after trying to unlock or to destroy, or when it cannot be told whether the guest runs. */
    method Rescue()
      requires world.Valid() && world.st.tpc == Serving && world.st.requests.rescue == Pending
      modifies world
      ensures world.Valid() && world.st.tpc == TLooping
      ensures world.st.finished == old(world.st.finished) || world.st.finished == Destroyed
      ensures world.st.requests.rescue == Granted || world.st.requests.rescue == Failed
      ensures world.st.requests.rescue == Granted ==>
                && world.st.finished == old(world.st.finished)
                && (world.st.targetGuest == Running || world.st.faults.targetDied)
                && MigrationSafety.HoldsExactlyBut(world.st.vols, world.st.lostByTarget, TGT)
      ensures world.st.finished != old(world.st.finished) ==>
                world.st.targetGuest == NoGuest || world.st.faults.targetDestroy
      ensures world.badNews == old(world.badNews) ==> world.st.requests.rescue == Granted
      ensures old(world.badNews) <= world.badNews
      ensures Served(old(world.steps), world.steps, MigrationProtocol.Rescue) && world.arrived == old(world.arrived)
    {
      hide LockStep, UnlockStep, Robs, TakesUnseen, Locked, Unlocked;
      hide IsRun, MigrationSafety.HoldsExactlyBut, OnlyStuckLeft;
      world.DoServe(TStart(MigrationProtocol.Rescue));
      world.ClientsAct();
      var seen := LookAtGuest();
      world.DoServe(TRescue(seen));
      match seen
      case None =>
      case Some(false) =>
        RefuseRescue();
      case Some(true) =>
        RescueRunning();
    }

    /** The rest of `rescue` without a guest. */
    method RefuseRescue()
      requires world.Valid() && world.st.tpc == TUnlocking(world.st.vols.Keys, ForRequest(MigrationProtocol.Rescue))
      modifies world
      ensures world.Valid() && world.st.tpc == TLooping && world.st.finished == old(world.st.finished)
      ensures world.st.requests.rescue == Failed
      ensures old(world.badNews) <= world.badNews
      ensures old(world.steps) <= world.steps && world.arrived == old(world.arrived)
    {
      hide IsRun;
      var _ := UnlockAll(ForRequest(MigrationProtocol.Rescue));
      world.DoClean(TUnlockDone);
    }

    /** The rest of `rescue` for a running guest. */
    method RescueRunning()
      requires world.Valid() && world.st.tpc == TLocking(world.st.vols.Keys, MigrationProtocol.Rescue)
      modifies world
      ensures world.Valid() && world.st.tpc == TLooping
      ensures world.st.finished == old(world.st.finished) || world.st.finished == Destroyed
      ensures world.st.requests.rescue == Granted || world.st.requests.rescue == Failed
      ensures world.st.requests.rescue == Granted ==>
                && world.st.finished == old(world.st.finished)
                && (world.st.targetGuest == Running || world.st.faults.targetDied)
                && MigrationSafety.HoldsExactlyBut(world.st.vols, world.st.lostByTarget, TGT)
      ensures world.st.finished != old(world.st.finished) ==>
                world.st.targetGuest == NoGuest || world.st.faults.targetDestroy
      ensures world.badNews == old(world.badNews) ==> world.st.requests.rescue == Granted
      ensures old(world.badNews) <= world.badNews
      ensures old(world.steps) <= world.steps && world.arrived == old(world.arrived)
    {
      hide IsRun, MigrationSafety.HoldsExactlyBut, OnlyStuckLeft;
      var r := LockAll(MigrationProtocol.Rescue);
      if r == Returned {
        world.DoServe(TLockDone);
      } else {
        AgentDestroy(MigrationProtocol.Rescue);
      }
    }

    /** `Agent._destroy` on behalf of a request: the guest is gone afterwards, or its destruction failed. */
    method AgentDestroy(m: Msg)
      requires world.Valid() && world.st.tpc == TKilling(Some(m))
      modifies world
      ensures world.Valid() && world.st.tpc == TLooping && world.st.finished == old(world.st.finished)
      ensures world.st.targetGuest == NoGuest || world.st.faults.targetDestroy
      ensures m == MigrationProtocol.Rescue ==> world.st.requests.rescue == Failed
      ensures old(world.badNews) <= world.badNews
      ensures m == MigrationProtocol.Destroy && world.badNews == old(world.badNews) ==> world.st.requests.destroy == Granted
      ensures old(world.steps) <= world.steps && world.arrived == old(world.arrived)
    {
      hide LockStep, UnlockStep, Robs, TakesUnseen, Locked, Unlocked;
      hide IsRun, OnlyStuckLeft, HoldsNone;
      world.ClientsAct();
      world.TargetInvHolds();
      var how := world.HearsKill();
      world.DoClean(TKill(how));
      if how == KillDone {
        var _ := UnlockAll(ForDestroy(m));
        world.TargetInvHolds();
        world.DoClean(TUnlockDone);
      }
    }

    /** `finish_incoming`. */
    method FinishIncoming()
      requires world.Valid() && world.st.tpc == Serving && world.st.requests.finish == Pending
      modifies world
      ensures world.Valid() && world.st.tpc == TLooping
      ensures if world.st.requests.finish == Granted then world.st.finished == Success && world.st.targetGuest == Running
              else world.st.finished == old(world.st.finished)
      ensures world.badNews == old(world.badNews) ==> world.st.requests.finish == Granted
      ensures old(world.badNews) <= world.badNews
      ensures Served(old(world.steps), world.steps, Finish) && world.arrived == old(world.arrived)
    {
      hide IsRun;
      world.DoServe(TStart(Finish));
      world.ClientsAct();
      var ok := world.Hears(world.st.targetGuest == Running);
      world.DoServe(TFinish(ok));
    }

    /** `cancel`: `finished` is only set if every unlock worked. */
    method Cancel()
      requires world.Valid() && world.st.tpc == Serving && world.st.requests.cancel == Pending
      modifies world
      ensures world.Valid() && world.st.tpc == TLooping
      ensures world.st.finished == if world.st.requests.cancel == Granted then Cancelled else old(world.st.finished)
      ensures world.st.requests.cancel == Granted ==> HoldsNone(world.st.vols, TGT)
      ensures world.badNews == old(world.badNews) ==> world.st.requests.cancel == Granted
      ensures old(world.badNews) <= world.badNews
      ensures Served(old(world.steps), world.steps, MigrationProtocol.Cancel) && world.arrived == old(world.arrived)
    {
      hide IsRun;
      world.DoServe(TStart(MigrationProtocol.Cancel));
      var r := UnlockAll(ForCancel(false));
      world.DoClean(TUnlockDone);
    }

    /** `destroy`. */
    method Destroy()
      requires world.Valid() && world.st.tpc == Serving && world.st.requests.destroy == Pending
      modifies world
      ensures world.Valid() && world.st.tpc == TLooping && world.st.finished == Destroyed
      ensures world.st.targetGuest == NoGuest || world.st.faults.targetDestroy
      ensures world.badNews == old(world.badNews) ==> world.st.requests.destroy == Granted
      ensures old(world.badNews) <= world.badNews
      ensures Served(old(world.steps), world.steps, MigrationProtocol.Destroy) && world.arrived == old(world.arrived)
    {
      world.DoServe(TStart(MigrationProtocol.Destroy));
      AgentDestroy(MigrationProtocol.Destroy);
    }

    method Serve(m: Msg)
      requires world.Valid() && world.st.tpc == Serving && Status(world.st.requests, m) == Pending
      modifies world
      ensures world.Valid() && world.st.tpc == TLooping
      ensures world.badNews == old(world.badNews) ==> Status(world.st.requests, m) == Granted
      ensures old(world.badNews) <= world.badNews && Served(old(world.steps), world.steps, m) && world.arrived == old(world.arrived)
    {
      match m
      case Cancel => Cancel();
      case AcquireLocks => AcquireCephLocks();
      case Prepare => PrepareIncoming();
      case Finish => FinishIncoming();
      case Rescue => Rescue();
      case Destroy => Destroy();
    }

    /** The loop of `run`: requests in any order until one decides, or until the deadline passes. */
    method ServeLoop()
      requires world.Valid() && world.st.tpc == Serving && world.st.finished == Undecided
      modifies world
      ensures world.Valid()
      ensures world.st.tpc == if world.st.finished == Success then TEnded else TKilling(None)
      ensures old(world.arrived) <= world.arrived
      ensures forall i :: |old(world.arrived)| <= i < |world.arrived| ==> TStart(world.arrived[i]) in world.steps
      ensures old(world.badNews) <= world.badNews
    {
      hide IsRun;
      var ticks: nat := *;
      while ticks > 0
        invariant world.Valid() && world.st.tpc == Serving && world.st.finished == Undecided
        invariant old(world.arrived) <= world.arrived && old(world.badNews) <= world.badNews
        invariant forall i :: |old(world.arrived)| <= i < |world.arrived| ==> TStart(world.arrived[i]) in world.steps
      {
        ticks := ticks - 1;
        world.ClientsAct();
        var m := world.Arrives();
        if m.Some? {
          Serve(m.value);
          assert TStart(m.value) in world.steps;
          world.ClientsAct();
          world.DoServe(TLoop);
          if world.st.finished != Undecided { return; }
        }
      }
      world.DoServe(TExpire);
    }

    /** `run`, and what `ensure_` makes of its exit code: after a failed in-migration, locks the target
    still holds on all volumes count as inconsistent and are given up; held on some only, they stay. */
    method Run() returns (exitcode: int)
      requires world.Valid() && world.st.tpc == Serving && world.st.finished == Undecided
      modifies world
      ensures world.Valid() && world.st.tpc == TEnded
      ensures exitcode == if world.st.finished == Success then 0 else 1
      ensures var s := world.st;
              && (exitcode == 0 ==>
                    s.faults.targetDied
                    || (s.targetGuest == Running && MigrationSafety.HoldsExactlyBut(s.vols, s.lostByTarget, TGT)))
              && (exitcode == 1 ==> s.targetGuest == NoGuest || s.faults.targetDestroy)
      ensures exitcode == 1 && world.badNews == old(world.badNews) ==> world.st.targetGuest == NoGuest
    {
      ServeLoop();
      exitcode := if world.st.finished == Success then 0 else 1;
      if world.st.finished != Success {
        Clear();
      }
      world.InvHolds();
    }

    method Clear()
      requires world.Valid() && world.st.tpc == TKilling(None) && world.st.finished != Success
      modifies world
      ensures world.Valid() && world.st.tpc == TEnded && world.st.finished == old(world.st.finished)
      ensures world.badNews == old(world.badNews) ==> world.st.targetGuest == NoGuest
      ensures old(world.badNews) <= world.badNews
    {
      hide IsRun;
      world.ClientsAct();
      var how := world.HearsKill();
      world.DoClean(TKill(how));
      if how == KillDone {
        var inconsistent: bool := *;
        if inconsistent {
          var _ := UnlockAll(ForEnd);
          world.TargetInvHolds();
          world.DoClean(TUnlockDone);
        } else {
          world.DoClean(TLeave);
        }
      }
    }
  }
}
