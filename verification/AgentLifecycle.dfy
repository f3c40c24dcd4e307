/** What the agent does with one VM on its host under the VM lock: stopping, destroying, cleaning up,
starting, and the `ensure_` around them, with the volume locks they take and give up. */
module AgentLifecycle {
  import opened Basics

  type Owners = map<Disk, Option<Host>>

  /** `Inconsistent`: VMStateInconsistent was raised; `Fails`: any other exception. */
  datatype Exit = Done | Inconsistent | Fails

  /** What `is_running` says: yes and no are reliable, anything else is an exception. */
  datatype Seen = Yes | No | Unclear

  /** What was seen of the guest and done to this host's locks, in order. `alive` is the truth at that
  moment, whether a process of the guest exists; `Stuck`: unlocking the volume raised; `Located`: where to
  in-migrate from, as far as could be seen. `PrepareFailed`,
  `Cancelling` and `HandingOver` come before the three unlocks that are not preceded by a look. */
  datatype Event =
    | Saw(seen: Seen) | Freed(d: Disk, alive: bool) | Stuck(d: Disk) | FilesRemoved
    | PrepareFailed(left: bool) | Cancelling | HandingOver | Located(origin: Origin) | Tried(what: Attempt)

  datatype Attempt = ToStart | ToInmigrate | ToOutmigrate | ToStop | ToDestroy

  /** Why locks may be given up without a look at the guest: a failed in-migration, a cancelled one, the
  transfer of an out-migration. */
  datatype Cause = Prepare | Cancel | HandOver

  predicate Passes(e: Event) {
    e.Freed? || e.Stuck? || e.Located? || e.Tried?
  }

  function LastLook(log: seq<Event>): Option<Seen> {
    if log == [] then None
    else if log[|log| - 1].Saw? then Some(log[|log| - 1].seen)
    else LastLook(log[..|log| - 1])
  }

  /** The latest event that is not about a lock, nor the beginning of something. */
  function Under(log: seq<Event>): Option<Event> {
    if log == [] then None
    else if Passes(log[|log| - 1]) then Under(log[..|log| - 1])
    else Some(log[|log| - 1])
  }

  /** Locks may be given up: with the guest gone, and just seen to be; or for one of the causes, a failed
  in-migration's under a process only if it left one. */
  predicate MayFree(under: Option<Event>, alive: bool, causes: set<Cause>) {
    match under
    case Some(Saw(No)) => !alive
    case Some(PrepareFailed(left)) => Prepare in causes && (alive ==> left)
    case Some(Cancelling) => Cancel in causes
    case Some(HandingOver) => HandOver in causes
    case _ => false
  }

  /** From the given point on, each of this host's locks was given up as it may be. */
  predicate FreedOnly(log: seq<Event>, from: nat, causes: set<Cause>) {
    forall i :: from <= i < |log| && log[i].Freed? ==> MayFree(Under(log[..i]), log[i].alive, causes)
  }

  /** The log has grown, and locks were given up only with the guest gone, and just seen to be, but for the
  given causes. */
  predicate Grows(before: seq<Event>, after: seq<Event>, causes: set<Cause>) {
    before <= after && FreedOnly(after, |before|, causes)
  }

  lemma GrowsByOne(log: seq<Event>, e: Event, causes: set<Cause>)
    requires e.Freed? ==> MayFree(Under(log), e.alive, causes)
    ensures Grows(log, log + [e], causes)
    ensures LastLook(log + [e]) == if e.Saw? then Some(e.seen) else LastLook(log)
    ensures Under(log + [e]) == if Passes(e) then Under(log) else Some(e)
  {
    assert (log + [e])[..|log|] == log;
  }

  lemma GrowsOn(a: seq<Event>, b: seq<Event>, c: seq<Event>, causes: set<Cause>)
    requires Grows(a, b, causes) && Grows(b, c, causes)
    ensures Grows(a, c, causes)
  {
    forall i | |a| <= i < |c| && c[i].Freed? ensures MayFree(Under(c[..i]), c[i].alive, causes) {
      if i < |b| { assert c[..i] == b[..i]; }
    }
  }

  lemma GrowsToo(a: seq<Event>, b: seq<Event>, causes: set<Cause>, more: set<Cause>)
    requires Grows(a, b, causes) && causes <= more
    ensures Grows(a, b, more)
  {
  }

  /** From the given point on, the guest was only looked at. */
  predicate OnlyLooks(log: seq<Event>, from: nat) {
    forall i :: from <= i < |log| ==> log[i].Saw?
  }

  /** At or after the given point, something was tried. */
  predicate TriedSince(log: seq<Event>, from: nat, what: Attempt) {
    exists i :: from <= i < |log| && log[i] == Tried(what)
  }

  /** What `_requires_inmigrate_from` said at the given point was followed: an in-migration from another host, or
  a start. */
  predicate BroughtUpAt(log: seq<Event>, i: nat) {
    && i + 2 < |log| && log[i].Located? && log[i].origin != Several && log[i + 1] == Saw(No)
    && log[i + 2] == Tried(if log[i].origin.From? then ToInmigrate else ToStart)
  }

  predicate BroughtUp(log: seq<Event>, from: nat) {
    exists i :: from <= i < |log| && BroughtUpAt(log, i)
  }

  lemma BroughtUpStays(a: seq<Event>, b: seq<Event>, from: nat, earlier: nat)
    requires a <= b && earlier <= from
    ensures BroughtUp(a, from) ==> BroughtUp(b, earlier)
  {
    if i: nat :| from <= i < |a| && BroughtUpAt(a, i) {
      assert BroughtUpAt(b, i);
    }
  }

  /** A `_destroy` at or after the given point saw the guest running until its budget was used up. */
  predicate OutlivedSince(log: seq<Event>, from: nat, ticks: nat) {
    exists i :: from <= i < |log| && Outlived(log, i, ticks)
  }

  predicate Outlived(log: seq<Event>, i: nat, ticks: nat) {
    i + ticks < |log| && log[i] == Tried(ToDestroy) && forall k :: i < k <= i + ticks ==> log[k] == Saw(Yes)
  }

  lemma TriedStays(a: seq<Event>, b: seq<Event>, from: nat, earlier: nat, ticks: nat)
    requires a <= b && earlier <= from
    ensures forall what :: TriedSince(a, from, what) ==> TriedSince(b, earlier, what)
    ensures OutlivedSince(a, from, ticks) ==> OutlivedSince(b, earlier, ticks)
  {
    forall what | TriedSince(a, from, what) ensures TriedSince(b, earlier, what) {
      var i :| from <= i < |a| && a[i] == Tried(what);
      assert b[i] == Tried(what);
    }
    if OutlivedSince(a, from, ticks) {
      var i: nat :| from <= i < |a| && Outlived(a, i, ticks);
      assert Outlived(b, i, ticks);
    }
  }

  /** Unlocking the volume raised, at or after the given point. */
  predicate StuckSince(log: seq<Event>, from: nat, d: Disk) {
    exists i :: from <= i < |log| && log[i] == Stuck(d)
  }

  /** What is left of this host's locks is on volumes whose unlocking raised. */
  predicate OnlyStuckLeft(owners: Owners, me: Host, log: seq<Event>, from: nat) {
    forall d :: d in owners && owners[d] == Some(me) ==> StuckSince(log, from, d)
  }

  lemma StuckStays(a: seq<Event>, b: seq<Event>, from: nat)
    requires a <= b
    ensures forall d :: StuckSince(a, from, d) ==> StuckSince(b, from, d)
  {
    forall d | StuckSince(a, from, d) ensures StuckSince(b, from, d) {
      var i :| from <= i < |a| && a[i] == Stuck(d);
      assert b[i] == Stuck(d);
    }
  }

  lemma StuckOne(log: seq<Event>, e: Event, from: nat)
    requires from <= |log|
    ensures forall d :: StuckSince(log + [e], from, d) <==> StuckSince(log, from, d) || e == Stuck(d)
  {
    StuckStays(log, log + [e], from);
    assert (log + [e])[|log|] == e;
  }

  predicate OwnsAll(owners: Owners, me: Host) {
    forall d :: d in owners ==> owners[d] == Some(me)
  }

  predicate OwnsNone(owners: Owners, me: Host) {
    forall d :: d in owners ==> owners[d] != Some(me)
  }

  /** Among the same volumes, this host owns no lock that it did not own before. */
  predicate NoneGained(before: Owners, after: Owners, me: Host) {
    before.Keys == after.Keys && forall d :: d in after && after[d] == Some(me) ==> before[d] == Some(me)
  }

  /** Among the same volumes, this host still owns what it owned, but for locks that others took. */
  predicate KeptBut(before: Owners, after: Owners, taken: set<Disk>, me: Host) {
    && before.Keys == after.Keys
    && forall d :: d in before && before[d] == Some(me) ==> after[d] == Some(me) || d in taken
  }

  /** This host has every lock but exactly those that others took. */
  predicate OwnsExactlyBut(owners: Owners, taken: set<Disk>, me: Host) {
    forall d :: d in owners ==> (owners[d] == Some(me) <==> d !in taken)
  }

  /** `Ceph.locked_by_me`: without volumes, no locks are held. */
  predicate LockedByMe(owners: Owners, me: Host) {
    owners != map[] && OwnsAll(owners, me)
  }

  /** `VMStateInconsistent.is_consistent`. */
  predicate IsConsistent(qemu: bool, process: bool, lock: bool) {
    (qemu || process || lock) == (qemu && process && lock)
  }

  lemma ConsistentMeansEqual(qemu: bool, process: bool, lock: bool)
    ensures IsConsistent(qemu, process, lock) <==> qemu == process && process == lock
  {
  }

  // ------------------------------------------------------------ where to in-migrate from

  /** `Several` is the ValueError for locks of different hosts. */
  datatype Origin = Nowhere | From(h: Host) | Several

  /** There are locks, and they are all this host's. */
  predicate HeldOnlyBy(owners: Owners, h: Host) {
    && (exists d :: d in owners && owners[d] == Some(h))
    && forall d :: d in owners ==> owners[d] == None || owners[d] == Some(h)
  }

  predicate AllFree(owners: Owners) {
    forall d :: d in owners ==> owners[d] == None
  }

  /** `Ceph.locked_by`. */
  method LockedBy(owners: Owners) returns (r: Origin)
    ensures r == Nowhere <==> AllFree(owners)
    ensures forall h :: r == From(h) <==> HeldOnlyBy(owners, h)
  {
    var todo, hosts := owners.Keys, {};
    while todo != {}
      invariant todo <= owners.Keys
      invariant forall h :: h in hosts <==> exists d :: d in owners && d !in todo && owners[d] == Some(h)
    {
      var d :| d in todo;
      ghost var before, left := hosts, todo;
      if owners[d].Some? { hosts := hosts + {owners[d].value}; }
      todo := todo - {d};
      forall h | h in before ensures exists e :: e in owners && e !in todo && owners[e] == Some(h) {
        var e :| e in owners && e !in left && owners[e] == Some(h);
        assert e !in todo;
      }
    }
    if hosts == {} { return Nowhere; }
    var h :| h in hosts;
    if hosts != {h} {
      assert exists g :: g in hosts && g != h;
      return Several;
    }
    forall d | d in owners ensures owners[d] == None || owners[d] == Some(h) {
      if owners[d].Some? { assert owners[d].value in hosts; }
    }
    return From(h);
  }

  /** `_requires_inmigrate_from`. A service seen on another host decides. Otherwise there is nowhere to go
  exactly if all volumes are free or all are this host's; the answer is this host itself exactly if it
  holds some of the volumes and nobody holds the rest; it is another one exactly if only that one holds any. */
  method RequiresInmigrateFrom(owners: Owners, me: Host, service: Option<Host>) returns (r: Origin)
    ensures service.Some? && service.value != me ==> r == From(service.value)
    ensures service == None || service.value == me ==>
              && (r == Nowhere <==> AllFree(owners) || OwnsAll(owners, me))
              && (r == From(me) <==> HeldOnlyBy(owners, me) && !OwnsAll(owners, me))
              && forall h :: h != me ==> (r == From(h) <==> HeldOnlyBy(owners, h))
  {
    if service.Some? && service.value != me { return From(service.value); }
    if forall d :: d in owners ==> owners[d] == None { return Nowhere; }
    if LockedByMe(owners, me) {
      return Nowhere;
    }
    r := LockedBy(owners);
  }

  /** A request that reaches the server of an in-migration. */
  datatype Request = AcquireLocks | PrepareIncoming | Rescue | CancelIncoming | DestroyIncoming | Finish

  /** The requests that can end the serving other than with success. */
  predicate Decisive(request: Request) {
    request == Rescue || request == CancelIncoming || request == DestroyIncoming
  }

  class Agent {
    const me: Host
    var alive: bool
    var owners: Owners
    var runFiles: bool
    ghost var log: seq<Event>
    /** The volumes whose lock others took from this host, up to when it has it again. */
    ghost var taken: set<Disk>
    /** What went wrong so far: commands that failed, looks that were not clear, a guest that died by itself or
    outlived its destruction, migrations that failed, and locks that others had or took. */
    ghost var trouble: nat
    /** The requests served by in-migrations so far. */
    ghost var requests: seq<Request>

    ghost predicate Valid()
      reads this
    {
      forall d :: d in taken ==> d in owners && owners[d] != Some(me)
    }

    /** Since the given state this host has gained no lock, and lost none but to others. */
    twostate predicate Stays()
      reads this
    {
      && Valid() && old(taken) <= taken
      && NoneGained(old(owners), owners, me) && KeptBut(old(owners), owners, taken, me)
    }

    constructor (me: Host, alive: bool, owners: Owners, runFiles: bool)
      ensures this.me == me && this.alive == alive && this.owners == owners && this.runFiles == runFiles
      ensures Valid() && log == [] && taken == {} && trouble == 0 && requests == []
    {
      this.me, this.alive, this.owners, this.runFiles := me, alive, owners, runFiles;
      log, taken, trouble, requests := [], {}, 0, [];
    }

    ghost method Trouble(bad: bool)
      modifies this`trouble
      ensures trouble == old(trouble) + if bad then 1 else 0
    {
      if bad { trouble := trouble + 1; }
    }

    ghost method Note(e: Event, causes: set<Cause>)
      requires e.Freed? ==> MayFree(Under(log), e.alive, causes)
      modifies this`log
      ensures log == old(log) + [e] && Grows(old(log), log, causes)
      ensures LastLook(log) == if e.Saw? then Some(e.seen) else LastLook(old(log))
      ensures Under(log) == if Passes(e) then Under(old(log)) else Some(e)
    {
      GrowsByOne(log, e, causes);
      log := log + [e];
    }

    /** Other hosts lock and unlock volumes, a stale flag may take this host's lock, and the guest may die. */
    method OthersAct()
      requires Valid()
      modifies this`alive, this`owners, this`taken, this`trouble
      ensures alive ==> old(alive)
      ensures Stays()
      ensures old(trouble) <= trouble && (trouble == old(trouble) ==> alive == old(alive) && taken == old(taken))
    {
      var dies: bool, n: nat := *, *;
      Trouble(alive && dies);
      alive := alive && !dies;
      while n > 0
        invariant (alive ==> old(alive)) && Stays()
        invariant old(trouble) <= trouble && (trouble == old(trouble) ==> alive == old(alive) && taken == old(taken))
      {
        var d: Disk, next: Option<Host> := *, *;
        if d in owners && next != Some(me) {
          Trouble(owners[d] == Some(me));
          taken := taken + if owners[d] == Some(me) then {d} else {};
          owners := owners[d := next];
        }
        n := n - 1;
      }
    }

    /** `Qemu.is_running`. */
    method IsRunning() returns (seen: Seen)
      requires Valid()
      modifies this`alive, this`owners, this`taken, this`log, this`trouble
      ensures old(trouble) <= trouble
      ensures trouble == old(trouble) ==> seen == (if alive then Yes else No) && alive == old(alive) && taken == old(taken)
      ensures log == old(log) + [Saw(seen)] && Grows(old(log), log, {})
      ensures LastLook(log) == Some(seen) && Under(log) == Some(Saw(seen))
      ensures (alive ==> old(alive)) && (seen == No ==> !alive) && (seen == Yes ==> alive)
      ensures Stays()
    {
      OthersAct();
      seen := *;
      if seen == (if alive then No else Yes) {
        seen := Unclear;
      }
      Trouble(seen == Unclear);
      Note(Saw(seen), {});
    }

    /** `Ceph.unlock`, also as `Ceph.stop`: all volumes are tried, and a failure reported at the end; an unlock
    that raises may have taken effect. */
    method Unlock(ghost causes: set<Cause>) returns (r: Exit)
      requires Valid() && (OwnsNone(owners, me) || MayFree(Under(log), alive, causes))
      modifies this`alive, this`owners, this`taken, this`log, this`trouble
      ensures Valid() && old(taken) <= taken && old(trouble) <= trouble
      ensures trouble == old(trouble) ==> r == Done && alive == old(alive)
      ensures Grows(old(log), log, causes)
      ensures LastLook(log) == LastLook(old(log)) && Under(log) == Under(old(log)) && (alive ==> old(alive))
      ensures OnlyStuckLeft(owners, me, log, |old(log)|)
      ensures r == Done <==> forall i :: |old(log)| <= i < |log| ==> !log[i].Stuck?
      ensures r == Done ==> OwnsNone(owners, me)
      ensures r != Inconsistent
      ensures NoneGained(old(owners), owners, me)
    {
      hide LastLook, Under;
      r := Done;
      var todo := owners.Keys;
      while todo != {}
        invariant Grows(old(log), log, causes) && r != Inconsistent && old(trouble) <= trouble
        invariant trouble == old(trouble) ==> r == Done && alive == old(alive)
        invariant LastLook(log) == LastLook(old(log)) && Under(log) == Under(old(log)) && (alive ==> old(alive))
        invariant Valid() && old(taken) <= taken && NoneGained(old(owners), owners, me) && todo <= owners.Keys
        invariant forall d :: d in owners && owners[d] == Some(me) && d !in todo ==> StuckSince(log, |old(log)|, d)
        invariant OwnsNone(owners, me) || MayFree(Under(log), alive, causes)
        invariant r == Done <==> forall i :: |old(log)| <= i < |log| ==> !log[i].Stuck?
      {
        var d :| d in todo;
        var works := UnlockNext(d, causes, |old(log)|);
        if !works { r := Fails; }
        todo := todo - {d};
      }
    }

    /** One volume's turn in `Unlock`, after whatever others did. */
    method UnlockNext(d: Disk, ghost causes: set<Cause>, ghost from: nat) returns (works: bool)
      requires Valid() && d in owners && from <= |log| && FreedOnly(log, from, causes)
      requires OwnsNone(owners, me) || MayFree(Under(log), alive, causes)
      modifies this`alive, this`owners, this`taken, this`log, this`trouble
      ensures Valid() && old(taken) <= taken && old(trouble) <= trouble
      ensures trouble == old(trouble) ==> works && alive == old(alive)
      ensures old(log) <= log && FreedOnly(log, from, causes) && (alive ==> old(alive))
      ensures LastLook(log) == LastLook(old(log)) && Under(log) == Under(old(log))
      ensures NoneGained(old(owners), owners, me) && (works ==> owners[d] != Some(me))
      ensures forall e :: StuckSince(log, from, e) <==> StuckSince(old(log), from, e) || (e == d && !works)
      ensures (forall i :: from <= i < |log| ==> !log[i].Stuck?) <==>
              works && forall i :: from <= i < |old(log)| ==> !old(log)[i].Stuck?
      ensures OwnsNone(owners, me) || MayFree(Under(log), alive, causes)
    {
      hide LastLook, Under, FreedOnly, StuckSince;
      OthersAct();
      var effect: bool;
      works, effect := *, *;
      UnlockOne(d, works, works || effect, causes, from);
      Trouble(!works);
    }

    /** The unlock itself. With a stale flag it also removes another host's lock. */
    method UnlockOne(d: Disk, works: bool, effect: bool, ghost causes: set<Cause>, ghost from: nat)
      requires d in owners && (works ==> effect) && from <= |log|
      requires owners[d] == Some(me) ==> MayFree(Under(log), alive, causes)
      requires FreedOnly(log, from, causes)
      modifies this`owners, this`log
      ensures old(log) <= log && FreedOnly(log, from, causes)
      ensures LastLook(log) == LastLook(old(log)) && Under(log) == Under(old(log))
      ensures d in owners && owners == old(owners)[d := owners[d]]
      ensures owners[d] == Some(me) <==> old(owners[d]) == Some(me) && !effect
      ensures forall e :: StuckSince(log, from, e) <==> StuckSince(old(log), from, e) || (e == d && !works)
      ensures (forall i :: from <= i < |log| ==> !log[i].Stuck?) <==>
              works && forall i :: from <= i < |old(log)| ==> !old(log)[i].Stuck?
    {
      if effect && owners[d] == Some(me) {
        ghost var before := log;
        Note(Freed(d, alive), causes);
        GrowsOn(before[..from], before, log, causes);
        StuckOne(before, Freed(d, alive), from);
        owners := owners[d := None];
      } else if effect {
        var stale: bool := *;
        if stale { owners := owners[d := None]; }
      }
      if !works {
        ghost var before := log;
        Note(Stuck(d), causes);
        GrowsOn(before[..from], before, log, causes);
        StuckOne(before, Stuck(d), from);
      }
    }

    /** `Ceph.lock`: up to the first volume that cannot be locked; a lock that raises may have taken effect. A
    normal return means all locks but exactly those that others took meanwhile. */
    method Lock() returns (r: Exit)
      requires Valid()
      modifies this`alive, this`owners, this`taken, this`trouble
      ensures Valid() && (alive ==> old(alive))
      ensures r == Done ==> OwnsExactlyBut(owners, taken, me)
      ensures r != Inconsistent && KeptBut(old(owners), owners, taken, me)
      ensures old(trouble) <= trouble
      ensures trouble == old(trouble) ==> r == Done && OwnsAll(owners, me) && alive == old(alive)
    {
      var todo := owners.Keys;
      while todo != {}
        invariant Valid() && (alive ==> old(alive))
        invariant owners.Keys == old(owners.Keys) && todo <= owners.Keys
        invariant forall d :: d in owners && d !in todo ==> owners[d] == Some(me) || d in taken
        invariant KeptBut(old(owners), owners, taken, me)
        invariant old(trouble) <= trouble
        invariant trouble == old(trouble) ==>
                    alive == old(alive) && forall d :: d in owners && d !in todo ==> owners[d] == Some(me)
      {
        OthersAct();
        var d :| d in todo;
        var ok := LockOne(d);
        if !ok { return Fails; }
        todo := todo - {d};
      }
      r := Done;
    }

    /** One volume's turn in `Lock`. */
    method LockOne(d: Disk) returns (ok: bool)
      requires Valid() && d in owners
      modifies this`owners, this`taken, this`trouble
      ensures Valid() && d in owners && owners == old(owners)[d := owners[d]] && (ok ==> owners[d] == Some(me))
      ensures taken == old(taken) - if owners[d] == Some(me) then {d} else {}
      ensures owners[d] == old(owners[d]) || (old(owners[d]) == None && owners[d] == Some(me))
      ensures trouble == old(trouble) + if ok then 0 else 1
    {
      var works: bool, effect: bool := *, *;
      var free := owners[d] == None || owners[d] == Some(me);
      if free && (works || effect) { owners, taken := owners[d := Some(me)], taken - {d}; }
      ok := works && free;
      Trouble(!ok);
    }

    /** `cleanup`. */
    method Cleanup()
      modifies this`runFiles, this`log
      ensures log == old(log) + [FilesRemoved] && Grows(old(log), log, {}) && LastLook(log) == LastLook(old(log))
      ensures !runFiles
    {
      Note(FilesRemoved, {});
      runFiles := false;
    }

    /** `_destroy`. A guest that outlives the budget keeps all of this host's locks and its run files;
    once it is gone, every volume is unlocked that can be, and the run files go even if one cannot. */
    method Destroy(ticks: nat) returns (r: Exit)
      requires Valid()
      modifies this
      ensures Valid()
      ensures Grows(old(log), log, {}) && NoneGained(old(owners), owners, me) && old(taken) <= taken
      ensures alive || r != Done ==> runFiles == old(runFiles)
      ensures alive || r != Done ==> KeptBut(old(owners), owners, taken, me)
      ensures owners.Keys == old(owners.Keys)
      ensures r == Done && ticks > 0 && LastLook(log) == Some(No) ==>
                !runFiles && OnlyStuckLeft(owners, me, log, |old(log)|)
      ensures |log| > |old(log)| && log[|old(log)|] == Tried(ToDestroy)
      ensures r == Done ==> Outlived(log, |old(log)|, ticks) || (LastLook(log) == Some(No) && !alive)
      ensures old(trouble) <= trouble
      ensures trouble == old(trouble) ==>
                r == Done && LastLook(log) == Some(No) && !alive && !runFiles && OwnsNone(owners, me)
      ensures requests == old(requests)
    {
      hide FreedOnly, LastLook, Under, OnlyStuckLeft;
      OthersAct();
      Note(Tried(ToDestroy), {});
      var kills: bool, raises: bool := *, *;
      alive := alive && !kills;
      Trouble(raises);
      if raises { return Fails; }
      var tick := 0;
      while tick < ticks
        invariant |log| == |old(log)| + 1 + tick && log[|old(log)|] == Tried(ToDestroy) && tick <= ticks
        invariant forall k :: |old(log)| < k < |log| ==> log[k] == Saw(Yes)
        invariant old(trouble) <= trouble && requests == old(requests)
        invariant Grows(old(log), log, {}) && owners.Keys == old(owners.Keys) && runFiles == old(runFiles)
        invariant Stays()
        invariant tick > 0 ==> LastLook(log) != Some(No)
      {
        ghost var before := log;
        var seen := IsRunning();
        GrowsOn(old(log), before, log, {});
        if seen == Unclear { return Inconsistent; }
        if seen == No {
          UnlockAndCleanup(|old(log)|);
          return Done;
        }
        tick := tick + 1;
      }
      Trouble(true);
      return Done;
    }

    /** The end of `_destroy`: an exception of the unlock is ignored. */
    method UnlockAndCleanup(ghost from: nat)
      requires from <= |log| && FreedOnly(log, from, {}) && Under(log) == Some(Saw(No)) && !alive
      requires Valid()
      modifies this
      ensures Valid()
      ensures old(log) <= log && FreedOnly(log, from, {}) && LastLook(log) == LastLook(old(log)) && !alive
      ensures !runFiles && OnlyStuckLeft(owners, me, log, from)
      ensures NoneGained(old(owners), owners, me) && old(taken) <= taken
      ensures old(trouble) <= trouble && (trouble == old(trouble) ==> OwnsNone(owners, me))
      ensures requests == old(requests)
    {
      ghost var start := log[..from];
      var _ := Unlock({});
      ghost var unlocked := log;
      GrowsOn(start, old(log), unlocked, {});
      Cleanup();
      GrowsOn(start, unlocked, log, {});
      StuckStays(unlocked, log, |old(log)|);
      forall d | StuckSince(log, |old(log)|, d) ensures StuckSince(log, from, d) {
        var i :| |old(log)| <= i < |log| && log[i] == Stuck(d);
      }
    }

    /** `kill`. */
    method Kill(ticks: nat) returns (r: Exit)
      requires Valid()
      modifies this
      ensures Valid() && old(taken) <= taken
      ensures |log| > |old(log)| && log[|old(log)|].Saw?
      ensures r == Done ==> OutlivedSince(log, |old(log)|, ticks) || (LastLook(log) == Some(No) && !alive)
      ensures old(trouble) <= trouble
      ensures trouble == old(trouble) && old(alive) ==>
                r == Done && LastLook(log) == Some(No) && !alive && !runFiles && OwnsNone(owners, me)
      ensures Grows(old(log), log, {})
      ensures alive || r != Done ==> runFiles == old(runFiles)
      ensures alive || r != Done ==> KeptBut(old(owners), owners, taken, me)
      ensures owners.Keys == old(owners.Keys)
    {
      var seen := IsRunning();
      if seen != Yes { return if seen == No then Fails else Inconsistent; }
      ghost var before := log;
      r := Destroy(ticks);
      GrowsOn(old(log), before, log, {});
    }

    /** `stop`. Unless it had to kill, the run files go only when no lock of this host is left. */
    method Stop(graceTicks: nat, ticks: nat) returns (r: Exit, killed: bool)
      requires Valid()
      modifies this
      ensures Valid() && old(taken) <= taken
      ensures Grows(old(log), log, {}) && owners.Keys == old(owners.Keys)
      ensures !killed && old(runFiles) && !runFiles ==> OwnsNone(owners, me) && r == Done
      ensures !killed && r == Done ==> !alive && !runFiles && OwnsNone(owners, me)
      ensures alive ==> runFiles == old(runFiles)
      ensures alive ==> KeptBut(old(owners), owners, taken, me)
      ensures r == Done ==> OutlivedSince(log, |old(log)|, ticks) || (LastLook(log) == Some(No) && !alive)
      ensures old(trouble) <= trouble
      ensures trouble == old(trouble) && old(alive) ==>
                r == Done && LastLook(log) == Some(No) && !alive && !runFiles && OwnsNone(owners, me)
    {
      killed := false;
      var seen := IsRunning();
      if seen != Yes { return if seen == No then Fails else Inconsistent, false; }
      ghost var looked := log;
      Note(Tried(ToStop), {});
      GrowsOn(old(log), looked, log, {});
      var tick := 0;
      while tick < graceTicks
        invariant old(trouble) <= trouble && (trouble == old(trouble) ==> alive)
        invariant Grows(old(log), log, {}) && owners.Keys == old(owners.Keys) && runFiles == old(runFiles)
        invariant Stays()
      {
        ghost var before := log;
        var obeys: bool := *;
        alive := alive && !obeys;
        seen := IsRunning();
        GrowsOn(old(log), before, log, {});
        if seen == Unclear { return Inconsistent, false; }
        if seen == No {
          r := UnlockThenCleanup(|old(log)|);
          return;
        }
        tick := tick + 1;
      }
      killed := true;
      ghost var before := log;
      r := Kill(ticks);
      GrowsOn(old(log), before, log, {});
      TriedStays(log, log, |before|, |old(log)|, ticks);
    }

    /** `ceph.stop()` and `cleanup()`, as `stop` and `cleanup_offline` have them: no cleanup after an exception. */
    method UnlockThenCleanup(ghost from: nat) returns (r: Exit)
      requires from <= |log| && FreedOnly(log, from, {}) && Under(log) == Some(Saw(No)) && !alive
      requires Valid()
      modifies this
      ensures Valid()
      ensures old(log) <= log && FreedOnly(log, from, {}) && LastLook(log) == LastLook(old(log)) && !alive
      ensures r != Inconsistent && owners.Keys == old(owners.Keys) && old(taken) <= taken
      ensures r == Done ==> !runFiles && OwnsNone(owners, me)
      ensures r != Done ==> runFiles == old(runFiles)
      ensures old(trouble) <= trouble && (trouble == old(trouble) ==> r == Done)
    {
      ghost var start := log[..from];
      r := Unlock({});
      ghost var unlocked := log;
      GrowsOn(start, old(log), unlocked, {});
      if r == Done {
        Cleanup();
        GrowsOn(start, unlocked, log, {});
      }
    }

    /** `cleanup_offline`. Its run files go only after a complete unlock, or when it does not see this host hold
    all locks; in the latter case whatever locks it holds on some volumes stay. `found`: the locks it saw. */
    method CleanupOffline() returns (r: Exit, ghost found: Owners)
      requires Valid() && Under(log) == Some(Saw(No)) && !alive
      modifies this
      ensures Valid() && Grows(old(log), log, {}) && !alive && owners.Keys == old(owners.Keys)
      ensures LastLook(log) == LastLook(old(log))
      ensures r != Done ==> runFiles == old(runFiles)
      ensures r == Done ==> !runFiles
      ensures old(taken) <= taken && NoneGained(old(owners), found, me) && KeptBut(old(owners), found, taken, me)
      ensures r == Done && old(runFiles) ==>
                if OwnsAll(found, me) then OwnsNone(owners, me)
                else NoneGained(found, owners, me) && KeptBut(found, owners, {}, me)
      ensures r == Done && old(runFiles) && taken == old(taken) ==>
                (OwnsNone(owners, me) <==> OwnsNone(old(owners), me) || OwnsAll(old(owners), me))
      ensures !old(runFiles) ==> r == Done && owners == old(owners) && log == old(log)
      ensures old(trouble) <= trouble && (trouble == old(trouble) ==> r == Done)
    {
      found := owners;
      if !runFiles { return Done, found; }
      OthersAct();
      found := owners;
      var works: bool := *;
      Trouble(!works);
      if !works { return Fails, found; }
      if LockedByMe(owners, me) {
        r := UnlockThenCleanup(|log|);
      } else {
        Cleanup();
        r := Done;
      }
    }

    /** `ensure_offline`. */
    method EnsureOffline(graceTicks: nat, ticks: nat) returns (r: Exit)
      requires Valid()
      modifies this
      ensures Valid()
      ensures Grows(old(log), log, {}) && owners.Keys == old(owners.Keys)
      ensures alive ==> KeptBut(old(owners), owners, taken, me)
      ensures |log| > |old(log)| && log[|old(log)|].Saw?
      ensures r == Done ==> OutlivedSince(log, |old(log)|, ticks) || (LastLook(log) == Some(No) && !alive)
      ensures old(trouble) <= trouble && (trouble == old(trouble) ==> r == Done && LastLook(log) == Some(No) && !alive)
      ensures trouble == old(trouble) ==> !runFiles
    {
      var seen := IsRunning();
      ghost var before := log;
      match seen
      case Unclear => r := Inconsistent;
      case Yes =>
        var killed: bool;
        r, killed := Stop(graceTicks, ticks);
        TriedStays(log, log, |before|, |old(log)|, ticks);
        GrowsOn(old(log), before, log, {});
      case No =>
        ghost var found: Owners;
        r, found := CleanupOffline();
        GrowsOn(old(log), before, log, {});
    }

    /** `Ceph.start` as the agent sees it: each volume's own lock is given up and taken again; in the
    pool-migration branch the root volume stays unlocked. */
    method CephStart() returns (r: Exit)
      requires Under(log) == Some(Saw(No)) && !alive
      requires Valid()
      modifies this`alive, this`owners, this`taken, this`log, this`trouble
      ensures Valid()
      ensures Grows(old(log), log, {}) && !alive && r != Inconsistent && owners.Keys == old(owners.Keys)
      ensures r == Done ==> forall d :: d in owners && d != Root ==> (owners[d] == Some(me) <==> d !in taken)
      ensures old(trouble) <= trouble && (trouble == old(trouble) ==> r == Done)
    {
      r := Unlock({});
      if r != Done { return; }
      r := Lock();
      if r != Done { return; }
      var poolMigration: bool := *;
      if poolMigration && Root in owners && owners[Root] == Some(me) {
        ghost var before := log;
        Note(Freed(Root, alive), {});
        GrowsOn(old(log), before, log, {});
        owners := owners[Root := None];
      }
    }

    /** `start`: a guest that is not seen offline is left alone, locks included; a start that completes has
    all locks but those that others took meanwhile and maybe root's. */
    method Start() returns (r: Exit)
      requires Valid()
      modifies this
      ensures Valid()
      ensures Grows(old(log), log, {}) && owners.Keys == old(owners.Keys)
      ensures |log| > |old(log)| && log[|old(log)|].Saw?
      ensures log[|old(log)|] != Saw(No) ==>
                r != Done && Stays() && runFiles == old(runFiles) && |log| == |old(log)| + 1
      ensures r == Done ==> runFiles && forall d :: d in owners && d != Root ==> (owners[d] == Some(me) <==> d !in taken)
      ensures log[|old(log)|] == Saw(No) ==> |log| > |old(log)| + 1 && log[|old(log)| + 1] == Tried(ToStart)
      ensures old(trouble) <= trouble && (trouble == old(trouble) && !old(alive) ==> r == Done && alive)
    {
      var seen := IsRunning();
      if seen != No { return if seen == Yes then Fails else Inconsistent; }
      ghost var before := log;
      Note(Tried(ToStart), {});
      GrowsOn(old(log), before, log, {});
      before := log;
      assert before[|before| - 1] == Tried(ToStart);
      r := CephStart();
      TriedStays(before, log, |old(log)|, |old(log)|, 0);
      GrowsOn(old(log), before, log, {});
      if r != Done { return; }
      runFiles := true;
      var spawns: bool, works: bool := *, *;
      Trouble(!spawns || !works);
      alive := spawns;
      r := if works then Done else Fails;
    }

    /** `IncomingServer.run` with its handlers, as this host's locks see it, for at most `rounds` requests; the
    protocol is the subject of modules `MigrationProtocol` and `Incoming`. Exit code 0 is given only with the
    guest seen running. Without a look at the guest, locks are given up after a failed in-migration and on a
    cancel request, and by nothing else. */
    method Inmigrate(rounds: nat, ticks: nat) returns (r: Exit, exitcode: int)
      requires Valid()
      modifies this
      ensures Valid()
      ensures Grows(old(log), log, {Prepare, Cancel}) && owners.Keys == old(owners.Keys)
      ensures r == Done && exitcode == 0 ==> LastLook(log) == Some(Yes)
      ensures |log| > |old(log)| && log[|old(log)|].Saw?
      ensures log[|old(log)|] != Saw(No) ==> r != Done && |log| == |old(log)| + 1 && Stays()
      ensures log[|old(log)|] == Saw(No) ==> |log| > |old(log)| + 1 && log[|old(log)| + 1] == Tried(ToInmigrate)
      ensures old(trouble) <= trouble && (trouble == old(trouble) && !old(alive) ==> r == Done && exitcode == 0 && alive)
      ensures r == Done && exitcode != 0 ==>
                || |requests| == |old(requests)| + rounds
                || (|requests| > |old(requests)| && Decisive(requests[|requests| - 1]))
    {
      exitcode := 1;
      var seen := IsRunning();
      GrowsToo(old(log), log, {}, {Prepare, Cancel});
      if seen != No { return if seen == Yes then Fails else Inconsistent, exitcode; }
      ghost var looked := log;
      Note(Tried(ToInmigrate), {Prepare, Cancel});
      GrowsOn(old(log), looked, log, {Prepare, Cancel});
      assert log[|looked|] == Tried(ToInmigrate);
      var round, finished := 0, false;
      while round < rounds && !finished
        invariant Valid() && Grows(old(log), log, {Prepare, Cancel}) && owners.Keys == old(owners.Keys)
        invariant |log| > |old(log)| && log[|old(log)|] == Saw(No) && old(trouble) <= trouble
        invariant |requests| == |old(requests)| + round && round <= rounds
        invariant finished ==> round > 0 && Decisive(requests[|requests| - 1])
        invariant |log| > |old(log)| + 1 && log[|old(log)| + 1] == Tried(ToInmigrate)
        decreases rounds - round
      {
        ghost var before := log;
        var request: Request := *;
        var success: bool;
        finished, success := Serve(request, ticks);
        GrowsOn(old(log), before, log, {Prepare, Cancel});
        TriedStays(before, log, |old(log)|, |old(log)|, ticks);
        if success { return Done, 0; }
        round := round + 1;
      }
      var kills: bool, raises: bool := *, *;
      alive := alive && !kills;
      Trouble(true);
      r := if raises then Fails else Done;
    }

    /** One request. `finished`: it decides; `success`: for the guest. When nothing goes wrong, it does what it
    says. */
    method Serve(request: Request, ticks: nat) returns (finished: bool, success: bool)
      requires Valid()
      modifies this
      ensures Valid()
      ensures Grows(old(log), log, {Prepare, Cancel}) && owners.Keys == old(owners.Keys)
      ensures success ==> LastLook(log) == Some(Yes)
      ensures old(trouble) <= trouble && (success && trouble == old(trouble) ==> alive)
      ensures trouble == old(trouble) ==>
                match request
                case AcquireLocks => OwnsAll(owners, me) && !finished
                case PrepareIncoming => alive && !finished
                case Rescue => alive && OwnsAll(owners, me) && !finished
                case CancelIncoming => OwnsNone(owners, me) && finished
                case DestroyIncoming => !alive && OwnsNone(owners, me) && finished
                case Finish => success == old(alive)
      ensures requests == old(requests) + [request]
      ensures finished ==> Decisive(request)
    {
      finished, success := false, false;
      requests := requests + [request];
      OthersAct();
      match request
      case AcquireLocks => var _ := Lock();
      case PrepareIncoming => ServePrepare();
      case Rescue => finished := ServeRescue(ticks);
      case CancelIncoming =>
        Note(Cancelling, {Prepare, Cancel});
        ghost var before := log;
        var r := Unlock({Prepare, Cancel});
        GrowsOn(old(log), before, log, {Prepare, Cancel});
        finished := r == Done;
      case DestroyIncoming =>
        var _ := Destroy(ticks);
        GrowsToo(old(log), log, {}, {Prepare, Cancel});
        finished := true;
      case Finish =>
        var seen := IsRunning();
        GrowsToo(old(log), log, {}, {Prepare, Cancel});
        success := seen == Yes;
    }

    /** `prepare_incoming`: if qemu's in-migration raises, the locks go, whether or not it left a process. */
    method ServePrepare()
      requires Valid()
      modifies this
      ensures Valid()
      ensures Grows(old(log), log, {Prepare, Cancel}) && owners.Keys == old(owners.Keys)
      ensures old(trouble) <= trouble
      ensures trouble == old(trouble) ==> alive
      ensures requests == old(requests)
    {
      var works: bool, left: bool := *, *;
      runFiles := true;
      if works && !alive {
        alive := true;
      } else {
        Trouble(true);
        alive := alive || left;
        Note(PrepareFailed(alive), {Prepare, Cancel});
        ghost var before := log;
        var _ := Unlock({Prepare, Cancel});
        GrowsOn(old(log), before, log, {Prepare, Cancel});
      }
    }

    /** `rescue`. */
    method ServeRescue(ticks: nat) returns (finished: bool)
      requires Valid()
      modifies this
      ensures Valid()
      ensures Grows(old(log), log, {Prepare, Cancel}) && owners.Keys == old(owners.Keys)
      ensures old(trouble) <= trouble
      ensures trouble == old(trouble) ==> alive && OwnsAll(owners, me) && !finished
      ensures requests == old(requests)
    {
      finished := false;
      var seen := IsRunning();
      Trouble(seen != Yes);
      ghost var before := log;
      match seen
      case Unclear =>
        GrowsToo(old(log), log, {}, {Prepare, Cancel});
      case No =>
        runFiles := false;
        var _ := Unlock({});
        GrowsOn(old(log), before, log, {});
        GrowsToo(old(log), log, {}, {Prepare, Cancel});
      case Yes =>
        var r := Lock();
        if r != Done {
          var _ := Destroy(ticks);
          GrowsOn(old(log), before, log, {});
          finished := true;
        }
        GrowsToo(old(log), log, {}, {Prepare, Cancel});
    }

    /** `ensure_online_local`: it is complete if it did not leave early after a failed in-migration; then this
    host holds every lock but exactly those that others took meanwhile, whichever way the guest came to run,
    the pool migration included. */
    method EnsureOnlineLocal(rounds: nat, ticks: nat) returns (r: Exit, complete: bool)
      requires Valid()
      modifies this
      ensures Valid()
      ensures Grows(old(log), log, {Prepare, Cancel}) && owners.Keys == old(owners.Keys)
      ensures complete ==> r == Done && OwnsExactlyBut(owners, taken, me)
      ensures |log| > |old(log)| && log[|old(log)|].Saw?
      ensures log[|old(log)|] == Saw(Yes) ==> OnlyLooks(log, |old(log)|) && runFiles == old(runFiles)
      ensures log[|old(log)|] == Saw(No) && r == Done ==>
                BroughtUp(log, |old(log)|)
      ensures old(trouble) <= trouble && (trouble == old(trouble) ==> complete && alive && OwnsAll(owners, me))
    {
      complete := false;
      var seen := IsRunning();
      GrowsToo(old(log), log, {}, {Prepare, Cancel});
      if seen == Unclear { return Inconsistent, false; }
      if seen == No {
        var failed: bool;
        r, failed := BringUp(rounds, ticks, |old(log)|);
        if r != Done || failed { return; }
      }
      OthersAct();
      var works: bool := *;
      Trouble(!works);
      if !works { return Fails, false; }
      r := Lock();
      complete := r == Done;
    }

    /** An in-migration, or a start. `failed`: the in-migration's exit code says so, which is no exception. */
    method BringUp(rounds: nat, ticks: nat, ghost from: nat) returns (r: Exit, failed: bool)
      requires from <= |log| && FreedOnly(log, from, {Prepare, Cancel})
      requires Valid()
      modifies this
      ensures Valid()
      ensures old(log) <= log && FreedOnly(log, from, {Prepare, Cancel}) && owners.Keys == old(owners.Keys)
      ensures r == Done ==> BroughtUp(log, from)
      ensures old(trouble) <= trouble && (trouble == old(trouble) && !old(alive) ==> r == Done && !failed && alive)
    {
      hide LastLook, AllFree, HeldOnlyBy, OwnsAll;
      failed := false;
      ghost var start := log[..from];
      OthersAct();
      var service: Option<Host>, sees: bool := *, *;
      var origin := RequiresInmigrateFrom(owners, me, service);
      Trouble(!sees || origin == Several);
      if !sees || origin == Several { return Fails, false; }
      ghost var asked := log;
      Note(Located(origin), {Prepare, Cancel});
      GrowsOn(start, asked, log, {Prepare, Cancel});
      ghost var located := log;
      if origin.From? {
        var exitcode: int;
        r, exitcode := Inmigrate(rounds, ticks);
        failed := exitcode != 0;
      } else {
        r := Start();
        GrowsToo(old(log), log, {}, {Prepare, Cancel});
      }
      GrowsOn(start, located, log, {Prepare, Cancel});
      assert log[|asked|] == Located(origin);
      assert r == Done ==> BroughtUpAt(log, |asked|);
    }

    /** `Outgoing`, as this host's locks see it. Without a look at the guest, locks are given up by the
    transfer and by nothing else; with exit code 0 none is left, whether or not the guest outlived its
    destruction. That a remote rescue succeeds only after a complete transfer is proved of the protocol. */
    method Outmigrate(ticks: nat) returns (r: Exit, exitcode: int)
      requires Valid()
      modifies this
      ensures Valid()
      ensures Grows(old(log), log, {HandOver}) && owners.Keys == old(owners.Keys)
      ensures |log| > |old(log)| && log[|old(log)|].Saw?
      ensures log[|old(log)|] != Saw(Yes) ==> r != Done && |log| == |old(log)| + 1 && Stays()
      ensures r == Done && exitcode == 0 ==> OwnsNone(owners, me)
      ensures log[|old(log)|] == Saw(Yes) ==> TriedSince(log, |old(log)|, ToOutmigrate)
      ensures old(trouble) <= trouble && (trouble == old(trouble) && old(alive) ==> r == Done && exitcode == 0 && LastLook(log) == Some(No) && !alive)
      ensures r == Done && exitcode != 0 ==>
                || (LastLook(log) == Some(Yes) && OwnsExactlyBut(owners, taken, me))
                || TriedSince(log, |old(log)|, ToDestroy)
    {
      hide FreedOnly, LastLook, Under, Outlived, OwnsExactlyBut, OnlyStuckLeft;
      exitcode := 1;
      var seen := IsRunning();
      GrowsToo(old(log), log, {}, {HandOver});
      if seen != Yes { return if seen == No then Fails else Inconsistent, exitcode; }
      ghost var seenIt := log;
      Note(Tried(ToOutmigrate), {HandOver});
      GrowsOn(old(log), seenIt, log, {HandOver});
      ghost var looked := log;
      assert looked[|looked| - 1] == Tried(ToOutmigrate);
      var connected: bool, bothLocks: bool, moved: bool := *, *, *;
      Trouble(!connected || !bothLocks || !moved);
      OthersAct();
      var released := false;
      if connected && bothLocks {
        released := HandOverLocks();
        GrowsOn(old(log), looked, log, {HandOver});
      }
      var rescued: bool := *;
      if released && (moved || rescued) {
        ghost var before := log;
        r := Destroy(ticks);
        GrowsToo(before, log, {}, {HandOver});
        GrowsOn(old(log), before, log, {HandOver});
        TriedStays(looked, log, |old(log)|, |old(log)|, ticks);
        if r == Done { return Done, 0; }
      }
      ghost var before := log;
      r := ContinueLocally(ticks);
      GrowsToo(before, log, {}, {HandOver});
      GrowsOn(old(log), before, log, {HandOver});
      TriedStays(looked, log, |old(log)|, |old(log)|, ticks);
      TriedStays(log, log, |before|, |old(log)|, ticks);
    }

    /** The source's half of `transfer_ceph_locks`. */
    method HandOverLocks() returns (released: bool)
      requires Valid()
      modifies this`alive, this`owners, this`taken, this`log, this`trouble
      ensures Valid()
      ensures Grows(old(log), log, {HandOver}) && owners.Keys == old(owners.Keys)
      ensures released ==> OwnsNone(owners, me)
      ensures old(trouble) <= trouble && (trouble == old(trouble) ==> released && alive == old(alive))
    {
      Note(HandingOver, {HandOver});
      ghost var before := log;
      var r := Unlock({HandOver});
      GrowsOn(old(log), before, log, {HandOver});
      released := r == Done;
    }

    /** The last part of `rescue`; an exception of its `_destroy` stays one. */
    method ContinueLocally(ticks: nat) returns (r: Exit)
      requires Valid()
      modifies this
      ensures Valid()
      ensures Grows(old(log), log, {}) && owners.Keys == old(owners.Keys)
      ensures old(trouble) <= trouble
      ensures r == Done ==>
                || (LastLook(log) == Some(Yes) && OwnsExactlyBut(owners, taken, me))
                || TriedSince(log, |old(log)|, ToDestroy)
      ensures trouble == old(trouble) && old(alive) ==> r == Done && alive && OwnsAll(owners, me) && runFiles == old(runFiles)
    {
      r := Lock();
      if r == Done {
        var seen := IsRunning();
        if seen == Yes { return Done; }
      }
      ghost var before := log;
      r := Destroy(ticks);
      GrowsOn(old(log), before, log, {});
      assert log[|before|] == Tried(ToDestroy);
      if r == Inconsistent { r := Fails; }
    }

    /** `ensure_online_remote`. A guest not running here leaves no run files; the unlocking after a successful
    migration has nothing left to unlock. */
    method EnsureOnlineRemote(ticks: nat) returns (r: Exit)
      requires Valid()
      modifies this
      ensures Valid()
      ensures Grows(old(log), log, {HandOver}) && owners.Keys == old(owners.Keys)
      ensures |log| > |old(log)| && log[|old(log)|].Saw?
      ensures log[|old(log)|] == Saw(No) ==> Grows(old(log), log, {}) && (r == Done ==> !runFiles)
      ensures log[|old(log)|] == Saw(Yes) && r == Done ==> TriedSince(log, |old(log)|, ToOutmigrate)
      ensures old(trouble) <= trouble && (trouble == old(trouble) ==> r == Done && LastLook(log) == Some(No) && !alive)
      ensures trouble == old(trouble) ==> !runFiles
    {
      var seen := IsRunning();
      ghost var before := log;
      match seen
      case Unclear =>
        GrowsToo(old(log), log, {}, {HandOver});
        r := Inconsistent;
      case No =>
        ghost var found: Owners;
        r, found := CleanupOffline();
        GrowsOn(old(log), before, log, {});
        GrowsToo(old(log), log, {}, {HandOver});
      case Yes =>
        GrowsToo(old(log), before, {}, {HandOver});
        r := MoveAway(ticks);
        TriedStays(log, log, |before|, |old(log)|, ticks);
        GrowsOn(old(log), before, log, {HandOver});
    }

    method MoveAway(ticks: nat) returns (r: Exit)
      requires Valid()
      modifies this
      ensures Valid()
      ensures Grows(old(log), log, {HandOver}) && owners.Keys == old(owners.Keys)
      ensures r == Done ==> TriedSince(log, |old(log)|, ToOutmigrate)
      ensures old(trouble) <= trouble && (trouble == old(trouble) && old(alive) ==> r == Done && LastLook(log) == Some(No) && !alive)
      ensures trouble == old(trouble) && old(alive) ==> !runFiles
    {
      var exitcode: int;
      r, exitcode := Outmigrate(ticks);
      if r == Done && exitcode == 0 {
        ghost var before, migrated := log, log;
        r := Unlock({HandOver});
        GrowsOn(old(log), before, log, {HandOver});
        if r != Done { return; }
        before := log;
        Cleanup();
        GrowsToo(before, log, {}, {HandOver});
        GrowsOn(old(log), before, log, {HandOver});
        TriedStays(migrated, log, |old(log)|, |old(log)|, ticks);
      }
    }

    /** `raise_if_inconsistent`: the three looks, and whether they agree. */
    method CheckConsistency() returns (r: Exit, qemu: bool, process: bool, lock: bool)
      requires Valid()
      modifies this`alive, this`owners, this`taken, this`log, this`trouble
      ensures Valid()
      ensures Grows(old(log), log, {}) && owners.Keys == old(owners.Keys)
      ensures r != Fails ==>
                (r == Done <==> LastLook(log) != Some(Unclear) && qemu == process && process == lock)
      ensures r != Fails && LastLook(log) != Some(Unclear) ==>
                && qemu == (LastLook(log) == Some(Yes)) && process == alive && lock == LockedByMe(owners, me)
      ensures r == Done ==>
                && qemu == process && process == lock
                && (qemu ==> OwnsAll(owners, me) && LastLook(log) == Some(Yes))
                && (!qemu ==> !alive && !LockedByMe(owners, me) && LastLook(log) == Some(No))
      ensures |log| == |old(log)| + 1 && OnlyLooks(log, |old(log)|) && Stays() && (alive ==> old(alive))
      ensures old(trouble) <= trouble
      ensures LastLook(log) == Some(Yes) ==> old(alive)
      ensures trouble == old(trouble) ==>
                r != Fails && LastLook(log) == Some(if alive then Yes else No) && alive == old(alive) && taken == old(taken)
      ensures trouble == old(trouble) && OwnsAll(old(owners), me) ==> OwnsAll(owners, me)
    {
      qemu, process, lock := false, false, false;
      var seen := IsRunning();
      if seen == Unclear { return Inconsistent, qemu, process, lock; }
      qemu := seen == Yes;
      OthersAct();
      process := alive;
      var works: bool := *;
      Trouble(!works);
      if !works { return Fails, qemu, process, lock; }
      lock := LockedByMe(owners, me);
      ConsistentMeansEqual(qemu, process, lock);
      r := if IsConsistent(qemu, process, lock) then Done else Inconsistent;
    }

    /** The branch of `ensure_` for the wanted state. */
    method Bring(online: bool, host: Option<Host>, rounds: nat, graceTicks: nat, ticks: nat) returns (r: Exit)
      requires Valid()
      modifies this
      ensures Valid()
      ensures Grows(old(log), log, CausesFor(online, host)) && owners.Keys == old(owners.Keys)
      ensures |log| > |old(log)| ==> log[|old(log)|].Saw?
      ensures |log| == |old(log)| <==> online && host == None
      ensures online && host == None ==> r == Done && runFiles == old(runFiles)
      ensures online && host == Some(me) && log[|old(log)|] == Saw(Yes) ==> OnlyLooks(log, |old(log)|) && runFiles == old(runFiles)
      ensures online && host == Some(me) && log[|old(log)|] == Saw(No) && r == Done ==>
                BroughtUp(log, |old(log)|)
      ensures online && host.Some? && host != Some(me) && log[|old(log)|] == Saw(Yes) && r == Done ==>
                TriedSince(log, |old(log)|, ToOutmigrate)
      ensures !online && r == Done ==> OutlivedSince(log, |old(log)|, ticks) || (LastLook(log) == Some(No) && !alive)
      ensures old(trouble) <= trouble
      ensures trouble == old(trouble) ==>
                && r == Done
                && (online && host == Some(me) ==> alive && OwnsAll(owners, me))
                && (!online || (host.Some? && host != Some(me)) ==> !alive && !runFiles)
    {
      if !online {
        r := EnsureOffline(graceTicks, ticks);
      } else if host == None {
        r := Done;
      } else if host != Some(me) {
        r := EnsureOnlineRemote(ticks);
      } else {
        var complete: bool;
        r, complete := EnsureOnlineLocal(rounds, ticks);
      }
    }

    /** What locks may be given up for, by the wanted state. */
    function CausesFor(online: bool, host: Option<Host>): set<Cause> {
      if !online || host == None then {} else if host == Some(me) then {Prepare, Cancel} else {HandOver}
    }

    /** Without trouble, the wanted state is reached: wanted here, the guest runs under all locks; wanted offline
    or elsewhere, it is gone with not all locks and no run files left. */
    ghost predicate AsWanted(online: bool, host: Option<Host>)
      reads this
    {
      && (online && host == Some(me) ==> alive && LastLook(log) == Some(Yes) && OwnsAll(owners, me))
      && (!online || (host.Some? && host != Some(me)) ==>
            !alive && LastLook(log) == Some(No) && !LockedByMe(owners, me) && !runFiles)
    }

    /** `ensure_` with the lock held. If it returns normally, then either the guest was last seen running
    under all of this host's locks, or seen offline with not all of them, or it went through `_destroy`.
    Locks are given up without a look at the guest only by an in-migration or an out-migration. Unless it
    destroys, it leaves a guest alone that is wanted here and seen running, and any guest that is wanted nowhere
    in particular; and it returns normally only after trying what is wanted: a start or an in-migration for one
    that is wanted here and not seen running, an out-migration for one that is wanted elsewhere, and an end for
    one that is wanted offline, unless that one outlives its kill. When nothing goes wrong, it reaches the wanted
    state, and destroys nothing that is wanted here. */
    method Ensure(online: bool, host: Option<Host>, rounds: nat, graceTicks: nat, ticks: nat)
      returns (r: Exit, destroyed: bool)
      requires Valid()
      modifies this
      ensures Valid()
      ensures Grows(old(log), log, CausesFor(online, host)) && owners.Keys == old(owners.Keys)
      ensures r == Done && !destroyed ==>
                || (LastLook(log) == Some(Yes) && OwnsAll(owners, me))
                || (LastLook(log) == Some(No) && !alive && !LockedByMe(owners, me))
      ensures r == Inconsistent ==> destroyed
      ensures |log| > |old(log)| && log[|old(log)|].Saw?
      ensures online && host == Some(me) && !destroyed && log[|old(log)|] == Saw(Yes) ==>
                OnlyLooks(log, |old(log)|) && runFiles == old(runFiles)
      ensures online && host == None && !destroyed ==> OnlyLooks(log, |old(log)|) && runFiles == old(runFiles)
      ensures online && host == Some(me) && r == Done && !destroyed && log[|old(log)|] == Saw(No) ==>
                BroughtUp(log, |old(log)|)
      ensures online && host.Some? && host != Some(me) && r == Done && !destroyed && log[|old(log)|] == Saw(Yes) ==>
                TriedSince(log, |old(log)|, ToOutmigrate)
      ensures !online && r == Done && !destroyed ==>
                (LastLook(log) == Some(No) && !alive) || OutlivedSince(log, |old(log)|, ticks)
      ensures destroyed ==> TriedSince(log, |old(log)|, ToDestroy)
      ensures old(trouble) <= trouble
      ensures trouble == old(trouble) && owners != map[] ==>
                r == Done && AsWanted(online, host) && (online && host == Some(me) ==> !destroyed)
    {
      destroyed := false;
      r := Bring(online, host, rounds, graceTicks, ticks);
      ghost var brought := log;
      if r == Done {
        r := CheckAfter(CausesFor(online, host), |old(log)|, ticks);
        GrowsOn(old(log), brought, log, CausesFor(online, host));
      }
      if r == Inconsistent {
        ghost var before := log;
        destroyed := true;
        r := Destroy(ticks);
        GrowsToo(before, log, {}, CausesFor(online, host));
        GrowsOn(old(log), before, log, CausesFor(online, host));
        assert log[|before|] == Tried(ToDestroy);
      }
    }

    /** `raise_if_inconsistent` at the end of `ensure_`. */
    method CheckAfter(ghost causes: set<Cause>, ghost from: nat, ghost ticks: nat) returns (r: Exit)
      requires Valid() && from <= |log|
      modifies this`alive, this`owners, this`taken, this`log, this`trouble
      ensures Valid() && Grows(old(log), log, causes) && owners.Keys == old(owners.Keys)
      ensures |log| == |old(log)| + 1 && OnlyLooks(log, |old(log)|)
      ensures forall what :: TriedSince(old(log), from, what) ==> TriedSince(log, from, what)
      ensures OutlivedSince(old(log), from, ticks) ==> OutlivedSince(log, from, ticks)
      ensures !old(alive) ==> !alive && LastLook(log) != Some(Yes)
      ensures r == Done ==>
                || (LastLook(log) == Some(Yes) && OwnsAll(owners, me))
                || (LastLook(log) == Some(No) && !alive && !LockedByMe(owners, me))
      ensures old(trouble) <= trouble
      ensures trouble == old(trouble) ==> r != Fails && alive == old(alive)
      ensures trouble == old(trouble) && alive && OwnsAll(old(owners), me) && owners != map[] ==>
                r == Done && OwnsAll(owners, me) && LastLook(log) == Some(Yes)
      ensures BroughtUp(old(log), from) ==> BroughtUp(log, from)
    {
      var qemu: bool, process: bool, lock: bool;
      r, qemu, process, lock := CheckConsistency();
      GrowsToo(old(log), log, {}, causes);
      TriedStays(old(log), log, from, from, ticks);
      BroughtUpStays(old(log), log, from, from);
    }
  }
}
