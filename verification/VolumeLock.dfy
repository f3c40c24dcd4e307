/** The exclusive lock of one RBD image, as hosts take and release it.

The first part is the effect of one `Volume.lock` or `Volume.unlock` call on the cluster's lock
and on the callers' `locked_by_me` flags, and what every run of such calls by any number of hosts
keeps. The second part is the code of those calls, run against a cluster in which other hosts act
between any two commands, and may then also take this host's lock. */
module VolumeLock {
  import opened Basics

  /** The cluster's lock on one image, and the hosts whose live Volume object for that image has
  `locked_by_me` set. */
  datatype ImageLock = ImageLock(owner: Option<Host>, marked: set<Host>)

  datatype LockOutcome = Acquired | Reused | LockRaised

  /** `ReplyLost`: the `lock rm` command took effect but reported a failure. */
  datatype UnlockOutcome = Released | Skipped | UnlockRaised | ReplyLost

  predicate LockStep(h: Host, a: ImageLock, o: LockOutcome, b: ImageLock) {
    match o
    case Acquired => a.owner == None && b == ImageLock(Some(h), a.marked + {h})
    case Reused => a.owner == Some(h) && b == a
    case LockRaised => b == a || (a.owner == None && b == ImageLock(Some(h), a.marked))
  }

  /** The guard under which `unlock` without `force` removes whatever lock it saw. */
  predicate Removes(h: Host, a: ImageLock) {
    a.owner.Some? && (h in a.marked || a.owner == Some(h))
  }

  predicate UnlockStep(h: Host, a: ImageLock, o: UnlockOutcome, b: ImageLock) {
    match o
    case Released => Removes(h, a) && b == ImageLock(None, a.marked - {h})
    case Skipped => !Removes(h, a) && b == a
    case UnlockRaised => b == a
    case ReplyLost => Removes(h, a) && b == ImageLock(None, a.marked)
  }

  /** `unlock(force=True)` removes whatever lock it sees, but resets the flag only on the branch for own
  locks. */
  predicate ForceStep(h: Host, a: ImageLock, o: UnlockOutcome, b: ImageLock) {
    match o
    case Released => a.owner.Some? && b == ImageLock(None, if Removes(h, a) then a.marked - {h} else a.marked)
    case Skipped => a.owner == None && b == a
    case UnlockRaised => b == a
    case ReplyLost => a.owner.Some? && b == ImageLock(None, a.marked)
  }

  /** A set flag tells the truth about the cluster. */
  predicate Honest(l: ImageLock) {
    forall h :: h in l.marked ==> l.owner == Some(h)
  }

  /** An unlock keeps the flags honest unless its `lock rm` lost its reply while the flag was set;
  in an honest state it never removes another host's lock. */
  lemma UnlockHonestExactly(h: Host, a: ImageLock, o: UnlockOutcome, b: ImageLock)
    requires Honest(a) && UnlockStep(h, a, o, b)
    ensures Honest(b) <==> !(o == ReplyLost && h in a.marked)
    ensures a.owner != Some(h) ==> b.owner == a.owner
  {
    if o == ReplyLost && h in a.marked {
      assert h in b.marked;
    }
  }

  /** Breaking a lock by force leaves a stale flag exactly at a marked owner other than the breaker, or at
  any marked owner if the reply is lost. */
  lemma ForceHonestExactly(h: Host, a: ImageLock, o: UnlockOutcome, b: ImageLock)
    requires Honest(a) && ForceStep(h, a, o, b)
    ensures Honest(b) <==> !(o == Released && !(a.marked <= {h})) && !(o == ReplyLost && a.marked != {})
  {
    if o == Released && !(a.marked <= {h}) {
      var g :| g in a.marked && g != h;
      assert g in b.marked;
    } else if o == ReplyLost && a.marked != {} {
      var g :| g in a.marked;
      assert g in b.marked;
    }
  }

  datatype Event =
    | Locking(h: Host, lockOutcome: LockOutcome)
    | Unlocking(h: Host, unlockOutcome: UnlockOutcome)
    | Forcing(h: Host, forceOutcome: UnlockOutcome)

  predicate Happens(a: ImageLock, e: Event, b: ImageLock) {
    match e
    case Locking(h, o) => LockStep(h, a, o, b)
    case Unlocking(h, o) => UnlockStep(h, a, o, b)
    case Forcing(h, o) => ForceStep(h, a, o, b)
  }

  predicate IsLockRun(states: seq<ImageLock>, events: seq<Event>) {
    && |states| == |events| + 1
    && forall i :: 0 <= i < |events| ==> Happens(states[i], events[i], states[i + 1])
  }

  /** The events after which a flag outlives its lock. */
  predicate LeavesStaleFlag(a: ImageLock, e: Event) {
    || (e.Unlocking? && e.unlockOutcome == ReplyLost && e.h in a.marked)
    || (e.Forcing? && e.forceOutcome == Released && !(a.marked <= {e.h}))
    || (e.Forcing? && e.forceOutcome == ReplyLost && a.marked != {})
  }

  lemma StepHonestExactly(a: ImageLock, e: Event, b: ImageLock)
    requires Honest(a) && Happens(a, e, b)
    ensures Honest(b) <==> !LeavesStaleFlag(a, e)
  {
    match e
    case Locking(h, o) =>
    case Unlocking(h, o) => UnlockHonestExactly(h, a, o, b);
    case Forcing(h, o) => ForceHonestExactly(h, a, o, b);
  }

  /** Over any run by any number of hosts, all flags are honest throughout exactly when no event
  leaves a stale flag behind. */
  lemma {:induction false} RunHonestExactly(states: seq<ImageLock>, events: seq<Event>)
    requires IsLockRun(states, events) && Honest(states[0])
    ensures (forall i :: 0 <= i < |states| ==> Honest(states[i]))
       <==> (forall i :: 0 <= i < |events| ==> !LeavesStaleFlag(states[i], events[i]))
  {
    if |events| > 0 {
      StepHonestExactly(states[0], events[0], states[1]);
      if Honest(states[1]) {
        var ss, es := states[1..], events[1..];
        assert forall i :: 0 <= i < |ss| ==> ss[i] == states[i + 1];
        assert forall i :: 0 <= i < |es| ==> es[i] == events[i + 1];
        RunHonestExactly(ss, es);
        if forall i :: 0 <= i < |ss| ==> Honest(ss[i]) {
          forall i | 0 <= i < |states| ensures Honest(states[i]) {
            if i > 0 { assert Honest(ss[i - 1]); }
          }
          forall i | 0 <= i < |events| ensures !LeavesStaleFlag(states[i], events[i]) {
            if i > 0 { assert !LeavesStaleFlag(ss[i - 1], es[i - 1]); }
          }
        } else {
          var i :| 0 <= i < |ss| && !Honest(ss[i]);
          assert !Honest(states[i + 1]);
          var j :| 0 <= j < |es| && LeavesStaleFlag(ss[j], es[j]);
          assert LeavesStaleFlag(states[j + 1], events[j + 1]);
        }
      } else {
        assert LeavesStaleFlag(states[0], events[0]);
      }
    }
  }

  /** In a run without stale flags, a lock a host owns stays its own until that host unlocks it. */
  lemma {:induction false} OwnerKeepsLock(states: seq<ImageLock>, events: seq<Event>, h: Host)
    requires IsLockRun(states, events) && Honest(states[0]) && states[0].owner == Some(h)
    requires forall i :: 0 <= i < |events| ==> !LeavesStaleFlag(states[i], events[i])
    requires forall i :: 0 <= i < |events| ==> !events[i].Forcing? && (events[i].Unlocking? ==> events[i].h != h)
    ensures states[|events|].owner == Some(h)
  {
    if |events| > 0 {
      StepHonestExactly(states[0], events[0], states[1]);
      if events[0].Unlocking? {
        UnlockHonestExactly(events[0].h, states[0], events[0].unlockOutcome, states[1]);
      }
      var ss, es := states[1..], events[1..];
      assert forall i :: 0 <= i < |ss| ==> ss[i] == states[i + 1];
      assert forall i :: 0 <= i < |es| ==> es[i] == events[i + 1];
      OwnerKeepsLock(ss, es, h);
      assert ss[|es|] == states[|events|];
    }
  }

  /** The run in which a lost reply costs another host its lock: the first host's stale flag makes
  its next, non-forced unlock remove the second host's lock. */
  lemma StaleFlagRemovesForeignLock() returns (states: seq<ImageLock>, events: seq<Event>)
    ensures IsLockRun(states, events) && Honest(states[0])
    ensures forall e :: e in events ==> !e.Forcing?
    ensures |events| == 3 && events[1] == Locking(1, Acquired) && events[2] == Unlocking(0, Released)
    ensures states[2].owner == Some(1) && states[3].owner == None
  {
    states := [ImageLock(Some(0), {0}), ImageLock(None, {0}), ImageLock(Some(1), {0, 1}), ImageLock(None, {1})];
    events := [Unlocking(0, ReplyLost), Locking(1, Acquired), Unlocking(0, Released)];
    assert {0, 1} - {0} == {1};
    assert {0} + {1} == {0, 1};
  }

  // ---------------------------------------------------------------------------------------------

  datatype Exit = Done | ImageBusy | CommandFailed

  datatype Write = Write(writer: Host, before: Option<Host>, after: Option<Host>)

  /** What the cluster holds for the image, with a record of the lock changes made through it by the
  Volume objects of this model, of how often other hosts took their lock or changed it at all, and of how many
  commands failed that could have worked. */
  class Image {
    var locker: Option<Host>
    ghost var adds: nat
    ghost var writes: seq<Write>
    ghost var thefts: nat
    ghost var moves: nat
    ghost var failures: nat

    constructor (locker: Option<Host>)
      ensures this.locker == locker && adds == 0 && writes == [] && thefts == 0 && moves == 0 && failures == 0
    {
      this.locker := locker;
      adds, writes, thefts, moves, failures := 0, [], 0, 0, 0;
    }

    /** Nobody else has touched the lock and no command has failed since. */
    twostate predicate Calm()
      reads this
    {
      moves == old(moves) && failures == old(failures)
    }

    /** The counters only grow. */
    twostate predicate Later()
      reads this
    {
      old(moves) <= moves && old(failures) <= failures
    }

    /** Other hosts do anything but lock for `me`: a stale flag or force may also take `me`'s lock. */
    method OthersAct(me: Host)
      modifies this`locker, this`thefts, this`moves
      ensures locker == Some(me) ==> old(locker) == Some(me)
      ensures moves == old(moves) + if locker == old(locker) then 0 else 1
      ensures thefts == old(thefts) + if old(locker) == Some(me) && locker != Some(me) then 1 else 0
    {
      var next: Option<Host> := *;
      if next != Some(me) && next != locker {
        thefts := thefts + if locker == Some(me) then 1 else 0;
        locker, moves := next, moves + 1;
      }
    }

    /** `rbd lock add`: fails on a locked image; on a free one it may also take effect and fail. */
    method LockAdd(me: Host) returns (ok: bool)
      modifies this`locker, this`adds, this`writes, this`failures
      ensures adds == old(adds) + 1
      ensures failures == old(failures) + if ok || old(locker).Some? then 0 else 1
      ensures ok ==> old(locker) == None && locker == Some(me)
      ensures locker == old(locker) || (old(locker) == None && locker == Some(me))
      ensures writes == old(writes) + if locker == old(locker) then [] else [Write(me, None, Some(me))]
    {
      adds := adds + 1;
      ok := false;
      var takesEffect: bool, reports: bool := *, *;
      if locker == None && takesEffect {
        writes := writes + [Write(me, None, Some(me))];
        locker := Some(me);
        ok := reports;
        failures := failures + if ok then 0 else 1;
      } else {
        failures := failures + if locker == None then 1 else 0;
      }
    }

    /** `rbd lock list`; `None` when the command itself fails. */
    method LockList() returns (seen: Option<Option<Host>>)
      modifies this`failures
      ensures seen.Some? ==> seen.value == locker
      ensures failures == old(failures) + if seen.Some? then 0 else 1
    {
      var works: bool := *;
      failures := failures + if works then 0 else 1;
      seen := if works then Some(locker) else None;
    }

    /** `rbd lock rm`: with `lost`, the lock is gone although a failure is reported. */
    method LockRemove(me: Host, cookie: Host) returns (ok: bool, ghost lost: bool)
      modifies this`locker, this`writes, this`failures
      ensures failures == old(failures) + if ok || old(locker) != Some(cookie) then 0 else 1
      ensures ok ==> old(locker) == Some(cookie)
      ensures lost ==> !ok && old(locker) == Some(cookie)
      ensures locker == if ok || lost then None else old(locker)
      ensures writes == old(writes) + if ok || lost then [Write(me, Some(cookie), None)] else []
    {
      var takesEffect: bool, reports: bool := *, *;
      ok, lost := false, false;
      if locker == Some(cookie) && takesEffect {
        writes := writes + [Write(me, Some(cookie), None)];
        locker := None;
        ok, lost := reports, !reports;
        failures := failures + if ok then 0 else 1;
      } else {
        failures := failures + if locker == Some(cookie) then 1 else 0;
      }
    }
  }

  function Marks(h: Host, flag: bool): set<Host> {
    if flag then {h} else {}
  }

  class Volume {
    const host: Host
    const image: Image
    var lockedByMe: bool

    constructor (host: Host, image: Image)
      ensures this.host == host && this.image == image && !lockedByMe
    {
      this.host, this.image := host, image;
      lockedByMe := false;
    }

    /** The image's lock as this object's flag sees it. */
    ghost function State(): ImageLock
      reads this, image
    {
      ImageLock(image.locker, Marks(host, lockedByMe))
    }

    /** The lock as a call found it: as it is, or free if this host has it by a write of the call. */
    ghost function FoundToTake(writes: seq<Write>, flag: bool): ImageLock
      reads this, image
    {
      ImageLock(if |writes| < |image.writes| && image.locker == Some(host) then None else image.locker, Marks(host, flag))
    }

    /** The lock as the write of an unlock found it, or as it is if the call wrote nothing. */
    ghost function Found(writes: seq<Write>, flag: bool): ImageLock
      reads this, image
    {
      ImageLock(if |writes| < |image.writes| then image.writes[|writes|].before else image.locker, Marks(host, flag))
    }

    /** The lock that is seen is the cluster's at that moment. */
    method LockStatus() returns (r: Exit, status: Option<Host>)
      modifies image`locker, image`thefts, image`moves, image`failures
      ensures image.Later() && (image.Calm() ==> r == Done && image.locker == old(image.locker))
      ensures r != Done ==> old(image.failures) < image.failures
      ensures r != ImageBusy && (r == Done ==> status == image.locker)
      ensures image.locker == Some(host) ==> old(image.locker) == Some(host)
      ensures image.thefts == old(image.thefts) +
              if old(image.locker) == Some(host) && image.locker != Some(host) then 1 else 0
    {
      image.OthersAct(host);
      var seen := image.LockList();
      if seen.None? { return CommandFailed, None; }
      return Done, seen.value;
    }

    /** The writes of this call so far: each took the free lock, and each but the one that still stands was
    undone by a theft. */
    ghost predicate OnlyTook(writes: seq<Write>, thefts: nat)
      reads this, image
    {
      && writes <= image.writes && thefts <= image.thefts
      && (forall i :: |writes| <= i < |image.writes| ==> image.writes[i] == Write(host, None, Some(host)))
      && |image.writes| - |writes| <=
         image.thefts - thefts + if image.locker == Some(host) && |writes| < |image.writes| then 1 else 0
    }

    /** `libceph.Image.lock_exclusive`: a failed `lock add` still succeeds if our lock is listed. */
    method LockExclusive() returns (r: Exit)
      modifies image
      ensures image.adds == old(image.adds) + 1
      ensures r == Done ==> image.locker == Some(host)
      ensures r == ImageBusy ==> image.locker != Some(host)
      ensures image.Later()
      ensures image.Calm() ==> if old(image.locker) == None || old(image.locker) == Some(host) then r == Done
                               else r == ImageBusy && image.locker == old(image.locker)
      ensures r == CommandFailed ==> old(image.failures) < image.failures
      ensures old(image.writes) <= image.writes && |image.writes| <= |old(image.writes)| + 1
      ensures OnlyTook(old(image.writes), old(image.thefts))
      ensures image.locker == Some(host) && image.writes == old(image.writes) ==> old(image.locker) == Some(host)
      ensures old(image.locker) == Some(host) && image.writes != old(image.writes) ==>
                image.thefts - old(image.thefts) >= if image.locker == Some(host) then 1 else 2
    {
      image.OthersAct(host);
      var ok := image.LockAdd(host);
      if ok { return Done; }
      image.OthersAct(host);
      var seen := image.LockList();
      if seen.None? { return CommandFailed; }
      return if seen.value == Some(host) then Done else ImageBusy;
    }

    /** `Volume.lock`, whatever other hosts do meanwhile, thefts of this host's lock included. At most three
    `lock add` commands; a normal return means that this host's lock was on the image when last seen; it gives up only with another host's lock seen, after three tries,
    or when a command fails. If nobody interferes and nothing fails, it succeeds exactly on a free or own lock. Every
    write of the call takes the free lock, and there is at most one more of them than thefts. The call amounts
    to one `LockStep`, after a take and a theft for each further write. */
    method Lock() returns (r: Exit, ghost o: LockOutcome)
      modifies this`lockedByMe, image
      ensures image.adds <= old(image.adds) + 3
      ensures r == Done ==> image.locker == Some(host)
      ensures r == ImageBusy ==>
                && image.locker != Some(host)
                && (image.locker.Some? || image.adds == old(image.adds) + 3)
      ensures r == CommandFailed ==> old(image.failures) < image.failures
      ensures image.Calm() ==>
                && (r == Done <==> old(image.locker) == None || old(image.locker) == Some(host))
                && image.adds == old(image.adds) + if old(image.locker) == Some(host) then 0 else 1
      ensures OnlyTook(old(image.writes), old(image.thefts))
      ensures image.thefts == old(image.thefts) ==>
                image.writes == old(image.writes) || image.writes == old(image.writes) + [Write(host, None, Some(host))]
      ensures (o == LockRaised) == (r != Done)
      ensures LockStep(host, FoundToTake(old(image.writes), old(lockedByMe)), o, State())
    {
      var status: Option<Host>;
      r, status := LockStatus();
      if r != Done { return r, LockRaised; }
      if status == Some(host) { return Done, Reused; }
      var retry := 3;
      while retry > 0
        invariant 0 <= retry <= 3 && image.adds == old(image.adds) + 3 - retry
        invariant image.locker != Some(host) && lockedByMe == old(lockedByMe)
        invariant image.Later() && (image.Calm() ==> retry == 3 && image.locker == old(image.locker))
        invariant OnlyTook(old(image.writes), old(image.thefts))
      {
        r := LockExclusive();
        if r == Done {
          lockedByMe := true;
          return Done, Acquired;
        }
        if r == CommandFailed { return r, LockRaised; }
        r, status := LockStatus();
        if r != Done { return r, LockRaised; }
        if status == None {
          retry := retry - 1;
          continue;
        }
        if status == Some(host) { return Done, Reused; }
        return ImageBusy, LockRaised;
      }
      return ImageBusy, LockRaised;
    }

    /** `Volume.unlock`, whatever other hosts do meanwhile. At most one write, which removes a lock; the call
    is one `UnlockStep`, with `force` one `ForceStep`. Started with an honest flag, without `force`, and as long
    as nobody takes this host's lock during the call, it removes no other host's, and the flag stays honest
    unless the removal's reply was lost while it was set. */
    method Unlock(force: bool) returns (r: Exit, ghost o: UnlockOutcome)
      modifies this`lockedByMe, image`locker, image`writes, image`thefts, image`moves, image`failures
      ensures (o == UnlockRaised || o == ReplyLost) <==> r != Done
      ensures image.writes == old(image.writes) + if o == Released || o == ReplyLost
              then [Write(host, Found(old(image.writes), old(lockedByMe)).owner, None)] else []
      ensures !force ==> UnlockStep(host, Found(old(image.writes), old(lockedByMe)), o, State())
      ensures force ==> ForceStep(host, Found(old(image.writes), old(lockedByMe)), o, State())
      ensures image.Calm() ==>
                && r == Done
                && image.locker == if force || Removes(host, old(State())) then None else old(image.locker)
      ensures r == Done ==> image.locker != Some(host)
      ensures image.locker == Some(host) ==> old(image.locker) == Some(host) && o == UnlockRaised
      ensures !force && r == Done ==> !lockedByMe || (o == Skipped && image.locker == None)
      ensures !force && Honest(old(State())) && image.thefts == old(image.thefts) ==>
        && (image.writes == old(image.writes) || image.writes == old(image.writes) + [Write(host, Some(host), None)])
        && (Honest(State()) <==> !(o == ReplyLost && old(lockedByMe)))
    {
      var status: Option<Host>;
      r, status := LockStatus();
      if r != Done { return r, UnlockRaised; }
      if status == None { return Done, Skipped; }
      var foreign := !(lockedByMe || status == Some(host));
      if foreign && !force { return Done, Skipped; }
      image.OthersAct(host);
      var seen := image.LockList();
      if seen.None? { return CommandFailed, UnlockRaised; }
      if seen.value != status { return ImageBusy, UnlockRaised; }
      image.OthersAct(host);
      ghost var lost: bool;
      var ok: bool;
      ok, lost := image.LockRemove(host, status.value);
      if !ok { return CommandFailed, if lost then ReplyLost else UnlockRaised; }
      if !foreign { lockedByMe := false; }
      return Done, Released;
    }
  }
}
