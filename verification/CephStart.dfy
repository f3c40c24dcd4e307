/** Bringing a VM's volumes up before it starts, and moving its root image between pools.

A `Spec` is one disk of the VM: the cluster's images of its name, by pool, and the volume object this
process has attached to one of them. Every command may fail, with or without having taken effect. The
locks are told apart only by whether they are this host's; see the volume lock for how one call treats them. */
module CephStart {
  import opened Basics
  import opened PoolMigration

  /** `Hold`: a lock call returned with the lock on the image; `Formatted`: the image was formatted and seeded, or a
  created root's file system got its new UUID. */
  datatype Command = Hold(disk: Disk) | Remove(disk: Disk, pool: Pool) | Formatted(disk: Disk)

  /** What one disk's calls add to the journal. */
  predicate Adds(before: seq<Command>, after: seq<Command>, disk: Disk, desired: Pool) {
    && before <= after
    && forall i :: |before| <= i < |after| ==>
         match after[i]
         case Hold(d) => d == disk
         case Formatted(d) => d == disk
         case Remove(d, p) => d == disk && d != Root && p != desired
  }

  lemma AddsOne(before: seq<Command>, after: seq<Command>, e: Command, disk: Disk, desired: Pool)
    requires Adds(before, after, disk, desired) && (e == Hold(disk) || e == Formatted(disk))
    ensures Adds(before, after + [e], disk, desired) && before <= after
  {
  }

  /** No image that is still there has shrunk, new ones appear in the desired pool only, and the one in the
  desired pool stays. */
  predicate ScratchKept(before: map<Pool, nat>, after: map<Pool, nat>, desired: Pool) {
    && (desired in before ==> desired in after)
    && forall p :: p in after ==> if p in before then before[p] <= after[p] else p == desired
  }

  /** No image is gone or has shrunk, and one appears only where there was none. */
  predicate Grown(before: map<Pool, nat>, after: map<Pool, nat>) {
    && (forall p :: p in before ==> p in after && before[p] <= after[p])
    && (before != map[] ==> before.Keys == after.Keys)
  }

  /** The only image has moved to another pool. */
  predicate Moved(before: map<Pool, nat>, after: map<Pool, nat>, to: Pool) {
    exists p :: p in before && p != to && before.Keys == {p} && after.Keys == {to} && before[p] <= after[to]
  }

  predicate AtMostOne(images: map<Pool, nat>) {
    forall p, q :: p in images && q in images ==> p == q
  }

  /** A root image is never lost: every one stays and none shrinks, or the only one moves whole to the
  desired pool. */
  predicate RootKept(before: map<Pool, nat>, after: map<Pool, nat>, desired: Pool) {
    if before == map[] then AtMostOne(after) else Grown(before, after) || Moved(before, after, desired)
  }

  lemma GrownTwice(a: map<Pool, nat>, b: map<Pool, nat>, c: map<Pool, nat>)
    requires Grown(a, b) && Grown(b, c) && (a == map[] ==> AtMostOne(b))
    ensures Grown(a, c) && (a == map[] && b != map[] ==> AtMostOne(c))
  {
    assert b != map[] ==> forall p :: p in c ==> p in b;
  }

  lemma RootStaysKept(a: map<Pool, nat>, b: map<Pool, nat>, c: map<Pool, nat>, desired: Pool)
    requires Grown(a, b) && (a == map[] ==> AtMostOne(b))
    requires c == b || Moved(b, c, desired)
    ensures RootKept(a, c, desired)
  {
    if c != b {
      var p :| p in b && p != desired && b.Keys == {p} && c.Keys == {desired} && b[p] <= c[desired];
      if a != map[] {
        assert p in a;
      }
    }
  }

  predicate Kept(disk: Disk, before: map<Pool, nat>, after: map<Pool, nat>, desired: Pool) {
    if disk == Root then RootKept(before, after, desired) else ScratchKept(before, after, desired)
  }

  /** `faults`: how many commands have failed. */
  class Journal {
    ghost var log: seq<Command>
    ghost var faults: nat

    constructor ()
      ensures log == [] && faults == 0
    {
      log, faults := [], 0;
    }
  }

  /** What `ensure_migration` does for a migration that it may execute: a prepared one is queued afterwards, and
  an executed one is over. */
  predicate GetsOn(before: Migration, after: Migration) {
    && (after.Migrating? && after.phase == Prepared ==> after.queued)
    && (before.Migrating? && before.phase == Executed ==> after == NoMigration)
  }

  class Spec {
    const disk: Disk
    /** The pools that are looked at. */
    const pools: seq<Pool>
    const journal: Journal
    var desiredPool: Pool
    var desiredSize: nat
    /** The sizes of the images of this name, by pool. */
    var images: map<Pool, nat>
    /** The pools whose image this host has locked, and those whose lock others took from it, up to when it has
    the lock again or gives it up. */
    var mine: set<Pool>
    ghost var taken: set<Pool>
    var volume: Option<Pool>
    var migration: Migration
    /** All migration commands since the beginning, where the process is, and the run of the code so far. */
    ghost var history: seq<Move>
    ghost var control: Control
    ghost var trace: Trace
    ghost predicate Valid()
      reads this
    {
      && (forall i, j :: 0 <= i < j < |pools| ==> pools[i] != pools[j])
      && (forall p :: p in images ==> p in pools)
      && mine <= images.Keys && mine !! taken && taken <= images.Keys
      && (volume.Some? ==> volume.value in images)
      && Traces(trace, State(migration, control, history))
    }

    lemma CommandsInTurn()
      requires Valid()
      ensures PoolMigration.Inv(State(migration, control, history))
    {
      TraceIsSound(trace, State(migration, control, history));
    }

    /** The step that leads from the given state to the present one joins the trace. */
    ghost method Record(s: State, e: Step)
      requires Traces(trace, s) && Enabled(s, e) && migration == Apply(s, e).migration
      modifies this`history, this`control, this`trace
      ensures Traces(trace, State(migration, control, history))
      ensures State(migration, control, history) == Apply(s, e)
    {
      var t := Apply(s, e);
      TraceGrows(trace, s, e, t);
      history, control, trace := t.history, t.control, Extended(trace, e, t);
    }

    /** The locks of this host, those that others took from it included. */
    ghost function Had(): set<Pool>
      reads this
    {
      mine + taken
    }

    /** The disk as a completed start leaves it, but for a lock that others took: in exactly the desired pool,
    locked, and big enough. */
    ghost predicate ScratchReady()
      reads this
    {
      && images.Keys == {desiredPool} && volume == Some(desiredPool)
      && desiredPool in Had() && desiredSize <= images[desiredPool]
    }

    ghost predicate BigEnough()
      reads this
    {
      volume.Some? && volume.value in images && desiredSize <= images[volume.value]
    }

    /** The volume is the desired pool's image, or else the only one there is. */
    ghost predicate Attached()
      reads this
    {
      if desiredPool in images then volume == Some(desiredPool)
      else images.Keys == if volume == None then {} else {volume.value}
    }

    /** What a start cannot cope with: a pool that is not looked at, or several root images and none in the
    desired pool. */
    ghost predicate Misplaced()
      reads this
    {
      desiredPool !in pools || (desiredPool !in images && !AtMostOne(images))
    }

    /** Big enough, and in the desired pool, or else locked and still migrating. */
    ghost predicate RootReady()
      reads this
    {
      && BigEnough()
      && (volume.value != desiredPool ==> volume.value in Had() && migration.Migrating?)
      && (volume.value !in Had() ==> migration.Migrating? && volume.value == desiredPool)
    }

    ghost predicate Ready()
      reads this
    {
      if disk == Root then RootReady() else ScratchReady()
    }

    constructor (disk: Disk, pools: seq<Pool>, journal: Journal, desiredPool: Pool, desiredSize: nat,
                 images: map<Pool, nat>, mine: set<Pool>, migration: Migration)
      requires forall i, j :: 0 <= i < j < |pools| ==> pools[i] != pools[j]
      requires forall p :: p in images ==> p in pools
      requires mine <= images.Keys
      ensures Valid() && this.disk == disk && this.images == images && this.mine == mine && taken == {} && volume == None
      ensures this.journal == journal && this.migration == migration && history == []
    {
      this.disk, this.pools, this.journal := disk, pools, journal;
      this.desiredPool, this.desiredSize := desiredPool, desiredSize;
      this.images, this.mine, taken, this.migration := images, mine, {}, migration;
      history, control, trace := [], Idle, Trace([State(migration, Idle, [])], []);
      volume := None;
    }

    /** A new process, with no volume attached. */
    method Configure(pool: Pool)
      requires Valid()
      modifies this`desiredPool, this`volume, this`history, this`control, this`trace
      ensures Valid() && desiredPool == pool && volume == None && control == Idle && history == old(history)
    {
      Record(State(migration, control, history), GiveUp);
      desiredPool, volume := pool, None;
    }

    // The cluster's commands.

    ghost method Fails()
      modifies journal`faults
      ensures journal.faults == old(journal.faults) + 1
    {
      journal.faults := journal.faults + 1;
    }

    /** A command that changes nothing. */
    method Succeeds() returns (works: bool)
      modifies journal`faults
      ensures journal.faults == old(journal.faults) + if works then 0 else 1
    {
      works := *;
      if !works { Fails(); }
    }

    /** A command that takes effect or not, and says so or not. */
    method Tries() returns (works: bool, reports: bool)
      modifies journal`faults
      ensures journal.faults == old(journal.faults) + if works && reports then 0 else 1
    {
      works, reports := *, *;
      if !works || !reports { Fails(); }
    }

    method Exists(pool: Pool) returns (o: Outcome, found: bool)
      modifies journal`faults
      ensures o == Returned ==> found == (pool in images)
      ensures old(journal.faults) <= journal.faults && (o == Raised ==> old(journal.faults) < journal.faults)
    {
      var works := Succeeds();
      return if works then Returned else Raised, pool in images;
    }

    /** `rbd create`, or the site's script for a root image, which chooses the pool. */
    method Create(pool: Pool, size: nat) returns (o: Outcome)
      requires Valid() && images == map[] && pool in pools
      modifies journal`faults, this`images
      ensures Valid() && (images == map[] || images == map[pool := size])
      ensures o == Returned ==> images == map[pool := size]
      ensures old(journal.faults) <= journal.faults && (o == Raised ==> old(journal.faults) < journal.faults)
    {
      var works, reports := Tries();
      if works { images := map[pool := size]; }
      return if works && reports then Returned else Raised;
    }

    method RemoveImage(pool: Pool) returns (o: Outcome)
      requires Valid() && volume == None && pool != desiredPool && disk != Root
      modifies this`images, this`mine, this`taken, journal
      ensures Valid() && (images == old(images) || images == old(images) - {pool})
      ensures o == Returned ==> pool !in images
      ensures Adds(old(journal.log), journal.log, disk, desiredPool)
      ensures old(journal.faults) <= journal.faults && (o == Raised ==> old(journal.faults) < journal.faults)
    {
      journal.log := journal.log + [Remove(disk, pool)];
      var works, reports := Tries();
      if works { images, mine, taken := images - {pool}, mine - {pool}, taken - {pool}; }
      return if works && reports then Returned else Raised;
    }

    method Resize(pool: Pool, size: nat) returns (o: Outcome)
      requires Valid() && pool in images
      modifies journal`faults, this`images
      ensures Valid() && (images == old(images) || images == old(images)[pool := size])
      ensures o == Returned ==> images == old(images)[pool := size]
      ensures old(journal.faults) <= journal.faults && (o == Raised ==> old(journal.faults) < journal.faults)
    {
      var works, reports := Tries();
      if works { images := images[pool := size]; }
      return if works && reports then Returned else Raised;
    }

    /** Time passes, and the manager may get on with a queued migration. */
    method Wait()
      requires Valid()
      modifies this`migration, this`history, this`control, this`trace
      ensures Valid() && Progresses(old(migration), migration) && history == old(history) && control == old(control)
    {
      ghost var s := State(migration, control, history);
      var phase: Phase := *;
      if migration.Migrating? && migration.queued && Rank(migration.phase) <= Rank(phase) {
        migration := Migrating(phase, true);
      }
      Record(s, Work(migration));
    }

    /** `rbd migration prepare`: from then on the image is visible in the target pool only. */
    method PrepareMigration(source: Pool) returns (o: Outcome)
      requires Valid() && volume == None && control == Cleared
      requires images.Keys == {source} && source != desiredPool && desiredPool in pools && source !in Had()
      modifies journal`faults, this`images, this`mine, this`taken, this`migration, this`history, this`control, this`trace
      ensures Valid() && history == old(history) + [Move(Prepare(source, desiredPool), NoMigration, migration)]
      ensures o == Returned ==> migration == Migrating(Prepared, false)
      ensures if migration == NoMigration then images == old(images) else images == map[desiredPool := old(images)[source]]
      ensures migration == NoMigration || migration == Migrating(Prepared, false)
      ensures desiredPool !in Had()
      ensures old(journal.faults) <= journal.faults && (o == Raised ==> old(journal.faults) < journal.faults)
    {
      hide Traces;
      CommandsInTurn();
      ghost var s := State(migration, control, history);
      var works, reports := Tries();
      if works {
        images, mine, taken, migration := map[desiredPool := images[source]], {}, {}, Migrating(Prepared, false);
      }
      Record(s, PrepareNew(source, desiredPool, works));
      return if works && reports then Returned else Raised;
    }

    /** `ceph rbd task add migration execute`: queues the work. */
    method ExecuteMigration(seen: Migration) returns (o: Outcome)
      requires Valid() && control == Looked(seen, true) && seen.Migrating? && seen.phase == Prepared
      modifies journal`faults, this`migration, this`history, this`control, this`trace
      ensures Valid() && history == old(history) + [Move(Execute, old(migration), migration)]
      ensures old(migration).Migrating? && (migration == old(migration) || migration == old(migration).(queued := true))
      ensures old(journal.faults) <= journal.faults && (o == Raised ==> old(journal.faults) < journal.faults)
      ensures o == Returned ==> migration == Queued(old(migration))
    {
      hide Traces;
      CommandsInTurn();
      ghost var s := State(migration, control, history);
      var works, reports := Tries();
      if works { migration := Queued(migration); }
      Record(s, Act(works, reports));
      return if works && reports then Returned else Raised;
    }

    /** `rbd migration commit`. */
    method CommitMigration(seen: Migration) returns (o: Outcome)
      requires Valid() && control.Looked? && control.seen == seen && seen.Migrating? && seen.phase == Executed
      modifies journal`faults, this`migration, this`history, this`control, this`trace
      ensures Valid() && history == old(history) + [Move(Commit, old(migration), migration)]
      ensures migration == old(migration) || migration == NoMigration
      ensures o == Returned ==> migration == NoMigration && control == Cleared
      ensures old(journal.faults) <= journal.faults && (o == Raised ==> old(journal.faults) < journal.faults)
    {
      hide Traces;
      ghost var s := State(migration, control, history);
      var works, reports := Tries();
      if works { migration := NoMigration; }
      Record(s, Act(works, reports));
      return if works && reports then Returned else Raised;
    }

    // Volume objects.

    /** A stale flag may take locks of this host. */
    method OthersAct()
      requires Valid()
      modifies this`mine, this`taken
      ensures Valid() && Had() == old(Had()) && old(taken) <= taken
    {
      var stolen: set<Pool> := *;
      ghost var lost := stolen * mine;
      mine := mine - stolen;
      taken := taken + lost;
    }

    /** `Volume.lock`: returns only with this host's lock on the image; see the volume lock. */
    method Lock() returns (o: Outcome)
      requires Valid()
      modifies this`mine, this`taken, journal
      ensures Valid() && (Had() == old(Had()) || (volume.Some? && Had() == old(Had()) + {volume.value}))
      ensures o == Returned ==> volume.Some? && volume.value in Had()
      ensures if o == Returned then journal.log == old(journal.log) + [Hold(disk)] else journal.log == old(journal.log)
      ensures old(journal.faults) <= journal.faults && (o == Raised ==> old(journal.faults) < journal.faults || volume == None)
    {
      if volume == None { return Raised; }
      OthersAct();
      var works, reports := Tries();
      if works { mine, taken := mine + {volume.value}, taken - {volume.value}; }
      if !works || !reports { return Raised; }
      journal.log := journal.log + [Hold(disk)];
      return Returned;
    }

    /** `Volume.unlock`: another host's lock is left alone. */
    method Unlock() returns (o: Outcome)
      requires Valid() && volume.Some?
      modifies journal`faults, this`mine, this`taken
      ensures Valid() && (Had() == old(Had()) || Had() == old(Had()) - {volume.value})
      ensures o == Returned ==> volume.value !in Had()
      ensures mine <= old(mine)
      ensures old(journal.faults) <= journal.faults && (o == Raised ==> old(journal.faults) < journal.faults)
    {
      OthersAct();
      var works, reports := Tries();
      if works { mine, taken := mine - {volume.value}, taken - {volume.value}; }
      return if works && reports then Returned else Raised;
    }

    /** `ensure_size`: grows only. */
    method EnsureSize(size: nat) returns (o: Outcome)
      requires Valid() && volume.Some?
      modifies journal`faults, this`images, this`mine, this`taken
      ensures Valid() && Grown(old(images), images) && Had() == old(Had())
      ensures o == Returned ==> size <= images[volume.value]
      ensures old(journal.faults) <= journal.faults && (o == Raised ==> old(journal.faults) < journal.faults)
    {
      OthersAct();
      var works := Succeeds();
      if !works { return Raised; }
      if images[volume.value] >= size { return Returned; }
      o := Resize(volume.value, size);
    }

    // VolumeSpecification.

    method ExistsInDesiredPool() returns (o: Outcome, found: bool)
      modifies journal`faults
      ensures o == Returned ==> found == (desiredPool in images) && desiredPool in pools
      ensures old(journal.faults) <= journal.faults && (o == Raised ==> old(journal.faults) < journal.faults || desiredPool !in pools)
    {
      if desiredPool !in pools { return Raised, false; }
      o, found := Exists(desiredPool);
    }

    method ExistsInPools() returns (o: Outcome, found: seq<Pool>)
      requires Valid()
      modifies journal`faults
      ensures o == Returned ==> forall p :: p in found <==> p in images
      ensures forall i, j :: 0 <= i < j < |found| ==> found[i] != found[j]
      ensures old(journal.faults) <= journal.faults && (o == Raised ==> old(journal.faults) < journal.faults)
    {
      found := [];
      var i := 0;
      while i < |pools|
        invariant 0 <= i <= |pools|
        invariant forall p :: p in found <==> p in images && p in pools[..i]
        invariant forall j, k :: 0 <= j < k < |found| ==> found[j] != found[k]
        invariant old(journal.faults) <= journal.faults
      {
        var here: bool;
        o, here := Exists(pools[i]);
        if o == Raised { return; }
        if here { found := found + [pools[i]]; }
        i := i + 1;
      }
      o := Returned;
    }

    /** `exists_in_pool`: raises if the image is in several pools. */
    method ExistsInPool() returns (o: Outcome, pool: Option<Pool>)
      requires Valid()
      modifies journal`faults
      ensures o == Returned ==> images.Keys == if pool == None then {} else {pool.value}
      ensures old(journal.faults) <= journal.faults && (o == Raised ==> old(journal.faults) < journal.faults || !AtMostOne(images))
    {
      var found: seq<Pool>;
      o, found := ExistsInPools();
      if o == Raised { return o, None; }
      if |found| > 1 {
        assert found[0] in images && found[1] in images && found[0] != found[1];
        return Raised, None;
      }
      if |found| == 0 { return Returned, None; }
      assert found == [found[0]];
      return Returned, Some(found[0]);
    }

    /** `get_volume`: the desired pool's image first, then the only other one. */
    method GetVolume() returns (o: Outcome)
      requires Valid()
      modifies journal`faults, this`volume
      ensures Valid()
      ensures o == Raised ==> volume == None
      ensures o == Returned ==> Attached()
      ensures old(journal.faults) <= journal.faults && (o == Raised ==> old(journal.faults) < journal.faults || Misplaced())
    {
      volume := None;
      var found: bool;
      o, found := ExistsInDesiredPool();
      if o == Raised { return; }
      if found { volume := Some(desiredPool); return; }
      var pool: Option<Pool>;
      o, pool := ExistsInPool();
      if o == Raised { return; }
      volume := pool;
    }

    // SwapSpec, TmpSpec and CloudInitSpec.

    /** `pre_start`: away with every image outside the desired pool. */
    method PreStart() returns (o: Outcome)
      requires Valid() && volume == None && disk != Root
      modifies this`images, this`mine, this`taken, journal
      ensures Valid() && ScratchKept(old(images), images, desiredPool)
      ensures o == Returned ==> images.Keys <= {desiredPool}
      ensures Adds(old(journal.log), journal.log, disk, desiredPool)
      ensures old(journal.faults) <= journal.faults && (o == Raised ==> old(journal.faults) < journal.faults)
    {
      hide Traces;
      var found: seq<Pool>;
      o, found := ExistsInPools();
      if o == Raised { return; }
      var i := 0;
      while i < |found|
        invariant 0 <= i <= |found| && o == Returned
        invariant Valid() && images.Keys <= old(images.Keys)
        invariant ScratchKept(old(images), images, desiredPool)
        invariant forall p :: p in images && p != desiredPool ==> p in found[i..]
        invariant Adds(old(journal.log), journal.log, disk, desiredPool)
        invariant old(journal.faults) <= journal.faults
      {
        if found[i] != desiredPool {
          o := RemoveImage(found[i]);
          if o == Raised { return; }
        }
        i := i + 1;
      }
    }

    /** `ensure_presence` and `ensure_volume_presence`. */
    method EnsurePresence() returns (o: Outcome)
      requires Valid()
      modifies journal`faults, this`images, this`volume
      ensures Valid() && ScratchKept(old(images), images, desiredPool)
      ensures old(images) != map[] ==> images == old(images)
      ensures o == Returned && old(images.Keys) <= {desiredPool} ==>
                images.Keys == {desiredPool} && volume == Some(desiredPool)
      ensures old(journal.faults) <= journal.faults && (o == Raised ==> old(journal.faults) < journal.faults || desiredPool !in pools || !(old(images.Keys) <= {desiredPool}))
    {
      var found: seq<Pool>;
      o, found := ExistsInPools();
      if o == Raised { return; }
      if |found| == 0 {
        if desiredPool !in pools { return Raised; }
        assert images == map[] by { assert forall p :: p !in images; }
        volume := None;
        o := Create(desiredPool, desiredSize);
        if o == Raised { return; }
      } else {
        assert found[0] in images;
      }
      o := GetVolume();
    }

    /** Mapping, formatting and seeding, or the new UUID of a created root's file system: nothing that
    touches where the images are. */
    method Format() returns (o: Outcome)
      modifies journal
      ensures old(journal.faults) <= journal.faults && (o == Raised ==> old(journal.faults) < journal.faults)
      ensures if o == Returned then journal.log == old(journal.log) + [Formatted(disk)] else journal.log == old(journal.log)
    {
      var works := Succeeds();
      if !works { return Raised; }
      journal.log := journal.log + [Formatted(disk)];
      return Returned;
    }

    // RootSpec.

    /** The site's script for a root image that no pool has. */
    method CreateRoot() returns (o: Outcome)
      requires Valid() && images == map[]
      modifies journal, this`images, this`volume
      ensures Valid() && AtMostOne(images) && Adds(old(journal.log), journal.log, disk, desiredPool)
      ensures o == Returned ==> journal.log == old(journal.log) + [Formatted(disk)]
      ensures o == Returned ==> volume.Some? && images.Keys == {volume.value}
      ensures old(journal.faults) <= journal.faults && (o == Raised ==> old(journal.faults) < journal.faults || desiredPool !in pools)
    {
      hide Traces;
      volume := None;
      var chosen: Pool := *;
      if chosen !in pools { Fails(); return Raised; }
      var size: nat := *;
      o := Create(chosen, size);
      if o == Raised { return; }
      assert chosen in images;
      o := GetVolume();
      if o == Raised { return; }
      o := Format();
    }

    method EnsureRootPresence() returns (o: Outcome)
      requires Valid()
      modifies journal, this`images, this`volume
      ensures Valid() && Grown(old(images), images) && Adds(old(journal.log), journal.log, disk, desiredPool)
      ensures o == Returned && old(images) == map[] ==> journal.log == old(journal.log) + [Formatted(disk)]
      ensures old(images) == map[] ==> AtMostOne(images)
      ensures o == Returned && volume.Some? && volume.value != desiredPool ==> images.Keys == {volume.value}
      ensures old(journal.faults) <= journal.faults && (o == Raised ==> old(journal.faults) < journal.faults || old(Misplaced()))
      ensures o == Returned ==> volume.Some?
    {
      hide Traces;
      var found: bool;
      o, found := ExistsInDesiredPool();
      if o == Raised { return; }
      if !found {
        var pool: Option<Pool>;
        o, pool := ExistsInPool();
        if o == Raised { return; }
        if pool == None {
          o := CreateRoot();
          return;
        }
        assert pool.value in images;
      }
      o := GetVolume();
    }

    /** `migration_status`: nothing without a volume. */
    method MigrationStatus(ghost allowExecute: bool) returns (o: Outcome, seen: Migration)
      requires Valid()
      modifies journal`faults, this`migration, this`history, this`control, this`trace
      ensures Valid() && Progresses(old(migration), migration) && history == old(history)
      ensures o == Returned ==> if volume == None then seen == NoMigration else seen == migration
      ensures o == Returned && volume.Some? ==>
                control == if seen == NoMigration then Cleared else Looked(seen, allowExecute)
      ensures old(journal.faults) <= journal.faults && (o == Raised ==> old(journal.faults) < journal.faults)
    {
      hide Traces;
      if volume == None { return Returned, NoMigration; }
      Wait();
      var works := Succeeds();
      Record(State(migration, control, history), if works then Look(allowExecute) else GiveUp);
      return if works then Returned else Raised, migration;
    }

    /** `ensure_migration`; `pending` is its result's truth value. */
    method EnsureMigration(allowExecute: bool) returns (o: Outcome, pending: bool)
      requires Valid()
      modifies journal`faults, this`migration, this`history, this`control, this`trace
      ensures Valid() && old(history) <= history
      ensures o == Returned && volume.Some? ==> pending == migration.Migrating?
      ensures o == Returned && volume.Some? && !pending ==> control == Cleared
      ensures !allowExecute ==> NoExecute(old(history), history)
      ensures old(journal.faults) <= journal.faults && (o == Raised ==> old(journal.faults) < journal.faults)
      ensures o == Returned && volume.Some? && allowExecute ==> GetsOn(old(migration), migration)
      ensures o == Returned && volume.Some? && old(migration).Migrating? && old(migration).phase == Executed ==>
                migration == NoMigration
    {
      hide Traces;
      var seen: Migration;
      o, seen := MigrationStatus(allowExecute);
      pending := seen.Migrating?;
      if o == Raised || !pending { return; }
      Wait();
      CommandsInTurn();
      if seen.phase == Prepared && allowExecute {
        o := ExecuteMigration(seen);
      } else if seen.phase == Executed {
        o := CommitMigration(seen);
        pending := false;
      } else {
        Record(State(migration, control, history), Act(false, false));
      }
    }

    /** The second variation of `RootSpec.start`: the image is ready to be migrated. */
    method MoveRoot(source: Pool) returns (o: Outcome)
      requires Valid() && volume == Some(source) && control == Cleared && migration == NoMigration
      requires images.Keys == {source} && source != desiredPool && desiredPool in pools
      modifies this, journal`faults
      ensures Valid() && NoExecute(old(history), history) && desiredPool == old(desiredPool) && desiredSize == old(desiredSize)
      ensures images == old(images) || Moved(old(images), images, desiredPool)
      ensures o == Returned ==>
                && volume == Some(desiredPool) && desiredPool !in Had() && migration.Migrating?
                && images == map[desiredPool := old(images)[source]]
      ensures old(journal.faults) <= journal.faults && (o == Raised ==> old(journal.faults) < journal.faults)
    {
      hide Traces;
      o := Unlock();
      if o == Raised { return; }
      volume := None;
      o := PrepareMigration(source);
      assert migration.Migrating? ==> Moved(old(images), images, desiredPool) by {
        assert source in old(images) && old(images).Keys == {source};
      }
      if o == Raised { return; }
      o := GetVolume();
    }

    /** `RootSpec.start`. */
    method StartRoot() returns (o: Outcome)
      requires Valid() && volume.Some? && volume.value in Had()
      requires volume.value != desiredPool ==> images.Keys == {volume.value}
      requires desiredPool in images ==> volume.value == desiredPool
      modifies this, journal`faults
      ensures Valid() && NoExecute(old(history), history) && desiredPool == old(desiredPool) && desiredSize == old(desiredSize)
      ensures images == old(images) || Moved(old(images), images, desiredPool)
      ensures o == Returned && old(desiredSize <= images[volume.value]) ==> RootReady()
      ensures o == Returned ==> volume.Some? && (volume.value in Had() <==> images == old(images))
      ensures old(journal.faults) <= journal.faults && (o == Raised ==> old(journal.faults) < journal.faults || desiredPool !in pools)
    {
      hide Traces, Moved;
      var found: bool;
      o, found := ExistsInDesiredPool();
      if o == Raised || found { return; }
      var current: Option<Pool>;
      o, current := ExistsInPool();
      if o == Raised { return; }
      var pending: bool;
      o, pending := EnsureMigration(false);
      if o == Raised || pending { return; }
      assert current == volume by { assert volume.value in images; }
      CommandsInTurn();
      o := MoveRoot(current.value);
    }

    /** `RootSpec.ensure`; the other disks have nothing to ensure. */
    method Ensure() returns (o: Outcome)
      requires Valid()
      modifies journal`faults, this`migration, this`history, this`control, this`trace
      ensures Valid() && old(history) <= history
      ensures old(journal.faults) <= journal.faults && (o == Raised ==> old(journal.faults) < journal.faults)
      ensures o == Returned && disk == Root && volume.Some? ==> GetsOn(old(migration), migration)
    {
      o := Returned;
      if disk == Root {
        var pending: bool;
        o, pending := EnsureMigration(true);
      }
    }

    /** `volume.unlock()` and `volume.close()`. */
    method Release() returns (o: Outcome)
      requires Valid()
      modifies journal`faults, this`mine, this`taken, this`volume
      ensures Valid() && mine <= old(mine) && Had() <= old(Had())
      ensures o == Returned ==> volume == None
      ensures old(journal.faults) <= journal.faults && (o == Raised ==> old(journal.faults) < journal.faults)
    {
      if volume == None { return Returned; }
      o := Unlock();
      if o == Raised { return; }
      volume := None;
    }

    method StartScratchDisk() returns (o: Outcome)
      requires Valid() && disk != Root && volume == None
      modifies this`images, this`mine, this`taken, this`volume, journal
      ensures Valid() && ScratchKept(old(images), images, desiredPool)
      ensures o == Returned ==> ScratchReady()
      ensures o == Returned ==> exists i :: |old(journal.log)| <= i < |journal.log| && journal.log[i] == Hold(disk)
      ensures o == Returned ==> |journal.log| >= 2 && journal.log[|journal.log| - 2..] == [Hold(disk), Formatted(disk)]
      ensures Adds(old(journal.log), journal.log, disk, desiredPool)
      ensures old(journal.faults) <= journal.faults && (o == Raised ==> old(journal.faults) < journal.faults || desiredPool !in pools)
    {
      hide Traces, Adds;
      o := PreStart();
      if o == Raised { return; }
      o := EnsurePresence();
      if o == Raised { return; }
      AddsOne(old(journal.log), journal.log, Hold(disk), disk, desiredPool);
      o := Lock();
      if o == Raised { return; }
      ghost var held := |journal.log| - 1;
      AddsOne(old(journal.log), journal.log, Formatted(disk), disk, desiredPool);
      assert journal.log[held] == Hold(disk);
      o := EnsureSize(desiredSize);
      if o == Raised { return; }
      o := Format();
      assert o == Returned ==> journal.log[held] == Hold(disk);
    }

    method StartRootDisk() returns (o: Outcome)
      requires Valid() && disk == Root && volume == None
      modifies this, journal
      ensures Valid() && NoExecute(old(history), history) && desiredPool == old(desiredPool) && desiredSize == old(desiredSize)
      ensures RootKept(old(images), images, desiredPool)
      ensures o == Returned ==> RootReady()
      ensures o == Returned ==> exists i :: |old(journal.log)| <= i < |journal.log| && journal.log[i] == Hold(disk)
      ensures Adds(old(journal.log), journal.log, disk, desiredPool)
      ensures old(journal.faults) <= journal.faults && (o == Raised ==> old(journal.faults) < journal.faults || old(Misplaced()))
    {
      hide Traces, Adds, RootKept;
      o := EnsureRootPresence();
      RootStaysKept(old(images), images, images, desiredPool);
      if o == Raised { return; }
      AddsOne(old(journal.log), journal.log, Hold(disk), disk, desiredPool);
      o := Lock();
      if o == Raised { return; }
      ghost var held := |journal.log| - 1;
      ghost var present := images;
      o := EnsureSize(desiredSize);
      GrownTwice(old(images), present, images);
      RootStaysKept(old(images), images, images, desiredPool);
      if o == Raised { return; }
      ghost var grown := images;
      o := StartRoot();
      RootStaysKept(old(images), grown, images, desiredPool);
      assert journal.log[held] == Hold(disk);
    }

    /** One round of the loop in `Ceph.start`. */
    method Start() returns (o: Outcome)
      requires Valid()
      modifies this, journal
      ensures Valid() && NoExecute(old(history), history) && desiredPool == old(desiredPool) && desiredSize == old(desiredSize)
      ensures Kept(disk, old(images), images, desiredPool)
      ensures o == Returned ==> Ready()
      ensures o == Returned ==> exists i :: |old(journal.log)| <= i < |journal.log| && journal.log[i] == Hold(disk)
      ensures Adds(old(journal.log), journal.log, disk, desiredPool)
      ensures old(journal.faults) <= journal.faults && (o == Raised ==> old(journal.faults) < journal.faults || old(Misplaced()))
    {
      o := Release();
      if o == Raised { return; }
      if disk == Root {
        o := StartRootDisk();
      } else {
        o := StartScratchDisk();
      }
    }
  }

  /** Scratch images are removed only after the root image's lock was held in the same run. */
  predicate RemovesGuarded(before: seq<Command>, after: seq<Command>) {
    && before <= after
    && forall i :: |before| <= i < |after| && after[i].Remove? ==> exists j :: |before| <= j < i && after[j] == Hold(Root)
  }

  /** The root image's lock was held since. */
  predicate RootHeld(before: seq<Command>, after: seq<Command>) {
    exists j :: |before| <= j < |after| && after[j] == Hold(Root)
  }

  lemma GuardedGrows(a: seq<Command>, b: seq<Command>, c: seq<Command>, disk: Disk, desired: Pool)
    requires RemovesGuarded(a, b) && Adds(b, c, disk, desired)
    requires disk == Root || RootHeld(a, b)
    ensures RemovesGuarded(a, c) && (RootHeld(a, b) ==> RootHeld(a, c))
  {
    if j: nat :| |a| <= j < |b| && b[j] == Hold(Root) {
      assert c[j] == Hold(Root);
    }
  }

  /** One image before and one, at least as big, after. */
  predicate Follows(a: map<Pool, nat>, b: map<Pool, nat>) {
    exists p, q :: p in a && q in b && a.Keys == {p} && b.Keys == {q} && a[p] <= b[q]
  }

  lemma FollowsItself(a: map<Pool, nat>)
    requires exists p :: a.Keys == {p}
    ensures Follows(a, a)
  {
    var p :| a.Keys == {p};
    assert p in a;
  }

  lemma FollowsOn(a: map<Pool, nat>, b: map<Pool, nat>, c: map<Pool, nat>)
    requires Follows(a, b) && Follows(b, c)
    ensures Follows(a, c)
  {
    var p, q :| p in a && q in b && a.Keys == {p} && b.Keys == {q} && a[p] <= b[q];
    var r, t :| r in b && t in c && b.Keys == {r} && c.Keys == {t} && b[r] <= c[t];
    assert r in {q};
  }

  lemma KeptFollows(a: map<Pool, nat>, b: map<Pool, nat>, c: map<Pool, nat>, desired: Pool)
    requires Follows(a, b) && RootKept(b, c, desired)
    ensures Follows(a, c)
  {
    var p, q :| p in a && q in b && a.Keys == {p} && b.Keys == {q} && a[p] <= b[q];
    if Grown(b, c) {
      assert q in c;
    } else {
      var r :| r in b && r != desired && b.Keys == {r} && c.Keys == {desired} && b[r] <= c[desired];
      assert desired in c;
    }
  }

  /** A process that starts the VM, or one that only ensures it. */
  datatype Request = Request(pool: Pool, rootSize: nat, starts: bool)

  class Ceph {
    /** In the order of their creation. */
    const specs: seq<Spec>
    const journal: Journal

    ghost predicate Valid()
      reads this, specs
    {
      && |specs| > 0
      && (forall i, j :: 0 <= i < j < |specs| ==> specs[i] != specs[j])
      && (forall i :: 0 <= i < |specs| ==> (specs[i].disk == Root) == (i == 0))
      && (forall i :: 0 <= i < |specs| ==> specs[i].Valid() && specs[i].journal == journal)
    }

    /** Any list of disks, of which the first is the only root; the source's is root, swap, tmp, cidata. */
    constructor (root: Spec, swap: Spec, tmp: Spec, cidata: Spec)
      requires root.disk == Root && swap.disk == Swap && tmp.disk == Tmp && cidata.disk == CloudInit
      requires root.Valid() && swap.Valid() && tmp.Valid() && cidata.Valid()
      requires root.journal == swap.journal == tmp.journal == cidata.journal
      ensures Valid() && specs == [root, swap, tmp, cidata]
    {
      specs, journal := [root, swap, tmp, cidata], root.journal;
    }

    /** Stale flags elsewhere may take any of this host's locks. As no volume's turn looks at another's locks, it
    is enough to let them do so at the end of a loop over the volumes. */
    method OthersAct()
      requires Valid()
      modifies specs`mine, specs`taken
      ensures Valid() && forall i :: 0 <= i < |specs| ==> specs[i].Had() == old(specs[i].Had())
    {
      var i := 0;
      while i < |specs|
        invariant 0 <= i <= |specs| && Valid()
        invariant forall k :: 0 <= k < |specs| ==> specs[k].Had() == old(specs[k].Had())
      {
        specs[i].OthersAct();
        i := i + 1;
      }
    }

    /** One round of the loop of `start`, which began with the given log. */
    method StartOne(i: nat, ghost log: seq<Command>) returns (o: Outcome)
      requires Valid() && i < |specs| && RemovesGuarded(log, journal.log) && (i > 0 ==> RootHeld(log, journal.log))
      modifies specs[i], journal
      ensures Valid()
      ensures o == Returned ==> specs[i].Ready()
      ensures specs[i].desiredPool == old(specs[i].desiredPool) && specs[i].desiredSize == old(specs[i].desiredSize)
      ensures Kept(specs[i].disk, old(specs[i].images), specs[i].images, specs[i].desiredPool)
      ensures NoExecute(old(specs[i].history), specs[i].history)
      ensures RemovesGuarded(log, journal.log) && (o == Returned ==> RootHeld(log, journal.log))
      ensures old(journal.faults) <= journal.faults
      ensures o == Raised ==> old(journal.faults) < journal.faults || old(specs[i].Misplaced())
    {
      hide Traces, Kept, NoExecute;
      ghost var before := journal.log;
      o := specs[i].Start();
      GuardedGrows(log, before, journal.log, specs[i].disk, specs[i].desiredPool);
    }

    /** The loop of `start`. */
    method StartEach() returns (o: Outcome)
      requires Valid()
      modifies specs, journal
      ensures Valid()
      ensures o == Returned ==> forall i :: 0 <= i < |specs| ==> specs[i].Ready()
      ensures forall i :: 0 <= i < |specs| ==>
                && specs[i].desiredPool == old(specs[i].desiredPool) && specs[i].desiredSize == old(specs[i].desiredSize)
                && Kept(specs[i].disk, old(specs[i].images), specs[i].images, specs[i].desiredPool)
      ensures NoExecute(old(specs[0].history), specs[0].history)
      ensures RemovesGuarded(old(journal.log), journal.log)
      ensures o == Raised ==> old(journal.faults) < journal.faults || exists i :: 0 <= i < |specs| && old(specs[i].Misplaced())
      ensures old(journal.faults) <= journal.faults
    {
      hide Traces, RootHeld;
      var i := 0;
      o := Returned;
      while i < |specs|
        invariant 0 <= i <= |specs| && Valid() && o == Returned
        invariant forall k :: 0 <= k < i ==> specs[k].Ready()
        invariant forall k :: i <= k < |specs| ==> unchanged(specs[k])
        invariant forall k :: 0 <= k < |specs| ==>
                    && specs[k].desiredPool == old(specs[k].desiredPool) && specs[k].desiredSize == old(specs[k].desiredSize)
                    && Kept(specs[k].disk, old(specs[k].images), specs[k].images, specs[k].desiredPool)
        invariant NoExecute(old(specs[0].history), specs[0].history)
        invariant RemovesGuarded(old(journal.log), journal.log) && (i > 0 ==> RootHeld(old(journal.log), journal.log))
        invariant old(journal.faults) <= journal.faults
      {
        label round:
        o := StartOne(i, old(journal.log));
        assert forall k :: 0 <= k < |specs| && k != i ==> unchanged@round(specs[k]);
        if o == Raised { return; }
        i := i + 1;
      }
    }

    /** `start`. For every initial placement: when it completes, swap, tmp and cidata are each in exactly the
    desired pool, big enough, and locked unless others took the lock, and so is root, or its migration is
    pending. However it ends, no image has shrunk, the root image is still there, and scratch images only went
    after root was locked. And it completes unless a command fails or the configuration cannot be met. */
    method Start() returns (o: Outcome)
      requires Valid()
      modifies specs, journal
      ensures Valid()
      ensures o == Returned ==> forall i :: 0 <= i < |specs| ==> specs[i].Ready()
      ensures forall i :: 0 <= i < |specs| ==>
                && specs[i].desiredPool == old(specs[i].desiredPool) && specs[i].desiredSize == old(specs[i].desiredSize)
                && Kept(specs[i].disk, old(specs[i].images), specs[i].images, specs[i].desiredPool)
      ensures NoExecute(old(specs[0].history), specs[0].history)
      ensures RemovesGuarded(old(journal.log), journal.log)
      ensures o == Raised ==> old(journal.faults) < journal.faults || exists i :: 0 <= i < |specs| && old(specs[i].Misplaced())
      ensures old(journal.faults) <= journal.faults
    {
      hide Traces;
      o := StartEach();
      label started:
      OthersAct();
      forall i | 0 <= i < |specs| && old@started(specs[i].Ready()) ensures specs[i].Ready() {
        assert specs[i].Had() == old@started(specs[i].Had());
      }
    }

    /** `ensure`: root's migration gets on, unless a command fails. */
    method Ensure() returns (o: Outcome)
      requires Valid()
      modifies specs`migration, specs`history, specs`control, specs`trace, journal`faults
      ensures Valid() && old(specs[0].history) <= specs[0].history
      ensures o == Returned && specs[0].volume.Some? ==> GetsOn(old(specs[0].migration), specs[0].migration)
      ensures o == Raised ==> old(journal.faults) < journal.faults
      ensures old(journal.faults) <= journal.faults
    {
      hide Traces, GetsOn;
      o := Returned;
      var i := 0;
      while i < |specs|
        invariant 0 <= i <= |specs| && Valid() && old(specs[0].history) <= specs[0].history && o == Returned
        invariant old(journal.faults) <= journal.faults
        invariant i > 0 && specs[0].volume.Some? ==> GetsOn(old(specs[0].migration), specs[0].migration)
        invariant forall k :: i <= k < |specs| ==> unchanged(specs[k])
      {
        label round:
        o := specs[i].Ensure();
        assert forall k :: 0 <= k < |specs| && k != i ==> unchanged@round(specs[k]);
        if o == Raised { return; }
        i := i + 1;
      }
    }

    /** `lock`: every volume that is open. */
    method Lock() returns (o: Outcome)
      requires Valid()
      modifies specs`mine, specs`taken, journal
      ensures Valid()
      ensures o == Returned ==>
                forall i :: 0 <= i < |specs| && specs[i].volume.Some? ==> specs[i].volume.value in specs[i].Had()
      ensures forall i :: 0 <= i < |specs| ==> old(specs[i].Had()) <= specs[i].Had()
      ensures old(journal.faults) <= journal.faults
      ensures o == Raised ==> old(journal.faults) < journal.faults
    {
      hide Traces;
      o := Returned;
      var i := 0;
      while i < |specs|
        invariant 0 <= i <= |specs| && Valid() && o == Returned
        invariant forall k :: 0 <= k < i && specs[k].volume.Some? ==> specs[k].volume.value in specs[k].Had()
        invariant old(journal.faults) <= journal.faults
        invariant forall k :: 0 <= k < |specs| ==> old(specs[k].Had()) <= specs[k].Had()
      {
        if specs[i].volume.Some? {
          o := specs[i].Lock();
          if o == Raised { return; }
        }
        i := i + 1;
      }
      OthersAct();
    }

    method EnsureAndLock() returns (o: Outcome)
      requires Valid()
      requires forall i :: 0 <= i < |specs| ==> specs[i].BigEnough() && (i > 0 ==> specs[i].ScratchReady())
      modifies specs`migration, specs`history, specs`control, specs`trace, specs`mine, specs`taken, journal
      ensures Valid()
      ensures o == Returned ==> forall i :: 0 <= i < |specs| ==>
                && specs[i].BigEnough() && specs[i].volume.value in specs[i].Had()
                && (i > 0 ==> specs[i].ScratchReady())
      ensures old(journal.faults) <= journal.faults
      ensures o == Raised ==> old(journal.faults) < journal.faults
      ensures o == Returned ==> GetsOn(old(specs[0].migration), specs[0].migration)
    {
      hide Traces, GetsOn;
      o := Ensure();
      if o == Raised { return; }
      o := Lock();
    }

    /** The storage part of bringing a VM online locally: start, ensure and lock. When it completes, every
    volume is there, big enough, and locked by this host unless others took the lock, root included, although
    a start that has just prepared a migration leaves root unlocked. */
    method BringOnline() returns (o: Outcome)
      requires Valid()
      modifies specs, journal
      ensures Valid()
      ensures o == Returned ==> forall i :: 0 <= i < |specs| ==>
                && specs[i].BigEnough() && specs[i].volume.value in specs[i].Had()
                && (i > 0 ==> specs[i].ScratchReady())
      ensures o == Raised ==> old(journal.faults) < journal.faults || exists i :: 0 <= i < |specs| && old(specs[i].Misplaced())
      ensures o == Returned ==> specs[0].migration.Migrating? && specs[0].migration.phase == Prepared ==> specs[0].migration.queued
    {
      hide Traces, Kept, RemovesGuarded, AtMostOne;
      o := Start();
      if o == Raised { return; }
      forall i | 0 <= i < |specs| ensures specs[i].BigEnough() && (i > 0 ==> specs[i].ScratchReady()) {
        assert specs[i].Ready();
      }
      o := EnsureAndLock();
    }

    /** A new process: the configuration's pool and root size, no volume attached. */
    method Configure(pool: Pool, rootSize: nat)
      requires Valid()
      modifies specs`desiredPool, specs`desiredSize, specs`volume, specs`history, specs`control, specs`trace
      ensures Valid() && specs[0].history == old(specs[0].history)
      ensures forall i :: 0 <= i < |specs| ==> specs[i].desiredPool == pool && specs[i].volume == None
      ensures specs[0].desiredSize == rootSize
    {
      hide Traces;
      specs[0].desiredSize := rootSize;
      var i := 0;
      while i < |specs|
        invariant 0 <= i <= |specs| && Valid() && specs[0].desiredSize == rootSize
        invariant specs[0].history == old(specs[0].history)
        invariant forall k :: 0 <= k < i ==> specs[k].desiredPool == pool && specs[k].volume == None
      {
        specs[i].Configure(pool);
        i := i + 1;
      }
    }

    /** `attach_volumes`: each disk's volume is in the desired pool if there is one, and else in the only pool
    that has one. */
    method AttachVolumes() returns (o: Outcome)
      requires Valid()
      modifies specs`volume, journal`faults
      ensures Valid() && old(journal.faults) <= journal.faults
      ensures o == Returned ==> forall i :: 0 <= i < |specs| ==> specs[i].Attached()
      ensures o == Raised ==> old(journal.faults) < journal.faults || exists i :: 0 <= i < |specs| && specs[i].Misplaced()
    {
      hide Traces;
      o := Returned;
      var i := 0;
      while i < |specs|
        invariant 0 <= i <= |specs| && Valid() && old(journal.faults) <= journal.faults && o == Returned
        invariant forall k :: 0 <= k < i ==> specs[k].Attached()
      {
        o := specs[i].GetVolume();
        if o == Raised { return; }
        i := i + 1;
      }
    }

    /** What one process does: it starts the VM's volumes, or only ensures them. */
    method Process(request: Request) returns (o: Outcome)
      requires Valid() && exists p :: specs[0].images.Keys == {p}
      modifies specs, journal
      ensures Valid() && old(specs[0].history) <= specs[0].history
      ensures Follows(old(specs[0].images), specs[0].images)
      ensures o == Returned && request.starts ==> forall i :: 0 <= i < |specs| ==> specs[i].Ready()
      ensures o == Returned ==> forall i :: 0 <= i < |specs| ==> specs[i].desiredPool == request.pool
      ensures o == Returned && !request.starts && specs[0].volume.Some? ==>
                GetsOn(old(specs[0].migration), specs[0].migration)
    {
      hide Traces;
      FollowsItself(specs[0].images);
      Configure(request.pool, request.rootSize);
      o := AttachVolumes();
      if o == Raised { return; }
      if request.starts {
        ghost var images := specs[0].images;
        o := Start();
        KeptFollows(images, images, specs[0].images, specs[0].desiredPool);
      } else {
        o := Ensure();
      }
    }

    /** The life of a VM: any processes that start or ensure it, each with its own desired pool, each ending
    normally or not. A root image that is in exactly one pool stays in exactly one pool and never shrinks,
    and its migration commands are sound throughout: see `MigrationsRunToTheirEnd`. */
    method Run(requests: seq<Request>)
      requires Valid() && exists p :: specs[0].images.Keys == {p}
      modifies specs, journal
      ensures Valid() && old(specs[0].history) <= specs[0].history
      ensures Follows(old(specs[0].images), specs[0].images)
      ensures Sound(specs[0].history, specs[0].migration)
    {
      hide Traces;
      FollowsItself(specs[0].images);
      for n := 0 to |requests|
        invariant Valid() && old(specs[0].history) <= specs[0].history
        invariant Follows(old(specs[0].images), specs[0].images)
      {
        ghost var images := specs[0].images;
        var _ := Process(requests[n]);
        FollowsOn(old(specs[0].images), images, specs[0].images);
      }
      specs[0].CommandsInTurn();
    }
  }
}
