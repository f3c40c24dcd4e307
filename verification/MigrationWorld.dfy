/** The state of a migration as the code on both hosts sees and changes it, with the history that
makes each execution a run of the transition system. */
module MigrationWorld {
  import opened Basics
  import opened VolumeLock
  import opened MigrationProtocol
  import MigrationSafety

  /** Among the same volumes, `h` owns no lock that it did not own before. */
  predicate NoneGained(before: Volumes, after: Volumes, h: Host) {
    before.Keys == after.Keys && forall d :: d in after && after[d].owner == Some(h) ==> before[d].owner == Some(h)
  }

  /** At or after the given point, the host's unlock of the volume raised without effect. */
  predicate StuckSince(steps: seq<Step>, from: nat, h: Host, d: Disk) {
    exists i :: from <= i < |steps| && IsStuck(steps[i], h, d)
  }

  predicate IsStuck(e: Step, h: Host, d: Disk) {
    if h == TGT then e.TUnlock? && e.d == d && e.u == UnlockRaised else e.Drop? && e.d == d && e.u == UnlockRaised
  }

  lemma StuckStays(a: seq<Step>, b: seq<Step>, from: nat, h: Host)
    requires a <= b
    ensures forall d :: StuckSince(a, from, h, d) ==> StuckSince(b, from, h, d)
  {
    forall d | StuckSince(a, from, h, d) ensures StuckSince(b, from, h, d) {
      var i :| from <= i < |a| && IsStuck(a[i], h, d);
      assert IsStuck(b[i], h, d);
    }
  }

  /** Every lock that is left to the host is on a volume whose unlock raised. */
  predicate OnlyStuckLeft(vols: Volumes, h: Host, steps: seq<Step>, from: nat) {
    forall d :: d in vols && vols[d].owner == Some(h) ==> StuckSince(steps, from, h, d)
  }

  lemma StuckLater(vols: Volumes, h: Host, steps: seq<Step>, e: Step, from: nat, earlier: nat)
    requires OnlyStuckLeft(vols, h, steps, from) && earlier <= from
    ensures OnlyStuckLeft(vols, h, steps + [e], earlier)
  {
    forall d | d in vols && vols[d].owner == Some(h) ensures StuckSince(steps + [e], earlier, h, d) {
      var i :| from <= i < |steps| && IsStuck(steps[i], h, d);
      assert IsStuck((steps + [e])[i], h, d);
    }
  }

  lemma StuckSinceEarlier(vols: Volumes, h: Host, steps: seq<Step>, from: nat, earlier: nat)
    requires OnlyStuckLeft(vols, h, steps, from) && earlier <= from
    ensures OnlyStuckLeft(vols, h, steps, earlier)
  {
  }

  class World {
    var st: State
    ghost var states: seq<State>
    ghost var steps: seq<Step>
    /** How often the code at work has heard of a failure, and which requests have reached the target's loop. */
    ghost var badNews: nat
    ghost var arrived: seq<Msg>

    ghost predicate Valid()
      reads this
    {
      IsRun(states, steps) && states[|steps|] == st
    }

    constructor (start: State)
      requires Init(start)
      ensures Valid() && st == start && steps == [] && badNews == 0 && arrived == []
    {
      st := start;
      states, steps := [start], [];
      badNews, arrived := 0, [];
    }

    lemma InvHolds()
      requires Valid()
      ensures MigrationSafety.Inv(st)
    {
      MigrationSafety.RunKeepsInv(states, steps, |steps|);
    }

    /** Something is heard of: good news only if it is possible. */
    method Hears(possible: bool) returns (good: bool)
      modifies `badNews
      ensures good ==> possible
      ensures badNews == old(badNews) + if good then 0 else 1
    {
      good := *;
      good := good && possible;
      Notes(good);
    }

    ghost method Notes(good: bool)
      modifies `badNews
      ensures badNews == old(badNews) + if good then 0 else 1
    {
      if !good { badNews := badNews + 1; }
    }

    /** How a `_destroy` goes. */
    method HearsKill() returns (how: KillResult)
      modifies `badNews
      ensures badNews == old(badNews) + if how == KillDone then 0 else 1
    {
      how := *;
      Notes(how == KillDone);
    }

    /** A pending request reaches the target's loop, or none does. */
    method Arrives() returns (m: Option<Msg>)
      modifies `arrived
      ensures m.Some? ==> Status(st.requests, m.value) == Pending
      ensures arrived == old(arrived) + if m.Some? then [m.value] else []
    {
      var next: Msg, comes: bool := *, *;
      m := None;
      if comes && Status(st.requests, next) == Pending {
        m := Some(next);
        arrived := arrived + [next];
      }
    }

    lemma TargetInvHolds()
      requires Valid()
      ensures MigrationSafety.TargetInv(st) && MigrationSafety.RequestInv(st)
    {
      hide MigrationSafety.TargetInv, MigrationSafety.RequestInv;
      InvHolds();
    }

    method Do(e: Step)
      requires Valid() && Enabled(st, e)
      modifies `st, `states, `steps
      ensures Valid() && st == Apply(old(st), e) && steps == old(steps) + [e]
    {
      var t := Apply(st, e);
      ghost var states', steps' := states + [t], steps + [e];
      assert forall i :: 0 <= i < |steps'| ==> Next(states'[i], steps'[i], states'[i + 1]);
      st, states, steps := t, states', steps';
    }

    method DoHandover(e: Step)
      requires Valid() && HandoverEnabled(st, e)
      modifies `st, `states, `steps
      ensures Valid() && st == HandoverApply(old(st), e) && steps == old(steps) + [e]
    {
      Do(e);
    }

    method DoRescue(e: Step)
      requires Valid() && RescueEnabled(st, e)
      modifies `st, `states, `steps
      ensures Valid() && st == RescueApply(old(st), e) && steps == old(steps) + [e]
    {
      Do(e);
    }

    method DoKill(e: Step)
      requires Valid() && KillEnabled(st, e)
      modifies `st, `states, `steps
      ensures Valid() && st == KillApply(old(st), e) && steps == old(steps) + [e]
    {
      Do(e);
    }

    method DoServe(e: Step)
      requires Valid() && ServeEnabled(st, e)
      modifies `st, `states, `steps
      ensures Valid() && st == ServeApply(old(st), e) && steps == old(steps) + [e]
    {
      Do(e);
    }

    method DoClean(e: Step)
      requires Valid() && CleanEnabled(st, e)
      modifies `st, `states, `steps
      ensures Valid() && st == CleanApply(old(st), e) && steps == old(steps) + [e]
    {
      Do(e);
    }

    /** Any number of steps of everyone but the source. */
    method OthersAct()
      requires Valid()
      modifies `st, `states, `steps
      ensures Valid() && st.spc == old(st.spc) && st.begun == old(st.begun)
      ensures NoneGained(old(st.vols), st.vols, SRC) && old(steps) <= steps
    {
      var n: nat := *;
      while n > 0
        invariant Valid() && st.spc == old(st.spc) && st.begun == old(st.begun)
        invariant NoneGained(old(st.vols), st.vols, SRC) && old(steps) <= steps
      {
        var e: Step := *;
        if ServeEnabled(st, e) || CleanEnabled(st, e) || WorldEnabled(st, e) {
          OthersKeepSource(st, e);
          Do(e);
        }
        n := n - 1;
      }
    }

    /** Any number of steps of everyone but the target's server. */
    method ClientsAct()
      requires Valid()
      modifies `st, `states, `steps
      ensures Valid() && st.tpc == old(st.tpc) && st.finished == old(st.finished)
      ensures NoneGained(old(st.vols), st.vols, TGT) && old(steps) <= steps
    {
      var n: nat := *;
      while n > 0
        invariant Valid() && st.tpc == old(st.tpc) && st.finished == old(st.finished)
        invariant NoneGained(old(st.vols), st.vols, TGT) && old(steps) <= steps
      {
        var e: Step := *;
        if HandoverEnabled(st, e) || RescueEnabled(st, e) || KillEnabled(st, e) || WorldEnabled(st, e) {
          ClientsKeepServer(st, e);
          Do(e);
        }
        n := n - 1;
      }
    }
  }

  lemma ServeKeepsSource(s: State, e: Step)
    requires ServeEnabled(s, e)
    ensures var t := ServeApply(s, e); t.spc == s.spc && t.begun == s.begun && NoneGained(s.vols, t.vols, SRC)
  {
    if e.TLock? || e.TLockUnseen? {
      assert ServeApply(s, e).vols == s.vols[e.d := e.after];
    } else {
      assert ServeApply(s, e).vols == s.vols;
    }
  }

  lemma OthersKeepSource(s: State, e: Step)
    requires ServeEnabled(s, e) || CleanEnabled(s, e) || WorldEnabled(s, e)
    ensures var t := Apply(s, e); t.spc == s.spc && t.begun == s.begun && NoneGained(s.vols, t.vols, SRC)
  {
    if ServeEnabled(s, e) {
      ServeKeepsSource(s, e);
    }
  }

  lemma HandoverKeepsServer(s: State, e: Step)
    requires HandoverEnabled(s, e)
    ensures var t := HandoverApply(s, e); t.tpc == s.tpc && t.finished == s.finished && NoneGained(s.vols, t.vols, TGT)
  {
  }

  lemma ClientsKeepServer(s: State, e: Step)
    requires HandoverEnabled(s, e) || RescueEnabled(s, e) || KillEnabled(s, e) || WorldEnabled(s, e)
    ensures var t := Apply(s, e); t.tpc == s.tpc && t.finished == s.finished && NoneGained(s.vols, t.vols, TGT)
  {
    if HandoverEnabled(s, e) {
      HandoverKeepsServer(s, e);
    }
  }

  /** One `Volume.lock` call, as an outcome and the lock it leaves. */
  method LockCall(h: Host, a: ImageLock) returns (l: LockOutcome, after: ImageLock)
    ensures LockStep(h, a, l, after)
  {
    l, after := LockRaised, a;
    var works: bool, effect: bool := *, *;
    if works && a.owner == Some(h) {
      l := Reused;
    } else if works && a.owner == None {
      l, after := Acquired, ImageLock(Some(h), a.marked + {h});
    } else if effect && a.owner == None {
      after := ImageLock(Some(h), a.marked);
    }
  }

  /** One `Volume.unlock` call. */
  method UnlockCall(h: Host, a: ImageLock) returns (u: UnlockOutcome, after: ImageLock)
    ensures UnlockStep(h, a, u, after)
  {
    u, after := UnlockRaised, a;
    var works: bool, effect: bool := *, *;
    if works && !Removes(h, a) {
      u := Skipped;
    } else if works {
      u, after := Released, ImageLock(None, a.marked - {h});
    } else if effect && Removes(h, a) {
      u, after := ReplyLost, ImageLock(None, a.marked);
    }
  }
}
