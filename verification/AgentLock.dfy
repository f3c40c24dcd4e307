/** The re-entrant VM lock: the `locked` decorator around methods that call each other. */
module AgentLock {
  import opened Basics
  import opened FileLock

  type Pid = nat

  /** A call of a locked method: its mode, the locked calls its body makes in order, whether the body
  catches what those raise, and whether it raises at its end. */
  datatype Call = Call(blocking: bool, body: seq<Call>, catches: bool, raises: bool)

  /** `TempFail`: the call gave up with EX_TEMPFAIL, without running its body. */
  datatype Exit = Returns | Raises | TempFail

  /** Does the body raise, given that the lock is held? */
  predicate Raising(c: Call)
    decreases c, 1
  {
    c.raises || (!c.catches && AnyRaising(c.body))
  }

  predicate AnyRaising(cs: seq<Call>)
    decreases cs, 0
  {
    cs != [] && (Raising(cs[0]) || AnyRaising(cs[1..]))
  }

  /** The calls whose bodies a call runs, in the order in which they end, given that the lock is held: calls
  after an uncaught exception do not happen. */
  function Ran(c: Call): (r: seq<Call>)
    ensures |r| > 0 && r[|r| - 1] == c
    decreases c, 1
  {
    RanOf(c.body, c.catches) + [c]
  }

  function RanOf(cs: seq<Call>, catches: bool): seq<Call>
    decreases cs, 0
  {
    if cs == [] then []
    else Ran(cs[0]) + if Raising(cs[0]) && !catches then [] else RanOf(cs[1..], catches)
  }

  /** A body that has ended: was the lock held at its start and at its end? */
  datatype Ended = Ended(call: Call, heldAtStart: bool, heldAtEnd: bool)

  /** The bodies that ended from `before` to `after` are these calls', and ran under the lock. */
  predicate AllHeld(before: seq<Ended>, after: seq<Ended>, calls: seq<Call>) {
    && |after| == |before| + |calls| && after[..|before|] == before
    && forall i :: 0 <= i < |calls| ==> after[|before| + i] == Ended(calls[i], true, true)
  }

  lemma HeldOn(a: seq<Ended>, b: seq<Ended>, c: seq<Ended>, x: seq<Call>, y: seq<Call>)
    requires AllHeld(a, b, x) && AllHeld(b, c, y)
    ensures AllHeld(a, c, x + y)
  {
    assert forall i :: 0 <= i < |b| ==> c[i] == c[..|b|][i];
  }

  /** The call at `k`, and those after it. */
  lemma FromCall(cs: seq<Call>, k: nat, catches: bool)
    requires k < |cs|
    ensures RanOf(cs[k..], catches) == Ran(cs[k]) + if Raising(cs[k]) && !catches then [] else RanOf(cs[k + 1..], catches)
    ensures AnyRaising(cs[k..]) <==> Raising(cs[k]) || AnyRaising(cs[k + 1..])
  {
    assert cs[k..][0] == cs[k] && cs[k..][1..] == cs[k + 1..];
  }

  lemma NothingYet(c: Call, bodies: seq<Ended>)
    ensures AllHeld(bodies, bodies, []) && c.body[0..] == c.body
    ensures [] + RanOf(c.body, c.catches) == RanOf(c.body, c.catches)
  {
  }

  lemma LastBody(c: Call, a: seq<Ended>, b: seq<Ended>, d: seq<Ended>, calls: seq<Call>, k: nat)
    requires AllHeld(a, b, calls) && d == b + [Ended(c, true, true)] && k <= |c.body|
    requires calls == RanOf(c.body, c.catches) || (k == |c.body| && calls + RanOf(c.body[k..], c.catches) == RanOf(c.body, c.catches))
    ensures AllHeld(a, d, Ran(c)) && (k == |c.body| ==> !AnyRaising(c.body[k..]))
  {
    assert c.body[|c.body|..] == [];
    assert calls + [] == calls;
    assert AllHeld(b, d, [c]);
    HeldOn(a, b, d, calls, [c]);
  }

  class Agent {
    const me: Pid
    const file: LockFile<Pid>
    var lockCount: int
    var fdOpen: bool
    ghost var bodies: seq<Ended>
    /** How often the lock was given back and its descriptor closed. */
    ghost var closes: nat

    /** The lock is held exactly while the counter is positive. */
    ghost predicate Valid()
      reads this, file
    {
      && lockCount >= 0
      && (lockCount > 0 <==> file.holder == Some(me))
      && (lockCount > 0 ==> fdOpen)
    }

    constructor (me: Pid, file: LockFile<Pid>)
      requires file.holder != Some(me)
      ensures this.me == me && this.file == file && Valid() && lockCount == 0
    {
      this.me, this.file := me, file;
      lockCount, fdOpen := 0, false;
      bodies, closes := [], 0;
    }

    /** `locked_func`. Whatever the bodies raise and whichever non-blocking calls give up: the counter is
    back at its entry value, the bodies of the call and of those within it ran, each under the lock from start
    to end, and the lock is given back once per outermost call that got it, by no other. A call gives up only
    to another that has the lock; one within another cannot give up. */
    method Locked(c: Call) returns (r: Exit)
      requires Valid()
      modifies this, file
      ensures Valid() && lockCount == old(lockCount)
      ensures r == TempFail ==> !c.blocking && old(lockCount) == 0 && closes == old(closes) && bodies == old(bodies) && fdOpen
      ensures r == TempFail ==> file.holder.Some? && file.holder != Some(me)
      ensures r != TempFail ==> r == (if Raising(c) then Raises else Returns) && AllHeld(old(bodies), bodies, Ran(c))
      ensures old(lockCount) > 0 ==> closes == old(closes)
      ensures old(lockCount) == 0 && r != TempFail ==> closes == old(closes) + 1 && !fdOpen
      decreases c, 1
    {
      if !fdOpen {
        fdOpen := true;
      }
      var got := file.Lock(me, c.blocking);
      if !got { return TempFail; }
      lockCount := lockCount + 1;
      r := Body(c);
      lockCount := lockCount - 1;
      if lockCount == 0 {
        file.Unlock(me);
        fdOpen := false;
        closes := closes + 1;
      }
    }

    /** The decorated method itself. */
    method Body(c: Call) returns (r: Exit)
      requires Valid() && lockCount > 0
      modifies this, file
      ensures Valid() && lockCount == old(lockCount) && closes == old(closes)
      ensures r == (if Raising(c) then Raises else Returns) && AllHeld(old(bodies), bodies, Ran(c))
      decreases c, 0
    {
      hide AllHeld, RanOf, AnyRaising, Ran;
      ghost var heldAtStart := file.holder == Some(me);
      ghost var calls: seq<Call> := [];
      NothingYet(c, bodies);
      var raised := false;
      var k := 0;
      while k < |c.body| && !raised
        invariant 0 <= k <= |c.body| && Valid() && lockCount == old(lockCount) && closes == old(closes)
        invariant AllHeld(old(bodies), bodies, calls)
        invariant raised ==> !c.catches && AnyRaising(c.body) && calls == RanOf(c.body, c.catches)
        invariant !raised ==>
            && calls + RanOf(c.body[k..], c.catches) == RanOf(c.body, c.catches)
            && (c.catches || (AnyRaising(c.body) <==> AnyRaising(c.body[k..])))
      {
        file.OthersAct(me);
        ghost var before := bodies;
        var inner := Locked(c.body[k]);
        HeldOn(old(bodies), before, bodies, calls, Ran(c.body[k]));
        calls := calls + Ran(c.body[k]);
        FromCall(c.body, k, c.catches);
        raised := inner == Raises && !c.catches;
        k := k + 1;
      }
      file.OthersAct(me);
      ghost var before := bodies;
      bodies := bodies + [Ended(c, heldAtStart, file.holder == Some(me))];
      LastBody(c, old(bodies), before, bodies, calls, k);
      r := if raised || c.raises then Raises else Returns;
    }
  }
}
