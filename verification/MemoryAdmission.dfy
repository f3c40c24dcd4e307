/** Admission of VM starts by booked memory, under the host's global lock.

Starts and in-migrations of any number of VMs run concurrently; each checks and spawns under the lock.
A spawned qemu may, in principle, become visible to later checks only after the lock was released. */
module MemoryAdmission {
  import opened Basics
  import opened Runs

  type Pid = nat

  // ------------------------------------------------------------------------- counting and checking

  /** A process as seen by `psutil`: gone meanwhile, no VM, or a VM with its first `-m` argument. */
  datatype Process = Gone | NoVm | Vm(memory: Option<nat>)

  /** What the VMs in a list of processes book, if each of them tells its memory. */
  function Booked(procs: seq<Process>, overhead: nat): Option<nat> {
    if procs == [] then Some(0)
    else
      var rest := Booked(procs[..|procs| - 1], overhead);
      var p := procs[|procs| - 1];
      if !p.Vm? || rest == None then rest
      else if p.memory == None then None
      else Some(rest.value + p.memory.value + overhead)
  }

  /** `_current_vms_booked_memory`; `None` stands for its exception. */
  method CurrentVmsBookedMemory(procs: seq<Process>, overhead: nat) returns (total: Option<nat>)
    ensures total == Booked(procs, overhead)
    ensures total == None <==> Vm(None) in procs
  {
    var sum := 0;
    var k := 0;
    while k < |procs|
      invariant 0 <= k <= |procs| && Booked(procs[..k], overhead) == Some(sum) && Vm(None) !in procs[..k]
    {
      assert procs[..k + 1][..k] == procs[..k];
      if procs[k].Vm? {
        if procs[k].memory == None {
          BookedStaysNone(procs, k + 1, overhead);
          return None;
        }
        sum := sum + procs[k].memory.value + overhead;
      }
      k := k + 1;
    }
    assert procs[..k] == procs;
    total := Some(sum);
  }

  lemma {:induction false} BookedStaysNone(procs: seq<Process>, k: nat, overhead: nat)
    requires k <= |procs| && Booked(procs[..k], overhead) == None
    ensures Booked(procs, overhead) == None
    decreases |procs| - k
  {
    if k < |procs| {
      assert procs[..k + 1][..k] == procs[..k];
      BookedStaysNone(procs, k + 1, overhead);
    } else {
      assert procs[..k] == procs;
    }
  }

  /** `_verify_memory` passes; a limit of 0 means none is configured. */
  predicate Admits(limit: nat, booked: int, available: int, required: int) {
    (limit == 0 || limit - booked >= required) && available >= required
  }

  /** An element of qemu's argument list: the memory flag, or anything else. */
  datatype Arg = MemoryFlag(mib: nat) | OtherArg

  /** The flag a running VM is counted by: the first. */
  function FirstFlag(args: seq<Arg>): Option<nat> {
    if args == [] then None
    else if args[0].MemoryFlag? then Some(args[0].mib)
    else FirstFlag(args[1..])
  }

  function LastFlag(args: seq<Arg>): Option<nat> {
    if args == [] then None
    else if args[|args| - 1].MemoryFlag? then Some(args[|args| - 1].mib)
    else LastFlag(args[..|args| - 1])
  }

  /** `prepare_incoming` checks an in-migrating VM by its last memory flag, falling back to the local
  configuration. What is checked is what will be counted exactly if the first and the last flag agree. */
  method CheckedMemory(args: seq<Arg>, configured: nat) returns (memory: nat)
    ensures FirstFlag(args) == None <==> forall i :: 0 <= i < |args| ==> !args[i].MemoryFlag?
    ensures FirstFlag(args) == None ==> memory == configured
    ensures FirstFlag(args).Some? ==> (FirstFlag(args).value == memory <==> FirstFlag(args) == LastFlag(args))
  {
    memory := configured;
    var k := 0;
    ghost var found: Option<nat> := None;
    while k < |args|
      invariant 0 <= k <= |args|
      invariant LastFlag(args[..k]) == if found == None then None else Some(memory)
      invariant found == None ==> memory == configured && forall i :: 0 <= i < k ==> !args[i].MemoryFlag?
      invariant found.Some? ==> found.value < k && args[found.value].MemoryFlag?
    {
      assert args[..k + 1][..k] == args[..k];
      if args[k].MemoryFlag? {
        memory := args[k].mib;
        found := Some(k);
      }
      k := k + 1;
    }
    assert args[..k] == args;
    if found.Some? {
      FlagIsFound(args, found.value);
    } else {
      NoFlag(args);
    }
  }

  lemma {:induction false} FlagIsFound(args: seq<Arg>, k: nat)
    requires k < |args| && args[k].MemoryFlag?
    ensures FirstFlag(args).Some?
    ensures (forall i :: 0 <= i < k ==> !args[i].MemoryFlag?) ==> FirstFlag(args) == Some(args[k].mib)
  {
    if k > 0 {
      FlagIsFound(args[1..], k - 1);
    }
  }

  lemma {:induction false} NoFlag(args: seq<Arg>)
    requires forall i :: 0 <= i < |args| ==> !args[i].MemoryFlag?
    ensures FirstFlag(args) == None
  {
    if args != [] {
      NoFlag(args[1..]);
    }
  }

  // --------------------------------------------------------------------------------- the protocol

  datatype Pc = Waiting | Locked | Verified | Spawned | Ended

  /** `memory`: what the start is checked and, once spawned, counted with. */
  datatype Start = Start(memory: nat, pc: Pc)

  /** `visible` and `hidden`: the memory of each qemu process, by whether a process listing shows it.
  `overbooked`: some start was admitted although, with the hidden processes, it did not fit the limit. */
  datatype State = State(
    limit: nat, overhead: nat, visible: seq<nat>, hidden: seq<nat>, lock: Option<Pid>, starts: map<Pid, Start>,
    overbooked: bool)

  datatype Step =
    | Begin(p: Pid, memory: nat) | Lock(p: Pid) | Verify(p: Pid, available: int)
    | Spawn(p: Pid, shown: bool) | SpawnFails(p: Pid) | Unlock(p: Pid)
    | Appears(i: nat) | Exits(i: nat) | HiddenExits(i: nat)

  function Sum(memories: seq<nat>, overhead: nat): nat {
    if memories == [] then 0
    else Sum(memories[..|memories| - 1], overhead) + memories[|memories| - 1] + overhead
  }

  function Without(s: seq<nat>, i: nat): seq<nat>
    requires i < |s|
  {
    s[..i] + s[i + 1..]
  }

  predicate At(s: State, p: Pid, pc: Pc) {
    p in s.starts && s.starts[p].pc == pc
  }

  predicate Enabled(s: State, e: Step) {
    match e
    case Begin(p, _) => p !in s.starts
    case Lock(p) => At(s, p, Waiting) && s.lock == None
    case Verify(p, _) => At(s, p, Locked)
    case Spawn(p, _) => At(s, p, Verified)
    case SpawnFails(p) => At(s, p, Verified)
    case Unlock(p) => At(s, p, Spawned)
    case Appears(i) => i < |s.hidden|
    case Exits(i) => i < |s.visible|
    case HiddenExits(i) => i < |s.hidden|
  }

  function To(s: State, p: Pid, pc: Pc): State
    requires p in s.starts
  {
    s.(starts := s.starts[p := s.starts[p].(pc := pc)])
  }

  function Used(s: State): nat {
    Sum(s.visible, s.overhead) + Sum(s.hidden, s.overhead)
  }

  function Apply(s: State, e: Step): State
    requires Enabled(s, e)
  {
    match e
    case Begin(p, memory) => s.(starts := s.starts[p := Start(memory, Waiting)])
    case Lock(p) => To(s.(lock := Some(p)), p, Locked)
    case Verify(p, available) =>
      var required := s.starts[p].memory + s.overhead;
      if Admits(s.limit, Sum(s.visible, s.overhead), available, required) then
        To(s.(overbooked := s.overbooked || (s.limit > 0 && Used(s) + required > s.limit)), p, Verified)
      else To(s.(lock := None), p, Ended)
    case Spawn(p, shown) =>
      var m := s.starts[p].memory;
      To(if shown then s.(visible := s.visible + [m]) else s.(hidden := s.hidden + [m]), p, Spawned)
    case SpawnFails(p) => To(s, p, Spawned)
    case Unlock(p) => To(s.(lock := None), p, Ended)
    case Appears(i) => s.(hidden := Without(s.hidden, i), visible := s.visible + [s.hidden[i]])
    case Exits(i) => s.(visible := Without(s.visible, i))
    case HiddenExits(i) => s.(hidden := Without(s.hidden, i))
  }

  predicate Next(s: State, e: Step, t: State) {
    Enabled(s, e) && t == Apply(s, e)
  }

  predicate Init(s: State) {
    && s.hidden == [] && s.lock == None && s.starts == map[] && !s.overbooked
    && (s.limit > 0 ==> Sum(s.visible, s.overhead) <= s.limit)
  }

  predicate IsRun(states: seq<State>, steps: seq<Step>) {
    && |states| == |steps| + 1
    && forall i :: 0 <= i < |steps| ==> Next(states[i], steps[i], states[i + 1])
  }

  predicate InSection(r: Start) {
    r.pc.Locked? || r.pc.Verified? || r.pc.Spawned?
  }

  ghost predicate LockInv(s: State) {
    forall p :: s.lock == Some(p) <==> p in s.starts && InSection(s.starts[p])
  }

  /** What an admitted start is about to add. */
  function Reserved(s: State): nat {
    if s.lock.Some? && At(s, s.lock.value, Verified) then s.starts[s.lock.value].memory + s.overhead else 0
  }

  ghost predicate Inv(s: State) {
    LockInv(s) && (s.limit > 0 && !s.overbooked ==> Used(s) + Reserved(s) <= s.limit)
  }

  /** The memories of the VMs in a process listing. */
  function MemoriesOf(procs: seq<Process>): seq<nat> {
    if procs == [] then []
    else
      var p := procs[|procs| - 1];
      MemoriesOf(procs[..|procs| - 1]) + if p.Vm? && p.memory.Some? then [p.memory.value] else []
  }

  /** What the code counts in a listing is the protocol's sum over its VMs. */
  lemma {:induction false} BookedIsSum(procs: seq<Process>, overhead: nat)
    requires Vm(None) !in procs
    ensures Booked(procs, overhead) == Some(Sum(MemoriesOf(procs), overhead))
  {
    if procs != [] {
      var front, p := procs[..|procs| - 1], procs[|procs| - 1];
      BookedIsSum(front, overhead);
      assert MemoriesOf(front) + [] == MemoriesOf(front);
      if p.Vm? {
        assert p in procs;
        SumGrows(MemoriesOf(front), p.memory.value, overhead);
      }
    }
  }

  lemma SumGrows(s: seq<nat>, m: nat, overhead: nat)
    ensures Sum(s + [m], overhead) == Sum(s, overhead) + m + overhead
  {
    assert (s + [m])[..|s|] == s;
  }

  /** There is room for one more VM: with it listed too, what is booked stays within the limit, if one is
  configured, and the host has that much memory available. */
  predicate Fits(memories: seq<nat>, limit: nat, overhead: nat, available: int, memory: nat) {
    (limit == 0 || Sum(memories + [memory], overhead) <= limit) && memory + overhead <= available
  }

  lemma AdmitsWhatFits(memories: seq<nat>, limit: nat, overhead: nat, available: int, memory: nat)
    ensures Admits(limit, Sum(memories, overhead), available, memory + overhead)
            <==> Fits(memories, limit, overhead, available, memory)
  {
    SumGrows(memories, memory, overhead);
  }

  /** `_verify_memory`: passes exactly if every VM in the listing tells its memory and there is room. */
  method VerifyMemory(procs: seq<Process>, limit: nat, overhead: nat, available: int, memory: nat) returns (o: Outcome)
    ensures o == Returned <==> Vm(None) !in procs && Fits(MemoriesOf(procs), limit, overhead, available, memory)
  {
    var booked := CurrentVmsBookedMemory(procs, overhead);
    if booked == None { return Raised; }
    BookedIsSum(procs, overhead);
    AdmitsWhatFits(MemoriesOf(procs), limit, overhead, available, memory);
    return if Admits(limit, booked.value, available, memory + overhead) then Returned else Raised;
  }

  /** A check in the protocol lets the start pass exactly if it fits; else the start is over and the lock free. */
  lemma CheckedExactly(s: State, p: Pid, available: int, t: State)
    requires Next(s, Verify(p, available), t)
    ensures p in t.starts && t.visible == s.visible && t.hidden == s.hidden
    ensures if Fits(s.visible, s.limit, s.overhead, available, s.starts[p].memory)
            then t.starts[p].pc == Verified && t.lock == s.lock
            else t.starts[p].pc == Ended && t.lock == None
  {
    AdmitsWhatFits(s.visible, s.limit, s.overhead, available, s.starts[p].memory);
  }

  lemma {:induction false} SumWithout(s: seq<nat>, i: nat, overhead: nat)
    requires i < |s|
    ensures Sum(Without(s, i), overhead) + s[i] + overhead == Sum(s, overhead)
  {
    var n := |s| - 1;
    if i == n {
      assert Without(s, i) == s[..n];
    } else {
      SumWithout(s[..n], i, overhead);
      assert Without(s, i) == Without(s[..n], i) + [s[n]];
      SumGrows(Without(s[..n], i), s[n], overhead);
    }
  }

  lemma NextKeepsLock(s: State, e: Step, t: State)
    requires LockInv(s) && Next(s, e, t)
    ensures LockInv(t)
  {
  }

  lemma NextKeepsBound(s: State, e: Step, t: State)
    requires Inv(s) && Next(s, e, t) && s.limit > 0 && !t.overbooked
    ensures Used(t) + Reserved(t) <= s.limit
  {
    hide Sum;
    match e
    case Spawn(p, shown) =>
      assert s.lock == Some(p);
      SumGrows(if shown then s.visible else s.hidden, s.starts[p].memory, s.overhead);
    case Appears(i) =>
      SumWithout(s.hidden, i, s.overhead);
      SumGrows(s.visible, s.hidden[i], s.overhead);
    case Exits(i) => SumWithout(s.visible, i, s.overhead);
    case HiddenExits(i) => SumWithout(s.hidden, i, s.overhead);
    case Verify(p, _) =>
      assert s.lock == Some(p);
    case _ =>
  }

  lemma NextKeepsInv(s: State, e: Step, t: State)
    requires Inv(s) && Next(s, e, t)
    ensures Inv(t) && t.limit == s.limit
  {
    NextKeepsLock(s, e, t);
    if s.limit > 0 && !t.overbooked {
      NextKeepsBound(s, e, t);
    }
  }

  lemma {:induction false} RunKeepsInv(states: seq<State>, steps: seq<Step>, i: nat)
    requires IsRun(states, steps) && Init(states[0]) && i < |states|
    ensures Inv(states[i]) && states[i].limit == states[0].limit
  {
    if i > 0 {
      RunKeepsInv(states, steps, i - 1);
      assert Next(states[i - 1], steps[i - 1], states[i]);
      NextKeepsInv(states[i - 1], steps[i - 1], states[i]);
    }
  }

  predicate WithinLimit(s: State) {
    s.limit > 0 ==> Used(s) + Reserved(s) <= s.limit
  }

  lemma OverbookedStays(s: State, e: Step, t: State)
    requires Inv(s) && Next(s, e, t) && t.limit > 0
    ensures s.overbooked ==> t.overbooked
    ensures !s.overbooked && t.overbooked ==> !WithinLimit(t)
  {
    if e.Verify? {
      assert s.lock == Some(e.p);
    }
  }

  lemma {:induction false} OverbookedExactly(states: seq<State>, steps: seq<Step>, i: nat)
    requires IsRun(states, steps) && Init(states[0]) && i < |states|
    requires states[0].limit > 0
    ensures states[i].overbooked <==> exists j :: 0 <= j <= i && !WithinLimit(states[j])
  {
    RunKeepsInv(states, steps, i);
    if i > 0 {
      OverbookedExactly(states, steps, i - 1);
      RunKeepsInv(states, steps, i - 1);
      assert Next(states[i - 1], steps[i - 1], states[i]);
      OverbookedStays(states[i - 1], steps[i - 1], states[i]);
    }
  }

  /** In every interleaving, the memory of all VMs and of the start just admitted, those not yet listed
  included, has stayed within a configured limit if and only if no start was admitted that did not fit
  together with the hidden processes. */
  lemma LimitIsKept(states: seq<State>, steps: seq<Step>, i: nat)
    requires IsRun(states, steps) && Init(states[0]) && i < |states|
    requires states[0].limit > 0
    ensures !states[i].overbooked <==> forall j :: 0 <= j <= i ==> Used(states[j]) + Reserved(states[j]) <= states[0].limit
    ensures !states[i].overbooked ==> Used(states[i]) <= states[0].limit
  {
    OverbookedExactly(states, steps, i);
    forall j | 0 <= j <= i
      ensures WithinLimit(states[j]) <==> Used(states[j]) + Reserved(states[j]) <= states[0].limit
    {
      RunKeepsInv(states, steps, j);
    }
  }

  /** In particular whenever every spawn is visible by the time it returns. */
  lemma {:induction false} VisibleSpawnsKeepLimit(states: seq<State>, steps: seq<Step>, i: nat)
    requires IsRun(states, steps) && Init(states[0]) && i < |states|
    requires states[0].limit > 0
    requires forall j :: 0 <= j < |steps| ==> steps[j].Spawn? ==> steps[j].shown
    ensures states[i].hidden == [] && !states[i].overbooked && Used(states[i]) <= states[0].limit
  {
    if i > 0 {
      VisibleSpawnsKeepLimit(states, steps, i - 1);
      assert Next(states[i - 1], steps[i - 1], states[i]);
    }
    LimitIsKept(states, steps, i);
  }

  /** What a step adds to the memory in use, or gives back. */
  function Change(s: State, e: Step): int
    requires Enabled(s, e)
  {
    match e
    case Spawn(p, _) => s.starts[p].memory + s.overhead
    case Exits(i) => -(s.visible[i] + s.overhead)
    case HiddenExits(i) => -(s.hidden[i] + s.overhead)
    case _ => 0
  }

  lemma StepChangesUsed(s: State, e: Step, t: State)
    requires Next(s, e, t)
    ensures Used(t) == Used(s) + Change(s, e) && t.overhead == s.overhead
  {
    hide Sum;
    match e
    case Spawn(p, shown) => SumGrows(if shown then s.visible else s.hidden, s.starts[p].memory, s.overhead);
    case Appears(i) =>
      SumWithout(s.hidden, i, s.overhead);
      SumGrows(s.visible, s.hidden[i], s.overhead);
    case Exits(i) => SumWithout(s.visible, i, s.overhead);
    case HiddenExits(i) => SumWithout(s.hidden, i, s.overhead);
    case _ =>
  }

  function Balance(states: seq<State>, steps: seq<Step>, i: nat): int
    requires IsRun(states, steps) && i < |states|
  {
    if i == 0 then 0
    else
      assert Next(states[i - 1], steps[i - 1], states[i]);
      Balance(states, steps, i - 1) + Change(states[i - 1], steps[i - 1])
  }

  /** Memory is conserved: what is in use is what was at the start, and what the processes spawned since were
  checked with, less what those that ended had. */
  lemma {:induction false} UsedIsBalance(states: seq<State>, steps: seq<Step>, i: nat)
    requires IsRun(states, steps) && i < |states|
    ensures Used(states[i]) == Used(states[0]) + Balance(states, steps, i)
  {
    hide Used;
    if i > 0 {
      UsedIsBalance(states, steps, i - 1);
      StepChangesUsed(states[i - 1], steps[i - 1], states[i]);
    }
  }

  // ------------------------------------------------------------------------- no start waits for ever

  lemma LockIsReleased(s: State, p: Pid) returns (t: State)
    requires Inv(s) && At(s, p, Waiting)
    ensures Leads(Next, s, t) && Inv(t) && t.lock == None && At(t, p, Waiting) && SameFor(s, t, p)
  {
    hide Sum, Fits;
    t := s;
    LeadsToItself<State, Step>(Next, s);
    if s.lock.Some? {
      var h := s.lock.value;
      assert s.lock == Some(h);
      assert h in s.starts && InSection(s.starts[h]);
      if At(s, h, Locked) {
        t := CheckRefuses(s, h, p);
      } else {
        var a := s;
        if At(s, h, Verified) {
          a := Apply(s, SpawnFails(h));
          NextKeepsInv(s, SpawnFails(h), a);
          LeadsByStep(Next, s, SpawnFails(h), a);
        }
        t := Apply(a, Unlock(h));
        NextKeepsInv(a, Unlock(h), t);
        LeadsByStep(Next, a, Unlock(h), t);
        LeadsOn(Next, s, a, t);
      }
    }
  }

  predicate SameFor(s: State, t: State, p: Pid) {
    && p in s.starts && p in t.starts && t.starts[p] == s.starts[p]
    && t.limit == s.limit && t.overhead == s.overhead
  }

  /** A check with nothing available ends the start that has the lock. */
  lemma CheckRefuses(s: State, h: Pid, p: Pid) returns (t: State)
    requires Inv(s) && At(s, h, Locked) && At(s, p, Waiting)
    ensures Leads(Next, s, t) && Inv(t) && t.lock == None && At(t, p, Waiting) && SameFor(s, t, p)
  {
    t := Apply(s, Verify(h, -1));
    CheckedExactly(s, h, -1, t);
    NextKeepsInv(s, Verify(h, -1), t);
    LeadsByStep(Next, s, Verify(h, -1), t);
  }

  lemma {:induction false} AllExit(s: State, p: Pid) returns (t: State)
    requires Inv(s) && At(s, p, Waiting) && s.lock == None
    ensures Leads(Next, s, t) && Inv(t) && t.lock == None && At(t, p, Waiting) && t.visible == [] && SameFor(s, t, p)
    decreases |s.visible|
  {
    hide Leads, Inv;
    if s.visible == [] {
      t := s;
      LeadsToItself<State, Step>(Next, s);
    } else {
      var a := Apply(s, Exits(0));
      NextKeepsInv(s, Exits(0), a);
      LeadsByStep(Next, s, Exits(0), a);
      t := AllExit(a, p);
      LeadsOn(Next, s, a, t);
    }
  }

  lemma SpawnsAlone(s: State, p: Pid) returns (t: State)
    requires At(s, p, Waiting) && s.lock == None && s.visible == []
    requires s.limit == 0 || s.starts[p].memory + s.overhead <= s.limit
    ensures Leads(Next, s, t) && At(t, p, Spawned)
  {
    var memory := s.starts[p].memory;
    var a := Apply(s, Lock(p));
    LeadsByStep(Next, s, Lock(p), a);
    var e := Verify(p, memory + s.overhead);
    var b := Apply(a, e);
    LeadsByStep(Next, a, e, b);
    SumGrows([], memory, s.overhead);
    CheckedExactly(a, p, memory + s.overhead, b);
    t := Apply(b, Spawn(p, true));
    LeadsByStep(Next, b, Spawn(p, true), t);
    LeadsOn(Next, s, a, b);
    LeadsOn(Next, s, b, t);
  }

  /** The start alone is beyond the limit, and has not passed its check. */
  predicate TooBig(s: State, p: Pid) {
    && p in s.starts && s.limit > 0 && s.starts[p].memory + s.overhead > s.limit
    && (s.starts[p].pc == Waiting || s.starts[p].pc == Locked || s.starts[p].pc == Ended)
  }

  lemma StaysTooBig(s: State, e: Step, t: State, p: Pid)
    requires TooBig(s, p) && Next(s, e, t)
    ensures TooBig(t, p)
  {
    hide Sum;
    if e.Verify? && e.p == p {
      CheckedExactly(s, p, e.available, t);
      SumGrows(s.visible, s.starts[p].memory, s.overhead);
    }
  }

  lemma {:induction false} PathStaysTooBig(states: seq<State>, steps: seq<Step>, p: Pid, i: nat)
    requires IsPath(Next, states, steps) && i < |states| && TooBig(states[0], p)
    ensures TooBig(states[i], p)
  {
    if i > 0 {
      PathStaysTooBig(states, steps, p, i - 1);
      StaysTooBig(states[i - 1], steps[i - 1], states[i], p);
    }
  }

  ghost predicate CanSpawn(s: State, p: Pid) {
    exists t :: Leads(Next, s, t) && At(t, p, Spawned)
  }

  /** No start waits for ever: from every reachable state, whoever has the lock and whatever runs on the host, a
  waiting start can still get to its spawn if and only if no limit is configured or it is within it by itself. */
  lemma WaitingCanSpawn(states: seq<State>, steps: seq<Step>, i: nat, p: Pid)
    requires IsRun(states, steps) && Init(states[0]) && i < |states| && At(states[i], p, Waiting)
    ensures CanSpawn(states[i], p) <==>
              states[i].limit == 0 || states[i].starts[p].memory + states[i].overhead <= states[i].limit
  {
    var s := states[i];
    RunKeepsInv(states, steps, i);
    if s.limit == 0 || s.starts[p].memory + s.overhead <= s.limit {
      hide Leads, Inv;
      var a := LockIsReleased(s, p);
      var b := AllExit(a, p);
      var t := SpawnsAlone(b, p);
      LeadsOn(Next, s, a, b);
      LeadsOn(Next, s, b, t);
    } else {
      forall t | Leads(Next, s, t) ensures !At(t, p, Spawned) {
        var a: seq<State>, x: seq<Step> :| IsPath(Next, a, x) && a[0] == s && a[|x|] == t;
        PathStaysTooBig(a, x, p, |x|);
      }
    }
  }

  function Idle(): State {
    State(9, 0, [], [], None, map[], false)
  }

  lemma FirstAdmitted() returns (states: seq<State>, steps: seq<Step>)
    ensures IsRun(states, steps) && states[0] == Idle()
    ensures states[|steps|] == Idle().(lock := Some(1), starts := map[1 := Start(9, Verified)])
  {
    var s := Idle();
    states := [s, s.(starts := map[1 := Start(9, Waiting)]),
               s.(lock := Some(1), starts := map[1 := Start(9, Locked)]),
               s.(lock := Some(1), starts := map[1 := Start(9, Verified)])];
    steps := [Begin(1, 9), Lock(1), Verify(1, 9)];
  }

  lemma FirstStart() returns (states: seq<State>, steps: seq<Step>)
    ensures IsRun(states, steps) && states[0] == Idle()
    ensures states[|steps|] == Idle().(starts := map[1 := Start(9, Ended)], hidden := [9])
  {
    var s := Idle();
    var states1, steps1 := FirstAdmitted();
    var states2 := [s.(lock := Some(1), starts := map[1 := Start(9, Verified)]),
                    s.(lock := Some(1), starts := map[1 := Start(9, Spawned)], hidden := [9]),
                    s.(starts := map[1 := Start(9, Ended)], hidden := [9])];
    var steps2 := [Spawn(1, false), Unlock(1)];
    assert [] + [9] == [9];
    RunsJoin(states1, steps1, states2, steps2);
    states, steps := states1 + states2[1..], steps1 + steps2;
    assert states[0] == states1[0];
  }

  lemma SecondStart() returns (states: seq<State>, steps: seq<Step>)
    ensures IsRun(states, steps)
    ensures states[0] == Idle().(starts := map[1 := Start(9, Ended)], hidden := [9])
    ensures states[|steps|].visible == [9] && states[|steps|].hidden == [9] && states[|steps|].overhead == 0
  {
    var s, one := Idle().(hidden := [9]), Start(9, Ended);
    states := [s.(starts := map[1 := one]), s.(starts := map[1 := one, 2 := Start(9, Waiting)]),
               s.(lock := Some(2), starts := map[1 := one, 2 := Start(9, Locked)]),
               s.(lock := Some(2), starts := map[1 := one, 2 := Start(9, Verified)], overbooked := true),
               s.(lock := Some(2), starts := map[1 := one, 2 := Start(9, Spawned)], overbooked := true, visible := [9])];
    steps := [Begin(2, 9), Lock(2), Verify(2, 9), Spawn(2, true)];
  }

  /** One spawn that stays hidden past the lock's release lets a second start book the same memory. */
  lemma HiddenSpawnBreaksLimit() returns (states: seq<State>, steps: seq<Step>)
    ensures IsRun(states, steps) && Init(states[0]) && states[0].limit > 0
    ensures Used(states[|steps|]) > states[0].limit
  {
    var states1, steps1 := FirstStart();
    var states2, steps2 := SecondStart();
    RunsJoin(states1, steps1, states2, steps2);
    states, steps := states1 + states2[1..], steps1 + steps2;
    assert states[|steps|] == states2[|steps2|];
  }

  lemma RunsJoin(a: seq<State>, x: seq<Step>, b: seq<State>, y: seq<Step>)
    requires IsRun(a, x) && IsRun(b, y) && a[|x|] == b[0]
    ensures IsRun(a + b[1..], x + y) && (a + b[1..])[|x| + |y|] == b[|y|]
  {
    var states, steps := a + b[1..], x + y;
    forall i | 0 <= i < |steps| ensures Next(states[i], steps[i], states[i + 1]) {
      if i >= |x| {
        assert Next(b[i - |x|], y[i - |x|], b[i - |x| + 1]);
      }
    }
  }

  // ------------------------------------------------------------------------------------- the code

  /** The process a step is made by; qemu processes come and go on their own. */
  predicate MadeBy(e: Step, p: Pid) {
    match e
    case Appears(_) => false
    case Exits(_) => false
    case HiddenExits(_) => false
    case _ => e.p == p
  }

  predicate SpawnedBy(e: Step, p: Pid) {
    e.Spawn? && e.p == p
  }

  /** From the given point on, the process spawned once, at `b`, and had the lock up to then. */
  predicate SpawnsAt(states: seq<State>, steps: seq<Step>, from: nat, p: Pid, b: nat) {
    && |states| == |steps| + 1 && from <= b < |steps| && SpawnedBy(steps[b], p)
    && (forall i :: from <= i < |steps| && SpawnedBy(steps[i], p) ==> i == b)
    && forall i :: from <= i <= b ==> states[i].lock == Some(p)
  }

  /** The step is a check of the process that lets it pass, or one that does not. */
  predicate PassesCheck(s: State, e: Step, p: Pid) {
    && e.Verify? && e.p == p && p in s.starts
    && Fits(s.visible, s.limit, s.overhead, e.available, s.starts[p].memory)
  }

  predicate FailsCheck(s: State, e: Step, p: Pid) {
    && e.Verify? && e.p == p && p in s.starts
    && !Fits(s.visible, s.limit, s.overhead, e.available, s.starts[p].memory)
  }

  /** From the given point on, a check refused the process, or its spawn failed. */
  predicate RefusedSince(states: seq<State>, steps: seq<Step>, from: nat, p: Pid) {
    |states| == |steps| + 1
    && exists i :: from <= i < |steps| && (FailsCheck(states[i], steps[i], p) || steps[i] == SpawnFails(p))
  }

  /** From the given point on, the process made one check, which it passed, at `a`, and one spawn, at `b`, and had
  the lock from right after the one to the other. */
  predicate SpawnsOnce(states: seq<State>, steps: seq<Step>, from: nat, p: Pid, a: nat, b: nat) {
    && |states| == |steps| + 1 && from <= a < b < |steps|
    && PassesCheck(states[a], steps[a], p) && SpawnedBy(steps[b], p)
    && (forall i :: from <= i < |steps| && SpawnedBy(steps[i], p) ==> i == b)
    && forall i :: a < i <= b ==> states[i].lock == Some(p)
  }

  class World {
    var st: State
    ghost var states: seq<State>
    ghost var steps: seq<Step>

    ghost predicate Valid()
      reads this
    {
      |states| == |steps| + 1 && IsRun(states, steps) && Init(states[0]) && states[|steps|] == st
    }

    constructor (start: State)
      requires Init(start)
      ensures Valid() && st == start
    {
      st := start;
      states, steps := [start], [];
    }

    method Do(e: Step)
      requires Valid() && Enabled(st, e)
      modifies this
      ensures Valid() && st == Apply(old(st), e) && steps == old(steps) + [e] && states == old(states) + [st]
    {
      var t := Apply(st, e);
      ghost var states', steps' := states + [t], steps + [e];
      assert forall i :: 0 <= i < |steps'| ==> Next(states'[i], steps'[i], states'[i + 1]);
      st, states, steps := t, states', steps';
    }

    /** Any number of steps of others, through which this start stays where it is. */
    method OthersAct(me: Pid)
      requires Valid() && me in st.starts
      modifies this
      ensures Valid() && old(steps) <= steps && old(states) <= states
      ensures forall i :: |old(steps)| <= i < |steps| ==> !MadeBy(steps[i], me)
      ensures forall i :: |old(steps)| <= i <= |steps| ==> me in states[i].starts && states[i].starts[me] == old(st.starts[me])
    {
      var n: nat := *;
      while n > 0
        invariant Valid() && old(steps) <= steps && old(states) <= states
        invariant forall i :: |old(steps)| <= i < |steps| ==> !MadeBy(steps[i], me)
        invariant forall i :: |old(steps)| <= i <= |steps| ==> me in states[i].starts && states[i].starts[me] == old(st.starts[me])
      {
        var e: Step := *;
        if Enabled(st, e) && !MadeBy(e, me) {
          Do(e);
        }
        n := n - 1;
      }
    }

    /** `_start`, which waits for the global lock at most `waits` times here. It spawns at most one process,
    after a check that found room, and has the lock from the check to the spawn; it leaves the lock free of it.
    It ends without a spawn only if a check found no room or the spawn failed, and does not get to its check only
    if another has the lock. */
    method Start(me: Pid, memory: nat, waits: nat) returns (spawned: bool)
      requires Valid() && me !in st.starts
      modifies this
      ensures Valid() && me in st.starts && st.starts[me].memory == memory
      ensures st.starts[me].pc == Ended || (st.starts[me].pc == Waiting && !spawned)
      ensures st.lock != Some(me) && old(steps) <= steps
      ensures st.limit > 0 && !st.overbooked ==> Used(st) <= st.limit
      ensures if spawned then exists a, b :: SpawnsOnce(states, steps, |old(steps)|, me, a, b)
              else forall i :: |old(steps)| <= i < |steps| ==> !SpawnedBy(steps[i], me)
      ensures !spawned && st.starts[me].pc == Ended ==> RefusedSince(states, steps, |old(steps)|, me)
      ensures st.starts[me].pc == Waiting ==> st.lock.Some?
    {
      hide IsRun;
      spawned := false;
      Do(Begin(me, memory));
      OthersAct(me);
      var wait := 0;
      while st.lock != None && wait < waits
        invariant Valid() && me in st.starts && st.starts[me].memory == memory && At(st, me, Waiting)
        invariant old(steps) <= steps
        invariant forall i :: |old(steps)| <= i < |steps| ==> !SpawnedBy(steps[i], me)
        decreases waits - wait
      {
        OthersAct(me);
        wait := wait + 1;
      }
      if st.lock == None {
        ghost var from := |steps|;
        spawned := CheckAndSpawn(me);
        if spawned {
          ghost var a, b :| SpawnsOnce(states, steps, from, me, a, b);
          assert SpawnsOnce(states, steps, |old(steps)|, me, a, b);
        }
        assert !spawned ==> RefusedSince(states, steps, |old(steps)|, me);
      }
      RunKeepsInv(states, steps, |steps|);
    }

    /** The section under the lock. */
    method CheckAndSpawn(me: Pid) returns (spawned: bool)
      requires Valid() && At(st, me, Waiting) && st.lock == None
      modifies this
      ensures Valid() && me in st.starts && st.starts[me] == old(st.starts[me]).(pc := Ended)
      ensures old(steps) <= steps
      ensures if spawned then exists a, b :: SpawnsOnce(states, steps, |old(steps)|, me, a, b)
              else forall i :: |old(steps)| <= i < |steps| ==> !SpawnedBy(steps[i], me)
      ensures !spawned ==> RefusedSince(states, steps, |old(steps)|, me)
    {
      hide IsRun;
      Do(Lock(me));
      OthersAct(me);
      var available: int := *;
      ghost var a := |steps|;
      CheckedExactly(st, me, available, Apply(st, Verify(me, available)));
      assert states[a] == st;
      Do(Verify(me, available));
      if st.starts[me].pc == Ended {
        assert FailsCheck(states[a], steps[a], me);
        return false;
      }
      assert PassesCheck(states[a], steps[a], me);
      spawned := SpawnAndUnlock(me);
      if spawned {
        ghost var b :| SpawnsAt(states, steps, a + 1, me, b);
        assert SpawnsOnce(states, steps, |old(steps)|, me, a, b);
      }
    }

    /** The rest of the section, once the check has passed. */
    method SpawnAndUnlock(me: Pid) returns (spawned: bool)
      requires Valid() && At(st, me, Verified)
      modifies this
      ensures Valid() && me in st.starts && st.starts[me] == old(st.starts[me]).(pc := Ended)
      ensures old(steps) <= steps && old(states) <= states
      ensures if spawned then exists b :: SpawnsAt(states, steps, |old(steps)|, me, b)
              else forall i :: |old(steps)| <= i < |steps| ==> !SpawnedBy(steps[i], me)
      ensures !spawned ==> RefusedSince(states, steps, |old(steps)|, me)
    {
      hide IsRun;
      OthersAct(me);
      var shown: bool := *;
      spawned := *;
      ghost var b, from := |steps|, |old(steps)|;
      LockHeld(me, from, b);
      if spawned {
        Do(Spawn(me, shown));
      } else {
        Do(SpawnFails(me));
      }
      assert !spawned ==> steps[b] == SpawnFails(me);
      OthersAct(me);
      Do(Unlock(me));
      assert spawned ==> SpawnsAt(states, steps, from, me, b);
      assert !spawned ==> steps[b] == SpawnFails(me);
    }

    /** A start that is past its check has the lock. */
    lemma LockHeld(me: Pid, a: nat, b: nat)
      requires Valid() && a <= b < |states|
      requires forall i :: a <= i <= b ==> At(states[i], me, Verified)
      ensures forall i :: a <= i <= b ==> states[i].lock == Some(me)
    {
      forall i | a <= i <= b ensures states[i].lock == Some(me) {
        RunKeepsInv(states, steps, i);
      }
    }
  }
}
