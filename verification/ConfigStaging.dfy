/** Staging and activation of a VM's configuration, and the `ensure` loop, for any number of processes.

Consul events are staged by one process each, which may launch an `ensure`; `ensure` processes try the
VM lock without blocking and give up if it is taken; other commands take the VM lock too. Every section
under the staging file's lock is one step. */
module ConfigStaging {
  import opened Basics
  import opened Runs

  type Pid = nat

  /** Where an `ensure` is: before reading the active config, at the loop's test, at the lock, holding
  the lock before and after activation, or at its end. */
  datatype EnsurePc = Loading | Checking(force: bool) | Locking | Activating | Working | EnsureEnded

  datatype Proc =
    | Stager(event: nat, staged: bool, mustLaunch: bool, over: bool)
    | Ensure(generation: int, pc: EnsurePc)
    | Command(holds: bool, over: bool)

  /** Generations in the files; a staging file that is missing or unreadable is `None`, a missing active
  config has generation -1. `staged`: all events staged so far. `missed`, `crashed`: the last process on its
  way to look at news gave up because a command other than `ensure` had the lock, or ended outside its
  normal ways, with the news not yet active. */
  datatype State = State(
    staging: Option<nat>, active: int, vmLock: Option<Pid>, procs: map<Pid, Proc>,
    staged: set<nat>, missed: bool, crashed: bool)

  datatype WorkEnd = Returns | ConfigChanged | EnvironmentChanged | RaisesOther

  datatype Step =
    | Event(p: Pid, event: nat) | Stage(p: Pid) | Launch(p: Pid, child: Pid)
    | Spawn(p: Pid) | Load(p: Pid) | Check(p: Pid) | TryLock(p: Pid) | Activate(p: Pid) | Finish(p: Pid, how: WorkEnd)
    | Issue(p: Pid) | CommandLocks(p: Pid) | CommandEnds(p: Pid)
    | Dies(p: Pid)

  predicate Newer(staging: Option<nat>, generation: int) {
    staging.Some? && staging.value > generation
  }

  /** The staging file after `stage_new_config`. */
  function AfterStaging(staging: Option<nat>, event: nat): Option<nat> {
    if staging.None? || event > staging.value then Some(event) else staging
  }

  predicate AtEnsure(s: State, p: Pid, pc: EnsurePc) {
    p in s.procs && s.procs[p].Ensure? && s.procs[p].pc == pc
  }

  predicate Over(r: Proc) {
    match r
    case Stager(_, _, _, over) => over
    case Ensure(_, pc) => pc == EnsureEnded
    case Command(_, over) => over
  }

  predicate Alive(r: Proc) {
    (r.Ensure? && !r.pc.EnsureEnded?) || (r.Stager? && r.staged && r.mustLaunch && !r.over)
  }

  predicate SomeoneWillLook(procs: map<Pid, Proc>) {
    exists p :: p in procs && Alive(procs[p])
  }

  /** An event was staged that is neither active nor overtaken. */
  predicate Outstanding(s: State) {
    exists g :: g in s.staged && g > s.active
  }

  /** News that nobody will look at. */
  predicate Forgotten(s: State) {
    Outstanding(s) && !SomeoneWillLook(s.procs)
  }

  predicate Enabled(s: State, e: Step) {
    match e
    case Event(p, _) => p !in s.procs
    case Stage(p) => p in s.procs && s.procs[p].Stager? && !s.procs[p].staged && !s.procs[p].over
    case Launch(p, child) =>
      && p in s.procs && s.procs[p].Stager? && s.procs[p].mustLaunch && !s.procs[p].over
      && child !in s.procs
    case Spawn(p) => p !in s.procs
    case Load(p) => AtEnsure(s, p, Loading)
    case Check(p) => p in s.procs && s.procs[p].Ensure? && s.procs[p].pc.Checking?
    case TryLock(p) => AtEnsure(s, p, Locking)
    case Activate(p) => AtEnsure(s, p, Activating)
    case Finish(p, _) => AtEnsure(s, p, Working)
    case Issue(p) => p !in s.procs
    case CommandLocks(p) => p in s.procs && s.procs[p] == Command(false, false) && s.vmLock == None
    case CommandEnds(p) => p in s.procs && s.procs[p] == Command(true, false)
    case Dies(p) => p in s.procs && !Over(s.procs[p])
  }

  function Put(s: State, p: Pid, r: Proc): State {
    s.(procs := s.procs[p := r])
  }

  function Unlocked(s: State, p: Pid): State {
    s.(vmLock := if s.vmLock == Some(p) then None else s.vmLock)
  }

  function Ended(r: Proc): Proc {
    match r
    case Stager(event, staged, mustLaunch, _) => Stager(event, staged, mustLaunch, true)
    case Ensure(generation, _) => Ensure(generation, EnsureEnded)
    case Command(_, _) => Command(false, true)
  }

  /** The process that just ended carried the news. */
  function Crashed(s: State): State {
    s.(crashed := s.crashed || Forgotten(s))
  }

  function Apply(s: State, e: Step): State
    requires Enabled(s, e)
  {
    match e
    case Event(p, event) => Put(s, p, Stager(event, false, false, false))
    case Stage(p) =>
      var event := s.procs[p].event;
      Put(s.(staging := AfterStaging(s.staging, event), staged := s.staged + {event}), p,
          Stager(event, true, event > s.active, event <= s.active))
    case Launch(p, child) => Put(Put(s, p, Ended(s.procs[p])), child, Ensure(-1, Loading))
    case Spawn(p) => Put(s, p, Ensure(-1, Loading))
    case Load(p) =>
      if s.active < 0 && s.staging.None? then Put(s, p, Ensure(-1, EnsureEnded))
      else Put(s, p, Ensure(s.active, Checking(true)))
    case Check(p) =>
      var r := s.procs[p];
      Put(s, p, r.(pc := if Newer(s.staging, r.generation) || r.pc.force then Locking else EnsureEnded))
    case TryLock(p) =>
      if s.vmLock.None? then Put(s.(vmLock := Some(p)), p, s.procs[p].(pc := Activating))
      else
        var behindCommand := s.vmLock.value in s.procs && s.procs[s.vmLock.value].Command?;
        var t := Put(s, p, s.procs[p].(pc := EnsureEnded));
        t.(missed := s.missed || (behindCommand && Forgotten(t)))
    case Activate(p) =>
      if Newer(s.staging, s.procs[p].generation) then
        Put(s.(active := s.staging.value), p, Ensure(s.staging.value, Working))
      else Put(s, p, s.procs[p].(pc := Working))
    case Finish(p, how) =>
      var t := Unlocked(s, p);
      (match how
       case RaisesOther => Crashed(Put(t, p, s.procs[p].(pc := EnsureEnded)))
       case _ => Put(t, p, s.procs[p].(pc := Checking(how == EnvironmentChanged))))
    case Issue(p) => Put(s, p, Command(false, false))
    case CommandLocks(p) => Put(s.(vmLock := Some(p)), p, Command(true, false))
    case CommandEnds(p) => Put(Unlocked(s, p), p, Command(false, true))
    case Dies(p) =>
      var t := Put(Unlocked(s, p), p, Ended(s.procs[p]));
      if Alive(s.procs[p]) then Crashed(t) else t
  }

  predicate Next(s: State, e: Step, t: State) {
    Enabled(s, e) && t == Apply(s, e)
  }

  predicate Init(s: State) {
    && s.active >= -1 && s.vmLock == None && s.procs == map[] && s.staged == {}
    && !s.missed && !s.crashed
  }

  predicate IsRun(states: seq<State>, steps: seq<Step>) {
    && |states| == |steps| + 1
    && forall i :: 0 <= i < |steps| ==> Next(states[i], steps[i], states[i + 1])
  }

  /** An `ensure` that has read the active config and not ended. */
  predicate Loaded(r: Proc) {
    r.Ensure? && !r.pc.Loading? && !r.pc.EnsureEnded?
  }

  predicate StagingCoversActive(s: State) {
    s.staging.Some? && s.staging.value >= s.active
  }

  predicate AllAtActive(procs: map<Pid, Proc>, active: int) {
    forall p :: p in procs && Loaded(procs[p]) ==> procs[p].generation == active
  }

  predicate NoneBeyondActive(procs: map<Pid, Proc>, active: int) {
    forall p :: p in procs && Loaded(procs[p]) ==> procs[p].generation <= active
  }

  predicate GenerationInv(s: State) {
    && s.active >= -1
    && (StagingCoversActive(s) || AllAtActive(s.procs, s.active))
    && NoneBeyondActive(s.procs, s.active)
  }

  predicate HoldsLock(r: Proc) {
    (r.Ensure? && (r.pc.Activating? || r.pc.Working?)) || (r.Command? && r.holds)
  }

  ghost predicate LockInv(s: State) {
    forall p :: s.vmLock == Some(p) <==> p in s.procs && HoldsLock(s.procs[p])
  }

  /** A staged event is active, or overtaken, or in the staging file; and if it is not active, someone is
  on the way to look at the staging file. */
  predicate WakeupInv(s: State) {
    && (forall g :: g in s.staged ==> g <= s.active || (s.staging.Some? && g <= s.staging.value))
    && (!s.missed && !s.crashed ==> !Forgotten(s))
  }

  ghost predicate Inv(s: State) {
    GenerationInv(s) && LockInv(s) && WakeupInv(s)
  }

  lemma NextKeepsGenerations(s: State, e: Step, t: State)
    requires GenerationInv(s) && Next(s, e, t)
    ensures GenerationInv(t) && s.active <= t.active
  {
  }

  lemma NextKeepsLock(s: State, e: Step, t: State)
    requires LockInv(s) && Next(s, e, t)
    ensures LockInv(t)
  {
  }

  /** The step takes a process off its way to look: behind a command that has the lock, or by an abnormal end. */
  predicate LosesCarrier(s: State, e: Step) {
    match e
    case TryLock(p) => s.vmLock.Some? && s.vmLock.value in s.procs && s.procs[s.vmLock.value].Command?
    case Finish(p, how) => how == RaisesOther
    case Dies(p) => p in s.procs && Alive(s.procs[p])
    case _ => false
  }

  /** News is outstanding, and the step loses the last process on its way to look. */
  predicate DropsNews(s: State, e: Step) {
    Outstanding(s) && LosesCarrier(s, e) && forall q :: q in s.procs && q != e.p ==> !Alive(s.procs[q])
  }

  /** Unless the step loses it, a process on its way to look at outstanding news is, or has, a successor. */
  lemma CarrierStays(s: State, e: Step, t: State, w: Pid, g: nat)
    requires Inv(s) && Next(s, e, t)
    requires w in s.procs && Alive(s.procs[w]) && !(LosesCarrier(s, e) && e.p == w)
    requires g in s.staged && g > t.active
    ensures SomeoneWillLook(t.procs)
  {
    NextKeepsGenerations(s, e, t);
    if e == TryLock(w) && s.vmLock.Some? {
      var holder := s.vmLock.value;
      assert s.vmLock == Some(holder);
      assert holder in s.procs && HoldsLock(s.procs[holder]);
      assert holder in t.procs && Alive(t.procs[holder]);
    } else if e.Launch? && e.p == w {
      assert e.child in t.procs && Alive(t.procs[e.child]);
    } else {
      assert s.staging.Some? && g <= s.staging.value;
      if e.Check? && e.p == w {
        assert Loaded(s.procs[w]);
        assert Newer(s.staging, s.procs[w].generation);
      }
      assert w in t.procs && Alive(t.procs[w]);
    }
  }

  /** Who carries the news on when `w` was the one to do it: unless the last one to do so is lost. */
  lemma NewsCarriedOn(s: State, e: Step, t: State, w: Pid, g: nat)
    requires Inv(s) && Next(s, e, t) && !t.missed && !t.crashed
    requires w in s.procs && Alive(s.procs[w])
    requires g in s.staged && g > t.active
    ensures SomeoneWillLook(t.procs)
  {
    if LosesCarrier(s, e) && e.p == w {
      assert g in t.staged && Outstanding(t);
      assert !Forgotten(t);
    } else {
      CarrierStays(s, e, t, w, g);
    }
  }

  lemma NextKeepsWakeup(s: State, e: Step, t: State)
    requires Inv(s) && Next(s, e, t)
    ensures WakeupInv(t)
  {
    NextKeepsGenerations(s, e, t);
    if !t.missed && !t.crashed && Outstanding(t) {
      var g :| g in t.staged && g > t.active;
      if g in s.staged {
        var w :| w in s.procs && Alive(s.procs[w]);
        NewsCarriedOn(s, e, t, w, g);
      } else {
        assert e.p in t.procs && Alive(t.procs[e.p]);
      }
    }
  }

  lemma NextKeepsInv(s: State, e: Step, t: State)
    requires Inv(s) && Next(s, e, t)
    ensures Inv(t) && s.active <= t.active
  {
    NextKeepsGenerations(s, e, t);
    NextKeepsLock(s, e, t);
    NextKeepsWakeup(s, e, t);
  }

  lemma {:induction false} RunKeepsInv(states: seq<State>, steps: seq<Step>, i: nat, j: nat)
    requires IsRun(states, steps) && Init(states[0]) && i <= j < |states|
    ensures Inv(states[j]) && states[i].active <= states[j].active
  {
    if j > 0 {
      RunKeepsInv(states, steps, if i < j then i else j - 1, j - 1);
      assert Next(states[j - 1], steps[j - 1], states[j]);
      NextKeepsInv(states[j - 1], steps[j - 1], states[j]);
    }
  }

  /** In every interleaving, crashes and foreign lock holders included, the active generation never
  decreases. */
  lemma ActiveNeverDecreases(states: seq<State>, steps: seq<Step>, i: nat, j: nat)
    requires IsRun(states, steps) && Init(states[0]) && i <= j < |states|
    ensures states[i].active <= states[j].active
  {
    RunKeepsInv(states, steps, i, j);
  }

  lemma FlagsSetExactly(s: State, e: Step, t: State)
    requires Inv(s) && Next(s, e, t)
    ensures s.missed || s.crashed ==> t.missed || t.crashed
    ensures !(s.missed || s.crashed) ==> (t.missed || t.crashed <==> Forgotten(t))
  {
    NextKeepsInv(s, e, t);
  }

  /** News has at some time been forgotten if and only if the last process on its way to look was lost: behind
  a command that had the lock, or by ending outside its normal ways. */
  lemma {:induction false} ForgottenExactly(states: seq<State>, steps: seq<Step>, i: nat)
    requires IsRun(states, steps) && Init(states[0]) && i < |states|
    ensures states[i].missed || states[i].crashed <==> exists j :: 0 <= j <= i && Forgotten(states[j])
  {
    if i > 0 {
      ForgottenExactly(states, steps, i - 1);
      RunKeepsInv(states, steps, i - 1, i - 1);
      assert Next(states[i - 1], steps[i - 1], states[i]);
      FlagsSetExactly(states[i - 1], steps[i - 1], states[i]);
    }
  }

  lemma StepForgetsExactly(s: State, e: Step, t: State)
    requires Inv(s) && Next(s, e, t)
    ensures Forgotten(t) <==> DropsNews(s, e) || (Forgotten(s) && !SomeoneWillLook(t.procs))
  {
    NextKeepsGenerations(s, e, t);
    if DropsNews(s, e) || (Forgotten(s) && !SomeoneWillLook(t.procs)) {
      var g :| g in s.staged && g > s.active;
      assert g in t.staged && g > t.active;
    } else if Outstanding(t) && !Forgotten(s) {
      var g :| g in t.staged && g > t.active;
      if g !in s.staged {
        assert e.p in t.procs && Alive(t.procs[e.p]);
      } else {
        assert Outstanding(s);
        var w :| w in s.procs && Alive(s.procs[w]);
        if LosesCarrier(s, e) && e.p == w {
          w :| w in s.procs && w != e.p && Alive(s.procs[w]);
        }
        CarrierStays(s, e, t, w, g);
      }
    }
  }

  predicate DroppedAt(states: seq<State>, steps: seq<Step>, i: nat, j: nat)
    requires |states| == |steps| + 1 && j < i < |states|
  {
    DropsNews(states[j], steps[j]) && forall k :: j < k <= i ==> !SomeoneWillLook(states[k].procs)
  }

  /** The last process on its way to look at news was lost at some step, and no process has been on its way
  since. */
  predicate Dropped(states: seq<State>, steps: seq<Step>, i: nat)
    requires |states| == |steps| + 1 && i < |states|
  {
    exists j :: 0 <= j < i && DroppedAt(states, steps, i, j)
  }

  lemma DroppedGrows(states: seq<State>, steps: seq<Step>, i: nat)
    requires |states| == |steps| + 1 && i < |steps|
    ensures Dropped(states, steps, i + 1) <==>
              !SomeoneWillLook(states[i + 1].procs) && (DropsNews(states[i], steps[i]) || Dropped(states, steps, i))
  {
    hide DropsNews, SomeoneWillLook;
    var n := i + 1;
    if j: nat :| j < n && DroppedAt(states, steps, n, j) {
      assert j < i ==> DroppedAt(states, steps, i, j);
    }
    if !SomeoneWillLook(states[n].procs) {
      if DropsNews(states[i], steps[i]) {
        assert DroppedAt(states, steps, n, i);
      }
      if j: nat :| j < i && DroppedAt(states, steps, i, j) {
        assert DroppedAt(states, steps, n, j);
      }
    }
  }

  /** News is nobody's to look at exactly if it was dropped and nobody has come since. */
  lemma {:induction false} ForgottenNow(states: seq<State>, steps: seq<Step>, i: nat)
    requires IsRun(states, steps) && Init(states[0]) && i < |states|
    ensures Forgotten(states[i]) <==> Dropped(states, steps, i)
  {
    if i > 0 {
      ForgottenNow(states, steps, i - 1);
      RunKeepsInv(states, steps, i - 1, i - 1);
      assert Next(states[i - 1], steps[i - 1], states[i]);
      StepForgetsExactly(states[i - 1], steps[i - 1], states[i]);
      DroppedGrows(states, steps, i - 1);
      hide DropsNews, SomeoneWillLook;
      assert Forgotten(states[i]) ==> !SomeoneWillLook(states[i].procs);
    }
  }

  /** No lost wake-up: once all processes have ended, everything staged is active or overtaken, if and only if
  the last process on its way to look at news was not lost, behind a command that had the lock or by an abnormal
  end, without another coming later. Crashes, kills and commands at any other time do no harm. */
  lemma NoLostWakeup(states: seq<State>, steps: seq<Step>, i: nat)
    requires IsRun(states, steps) && Init(states[0]) && i < |states|
    requires forall p :: p in states[i].procs ==> Over(states[i].procs[p])
    ensures (forall g :: g in states[i].staged ==> g <= states[i].active) <==> !Dropped(states, steps, i)
    ensures !states[i].missed && !states[i].crashed ==> forall g :: g in states[i].staged ==> g <= states[i].active
  {
    RunKeepsInv(states, steps, i, i);
    ForgottenNow(states, steps, i);
    assert !SomeoneWillLook(states[i].procs);
    assert Forgotten(states[i]) <==> Outstanding(states[i]);
  }

  // ------------------------------------------------------------------------------- news gets active

  /** Activation makes everything active that has been staged by then, or finds it overtaken. */
  lemma ActivateCatchesUp(s: State, p: Pid, t: State)
    requires Inv(s) && Next(s, Activate(p), t)
    ensures !Outstanding(t) && t.staged == s.staged
  {
    assert Loaded(s.procs[p]);
  }

  /** Steps of the processes that are around and of those they launch, with nobody dying or raising. */
  predicate Goes(s: State, e: Step, t: State) {
    && Next(s, e, t)
    && (e.Launch? || e.Load? || e.Check? || e.TryLock? || e.Activate? || (e.Finish? && e.how != RaisesOther) || e.CommandEnds?)
  }

  lemma {:induction false} FreshPid(pids: set<Pid>) returns (p: Pid)
    ensures forall q :: q in pids ==> q < p
    decreases |pids|
  {
    p := 0;
    if pids != {} {
      var q :| q in pids;
      var n := FreshPid(pids - {q});
      p := if n > q then n else q + 1;
      assert forall k :: k in pids ==> k == q || k in pids - {q};
    }
  }

  /** The steps that separate a process on its way from having activated, if it gets the lock. */
  function Distance(r: Proc): nat
    requires Alive(r) && !HoldsLock(r)
  {
    if r.Stager? then 4 else match r.pc case Loading => 3 case Checking(_) => 2 case _ => 1
  }

  /** The step that brings a process on its way closer, with the lock free and news outstanding. */
  lemma ComesCloser(s: State, w: Pid) returns (t: State, v: Pid)
    requires Inv(s) && Outstanding(s) && s.vmLock == None
    requires w in s.procs && Alive(s.procs[w]) && !HoldsLock(s.procs[w])
    ensures Leads(Goes, s, t) && Inv(t) && t.active == s.active && t.staged == s.staged
    ensures v in t.procs && Alive(t.procs[v])
    ensures AtEnsure(t, v, Activating)
            || (t.vmLock == None && !HoldsLock(t.procs[v]) && Distance(t.procs[v]) < Distance(s.procs[w]))
  {
    var g :| g in s.staged && g > s.active;
    assert s.staging.Some? && g <= s.staging.value;
    var r := s.procs[w];
    v := w;
    var e := Load(w);
    if r.Stager? {
      v := FreshPid(s.procs.Keys);
      e := Launch(w, v);
    } else if r.pc.Checking? {
      assert Loaded(r);
      e := Check(w);
    } else if r.pc == Locking {
      e := TryLock(w);
    }
    t := Apply(s, e);
    NextKeepsInv(s, e, t);
    LeadsByStep(Goes, s, e, t);
  }

  lemma {:induction false} Carries(s: State, w: Pid) returns (t: State)
    requires Inv(s) && Outstanding(s) && s.vmLock == None
    requires w in s.procs && Alive(s.procs[w]) && !HoldsLock(s.procs[w])
    ensures Leads(Goes, s, t) && !Outstanding(t) && t.staged == s.staged
    decreases Distance(s.procs[w])
  {
    hide Leads, Inv, Next;
    var a, v := ComesCloser(s, w);
    if AtEnsure(a, v, Activating) {
      t := Activates(a, v);
    } else {
      t := Carries(a, v);
    }
    LeadsOn(Goes, s, a, t);
  }

  lemma Activates(s: State, p: Pid) returns (t: State)
    requires Inv(s) && AtEnsure(s, p, Activating)
    ensures Leads(Goes, s, t) && !Outstanding(t) && t.staged == s.staged
  {
    t := Apply(s, Activate(p));
    ActivateCatchesUp(s, p, t);
    LeadsByStep(Goes, s, Activate(p), t);
  }

  /** Only who has staged may have to launch, and no command is over with the lock in hand. */
  predicate ShapeInv(procs: map<Pid, Proc>) {
    && (forall p :: p in procs && procs[p].Stager? && procs[p].mustLaunch ==> procs[p].staged)
    && (forall p :: p in procs && procs[p].Command? && procs[p].holds ==> !procs[p].over)
  }

  /** Whoever holds the lock gives it up, or has everything active first. */
  lemma LockComesFree(s: State, w: Pid) returns (t: State)
    requires Inv(s) && ShapeInv(s.procs) && Outstanding(s) && w in s.procs && Alive(s.procs[w]) && s.vmLock.Some?
    requires !AtEnsure(s, s.vmLock.value, Activating)
    ensures Leads(Goes, s, t) && Inv(t) && t.active == s.active && t.staged == s.staged
    ensures t.vmLock == None && w in t.procs && Alive(t.procs[w])
  {
    var h := s.vmLock.value;
    assert s.vmLock == Some(h);
    var e := if s.procs[h].Command? then CommandEnds(h) else Finish(h, Returns);
    t := Apply(s, e);
    NextKeepsInv(s, e, t);
    LeadsByStep(Goes, s, e, t);
  }

  lemma GetsActive(s: State) returns (t: State)
    requires Inv(s) && ShapeInv(s.procs) && Outstanding(s) && !Forgotten(s)
    ensures Leads(Goes, s, t) && !Outstanding(t) && t.staged == s.staged
  {
    var w :| w in s.procs && Alive(s.procs[w]);
    if s.vmLock.Some? && AtEnsure(s, s.vmLock.value, Activating) {
      t := Activates(s, s.vmLock.value);
    } else if s.vmLock.Some? {
      var a := LockComesFree(s, w);
      FreeLockHeldByNone(a, w);
      assert Outstanding(a);
      t := Carries(a, w);
      LeadsOn(Goes, s, a, t);
    } else {
      FreeLockHeldByNone(s, w);
      t := Carries(s, w);
    }
  }

  lemma FreeLockHeldByNone(s: State, w: Pid)
    requires Inv(s) && s.vmLock == None && w in s.procs
    ensures !HoldsLock(s.procs[w])
  {
  }

  lemma {:induction false} RunKeepsShape(states: seq<State>, steps: seq<Step>, i: nat)
    requires IsRun(states, steps) && Init(states[0]) && i < |states|
    ensures ShapeInv(states[i].procs)
  {
    if i > 0 {
      RunKeepsShape(states, steps, i - 1);
      assert Next(states[i - 1], steps[i - 1], states[i]);
    }
  }

  lemma StaysForgotten(s: State, e: Step, t: State)
    requires ShapeInv(s.procs) && Forgotten(s) && Goes(s, e, t)
    ensures ShapeInv(t.procs) && Forgotten(t)
  {
    assert e.CommandEnds?;
    var g :| g in s.staged && g > s.active;
    assert g in t.staged && g > t.active;
  }

  lemma {:induction false} PathStaysForgotten(states: seq<State>, steps: seq<Step>, i: nat)
    requires IsPath(Goes, states, steps) && i < |states|
    requires ShapeInv(states[0].procs) && Forgotten(states[0])
    ensures ShapeInv(states[i].procs) && Forgotten(states[i])
  {
    if i > 0 {
      PathStaysForgotten(states, steps, i - 1);
      StaysForgotten(states[i - 1], steps[i - 1], states[i]);
    }
  }

  /** The processes that are around make everything staged active. */
  ghost predicate CanCatchUp(s: State) {
    exists t :: Leads(Goes, s, t) && t.staged == s.staged && !Outstanding(t)
  }

  /** News gets active: from every reachable state, whoever has the lock and wherever its carrier is, the
  processes that are around can make everything that is staged active, if and only if the news is not
  forgotten. */
  lemma NewsGetsActive(states: seq<State>, steps: seq<Step>, i: nat)
    requires IsRun(states, steps) && Init(states[0]) && i < |states|
    ensures CanCatchUp(states[i]) <==> !Forgotten(states[i])
  {
    var s := states[i];
    RunKeepsInv(states, steps, i, i);
    RunKeepsShape(states, steps, i);
    if !Outstanding(s) {
      LeadsToItself<State, Step>(Goes, s);
      assert CanCatchUp(s);
    } else if !Forgotten(s) {
      var t := GetsActive(s);
      assert CanCatchUp(s);
    } else {
      forall t | Leads(Goes, s, t) ensures Outstanding(t) {
        var a: seq<State>, x: seq<Step> :| IsPath(Goes, a, x) && a[0] == s && a[|x|] == t;
        PathStaysForgotten(a, x, |x|);
      }
    }
  }

  predicate Genuine(s: State, start: State) {
    && (s.active == start.active || (s.active >= 0 && (start.staging == Some(s.active) || s.active in s.staged)))
    && (s.staging == start.staging || (s.staging.Some? && s.staging.value in s.staged))
  }

  /** Both files only ever hold what they held at the start or an event that was staged. */
  lemma {:induction false} FilesAreGenuine(states: seq<State>, steps: seq<Step>, i: nat)
    requires IsRun(states, steps) && i < |states|
    ensures Genuine(states[i], states[0])
  {
    if i > 0 {
      FilesAreGenuine(states, steps, i - 1);
      assert Next(states[i - 1], steps[i - 1], states[i]);
    }
  }

  // ------------------------------------------------------------- how a wake-up can be lost after all

  function Idle(): State {
    State(None, 0, None, map[], {}, false, false)
  }

  /** A command holds the lock, an event was staged, and an `ensure` was launched for it. */
  lemma StagedBehindCommand() returns (states: seq<State>, steps: seq<Step>)
    ensures IsRun(states, steps) && Init(states[0]) && |steps| == 5
    ensures states[5] == State(Some(5), 0, Some(1),
                               map[1 := Command(true, false), 2 := Stager(5, true, true, true), 3 := Ensure(-1, Loading)],
                               {5}, false, false)
  {
    var s0 := Idle();
    var s1 := Apply(s0, Issue(1));
    var s2 := Apply(s1, CommandLocks(1));
    var s3 := Apply(s2, Event(2, 5));
    var s4 := Apply(s3, Stage(2));
    var s5 := Apply(s4, Launch(2, 3));
    steps := [Issue(1), CommandLocks(1), Event(2, 5), Stage(2), Launch(2, 3)];
    states := [s0, s1, s2, s3, s4, s5];
  }

  /** That `ensure` gives up, and the command does not look at the staging file when it ends. */
  lemma CommandLosesWakeup() returns (states: seq<State>, steps: seq<Step>)
    ensures IsRun(states, steps) && Init(states[0])
    ensures var s := states[|steps|];
            && (forall p :: p in s.procs ==> Over(s.procs[p]))
            && !s.crashed && 5 in s.staged && s.active < 5
  {
    states, steps := StagedBehindCommand();
    var s5 := states[5];
    var s6 := Apply(s5, Load(3));
    var s7 := Apply(s6, Check(3));
    var s8 := Apply(s7, TryLock(3));
    var s9 := Apply(s8, CommandEnds(1));
    states, steps := states + [s6, s7, s8, s9], steps + [Load(3), Check(3), TryLock(3), CommandEnds(1)];
  }

  /** An `ensure` that ends by another exception, or is killed, activates nothing. */
  lemma CrashLosesWakeup() returns (states: seq<State>, steps: seq<Step>)
    ensures IsRun(states, steps) && Init(states[0])
    ensures var s := states[|steps|];
            && (forall p :: p in s.procs ==> Over(s.procs[p]))
            && !s.missed && 5 in s.staged && s.active < 5
  {
    var s0 := Idle();
    var s1 := Apply(s0, Event(2, 5));
    var s2 := Apply(s1, Stage(2));
    var s3 := Apply(s2, Launch(2, 3));
    var s4 := Apply(s3, Dies(3));
    steps := [Event(2, 5), Stage(2), Launch(2, 3), Dies(3)];
    states := [s0, s1, s2, s3, s4];
  }

  // ------------------------------------------------------------------------------------- the code

  /** The files and processes as the code sees and changes them, with their history. */
  class World {
    var st: State
    ghost var states: seq<State>
    ghost var steps: seq<Step>

    ghost predicate Valid()
      reads this
    {
      IsRun(states, steps) && Init(states[0]) && states[|steps|] == st
    }

    constructor (start: State)
      requires Init(start)
      ensures Valid() && st == start
    {
      st := start;
      states, steps := [start], [];
    }

    lemma InvHolds()
      requires Valid()
      ensures Inv(st)
    {
      RunKeepsInv(states, steps, |steps|, |steps|);
    }

    method Do(e: Step)
      requires Valid() && Enabled(st, e)
      modifies this
      ensures Valid() && st == Apply(old(st), e) && steps == old(steps) + [e]
    {
      var t := Apply(st, e);
      ghost var states', steps' := states + [t], steps + [e];
      assert forall i :: 0 <= i < |steps'| ==> Next(states'[i], steps'[i], states'[i + 1]);
      st, states, steps := t, states', steps';
    }

    /** Any number of steps of processes other than `me`. */
    method OthersAct(me: Pid)
      requires Valid() && me in st.procs
      modifies this
      ensures Valid() && me in st.procs && st.procs[me] == old(st.procs[me])
      ensures old(st.staged) <= st.staged && old(st.active) <= st.active && old(steps) <= steps
    {
      hide IsRun;
      var n: nat := *;
      while n > 0
        invariant Valid() && me in st.procs && st.procs[me] == old(st.procs[me])
        invariant old(st.staged) <= st.staged && old(st.active) <= st.active && old(steps) <= steps
      {
        var e: Step := *;
        if e.p != me && Enabled(st, e) {
          InvHolds();
          NextKeepsGenerations(st, e, Apply(st, e));
          Do(e);
        }
        n := n - 1;
      }
    }
  }

  /** The process has activated what was staged, at or after the given point. */
  predicate ActivatedSince(steps: seq<Step>, from: nat, p: Pid) {
    exists i :: from <= i < |steps| && steps[i] == Activate(p)
  }

  lemma ActivatedStays(a: seq<Step>, b: seq<Step>, from: nat, earlier: nat, p: Pid)
    requires a <= b && earlier <= from
    ensures ActivatedSince(a, from, p) ==> ActivatedSince(b, earlier, p)
  {
    if i: nat :| from <= i < |a| && a[i] == Activate(p) {
      assert b[i] == Activate(p);
    }
  }

  lemma ActivatedNow(steps: seq<Step>, from: nat, p: Pid)
    requires from < |steps| && steps[|steps| - 1] == Activate(p)
    ensures ActivatedSince(steps, from, p)
  {
  }

  class Agent {
    const world: World
    const pid: Pid

    constructor (world: World, pid: Pid)
      ensures this.world == world && this.pid == pid
    {
      this.world, this.pid := world, pid;
    }

    ghost predicate At(pc: EnsurePc)
      reads this, world
    {
      world.Valid() && AtEnsure(world.st, pid, pc)
    }

    /** `stage_new_config` in a stager's process: afterwards the staging file holds this event or a newer
    one; a launch is asked for exactly if the event is newer than the active config. */
    method StageNewConfig() returns (activate: bool)
      requires world.Valid() && Enabled(world.st, Stage(pid))
      modifies world
      ensures world.Valid() && pid in world.st.procs && world.st.procs[pid].Stager?
      ensures world.st.staging.Some? && world.st.staging.value >= world.st.procs[pid].event
      ensures activate <==> world.st.procs[pid].event > world.st.active
      ensures activate ==> world.st.procs[pid].mustLaunch && !world.st.procs[pid].over
      ensures world.st.procs[pid].event in world.st.staged
    {
      world.OthersAct(pid);
      world.Do(Stage(pid));
      activate := world.st.procs[pid].mustLaunch;
    }

    /** `ensure_`: what the lock, the activation and the work make of it. With the lock, everything that was
    staged before is active or overtaken at the end, however the work ends; it gives up only to another that has
    the lock. */
    method EnsureOnce() returns (locked: bool, how: WorkEnd)
      requires At(Locking)
      modifies world
      ensures !locked ==> At(EnsureEnded) && world.st.vmLock.Some? && world.st.vmLock != Some(pid)
      ensures locked && how == RaisesOther ==> At(EnsureEnded)
      ensures locked && how != RaisesOther ==> At(Checking(how == EnvironmentChanged))
      ensures locked ==> forall g :: g in old(world.st.staged) ==> g <= world.st.active
      ensures old(world.st.staged) <= world.st.staged
      ensures old(world.steps) <= world.steps && (locked ==> ActivatedSince(world.steps, |old(world.steps)|, pid))
    {
      hide IsRun, ActivatedSince, Newer;
      world.OthersAct(pid);
      world.InvHolds();
      locked, how := world.st.vmLock == None, Returns;
      world.Do(TryLock(pid));
      if !locked { return; }
      world.OthersAct(pid);
      world.InvHolds();
      ActivateCatchesUp(world.st, pid, Apply(world.st, Activate(pid)));
      world.Do(Activate(pid));
      ghost var activated := world.steps;
      ActivatedNow(activated, |old(world.steps)|, pid);
      world.OthersAct(pid);
      how := *;
      world.Do(Finish(pid, how));
      ActivatedStays(activated, world.steps, |old(world.steps)|, |old(world.steps)|, pid);
    }

    /** `ensure`, cut off after `rounds` turns of its loop. A normal end means that, when it looked last,
    nothing newer than the active config was staged: everything staged by then is active or overtaken. It
    has activated at least once before it ends so. */
    method Ensure(rounds: nat) returns (settled: bool, cutOff: bool)
      requires At(Loading)
      modifies world
      ensures world.Valid() && (!cutOff ==> At(EnsureEnded))
      ensures settled ==> !Newer(world.st.staging, world.st.active)
      ensures settled ==> old(world.st.staged) <= world.st.staged
      ensures settled ==> forall g :: g in world.st.staged ==> g <= world.st.active
      ensures settled ==> ActivatedSince(world.steps, |old(world.steps)|, pid)
    {
      hide IsRun;
      settled, cutOff := false, false;
      world.OthersAct(pid);
      world.Do(Load(pid));
      if AtEnsure(world.st, pid, EnsureEnded) { return; }
      var round := 0;
      while round < rounds
        invariant world.Valid() && pid in world.st.procs && world.st.procs[pid].Ensure?
        invariant old(world.steps) <= world.steps
        invariant if round == 0 then world.st.procs[pid].pc == Checking(true)
                  else ActivatedSince(world.steps, |old(world.steps)|, pid)
        invariant world.st.procs[pid].pc.Checking? && old(world.st.staged) <= world.st.staged
      {
        ghost var before := world.steps;
        world.OthersAct(pid);
        world.InvHolds();
        world.Do(Check(pid));
        ActivatedStays(before, world.steps, |old(world.steps)|, |old(world.steps)|, pid);
        if AtEnsure(world.st, pid, EnsureEnded) {
          settled := true;
          return;
        }
        before := world.steps;
        var locked, how := EnsureOnce();
        ActivatedStays(world.steps, world.steps, |before|, |old(world.steps)|, pid);
        if !locked || how == RaisesOther { return; }
        round := round + 1;
      }
      cutOff := true;
    }
  }
}
