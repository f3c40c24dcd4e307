/** Moving the root image between pools: the RBD migration commands, and when the code issues them. */
module PoolMigration {
  import opened Runs

  type Pool = nat

  datatype Phase = Prepared | Executing | Executed

  /** The RBD migration of the root image. `queued`: the manager was given a task to execute it. */
  datatype Migration = NoMigration | Migrating(phase: Phase, queued: bool)

  function Rank(p: Phase): nat {
    match p
    case Prepared => 0
    case Executing => 1
    case Executed => 2
  }

  /** The manager works on a queued migration in the background. */
  predicate Progresses(a: Migration, b: Migration) {
    a == b || (a.Migrating? && a.queued && b.Migrating? && b.queued && Rank(a.phase) <= Rank(b.phase))
  }

  datatype Order = Prepare(source: Pool, target: Pool) | Execute | Commit

  /** A migration command, and the migration right before and after it. */
  datatype Move = Move(order: Order, before: Migration, after: Migration)

  /** What a command can do to the migration; each can also fail. */
  predicate Effect(e: Move) {
    || e.after == e.before
    || match e.order
       case Prepare(_, _) => e.after == Migrating(Prepared, false)
       case Execute => e.before.Migrating? && e.after == e.before.(queued := true)
       case Commit => e.after == NoMigration
  }

  /** The command meets the migration in the state it is for. An `execute` may also come late for a
  migration that is queued already: its status was read before the manager began. */
  predicate InTurn(e: Move) {
    match e.order
    case Prepare(_, _) => e.before == NoMigration
    case Execute => e.before.Migrating? && (e.before.phase == Prepared || e.before.queued)
    case Commit => e.before.Migrating? && e.before.phase == Executed
  }

  /** All commands came in turn, and nothing but them and the manager changed the migration. */
  predicate Sound(h: seq<Move>, now: Migration) {
    && (forall i :: 0 <= i < |h| ==> InTurn(h[i]) && Effect(h[i]))
    && (forall i :: 0 < i < |h| ==> Progresses(h[i - 1].after, h[i].before))
    && (h != [] ==> Progresses(h[|h| - 1].after, now))
  }

  predicate NoExecute(before: seq<Move>, after: seq<Move>) {
    before <= after && forall i :: |before| <= i < |after| ==> after[i].order != Execute
  }

  lemma SoundGrows(h: seq<Move>, e: Move)
    requires Sound(h, e.before) && InTurn(e) && Effect(e)
    ensures Sound(h + [e], e.after)
  {
  }

  /** Who ended a migration: the first command after which there is none is an effective commit. */
  lemma {:induction false} EndedByCommit(h: seq<Move>, now: Migration, i: nat, j: nat) returns (l: nat)
    requires Sound(h, now) && i < j < |h|
    requires h[i].after.Migrating? && h[j].before == NoMigration
    ensures i < l < j && h[l].order == Commit && h[l].before.Migrating? && h[l].before.phase == Executed
    ensures h[l].after == NoMigration && forall x :: i <= x < l ==> h[x].after.Migrating?
    decreases j - i
  {
    assert Progresses(h[i].after, h[i + 1].before);
    assert InTurn(h[i + 1]) && Effect(h[i + 1]);
    if h[i + 1].after == NoMigration {
      l := i + 1;
    } else {
      l := EndedByCommit(h, now, i + 1, j);
    }
  }

  /** A prepared migration that came to be executed was queued by an execute command. */
  lemma {:induction false} QueuedByExecute(h: seq<Move>, now: Migration, i: nat, l: nat) returns (k: nat)
    requires Sound(h, now) && i < l < |h|
    requires h[i].after == Migrating(Prepared, false)
    requires h[l].before.Migrating? && h[l].before.phase == Executed
    ensures i < k < l && h[k].order == Execute && h[k].after.Migrating? && h[k].after.queued
    decreases l - i
  {
    assert Progresses(h[i].after, h[i + 1].before);
    assert InTurn(h[i + 1]) && Effect(h[i + 1]);
    if h[i + 1].after == Migrating(Prepared, false) {
      k := QueuedByExecute(h, now, i + 1, l);
    } else {
      k := i + 1;
    }
  }

  /** A migration is never prepared before the one before it has gone its whole way: between two prepare
  commands, the first of which took effect, there are an effective execute and then an effective commit. */
  lemma MigrationsRunToTheirEnd(h: seq<Move>, now: Migration, i: nat, j: nat) returns (k: nat, l: nat)
    requires Sound(h, now) && i < j < |h|
    requires h[i].order.Prepare? && h[i].after.Migrating? && h[j].order.Prepare?
    ensures i < k < l < j
    ensures h[k].order == Execute && h[k].after.Migrating? && h[k].after.queued
    ensures h[l].order == Commit && h[l].before.Migrating? && h[l].before.phase == Executed && h[l].after == NoMigration
  {
    assert InTurn(h[i]) && Effect(h[i]) && InTurn(h[j]);
    l := EndedByCommit(h, now, i, j);
    k := QueuedByExecute(h, now, i, l);
  }

  /** The command is the one that queues the migration. */
  predicate Queues(e: Move) {
    e.order == Execute && e.before.Migrating? && !e.before.queued && e.after == e.before.(queued := true)
  }

  /** What a command meets after a prepare that took effect, as long as nothing was committed: a migration that is queued
  if and only if an execute has taken effect since, and the freshly prepared one if and only if none has. In
  particular the first effective execute of a migration always meets it prepared. */
  lemma {:induction false} QueuedExactly(h: seq<Move>, now: Migration, i: nat, l: nat)
    requires Sound(h, now) && i < l < |h| && h[i].after == Migrating(Prepared, false)
    requires forall x :: i < x < l ==> h[x].after != NoMigration
    ensures h[l].before.Migrating?
    ensures h[l].before.queued <==> exists k :: i < k < l && Queues(h[k])
    ensures h[l].before == Migrating(Prepared, false) <==> !exists k :: i < k < l && Queues(h[k])
  {
    if l == i + 1 {
      assert Progresses(h[i].after, h[l].before);
    } else {
      QueuedExactly(h, now, i, l - 1);
      var e := h[l - 1];
      assert InTurn(e) && Effect(e) && Progresses(e.after, h[l].before);
      assert e.after.Migrating? && (e.after.queued <==> e.before.queued || Queues(e));
    }
  }

  // ------------------------------------------------------------------ when the code issues commands

  /** Where the one process is that works on the VM: before or after a call, past a look at the status, or
  past a look or a commit that leaves no migration. */
  datatype Control = Idle | Looked(seen: Migration, allowExecute: bool) | Cleared

  datatype State = State(migration: Migration, control: Control, history: seq<Move>)

  /** `Work`: the manager's; `GiveUp`: a call ends, by return or exception, or the process does. `works`: the
  command takes effect; `reports`: it says so. */
  datatype Step =
    | Work(to: Migration) | GiveUp | Look(allowExecute: bool) | Act(works: bool, reports: bool)
    | PrepareNew(source: Pool, target: Pool, works: bool)

  predicate Enabled(s: State, e: Step) {
    match e
    case Work(to) => Progresses(s.migration, to)
    case GiveUp => true
    case Look(_) => true
    case Act(_, _) => s.control.Looked?
    case PrepareNew(_, _, _) => s.control == Cleared
  }

  function Issue(s: State, order: Order, after: Migration, control: Control): State {
    State(after, control, s.history + [Move(order, s.migration, after)])
  }

  function Queued(m: Migration): Migration {
    if m.Migrating? then m.(queued := true) else m
  }

  /** `ensure_migration` between its look and its end, and `migration prepare` after it. */
  function Apply(s: State, e: Step): State
    requires Enabled(s, e)
  {
    match e
    case Work(to) => s.(migration := to)
    case GiveUp => s.(control := Idle)
    case Look(allowExecute) =>
      s.(control := if s.migration == NoMigration then Cleared else Looked(s.migration, allowExecute))
    case Act(works, reports) =>
      var seen := s.control.seen;
      if seen.Migrating? && seen.phase == Prepared && s.control.allowExecute then
        Issue(s, Execute, if works then Queued(s.migration) else s.migration, Idle)
      else if seen.Migrating? && seen.phase == Executed then
        Issue(s, Commit, if works then NoMigration else s.migration, if works && reports then Cleared else Idle)
      else s.(control := Idle)
    case PrepareNew(source, target, works) =>
      Issue(s, Prepare(source, target), if works then Migrating(Prepared, false) else s.migration, Idle)
  }

  predicate Next(s: State, e: Step, t: State) {
    Enabled(s, e) && t == Apply(s, e)
  }

  datatype Trace = Trace(states: seq<State>, steps: seq<Step>)

  /** The steps lead from a state without any history, whatever the migration is then, to the given state. */
  predicate Traces(r: Trace, s: State) {
    && |r.states| == |r.steps| + 1
    && r.states[0].history == [] && r.states[0].control == Idle
    && (forall i :: 0 <= i < |r.steps| ==> Next(r.states[i], r.steps[i], r.states[i + 1]))
    && r.states[|r.steps|] == s
  }

  function Extended(r: Trace, e: Step, t: State): Trace {
    Trace(r.states + [t], r.steps + [e])
  }

  lemma TraceGrows(r: Trace, s: State, e: Step, t: State)
    requires Traces(r, s) && Next(s, e, t)
    ensures Traces(Extended(r, e, t), t)
  {
    var r' := Extended(r, e, t);
    forall i | 0 <= i < |r'.steps| ensures Next(r'.states[i], r'.steps[i], r'.states[i + 1]) {
      if i < |r.steps| {
        assert Next(r.states[i], r.steps[i], r.states[i + 1]);
      }
    }
  }

  /** The history is sound, and what the process knows holds still or has only got on. */
  predicate Inv(s: State) {
    && Sound(s.history, s.migration)
    && (s.control.Looked? ==> s.control.seen.Migrating? && Progresses(s.control.seen, s.migration))
    && (s.control == Cleared ==> s.migration == NoMigration)
  }

  lemma NextKeepsInv(s: State, e: Step, t: State)
    requires Inv(s) && Next(s, e, t)
    ensures Inv(t)
  {
    if |t.history| > |s.history| {
      SoundGrows(s.history, t.history[|s.history|]);
    }
  }

  /** In every run of the code, all commands come in turn. */
  lemma {:induction false} TraceIsSound(r: Trace, s: State)
    requires Traces(r, s)
    ensures Inv(s)
    decreases |r.steps|
  {
    var n := |r.steps|;
    if n > 0 {
      var front := Trace(r.states[..n], r.steps[..n - 1]);
      assert Traces(front, r.states[n - 1]) by {
        assert forall i :: 0 <= i < n - 1 ==> Next(r.states[i], r.steps[i], r.states[i + 1]);
      }
      TraceIsSound(front, r.states[n - 1]);
      assert Next(r.states[n - 1], r.steps[n - 1], r.states[n]);
      NextKeepsInv(r.states[n - 1], r.steps[n - 1], s);
    }
  }

  /** In execution without anyone having asked the manager for it. */
  predicate Stranded(m: Migration) {
    m == Migrating(Executing, false)
  }

  lemma QueuesIt(s: State) returns (t: State)
    requires s.migration.Migrating? && s.migration.phase == Prepared
    ensures Leads(Next, s, t) && t.migration == s.migration.(queued := true)
  {
    var a := Apply(s, Look(true));
    LeadsByStep(Next, s, Look(true), a);
    t := Apply(a, Act(true, true));
    LeadsByStep(Next, a, Act(true, true), t);
    LeadsOn(Next, s, a, t);
  }

  lemma CommitsIt(s: State) returns (t: State)
    requires s.migration.Migrating? && (s.migration.phase == Executed || s.migration.queued)
    ensures Leads(Next, s, t) && t.migration == NoMigration
  {
    var done := s.migration.(phase := Executed);
    var a := Apply(s, Work(done));
    LeadsByStep(Next, s, Work(done), a);
    var b := Apply(a, Look(true));
    LeadsByStep(Next, a, Look(true), b);
    t := Apply(b, Act(true, true));
    LeadsByStep(Next, b, Act(true, true), t);
    LeadsOn(Next, s, a, b);
    LeadsOn(Next, s, b, t);
  }

  lemma {:induction false} StrandedStays(states: seq<State>, steps: seq<Step>, i: nat)
    requires IsPath(Next, states, steps) && i < |states|
    requires Inv(states[0]) && Stranded(states[0].migration)
    ensures Inv(states[i]) && Stranded(states[i].migration)
  {
    if i > 0 {
      StrandedStays(states, steps, i - 1);
      NextKeepsInv(states[i - 1], steps[i - 1], states[i]);
    }
  }

  ghost predicate CanComplete(s: State) {
    exists t :: Leads(Next, s, t) && t.migration == NoMigration
  }

  /** A migration can be completed, wherever it is and whatever was done to it so far, by the code and the
  manager together, unless it was found in execution with nobody having queued it. */
  lemma MigrationCanComplete(r: Trace, s: State)
    requires Traces(r, s)
    ensures CanComplete(s) <==> !Stranded(s.migration)
  {
    if s.migration == NoMigration {
      LeadsToItself<State, Step>(Next, s);
      assert CanComplete(s);
    } else if Stranded(s.migration) {
      TraceIsSound(r, s);
      forall t | Leads(Next, s, t) ensures t.migration != NoMigration {
        var a: seq<State>, x: seq<Step> :| IsPath(Next, a, x) && a[0] == s && a[|x|] == t;
        StrandedStays(a, x, |x|);
      }
    } else if s.migration.phase == Prepared && !s.migration.queued {
      var a := QueuesIt(s);
      var t := CommitsIt(a);
      LeadsOn(Next, s, a, t);
      assert CanComplete(s);
    } else {
      var t := CommitsIt(s);
      assert CanComplete(s);
    }
  }

  /** A run of the code in which a second execute meets its migration in execution: the first one's task was
  queued but not begun when the status was read. */
  lemma LateExecute() returns (r: Trace, s: State)
    ensures Traces(r, s) && r.states[0].migration == NoMigration
    ensures |s.history| == 3 && s.history[2].order == Execute && s.history[2].before == Migrating(Executing, true)
  {
    var prepared, queued, begun := Migrating(Prepared, false), Migrating(Prepared, true), Migrating(Executing, true);
    var h1 := [Move(Prepare(0, 1), NoMigration, prepared)];
    var h2 := h1 + [Move(Execute, prepared, queued)];
    s := State(begun, Idle, h2 + [Move(Execute, begun, begun)]);
    r := Trace([State(NoMigration, Idle, []), State(NoMigration, Cleared, []), State(prepared, Idle, h1),
                State(prepared, Looked(prepared, true), h1), State(queued, Idle, h2),
                State(queued, Looked(queued, true), h2), State(begun, Looked(queued, true), h2), s],
               [Look(false), PrepareNew(0, 1, true), Look(true), Act(true, true), Look(true), Work(begun),
                Act(true, true)]);
  }
}
