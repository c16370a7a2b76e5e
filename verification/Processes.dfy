/** The processes as the programs they are: each handler runs its own statements one at a time
    against the shared stores, with arbitrary steps of everything else in between, and every
    call it makes is a step of the protocol. */
module Processes {
  import opened Domain
  import opened Protocol
  import opened Runs
  import opened Safety
  import opened Tallies
  import opened Theorems

  /** Whose program is being run; the environment never takes these steps. */
  datatype Who = Handler(n: nat, m: nat) | Creator(ids: set<nat>) | RelayTx(n: nat, o: nat) | SchedTx(n: nat)

  predicate Mine(who: Who, step: Step) {
    step.Do? &&
    match who
    case Handler(n, m) =>
      step.n == n && ((step.act.Take? && step.act.m == m) || (step.act.Send? && step.act.m == m)
                      || (step.act.Leave? && step.act.m == m))
    case Creator(ids) => step.n in ids && step.act.Api?
    case RelayTx(n, o) => step.n == n && step.act.Relay? && step.act.o == o
    case SchedTx(n) => step.n == n && step.act.Sched?
  }

  /** What the process itself did in these steps, in order. */
  ghost function Log(steps: seq<Step>, who: Who): seq<Act> {
    if steps == [] then []
    else
      var last := steps[|steps| - 1];
      Log(steps[..|steps| - 1], who) + if Mine(who, last) then [last.act] else []
  }

  lemma {:induction false} OthersNotLogged(before: seq<Step>, steps: seq<Step>, who: Who)
    requires before <= steps && forall i :: |before| <= i < |steps| ==> !Mine(who, steps[i])
    ensures Log(steps, who) == Log(before, who)
    decreases |steps|
  {
    if |before| == |steps| {
      assert before == steps;
    } else {
      OthersNotLogged(before, steps[..|steps| - 1], who);
    }
  }

  /** Steps of others, and then one of the process itself. */
  lemma LastLogged(before: seq<Step>, steps: seq<Step>, who: Who)
    requires before <= steps && |before| < |steps|
    requires forall i :: |before| <= i < |steps| - 1 ==> !Mine(who, steps[i])
    ensures var last := steps[|steps| - 1];
      Log(steps, who) == Log(before, who) + if Mine(who, last) then [last.act] else []
  {
    OthersNotLogged(before, steps[..|steps| - 1], who);
  }

  /** A call that meets the lock of a scheduler transaction fails without effect instead. */
  predicate EndsAs(db: Db, planned: Db) {
    db == planned || db == Fault(false)
  }

  /** PostgreSQL and RabbitMQ together with the position of every process, and how they got there. */
  class World {
    var s: State
    ghost var states: seq<State>
    ghost var steps: seq<Step>

    ghost predicate Valid()
      reads this
    {
      Run(states, steps) && s == states[|steps|]
    }

    /** The history so far continues the given one. */
    ghost predicate Since(states0: seq<State>, steps0: seq<Step>)
      reads this
    {
      states0 <= states && steps0 <= steps
    }

    constructor (now: int)
      ensures Valid() && s == State(now, map[], 0, EMPTY_CATALOG) && steps == []
    {
      s := State(now, map[], 0, EMPTY_CATALOG);
      states := [State(now, map[], 0, EMPTY_CATALOG)];
      steps := [];
    }

    method Perform(step: Step)
      requires Valid() && CanStep(s, step)
      modifies this
      ensures Valid() && steps == old(steps) + [step] && states == old(states) + [s] && s == Next(old(s), step)
    {
      RunExtends(states, steps, step, Next(s, step));
      s := Next(s, step);
      states := states + [s];
      steps := steps + [step];
    }

    lemma SafeNow()
      requires Valid()
      ensures AllSafe(s)
    {
      RunSafe(states, steps, |steps|);
    }

    lemma FreshIds()
      requires Valid()
      ensures EntriesBelow(s)
    {
      RunEntries(states, steps, |steps|);
    }

    /** Whatever of the planned steps is possible and does not belong to `who` happens. */
    method Others(who: Who, plan: seq<Step>)
      requires Valid()
      modifies this
      ensures Valid() && Since(old(states), old(steps))
      ensures forall i :: |old(steps)| <= i < |steps| ==> !Mine(who, steps[i])
      ensures PositionKept(who, old(s), s)
      ensures |plan| == 1 && !Mine(who, plan[0]) && CanStep(old(s), plan[0]) ==> steps == old(steps) + plan
    {
      for i := 0 to |plan|
        invariant Valid() && Since(old(states), old(steps))
        invariant forall j :: |old(steps)| <= j < |steps| ==> !Mine(who, steps[j])
        invariant PositionKept(who, old(s), s)
        invariant i == 0 ==> s == old(s) && steps == old(steps)
        invariant i == 1 && !Mine(who, plan[0]) && CanStep(old(s), plan[0]) ==> steps == old(steps) + [plan[0]]
      {
        if !Mine(who, plan[i]) && CanStep(s, plan[i]) {
          RunSafe(states, steps, |steps|);
          OthersKeep(who, s, plan[i]);
          Perform(plan[i]);
        }
      }
    }
  }

  /** What the environment leaves untouched. */
  ghost predicate PositionKept(who: Who, s: State, s': State) {
    match who
    case Handler(n, m) =>
      n in s.cells && m in s.cells[n].msgs ==>
        n in s'.cells && m in s'.cells[n].msgs && s'.cells[n].msgs[m] == s.cells[n].msgs[m]
    case Creator(ids) =>
      forall n :: n in ids && n in s.cells ==> n in s'.cells && s'.cells[n].task == s.cells[n].task
    case RelayTx(n, o) =>
      n in s.cells && o in s.cells[n].entries ==>
        n in s'.cells && o in s'.cells[n].entries && s'.cells[n].entries[o] == s.cells[n].entries[o]
    case SchedTx(n) => n in s.cells ==> n in s'.cells && s'.cells[n].sched == s.cells[n].sched
  }

  predicate Touches(who: Who, n: nat) {
    match who
    case Handler(k, _) => n == k
    case Creator(ids) => n in ids
    case RelayTx(k, _) => n == k
    case SchedTx(k) => n == k
  }

  ghost predicate KeptInCell(who: Who, c: Cell, c': Cell) {
    match who
    case Handler(_, m) => m in c.msgs ==> m in c'.msgs && c'.msgs[m] == c.msgs[m]
    case Creator(_) => c'.task == c.task
    case RelayTx(_, o) => o in c.entries ==> o in c'.entries && c'.entries[o] == c.entries[o]
    case SchedTx(_) => c'.sched == c.sched
  }

  /** Which parts of a cell a step of each process writes. */
  ghost predicate Footprint(c: Cell, e: Effect, a: Act) {
    && (!a.Api? ==> e.task == c.task)
    && (!a.Sched? ==> e.sched == c.sched)
    && (e.entry.SetEntry? ==> if a.Relay? then e.entry.id == a.o else a.Api? && e.entry.id !in c.entries)
    && (!e.change.Keep? ==>
          (a.Take? && e.change.m == a.m) || (a.Send? && e.change.m == a.m) || (a.Leave? && e.change.m == a.m))
  }

  lemma StepFootprint(c: Cell, now: int, a: Act)
    requires Enabled(c, now, a)
    ensures Footprint(c, EffectOf(c, now, a), a)
  {
  }

  lemma StepKeeps(who: Who, n: nat, c: Cell, now: int, a: Act)
    requires Ids(c) && Enabled(c, now, a) && Touches(who, n) && !Mine(who, Do(n, a))
    ensures KeptInCell(who, c, Apply(c, now, a))
  {
    StepFootprint(c, now, a);
  }

  lemma OthersKeep(who: Who, s: State, step: Step)
    requires AllSafe(s) && CanStep(s, step) && !Mine(who, step)
    ensures PositionKept(who, s, Next(s, step))
  {
    if step.Do? && Touches(who, step.n) {
      assert Safe(s.cells[step.n], s.now);
      StepKeeps(who, step.n, s.cells[step.n], s.now, step.act);
    }
  }

  /** Outbox ids come from one sequence, so they are unique across all notifications. */
  ghost predicate EntriesBelow(s: State) {
    forall n, o :: n in s.cells && o in s.cells[n].entries ==> o < s.nextOut
  }

  lemma NextEntries(s: State, step: Step)
    requires EntriesBelow(s) && CanStep(s, step)
    ensures EntriesBelow(Next(s, step))
  {
    if step.Do? {
      StepFootprint(s.cells[step.n], s.now, step.act);
    }
  }

  lemma {:induction false} RunEntries(states: seq<State>, steps: seq<Step>, i: nat)
    requires Run(states, steps) && i < |states|
    ensures EntriesBelow(states[i])
  {
    if i > 0 {
      assert StepAt(states, steps, i - 1);
      RunEntries(states, steps, i - 1);
      NextEntries(states[i - 1], steps[i - 1]);
    }
  }
}
