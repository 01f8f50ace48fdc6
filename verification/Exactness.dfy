/** Exactly when a clean row is wrong about the directory: what the main result
    leaves out, as a condition on the writes of the history. */
module Exactness {
  import opened Timeline
  import opened Store
  import opened Convergence
  import opened Protocol
  import opened ProtocolInvariant
  import opened Coherence

  /** The row of x says that all is well. */
  ghost predicate Clean(s: Sys, x: string) {
    Unmarked(s.db, x) && x !in DueSubjects(s.db, s.clock) && x in s.seen
  }

  /** What the rule of the last success asserts at this instant. */
  ghost function CurrentGoal(par: Params, s: Sys, x: string): Goal
    requires x in s.seen
  {
    GoalFor(par.cfg, s.seen[x].rule, StateOf(IntentsOf(s.db, x), s.clock))
  }

  /** The row says that all is well, and the directory disagrees. */
  ghost predicate Contradicted(par: Params, s: Sys, x: string) {
    Clean(s, x) && !Satisfied(CurrentGoal(par, s, x), Members(s, par.userOf(x)))
  }

  /** The write does what the goal forbids. */
  ghost predicate Hits(op: Op, goal: Goal) {
    match op
    case Add(g) => g in goal.absent
    case Remove(g) => g in goal.present
  }

  lemma HitsIff(op: Op, goal: Goal, members: set<string>)
    requires Satisfied(goal, members)
    ensures Satisfied(goal, Apply(op, members)) <==> !Hits(op, goal)
  {
    if Hits(op, goal) {
      assert op.group in Apply(op, members) <==> op.Add?;
    }
  }

  /** On a clean row the goal now is the one that its last success established. */
  lemma CleanGoal(par: Params, s: Sys, x: string)
    requires Inv(par, s) && Clean(s, x)
    ensures Quiet(s, x) && CurrentGoal(par, s, x) == SeenGoal(par, s.seen[x])
  {
    assert RowOk(par, s, x);
    IntentsAreValid(s.db, x);
    NotDue(s.db, x, s.clock);
    QuietUntilNext(s.seen[x].intents, s.seen[x].at, s.clock);
  }

  /** A write to the user of x, by a run on any subject. */
  ghost predicate WritesTo(par: Params, s: Sys, step: Step, x: string) {
    step.OfRun? && EditOf(par, s, step).Some? && par.userOf(s.procs[step.pid].subject) == par.userOf(x)
  }

  /** Exactly which writes break the promise: a write to the user of a clean
      subject that holds what it should makes the row wrong if and only if it
      adds a group that must be absent or removes one that must be present. */
  lemma WriteContradictsIff(par: Params, start: Start, steps: seq<Step>, step: Step, x: string)
    requires IsHistory(par, start, steps)
    requires var s := StateAfter(par, start, steps);
      && Enabled(par, s, step) && WritesTo(par, s, step, x)
      && Clean(s, x) && Satisfied(CurrentGoal(par, s, x), Members(s, par.userOf(x)))
    ensures var s := StateAfter(par, start, steps);
      Contradicted(par, Next(par, s, step), x) <==> Hits(s.procs[step.pid].run.ops[0], CurrentGoal(par, s, x))
  {
    var s := StateAfter(par, start, steps);
    EditEffect(par, s, step);
    HitsIff(s.procs[step.pid].run.ops[0], CurrentGoal(par, s, x), Members(s, par.userOf(x)));
  }

  /** And whose writes they are: a run on x itself with a live session, a current
      view and the rule of the last success has nothing to write. */
  lemma OnlyIrregularRunsWrite(par: Params, start: Start, steps: seq<Step>, step: Step, x: string)
    requires IsHistory(par, start, steps)
    requires var s := StateAfter(par, start, steps);
      && Enabled(par, s, step) && WritesTo(par, s, step, x)
      && Clean(s, x) && Satisfied(CurrentGoal(par, s, x), Members(s, par.userOf(x)))
    ensures var s := StateAfter(par, start, steps);
      var p := s.procs[step.pid];
      p.subject != x || !p.live || step.pid in s.spoiled || p.run.rule != s.seen[x].rule
  {
    var s := StateAfter(par, start, steps);
    HistoryInv(par, start, steps);
    CleanGoal(par, s, x);
    if Regular(s, step.pid, x) {
      RegularRunIsIdle(par, s, step.pid, x);
    }
  }

  /** The groups of x's user differ from what its last success established. */
  ghost predicate Wrong(par: Params, s: Sys, x: string) {
    x in s.seen && !Satisfied(SeenGoal(par, s.seen[x]), Members(s, par.userOf(x)))
  }

  /** Whether a step leaves x wrong, knowing whether x was wrong before: it writes
      what the goal forbids, edits the groups to something the goal excludes, or
      records a success although its own goal is not met. */
  ghost predicate HarmedBy(par: Params, s: Sys, step: Step, x: string, harmed: bool) {
    match EditOf(par, s, step)
    case Some(edit) =>
      if x !in s.seen || par.userOf(x) != edit.user then harmed
      else if step.OfRun? && !harmed then Hits(s.procs[step.pid].run.ops[0], SeenGoal(par, s.seen[x]))
      else !Satisfied(SeenGoal(par, s.seen[x]), edit.groups)
    case None =>
      if step.OfRun? && step.run.RecordSuccess? && Records(s, step, x) && s.procs[step.pid].run.Applying? then
        var at := s.procs[step.pid].run;
        !Satisfied(GoalFor(par.cfg, at.rule, StateOf(at.intents, at.started)), Members(s, par.userOf(x)))
      else harmed
  }

  /** The same for a whole history. */
  ghost predicate Harmed(par: Params, s: Sys, steps: seq<Step>, x: string, harmed: bool)
    requires Executable(par, s, steps)
    decreases |steps|
  {
    if steps == [] then harmed
    else Harmed(par, Next(par, s, steps[0]), steps[1..], x, HarmedBy(par, s, steps[0], x, harmed))
  }

  lemma EditHarms(par: Params, s: Sys, step: Step, x: string)
    requires Enabled(par, s, step) && EditOf(par, s, step).Some?
    ensures HarmedBy(par, s, step, x, Wrong(par, s, x)) == Wrong(par, Next(par, s, step), x)
  {
    EditEffect(par, s, step);
    var edit := EditOf(par, s, step).value;
    if x in s.seen && edit.user == par.userOf(x) && step.OfRun? && !Wrong(par, s, x) {
      HitsIff(s.procs[step.pid].run.ops[0], SeenGoal(par, s.seen[x]), Members(s, par.userOf(x)));
    }
  }

  lemma StepHarms(par: Params, s: Sys, step: Step, x: string)
    requires Enabled(par, s, step)
    ensures HarmedBy(par, s, step, x, Wrong(par, s, x)) == Wrong(par, Next(par, s, step), x)
  {
    if EditOf(par, s, step).Some? {
      EditHarms(par, s, step, x);
    } else if !(step.OfRun? && step.run.RecordSuccess?) {
      SeenStays(par, s, step);
    }
  }

  lemma SeenStays(par: Params, s: Sys, step: Step)
    requires !(step.OfRun? && step.run.RecordSuccess?)
    ensures Next(par, s, step).seen == s.seen
  {
  }

  lemma {:induction false} HarmIsTracked(par: Params, s: Sys, steps: seq<Step>, x: string)
    requires Executable(par, s, steps)
    ensures Harmed(par, s, steps, x, Wrong(par, s, x)) == Wrong(par, Final(par, s, steps), x)
    decreases |steps|
  {
    if steps != [] {
      StepHarms(par, s, steps[0], x);
      HarmIsTracked(par, Next(par, s, steps[0]), steps[1..], x);
    }
  }

  /** The exact condition. After every history, a clean row is contradicted by the
      directory if and only if the history harmed its subject and nothing since
      mended it. */
  lemma ContradictedIffHarmed(par: Params, start: Start, steps: seq<Step>, x: string)
    requires IsHistory(par, start, steps) && Clean(StateAfter(par, start, steps), x)
    ensures Contradicted(par, StateAfter(par, start, steps), x)
       <==> Harmed(par, Initial(start.clock, start.members), steps, x, false)
  {
    HistoryInv(par, start, steps);
    CleanGoal(par, StateAfter(par, start, steps), x);
    HarmIsTracked(par, Initial(start.clock, start.members), steps, x);
  }

  /** A success is recorded against an unmet goal only by a run whose view was out
      of date. */
  lemma OnlySpoiledSuccessHarms(par: Params, start: Start, steps: seq<Step>, pid: Pid)
    requires IsHistory(par, start, steps) && Enabled(par, StateAfter(par, start, steps), OfRun(pid, RecordSuccess))
    requires pid !in StateAfter(par, start, steps).spoiled
    ensures var s := StateAfter(par, start, steps);
      var x := s.procs[pid].subject;
      !HarmedBy(par, s, OfRun(pid, RecordSuccess), x, Wrong(par, s, x))
  {
    var s := StateAfter(par, start, steps);
    HistoryInv(par, start, steps);
    SuccessEffect(par, s, pid);
    var at := s.procs[pid].run;
    ExactDone(GoalFor(par.cfg, at.rule, StateOf(at.intents, at.started)), Members(s, par.userOf(s.procs[pid].subject)));
  }
}
