/** What the protocol guarantees over every run: the row of a subject is an
    exact cache of its intents, and while the row is unmarked and not due, the
    directory satisfies the assertions for the current aggregate state. */
module Coherence {
  import opened Common
  import opened Intents
  import opened Timeline
  import opened Policy
  import opened Backoff
  import opened Store
  import opened Convergence
  import opened Protocol
  import opened ProtocolInvariant

  /** Where a run of the system starts. */
  datatype Start = Start(clock: Time, members: map<string, set<string>>)

  ghost predicate IsHistory(par: Params, start: Start, steps: seq<Step>) {
    ValidConfig(par.cfg) && Executable(par, Initial(start.clock, start.members), steps)
  }

  /** The state after a history. */
  ghost function StateAfter(par: Params, start: Start, steps: seq<Step>): Sys
    requires IsHistory(par, start, steps)
  {
    Final(par, Initial(start.clock, start.members), steps)
  }

  lemma HistoryInv(par: Params, start: Start, steps: seq<Step>)
    requires IsHistory(par, start, steps)
    ensures Inv(par, StateAfter(par, start, steps))
  {
    InitialInv(par, start.clock, start.members);
    InvAlways(par, Initial(start.clock, start.members), steps);
  }

  ghost predicate Unmarked(db: Tables, x: string) {
    x in db.states && db.states[x].nextRetry.None?
  }

  /** In every reachable state a row without a retry time describes exactly the
      stored intents: they are those its last success read, and the next
      transition is their earliest boundary after that success. */
  lemma UnmarkedRowIsExact(par: Params, start: Start, steps: seq<Step>, x: string)
    requires IsHistory(par, start, steps) && Unmarked(StateAfter(par, start, steps).db, x)
    ensures var s := StateAfter(par, start, steps);
      && x in s.seen
      && s.seen[x].intents == IntentsOf(s.db, x)
      && s.db.states[x].lastSuccess == Some(s.seen[x].at)
      && IsEarliest(BoundariesOf(IntentsOf(s.db, x)), s.seen[x].at, s.db.states[x].nextTransition)
  {
    HistoryInv(par, start, steps);
    assert RowOk(par, StateAfter(par, start, steps), x);
  }

  /** Cache coherence: at every instant from the last success on, an unmarked
      row that is not due means that the aggregate state of the intents stored
      now is the state planned then. */
  lemma CacheCoherence(par: Params, start: Start, steps: seq<Step>, x: string, t: Time)
    requires IsHistory(par, start, steps) && Unmarked(StateAfter(par, start, steps).db, x)
    requires var s := StateAfter(par, start, steps);
      s.db.states[x].lastSuccess.Some? && s.db.states[x].lastSuccess.value <= t && x !in DueSubjects(s.db, t)
    ensures var s := StateAfter(par, start, steps);
      && x in s.seen
      && StateOf(IntentsOf(s.db, x), t) == StateOf(s.seen[x].intents, s.seen[x].at)
  {
    var s := StateAfter(par, start, steps);
    HistoryInv(par, start, steps);
    assert RowOk(par, s, x);
    IntentsAreValid(s.db, x);
    NotDue(s.db, x, t);
    QuietUntilNext(s.seen[x].intents, s.seen[x].at, t);
  }

  lemma NotDue(db: Tables, x: string, t: Time)
    requires x in db.states && x !in DueSubjects(db, t)
    ensures Before(t, db.states[x].nextTransition) && Before(t, db.states[x].nextRetry)
  {
  }

  /** The main result. In every reachable state, a subject whose row is
      unmarked and not due, and whose user nobody else has written since, holds
      exactly what its rule asserts for the aggregate state now: the goal is
      satisfied and a fresh plan under that rule would be empty. */
  lemma NotDueMeansApplied(par: Params, start: Start, steps: seq<Step>, x: string)
    requires IsHistory(par, start, steps) && Unmarked(StateAfter(par, start, steps).db, x)
    requires var s := StateAfter(par, start, steps); x !in DueSubjects(s.db, s.clock) && x !in s.disturbed
    ensures var s := StateAfter(par, start, steps);
      var state, members := StateOf(IntentsOf(s.db, x), s.clock), Members(s, par.userOf(x));
      && x in s.seen
      && Satisfied(GoalFor(par.cfg, s.seen[x].rule, state), members)
      && OpsFor(par.cfg, s.seen[x].rule, state, members) == []
  {
    var s := StateAfter(par, start, steps);
    HistoryInv(par, start, steps);
    assert RowOk(par, s, x) && GroupsOk(par, s, x);
    NotDue(s.db, x, s.clock);
    CacheCoherence(par, start, steps, x, s.clock);
    SatisfiedMeansNothingToDo(par.cfg, s.seen[x].rule, StateOf(IntentsOf(s.db, x), s.clock), Members(s, par.userOf(x)));
  }

  /** A run that records a success read the intents that are stored now: a
      stale run never clears the mark of a newer intent. */
  lemma NoStaleSuccess(par: Params, start: Start, steps: seq<Step>, pid: Pid)
    requires IsHistory(par, start, steps) && Enabled(par, StateAfter(par, start, steps), OfRun(pid, RecordSuccess))
    ensures var s := StateAfter(par, start, steps);
      && s.procs[pid].run.Applying?
      && s.procs[pid].run.intents == IntentsOf(s.db, s.procs[pid].subject)
  {
    var s := StateAfter(par, start, steps);
    HistoryInv(par, start, steps);
    assert ProcOk(par, s, pid, s.procs[pid]);
  }

  /** Whatever interleaving of deliveries of the same identity, a step that
      changes the intents of a subject marks that subject due in the same
      commit. */
  lemma GainOrLossMarks(par: Params, start: Start, steps: seq<Step>, step: Step, x: string)
    requires IsHistory(par, start, steps) && Enabled(par, StateAfter(par, start, steps), step)
    requires var s := StateAfter(par, start, steps); IntentsOf(Next(par, s, step).db, x) != IntentsOf(s.db, x)
    ensures var s' := Next(par, StateAfter(par, start, steps), step);
      && step.OfDelivery? && step.delivery.Commit?
      && x in s'.db.states && s'.db.states[x].nextRetry.Some? && x in DueSubjects(s'.db, s'.clock)
  {
    var s := StateAfter(par, start, steps);
    HistoryInv(par, start, steps);
    if step.OfDelivery? && step.delivery.Commit? {
      CommitEffect(par, s, step.pid);
      CommitMarks(s.db, s.procs[step.pid].accepted, s.procs[step.pid].at, x, s.clock);
    } else if step.OfRun? && (step.run.RecordSuccess? || step.run.RecordFailure?) {
      RecordKeepsIntents(par, s, step.pid, step.run);
    } else {
      QuietSteps(par, s, step);
    }
  }

  lemma CommitMarks(db: Tables, e: Intent, at: Time, x: string, now: Time)
    requires ValidTables(db) && at <= now && IntentsOf(Upserted(db, e, at), x) != IntentsOf(db, x)
    ensures var db' := Upserted(db, e, at);
      x in db'.states && db'.states[x].nextRetry.Some? && x in DueSubjects(db', now)
  {
    if x in Affected(PreviousSubject(db, e.Identity()), e.subject) {
      UpsertMarksAffected(db, e, at, x, now);
    } else {
      UpsertLeavesOthers(db, e, at, x);
    }
  }

  /** Every subject that has an intent, in whatever phase, has a row. */
  lemma IntentsHaveRows(par: Params, start: Start, steps: seq<Step>)
    requires IsHistory(par, start, steps)
    ensures var s := StateAfter(par, start, steps); SubjectsWithIntents(s.db) <= s.db.states.Keys
  {
    HistoryInv(par, start, steps);
  }

  /** The step records an outcome for x. */
  ghost predicate Records(s: Sys, step: Step, x: string) {
    step.OfRun? && (step.run.RecordSuccess? || step.run.RecordFailure?)
    && IsRun(s, step.pid) && s.procs[step.pid].subject == x
  }

  ghost predicate NoneRecords(par: Params, s: Sys, steps: seq<Step>, x: string)
    requires Executable(par, s, steps)
    decreases |steps|
  {
    steps == [] || (!Records(s, steps[0], x) && NoneRecords(par, Next(par, s, steps[0]), steps[1..], x))
  }

  /** A due subject stays due until a run records an outcome for it, whatever
      crashes, cancellations and further deliveries come between. */
  lemma {:induction false} DueUntilRecorded(par: Params, s: Sys, steps: seq<Step>, x: string)
    requires ValidConfig(par.cfg) && Inv(par, s) && Executable(par, s, steps) && NoneRecords(par, s, steps, x)
    requires x in DueSubjects(s.db, s.clock)
    ensures var s' := Final(par, s, steps); x in DueSubjects(s'.db, s'.clock)
    decreases |steps|
  {
    if steps != [] {
      KeepInv(par, s, steps[0]);
      StaysDue(par, s, steps[0], x);
      DueUntilRecorded(par, Next(par, s, steps[0]), steps[1..], x);
    }
  }

  lemma StaysDue(par: Params, s: Sys, step: Step, x: string)
    requires Enabled(par, s, step) && Inv(par, s) && !Records(s, step, x) && x in DueSubjects(s.db, s.clock)
    ensures var s' := Next(par, s, step); x in DueSubjects(s'.db, s'.clock)
  {
    var s' := Next(par, s, step);
    if step.OfDelivery? && step.delivery.Commit? {
      var e, at := s.procs[step.pid].accepted, s.procs[step.pid].at;
      CommitEffect(par, s, step.pid);
      if x in Affected(PreviousSubject(s.db, e.Identity()), e.subject) {
        UpsertMarksAffected(s.db, e, at, x, s.clock);
      } else {
        UpsertLeavesOthers(s.db, e, at, x);
        assert x in s'.db.states <==> RowOf(s'.db, x).Some?;
        assert x in s.db.states <==> RowOf(s.db, x).Some?;
      }
    } else if step.OfRun? && step.run.RecordSuccess? {
      SuccessEffect(par, s, step.pid);
      var at := s.procs[step.pid].run;
      SuccessSchedules(s.db, s.procs[step.pid].subject, at.started, NextOf(at.intents, at.started), s.clock);
    } else if step.OfRun? && step.run.RecordFailure? {
      FailureEffect(par, s, step.pid, step.run.message);
      var at, y := s.procs[step.pid].run, s.procs[step.pid].subject;
      FailureSchedules(s.db, y, at.started, step.run.message, at.next, RetryAt(par, RowOf(s.db, y), at.started), s.clock);
    } else {
      QuietSteps(par, s, step);
      LaterStillDue(s.db, x, s.clock, s'.clock);
    }
  }

  lemma LaterStillDue(db: Tables, x: string, t: Time, u: Time)
    requires x in DueSubjects(db, t) && t <= u
    ensures x in DueSubjects(db, u)
  {
  }

  /** Recorded failures of x in a history since its last recorded success,
      counting on from count. */
  ghost function FailureCount(par: Params, s: Sys, steps: seq<Step>, x: string, count: nat): nat
    requires Executable(par, s, steps)
    decreases |steps|
  {
    if steps == [] then count else
    var counted := if !Records(s, steps[0], x) then count else if steps[0].run.RecordFailure? then count + 1 else 0;
    FailureCount(par, Next(par, s, steps[0]), steps[1..], x, counted)
  }

  lemma {:induction false} FailuresCounted(par: Params, s: Sys, steps: seq<Step>, x: string)
    requires Executable(par, s, steps)
    ensures Failures(Final(par, s, steps), x) == FailureCount(par, s, steps, x, Failures(s, x))
    decreases |steps|
  {
    if steps != [] {
      FailuresCounted(par, Next(par, s, steps[0]), steps[1..], x);
      FailureCounts(par, s, steps[0], x);
    }
  }

  lemma FailureCounts(par: Params, s: Sys, step: Step, x: string)
    requires Enabled(par, s, step)
    ensures Failures(Next(par, s, step), x)
         == if !Records(s, step, x) then Failures(s, x) else if step.run.RecordFailure? then Failures(s, x) + 1 else 0
  {
  }

  /** Backoff along every run: retry_count is the number of failures recorded
      since the last recorded success, and a row whose last mark is its k-th
      failure is retried exactly min(initial * 2^(k-1), maximum) after the
      attempt. */
  lemma BackoffIsExact(par: Params, start: Start, steps: seq<Step>, x: string)
    requires IsHistory(par, start, steps) && x in StateAfter(par, start, steps).db.states
    ensures var s := StateAfter(par, start, steps);
      && s.db.states[x].retryCount == FailureCount(par, Initial(start.clock, start.members), steps, x, 0)
      && (s.db.states[x].nextRetry.Some? && x in s.marks && s.marks[x].ByFailure? ==>
            && s.marks[x].count == s.db.states[x].retryCount >= 1
            && s.db.states[x].nextRetry.value
               == s.marks[x].started + Min(par.retryInitial * Pow2(s.marks[x].count - 1), par.retryMax))
  {
    var s := StateAfter(par, start, steps);
    HistoryInv(par, start, steps);
    assert RowOk(par, s, x);
    FailuresCounted(par, Initial(start.clock, start.members), steps, x);
  }
}
