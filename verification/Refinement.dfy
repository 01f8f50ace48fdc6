/** The attempt as code and the run as a process of the protocol are one: however
    an attempt ends, a run of the protocol ends with the same tables and groups. */
module Refinement {
  import opened Common
  import opened Intents
  import opened Timeline
  import opened Policy
  import opened Planner
  import opened Backoff
  import opened Store
  import opened Convergence
  import opened Protocol
  import opened ProtocolInvariant
  import opened Scenarios
  import opened Preview
  import R = Reconciliation

  /** From s0 on nothing has happened but a run on x, which is at this point; the
      tables are db, and its user has these groups. */
  ghost predicate Here(par: Params, s0: Sys, s: Sys, pid: Pid, x: string, at: RunAt, db: Tables, held: set<string>) {
    && s.clock == s0.clock && s.db == db && pid !in s.spoiled
    && s.procs == s0.procs[pid := Run(x, true, at)]
    && Members(s, par.userOf(x)) == held
    && (forall u :: u != par.userOf(x) ==> Members(s, u) == Members(s0, u))
  }

  /** The steps bring a run on x to this point. */
  ghost predicate Comes(par: Params, s0: Sys, steps: seq<Step>, s: Sys, pid: Pid, x: string, at: RunAt,
      db: Tables, held: set<string>)
  {
    Takes(par, s0, steps, s) && Here(par, s0, s, pid, x, at, db, held)
  }

  predicate Plain(r: RunStep) {
    !r.Write? && !r.WriteFails? && !r.RecordSuccess? && !r.RecordFailure? && !r.LoseConnection?
  }

  lemma OneMore(par: Params, s0: Sys, steps: seq<Step>, s: Sys, step: Step)
    requires Takes(par, s0, steps, s) && Enabled(par, s, step)
    ensures Takes(par, s0, steps + [step], Next(par, s, step))
  {
    TakesOne(par, s, step);
    JoinTakes(par, s0, steps, s, [step], Next(par, s, step));
  }

  lemma PlainStays(par: Params, s0: Sys, s: Sys, pid: Pid, x: string, at: RunAt, db: Tables, held: set<string>, r: RunStep)
    requires Here(par, s0, s, pid, x, at, db, held) && Plain(r)
    ensures Here(par, s0, Next(par, s, OfRun(pid, r)), pid, x, RunNext(par, s, x, at, r), db, held)
  {
    QuietSteps(par, s, OfRun(pid, r));
    assert EditOf(par, s, OfRun(pid, r)).None?;
  }

  lemma Moves(par: Params, s0: Sys, steps: seq<Step>, s: Sys, pid: Pid, x: string, at: RunAt, db: Tables,
      held: set<string>, r: RunStep)
    returns (more: seq<Step>, s': Sys)
    requires Comes(par, s0, steps, s, pid, x, at, db, held) && Plain(r) && RunEnabled(par, s, pid, x, true, at, r)
    ensures Comes(par, s0, more, s', pid, x, RunNext(par, s, x, at, r), db, held)
  {
    OneMore(par, s0, steps, s, OfRun(pid, r));
    PlainStays(par, s0, s, pid, x, at, db, held, r);
    more, s' := steps + [OfRun(pid, r)], Next(par, s, OfRun(pid, r));
  }

  lemma WriteStays(par: Params, s0: Sys, s: Sys, pid: Pid, x: string, at: RunAt, db: Tables, held: set<string>, r: RunStep)
    requires Here(par, s0, s, pid, x, at, db, held) && at.Applying? && at.ops != [] && (r.Write? || r.WriteFails?)
    ensures Here(par, s0, Next(par, s, OfRun(pid, r)), pid, x, RunNext(par, s, x, at, r), db,
                 if r.Write? || r.tookEffect then Apply(at.ops[0], held) else held)
  {
    QuietSteps(par, s, OfRun(pid, r));
  }

  lemma Writes(par: Params, s0: Sys, steps: seq<Step>, s: Sys, pid: Pid, x: string, at: RunAt, db: Tables,
      held: set<string>, r: RunStep)
    returns (more: seq<Step>, s': Sys)
    requires Comes(par, s0, steps, s, pid, x, at, db, held) && at.Applying? && at.ops != [] && (r.Write? || r.WriteFails?)
    ensures Comes(par, s0, more, s', pid, x, RunNext(par, s, x, at, r), db,
                  if r.Write? || r.tookEffect then Apply(at.ops[0], held) else held)
  {
    OneMore(par, s0, steps, s, OfRun(pid, r));
    WriteStays(par, s0, s, pid, x, at, db, held, r);
    more, s' := steps + [OfRun(pid, r)], Next(par, s, OfRun(pid, r));
  }

  // ----- the ways an attempt ends

  lemma Closes(par: Params, s0: Sys, steps: seq<Step>, s: Sys, pid: Pid, x: string, db: Tables, held: set<string>)
    returns (more: seq<Step>, s': Sys)
    requires Comes(par, s0, steps, s, pid, x, Closing, db, held)
    ensures Comes(par, s0, more, s', pid, x, Done, db, held)
  {
    more, s' := Moves(par, s0, steps, s, pid, x, Closing, db, held, Close);
  }

  lemma GivesUp(par: Params, s0: Sys, steps: seq<Step>, s: Sys, pid: Pid, x: string, at: RunAt, db: Tables, held: set<string>)
    returns (more: seq<Step>, s': Sys)
    requires Comes(par, s0, steps, s, pid, x, at, db, held)
    requires !at.Waiting? && !at.Opening? && !at.Closing? && !at.Done?
    ensures Comes(par, s0, more, s', pid, x, Done, db, held)
  {
    more, s' := Moves(par, s0, steps, s, pid, x, at, db, held, Quit);
    more, s' := Closes(par, s0, more, s', pid, x, db, held);
  }

  lemma Records(par: Params, s0: Sys, steps: seq<Step>, s: Sys, pid: Pid, x: string, at: RunAt, db: Tables, held: set<string>)
    returns (more: seq<Step>, s': Sys)
    requires Comes(par, s0, steps, s, pid, x, at, db, held) && at.Applying? && at.ops == []
    ensures Comes(par, s0, more, s', pid, x, Done, Succeeded(db, x, at.started, NextOf(at.intents, at.started)), held)
  {
    OneMore(par, s0, steps, s, OfRun(pid, RecordSuccess));
    RecordsTo(par, s, pid);
    more, s' := Closes(par, s0, steps + [OfRun(pid, RecordSuccess)], Next(par, s, OfRun(pid, RecordSuccess)), pid, x,
                       Succeeded(db, x, at.started, NextOf(at.intents, at.started)), held);
  }

  lemma FailureStays(par: Params, s0: Sys, s: Sys, pid: Pid, x: string, at: RunAt, db: Tables, held: set<string>, message: string)
    requires Here(par, s0, s, pid, x, at, db, held) && at.Failing?
    ensures Here(par, s0, Next(par, s, OfRun(pid, RecordFailure(message))), pid, x, Closing,
                 Failed(db, x, at.started, message, at.next, RetryAt(par, at.row, at.started)), held)
  {
  }

  /** A failing run records its failure, or gives up if it was cancelled or the
      record is refused. */
  lemma Fails(par: Params, s0: Sys, steps: seq<Step>, s: Sys, pid: Pid, x: string, at: RunAt, db: Tables, held: set<string>,
      f: R.Faults, message: string)
    returns (more: seq<Step>, s': Sys)
    requires Comes(par, s0, steps, s, pid, x, at, db, held) && at.Failing?
    ensures Comes(par, s0, more, s', pid, x, Done,
                  if f.cancelled || f.recordFailure.Refused? then db
                  else Failed(db, x, at.started, message, at.next, RetryAt(par, at.row, at.started)), held)
  {
    if f.cancelled || f.recordFailure.Refused? {
      more, s' := GivesUp(par, s0, steps, s, pid, x, at, db, held);
    } else {
      OneMore(par, s0, steps, s, OfRun(pid, RecordFailure(message)));
      FailureStays(par, s0, s, pid, x, at, db, held, message);
      more, s' := Closes(par, s0, steps + [OfRun(pid, RecordFailure(message))], Next(par, s, OfRun(pid, RecordFailure(message))),
                         pid, x, Failed(db, x, at.started, message, at.next, RetryAt(par, at.row, at.started)), held);
    }
  }

  /** The first k writes. */
  lemma {:induction false} WritesFirst(par: Params, s0: Sys, steps: seq<Step>, s: Sys, pid: Pid, x: string, at: RunAt,
      db: Tables, held: set<string>, k: nat)
    returns (more: seq<Step>, s': Sys)
    requires Comes(par, s0, steps, s, pid, x, at, db, held) && at.Applying? && k <= |at.ops|
    ensures Comes(par, s0, more, s', pid, x, at.(ops := at.ops[k..]), db, ApplyAll(at.ops[..k], held))
    decreases k
  {
    if k == 0 {
      assert at.ops[0..] == at.ops && at.ops[..0] == [];
      more, s' := steps, s;
    } else {
      more, s' := Writes(par, s0, steps, s, pid, x, at, db, held, Write);
      more, s' := WritesFirst(par, s0, more, s', pid, x, at.(ops := at.ops[1..]), db, Apply(at.ops[0], held), k - 1);
      SplitFirst(at.ops, k);
    }
  }

  lemma SplitFirst(ops: seq<Op>, k: nat)
    requires 0 < k <= |ops|
    ensures ops[1..][k - 1..] == ops[k..] && ops[1..][..k - 1] == ops[..k][1..] && ops[..k][0] == ops[0]
  {
  }

  // ----- how far an attempt gets

  lemma Opens(par: Params, s0: Sys, pid: Pid, x: string) returns (steps: seq<Step>, s: Sys)
    requires Idle(par, s0, pid) && pid !in s0.procs && pid !in s0.spoiled
    ensures Comes(par, s0, steps, s, pid, x, Begun(s0.clock), s0.db, Members(s0, par.userOf(x)))
  {
    steps := RunToLock(par, s0, pid, x);
    s := At(s0, pid, Run(x, true, Locked));
    steps, s := Moves(par, s0, steps, s, pid, x, Locked, s0.db, Members(s0, par.userOf(x)), Begin);
  }

  lemma ReadsState(par: Params, s0: Sys, pid: Pid, x: string) returns (steps: seq<Step>, s: Sys)
    requires Idle(par, s0, pid) && pid !in s0.procs && pid !in s0.spoiled
    ensures Comes(par, s0, steps, s, pid, x, Stated(s0.clock, RowOf(s0.db, x)), s0.db, Members(s0, par.userOf(x)))
  {
    steps, s := Opens(par, s0, pid, x);
    steps, s := Moves(par, s0, steps, s, pid, x, Begun(s0.clock), s0.db, Members(s0, par.userOf(x)), ReadState);
  }

  ghost function Viewing(s0: Sys, x: string): RunAt {
    Resolving(s0.clock, RowOf(s0.db, x), IntentsOf(s0.db, x))
  }

  lemma ReadsAll(par: Params, s0: Sys, pid: Pid, x: string) returns (steps: seq<Step>, s: Sys)
    requires Idle(par, s0, pid) && pid !in s0.procs && pid !in s0.spoiled
    ensures Comes(par, s0, steps, s, pid, x, Viewing(s0, x), s0.db, Members(s0, par.userOf(x)))
  {
    var t, row, held := s0.clock, RowOf(s0.db, x), Members(s0, par.userOf(x));
    steps, s := ReadsState(par, s0, pid, x);
    steps, s := Moves(par, s0, steps, s, pid, x, Stated(t, row), s0.db, held, ReadIntents);
    steps, s := Moves(par, s0, steps, s, pid, x, Listed(t, row, IntentsOf(s0.db, x)), s0.db, held, StartResolve);
  }

  lemma Plans(par: Params, s0: Sys, pid: Pid, x: string, profile: User) returns (steps: seq<Step>, s: Sys)
    requires Idle(par, s0, pid) && pid !in s0.procs && pid !in s0.spoiled
    requires profile.id == par.userOf(x) && profile.groups == HeldList(par.cfg.groups, Members(s0, par.userOf(x)))
    ensures Comes(par, s0, steps, s, pid, x, Resolved(par, Viewing(s0, x), profile, Members(s0, par.userOf(x))),
                  s0.db, Members(s0, par.userOf(x)))
  {
    var held := Members(s0, par.userOf(x));
    steps, s := ReadsAll(par, s0, pid, x);
    var r := RunStep.Resolve(profile, held);
    assert RunNext(par, s, x, Viewing(s0, x), r) == Resolved(par, Viewing(s0, x), profile, held);
    steps, s := Moves(par, s0, steps, s, pid, x, Viewing(s0, x), s0.db, held, r);
  }

  // ----- every way the code ends

  /** The settings of the code are the parameters of the protocol. */
  predicate SameSettings(par: Params, st: Settings) {
    par.retryInitial == st.retryInitial as int && par.retryMax == st.retryMax as int
  }

  ghost predicate Ready(par: Params, s0: Sys, pid: Pid) {
    Idle(par, s0, pid) && pid !in s0.procs && pid !in s0.spoiled
  }

  lemma NeverLocks(par: Params, s0: Sys, pid: Pid, x: string) returns (steps: seq<Step>, s: Sys)
    requires Ready(par, s0, pid)
    ensures Comes(par, s0, steps, s, pid, x, Done, s0.db, Members(s0, par.userOf(x)))
  {
    s := At(s0, pid, Run(x, true, Waiting));
    TakesOne(par, s0, Launch(pid, x));
    assert Next(par, s0, Launch(pid, x)) == s;
    steps, s := Moves(par, s0, [Launch(pid, x)], s, pid, x, Waiting, s0.db, Members(s0, par.userOf(x)), Quit);
  }

  /** The tables when a failure has been recorded, unless it was not. */
  ghost function FailureTables(par: Params, s0: Sys, x: string, f: R.Faults, message: string, next: Option<Time>): Tables {
    if f.cancelled || f.recordFailure.Refused? then s0.db
    else Failed(s0.db, x, s0.clock, message, next, RetryAt(par, RowOf(s0.db, x), s0.clock))
  }

  lemma RecordedAsRun(par: Params, s0: Sys, x: string, st: Settings, f: R.Faults, cause: R.RunError, next: Option<Time>, after: Tables)
    requires SameSettings(par, st) && R.FailureRecorded(st, f, s0.db, after, x, s0.clock, cause, next)
    ensures after == FailureTables(par, s0, x, f, R.Message(cause), next)
  {
  }

  lemma FailsToList(par: Params, s0: Sys, pid: Pid, x: string, f: R.Faults, message: string)
    returns (steps: seq<Step>, s: Sys)
    requires Ready(par, s0, pid)
    ensures Comes(par, s0, steps, s, pid, x, Done,
                  FailureTables(par, s0, x, f, message, if x in s0.db.states then s0.db.states[x].nextTransition else None),
                  Members(s0, par.userOf(x)))
  {
    var t, row, held := s0.clock, RowOf(s0.db, x), Members(s0, par.userOf(x));
    steps, s := ReadsState(par, s0, pid, x);
    steps, s := Moves(par, s0, steps, s, pid, x, Stated(t, row), s0.db, held, ReadIntentsFails);
    var next := if row.Some? then row.value.nextTransition else None;
    steps, s := Fails(par, s0, steps, s, pid, x, Failing(t, row, next), s0.db, held, f, message);
  }

  lemma FailsToResolve(par: Params, s0: Sys, pid: Pid, x: string, f: R.Faults, message: string)
    returns (steps: seq<Step>, s: Sys)
    requires Ready(par, s0, pid)
    ensures Comes(par, s0, steps, s, pid, x, Done,
                  FailureTables(par, s0, x, f, message, NextOf(IntentsOf(s0.db, x), s0.clock)), Members(s0, par.userOf(x)))
  {
    var held := Members(s0, par.userOf(x));
    steps, s := ReadsAll(par, s0, pid, x);
    steps, s := Moves(par, s0, steps, s, pid, x, Viewing(s0, x), s0.db, held, ResolveFails);
    steps, s := Fails(par, s0, steps, s, pid, x, FailedRead(Viewing(s0, x)), s0.db, held, f, message);
  }

  lemma FailsToPlan(par: Params, s0: Sys, pid: Pid, x: string, f: R.Faults, user: User, message: string)
    returns (steps: seq<Step>, s: Sys)
    requires Ready(par, s0, pid) && user.id == par.userOf(x) && FirstMatch(par.cfg.programs, user).Err?
    requires user.groups == HeldList(par.cfg.groups, Members(s0, par.userOf(x)))
    ensures Comes(par, s0, steps, s, pid, x, Done,
                  FailureTables(par, s0, x, f, message, NextOf(IntentsOf(s0.db, x), s0.clock)), Members(s0, par.userOf(x)))
  {
    steps, s := Plans(par, s0, pid, x, user);
    steps, s := Fails(par, s0, steps, s, pid, x, FailedRead(Viewing(s0, x)), s0.db, Members(s0, par.userOf(x)), f, message);
  }

  lemma StaysUnread(par: Params, s0: Sys, pid: Pid, x: string) returns (steps: seq<Step>, s: Sys)
    requires Ready(par, s0, pid)
    ensures Comes(par, s0, steps, s, pid, x, Done, s0.db, Members(s0, par.userOf(x)))
  {
    steps, s := Opens(par, s0, pid, x);
    steps, s := GivesUp(par, s0, steps, s, pid, x, Begun(s0.clock), s0.db, Members(s0, par.userOf(x)));
  }

  /** The ends before there is a plan. */
  lemma EndsUnplanned(par: Params, s0: Sys, pid: Pid, x: string, st: Settings, f: R.Faults, user: User, e: R.RunError, after: Tables)
    returns (steps: seq<Step>, s: Sys)
    requires Ready(par, s0, pid) && SameSettings(par, st) && user.id == par.userOf(x)
    requires user.groups == HeldList(par.cfg.groups, Members(s0, par.userOf(x)))
    requires R.BeforePlan(e) && R.TablesAfter(st, f, s0.db, after, x, Some(e), s0.clock)
    requires e.NotPlanned? ==> FirstMatch(par.cfg.programs, user).Err?
    ensures Comes(par, s0, steps, s, pid, x, Done, after, Members(s0, par.userOf(x)))
  {
    if e.NotLocked? {
      steps, s := NeverLocks(par, s0, pid, x);
    } else if e.StateUnread? {
      steps, s := StaysUnread(par, s0, pid, x);
    } else if e.IntentsUnread? {
      RecordedAsRun(par, s0, x, st, f, e, if x in s0.db.states then s0.db.states[x].nextTransition else None, after);
      steps, s := FailsToList(par, s0, pid, x, f, R.Message(e));
    } else {
      RecordedAsRun(par, s0, x, st, f, e, NextOf(IntentsOf(s0.db, x), s0.clock), after);
      if e.Unresolved? {
        steps, s := FailsToResolve(par, s0, pid, x, f, R.Message(e));
      } else {
        steps, s := FailsToPlan(par, s0, pid, x, f, user, R.Message(e));
      }
    }
  }

  /** The run when its plan is made. */
  ghost function WithPlan(par: Params, s0: Sys, x: string, rule: Option<nat>, ops: seq<Op>): RunAt {
    Applying(s0.clock, RowOf(s0.db, x), IntentsOf(s0.db, x), rule, ops)
  }

  lemma MakesPlan(par: Params, s0: Sys, pid: Pid, x: string, user: User, listing: seq<Intent>)
    returns (steps: seq<Step>, s: Sys)
    requires Ready(par, s0, pid) && user.id == par.userOf(x)
    requires user.groups == HeldList(par.cfg.groups, Members(s0, par.userOf(x)))
    requires FirstMatch(par.cfg.programs, user).Ok? && Lists(s0.db, x, listing)
    ensures var rule := FirstMatch(par.cfg.programs, user).value;
      var plan := PlanWith(par.cfg, user, rule, listing, s0.clock);
      Comes(par, s0, steps, s, pid, x, WithPlan(par, s0, x, rule, PlanOps(par.cfg.groups, plan.addGroups, plan.removeGroups)),
            s0.db, Members(s0, par.userOf(x)))
  {
    steps, s := Plans(par, s0, pid, x, user);
    OpsForIsThePlan(par.cfg, user, FirstMatch(par.cfg.programs, user).value, listing, s0.clock, Members(s0, par.userOf(x)));
  }

  /** Group-level writes are the operations, one by one. */
  lemma OpsAreOperations(groups: Groups, add: seq<string>, remove: seq<string>)
    ensures |PlanOps(groups, add, remove)| == |R.Operations(add, remove)| == |add| + |remove|
    ensures forall i :: 0 <= i < |add| + |remove| ==> PlanOps(groups, add, remove)[i] == R.OpOf(groups, R.Operations(add, remove)[i])
  {
  }

  /** The writes that an attempt accounts for are the first of the planned ones, and
      the failed one is the next. */
  lemma AccountedOps(groups: Groups, plan: Plan, report: R.Report)
    requires R.Accounted(R.Operations(plan.addGroups, plan.removeGroups), R.Operations(report.added, report.removed), report.failed)
    ensures var ops, done := PlanOps(groups, plan.addGroups, plan.removeGroups), |report.added| + |report.removed|;
      && done <= |ops| && PlanOps(groups, report.added, report.removed) == ops[..done]
      && (report.failed.None? ==> done == |ops|)
      && (report.failed.Some? ==> done < |ops| && ops[done] == R.OpOf(groups, report.failed.value))
  {
    var all, made := R.Operations(plan.addGroups, plan.removeGroups), R.Operations(report.added, report.removed);
    OpsAreOperations(groups, plan.addGroups, plan.removeGroups);
    OpsAreOperations(groups, report.added, report.removed);
    assert forall i :: 0 <= i < |made| ==> made[i] == all[i];
  }

  /** The groups after the first writes and, if it took effect, the one after them. */
  ghost function MadeOf(ops: seq<Op>, done: nat, before: set<string>, took: bool): set<string>
    requires done < |ops|
  {
    if took then Apply(ops[done], ApplyAll(ops[..done], before)) else ApplyAll(ops[..done], before)
  }

  /** A write fails: the run makes the writes before it, and then fails. */
  lemma EndsAtWrite(par: Params, s0: Sys, steps0: seq<Step>, s: Sys, pid: Pid, x: string, rule: Option<nat>, ops: seq<Op>,
      f: R.Faults, done: nat, message: string)
    returns (steps: seq<Step>, s': Sys)
    requires Comes(par, s0, steps0, s, pid, x, WithPlan(par, s0, x, rule, ops), s0.db, Members(s0, par.userOf(x))) && done < |ops|
    ensures Comes(par, s0, steps, s', pid, x, Done,
                  FailureTables(par, s0, x, f, message, NextOf(IntentsOf(s0.db, x), s0.clock)),
                  MadeOf(ops, done, Members(s0, par.userOf(x)), f.Write(done).Unacknowledged?))
  {
    var held := Members(s0, par.userOf(x));
    var at, left := WithPlan(par, s0, x, rule, ops), WithPlan(par, s0, x, rule, ops[done..]);
    var made, took := ApplyAll(ops[..done], held), f.Write(done).Unacknowledged?;
    steps, s' := WritesFirst(par, s0, steps0, s, pid, x, at, s0.db, held, done);
    steps, s' := Writes(par, s0, steps, s', pid, x, left, s0.db, made, WriteFails(took));
    steps, s' := Fails(par, s0, steps, s', pid, x, FailedRead(left), s0.db, MadeOf(ops, done, held, took), f, message);
  }

  /** All writes are made: the run records its success, or gives up if the record is
      refused. */
  lemma EndsAfterWrites(par: Params, s0: Sys, steps0: seq<Step>, s: Sys, pid: Pid, x: string, rule: Option<nat>, ops: seq<Op>,
      refused: bool)
    returns (steps: seq<Step>, s': Sys)
    requires Comes(par, s0, steps0, s, pid, x, WithPlan(par, s0, x, rule, ops), s0.db, Members(s0, par.userOf(x)))
    ensures Comes(par, s0, steps, s', pid, x, Done,
                  if refused then s0.db else Succeeded(s0.db, x, s0.clock, NextOf(IntentsOf(s0.db, x), s0.clock)),
                  ApplyAll(ops, Members(s0, par.userOf(x))))
  {
    var n, held := |ops|, Members(s0, par.userOf(x));
    var at, last := WithPlan(par, s0, x, rule, ops), WithPlan(par, s0, x, rule, []);
    assert ops[..n] == ops && ops[n..] == [];
    steps, s' := WritesFirst(par, s0, steps0, s, pid, x, at, s0.db, held, n);
    if refused {
      steps, s' := GivesUp(par, s0, steps, s', pid, x, last, s0.db, ApplyAll(ops, held));
    } else {
      steps, s' := Records(par, s0, steps, s', pid, x, last, s0.db, ApplyAll(ops, held));
    }
  }

  ghost function OpsOf(par: Params, plan: Plan): seq<Op> {
    PlanOps(par.cfg.groups, plan.addGroups, plan.removeGroups)
  }

  /** What the contract says of an attempt whose write failed, on group IDs. */
  lemma FailedEnd(par: Params, s0: Sys, x: string, st: Settings, f: R.Faults, plan: Plan, report: R.Report,
      before: set<string>, after: Tables, held': set<string>)
    requires SameSettings(par, st) && report.plan == Some(plan) && report.failed.Some?
    requires R.TablesAfter(st, f, s0.db, after, x, report.error, s0.clock) && R.ReportOk(par.cfg.groups, f, report, before, held')
    ensures |report.added| + |report.removed| < |OpsOf(par, plan)| && report.error == Some(R.NotWritten(report.failed.value))
    ensures after == FailureTables(par, s0, x, f, R.Message(R.NotWritten(report.failed.value)), NextOf(IntentsOf(s0.db, x), s0.clock))
    ensures held' == MadeOf(OpsOf(par, plan), |report.added| + |report.removed|, before,
                            f.Write(|report.added| + |report.removed|).Unacknowledged?)
  {
    AccountedOps(par.cfg.groups, plan, report);
    RecordedAsRun(par, s0, x, st, f, report.error.value, NextOf(IntentsOf(s0.db, x), s0.clock), after);
  }

  /** The same when all writes were made. */
  lemma CompletedEnd(par: Params, s0: Sys, x: string, st: Settings, f: R.Faults, plan: Plan, report: R.Report,
      before: set<string>, after: Tables, held': set<string>)
    requires report.plan == Some(plan) && report.failed.None? && (report.error.Some? ==> !R.BeforePlan(report.error.value))
    requires R.TablesAfter(st, f, s0.db, after, x, report.error, s0.clock) && R.ReportOk(par.cfg.groups, f, report, before, held')
    ensures held' == ApplyAll(OpsOf(par, plan), before)
    ensures after == if report.error == Some(R.NotRecorded) && f.recordSuccess.Refused? then s0.db
                     else Succeeded(s0.db, x, s0.clock, NextOf(IntentsOf(s0.db, x), s0.clock))
  {
    AccountedOps(par.cfg.groups, plan, report);
    var ops := OpsOf(par, plan);
    assert ops[..|ops|] == ops;
  }

  lemma PlansToWrite(par: Params, s0: Sys, pid: Pid, x: string, user: User, listing: seq<Intent>, plan: Plan, f: R.Faults, done: nat,
      message: string)
    returns (steps: seq<Step>, s: Sys)
    requires Ready(par, s0, pid) && user.id == par.userOf(x)
    requires user.groups == HeldList(par.cfg.groups, Members(s0, par.userOf(x)))
    requires FirstMatch(par.cfg.programs, user).Ok? && Lists(s0.db, x, listing) && done < |OpsOf(par, plan)|
    requires plan == PlanWith(par.cfg, user, FirstMatch(par.cfg.programs, user).value, listing, s0.clock)
    ensures Comes(par, s0, steps, s, pid, x, Done,
                  FailureTables(par, s0, x, f, message, NextOf(IntentsOf(s0.db, x), s0.clock)),
                  MadeOf(OpsOf(par, plan), done, Members(s0, par.userOf(x)), f.Write(done).Unacknowledged?))
  {
    var rule := FirstMatch(par.cfg.programs, user).value;
    steps, s := MakesPlan(par, s0, pid, x, user, listing);
    steps, s := EndsAtWrite(par, s0, steps, s, pid, x, rule, OpsOf(par, plan), f, done, message);
  }

  lemma PlansToEnd(par: Params, s0: Sys, pid: Pid, x: string, user: User, listing: seq<Intent>, plan: Plan, refused: bool)
    returns (steps: seq<Step>, s: Sys)
    requires Ready(par, s0, pid) && user.id == par.userOf(x)
    requires user.groups == HeldList(par.cfg.groups, Members(s0, par.userOf(x)))
    requires FirstMatch(par.cfg.programs, user).Ok? && Lists(s0.db, x, listing)
    requires plan == PlanWith(par.cfg, user, FirstMatch(par.cfg.programs, user).value, listing, s0.clock)
    ensures Comes(par, s0, steps, s, pid, x, Done,
                  if refused then s0.db else Succeeded(s0.db, x, s0.clock, NextOf(IntentsOf(s0.db, x), s0.clock)),
                  ApplyAll(OpsOf(par, plan), Members(s0, par.userOf(x))))
  {
    var rule := FirstMatch(par.cfg.programs, user).value;
    steps, s := MakesPlan(par, s0, pid, x, user, listing);
    steps, s := EndsAfterWrites(par, s0, steps, s, pid, x, rule, OpsOf(par, plan), refused);
  }

  /** The ends with a plan. */
  lemma EndsPlanned(par: Params, s0: Sys, pid: Pid, x: string, st: Settings, f: R.Faults, user: User, listing: seq<Intent>,
      report: R.Report, after: Tables, held': set<string>)
    returns (steps: seq<Step>, s: Sys)
    requires Ready(par, s0, pid) && SameSettings(par, st) && user.id == par.userOf(x)
    requires user.groups == HeldList(par.cfg.groups, Members(s0, par.userOf(x)))
    requires report.subject == x && R.PlanIsBuilt(par.cfg, report, user, listing, s0.db, s0.clock)
    requires report.error.Some? ==> !R.BeforePlan(report.error.value)
    requires R.TablesAfter(st, f, s0.db, after, x, report.error, s0.clock)
    requires R.ReportOk(par.cfg.groups, f, report, Members(s0, par.userOf(x)), held')
    ensures Comes(par, s0, steps, s, pid, x, Done, after, held')
  {
    var plan := report.plan.value;
    if report.failed.Some? {
      FailedEnd(par, s0, x, st, f, plan, report, Members(s0, par.userOf(x)), after, held');
      steps, s := PlansToWrite(par, s0, pid, x, user, listing, plan, f, |report.added| + |report.removed|,
                               R.Message(R.NotWritten(report.failed.value)));
    } else {
      CompletedEnd(par, s0, x, st, f, plan, report, Members(s0, par.userOf(x)), after, held');
      steps, s := PlansToEnd(par, s0, pid, x, user, listing, plan,
                             report.error == Some(R.NotRecorded) && f.recordSuccess.Refused?);
    }
  }

  /** The code refines the protocol. Whatever goes wrong in an attempt, and however
      it ends by its contract, a run of the protocol that starts where the attempt
      does, with nobody else at work, can end with the same tables, the same groups of
      its user and everybody else's untouched. So what is proved of every history
      of the protocol holds of what the code does. */
  lemma AttemptIsARun(par: Params, s0: Sys, pid: Pid, x: string, st: Settings, f: R.Faults, entry: User, listing: seq<Intent>,
      report: R.Report, after: Tables, held': set<string>)
    returns (steps: seq<Step>, s: Sys)
    requires Ready(par, s0, pid) && SameSettings(par, st) && entry.id == par.userOf(x) && report.subject == x
    requires var user := R.ResolvedAs(par.cfg.groups, entry, Members(s0, entry.id));
      && R.Blamed(par.cfg, f, entry, user, report)
      && (report.plan.Some? ==> R.PlanIsBuilt(par.cfg, report, user, listing, s0.db, s0.clock))
    requires R.TablesAfter(st, f, s0.db, after, x, report.error, s0.clock)
    requires R.ReportOk(par.cfg.groups, f, report, Members(s0, entry.id), held')
    requires report.plan.None? <==> report.error.Some? && R.BeforePlan(report.error.value)
    ensures Takes(par, s0, steps, s) && s.clock == s0.clock && s.procs == s0.procs[pid := Run(x, true, Done)]
    ensures s.db == after && Members(s, entry.id) == held'
    ensures forall u :: u != entry.id ==> Members(s, u) == Members(s0, u)
  {
    var user := R.ResolvedAs(par.cfg.groups, entry, Members(s0, entry.id));
    if report.plan.None? {
      steps, s := EndsUnplanned(par, s0, pid, x, st, f, user, report.error.value, after);
    } else {
      steps, s := EndsPlanned(par, s0, pid, x, st, f, user, listing, report, after, held');
    }
  }
}
