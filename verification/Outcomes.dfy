/** What the rows say, told from the history alone: when an attempt began, what
    boundary and retry time its outcome left behind, and which error is shown. */
module Outcomes {
  import opened Common
  import opened Intents
  import opened Timeline
  import opened Policy
  import opened Backoff
  import opened Store
  import opened Protocol
  import opened ProtocolInvariant
  import opened Coherence

  /** The clock when a history from s first takes the step. */
  ghost function ClockAt(par: Params, s: Sys, steps: seq<Step>, target: Step): Option<Time>
    requires Executable(par, s, steps)
    decreases |steps|
  {
    if steps == [] then None
    else if steps[0] == target then Some(s.clock)
    else ClockAt(par, Next(par, s, steps[0]), steps[1..], target)
  }

  /** What a history shows of a run: the clock when it began, and whether it read
      the intents. */
  datatype Known = Known(began: Option<Time>, read: bool)

  const NOTHING := Known(None, false)

  ghost function Learn(s: Sys, step: Step, pid: Pid, k: Known): Known {
    Known(
      if k.began.None? && step == OfRun(pid, Begin) then Some(s.clock) else k.began,
      k.read || step == OfRun(pid, ReadIntents))
  }

  ghost function TransitionOf(db: Tables, x: string): Option<Time> {
    if x in db.states then db.states[x].nextTransition else None
  }

  /** The boundary a failing run carries: the earliest after its attempt of the
      intents stored now or, if it did not read them, that of the row. */
  ghost predicate CarriesBoundary(db: Tables, x: string, k: Known, next: Option<Time>)
    requires k.began.Some?
  {
    if k.read then IsEarliest(BoundariesOf(IntentsOf(db, x)), k.began.value, next) else next == TransitionOf(db, x)
  }

  ghost predicate RunKnown(db: Tables, x: string, live: bool, at: RunAt, k: Known) {
    match at
    case Begun(t) => k == Known(Some(t), false)
    case Stated(t, _) => k == Known(Some(t), false)
    case Listed(t, _, _) => k == Known(Some(t), true)
    case Resolving(t, _, _) => k == Known(Some(t), true)
    case Applying(t, _, _, _, _) => k == Known(Some(t), true)
    case Failing(t, _, next) => k.began == Some(t) && (live ==> CarriesBoundary(db, x, k, next))
    case Closing => true
    case Done => true
    case _ => k == NOTHING
  }

  ghost predicate KnownOk(s: Sys, pid: Pid, k: Known) {
    && (pid !in s.procs ==> k == NOTHING)
    && (IsRun(s, pid) ==> RunKnown(s.db, s.procs[pid].subject, s.procs[pid].live, s.procs[pid].run, k))
  }

  lemma OthersKeepKnown(par: Params, s: Sys, step: Step, pid: Pid, k: Known)
    requires Enabled(par, s, step) && Inv(par, s) && KnownOk(s, pid, k) && Actor(step) != Some(pid)
    ensures KnownOk(Next(par, s, step), pid, k)
  {
    OtherProcs(par, s, step, pid);
    if IsRun(s, pid) && s.procs[pid].live && s.procs[pid].run.Failing? {
      var x := s.procs[pid].subject;
      OthersViews(par, s, step, pid, SubjectLock(x));
      SameRowSameTransition(s.db, Next(par, s, step).db, x);
    }
  }

  lemma SameRowSameTransition(db: Tables, db': Tables, x: string)
    requires RowOf(db', x) == RowOf(db, x)
    ensures TransitionOf(db', x) == TransitionOf(db, x)
  {
  }

  /** Except for recording, a run's own step leaves the tables alone. */
  lemma RunLearnsMore(par: Params, s: Sys, pid: Pid, x: string, live: bool, at: RunAt, r: RunStep, k: Known)
    requires RunEnabled(par, s, pid, x, live, at, r) && !r.Resolve?
    requires RunKnown(s.db, x, live, at, k) && (live ==> RunOk(par, s, pid, x, at))
    ensures RunKnown(s.db, x, live && !r.LoseConnection?, RunNext(par, s, x, at, r), Learn(s, OfRun(pid, r), pid, k))
  {
  }

  lemma ResolveLearnsMore(par: Params, s: Sys, pid: Pid, x: string, live: bool, at: RunAt, profile: User, view: set<string>, k: Known)
    requires at.Resolving? && RunKnown(s.db, x, live, at, k) && (live ==> RunOk(par, s, pid, x, at))
    ensures RunKnown(s.db, x, live, Resolved(par, at, profile, view), k)
  {
  }

  lemma ActorKeepsKnown(par: Params, s: Sys, pid: Pid, r: RunStep, k: Known)
    requires Enabled(par, s, OfRun(pid, r)) && Inv(par, s) && KnownOk(s, pid, k)
    ensures KnownOk(Next(par, s, OfRun(pid, r)), pid, Learn(s, OfRun(pid, r), pid, k))
  {
    var p, s' := s.procs[pid], Next(par, s, OfRun(pid, r));
    assert ProcOk(par, s, pid, p);
    if r.RecordSuccess? || r.RecordFailure? {
      assert s'.procs[pid].run == Closing;
    } else {
      QuietSteps(par, s, OfRun(pid, r));
      if r.Resolve? {
        ResolveLearnsMore(par, s, pid, p.subject, p.live, p.run, r.profile, r.view, k);
        assert RunNext(par, s, p.subject, p.run, r) == Resolved(par, p.run, r.profile, r.view);
      } else {
        RunLearnsMore(par, s, pid, p.subject, p.live, p.run, r, k);
      }
      RunStaysItself(par, s, pid, r);
    }
  }

  lemma RunStaysItself(par: Params, s: Sys, pid: Pid, r: RunStep)
    requires Enabled(par, s, OfRun(pid, r))
    ensures var p := s.procs[pid];
      Next(par, s, OfRun(pid, r)).procs[pid] == Run(p.subject, p.live && !r.LoseConnection?, RunNext(par, s, p.subject, p.run, r))
  {
  }

  lemma KeepKnown(par: Params, s: Sys, step: Step, pid: Pid, k: Known)
    requires Enabled(par, s, step) && Inv(par, s) && KnownOk(s, pid, k)
    ensures KnownOk(Next(par, s, step), pid, Learn(s, step, pid, k))
  {
    if Actor(step) != Some(pid) {
      OthersKeepKnown(par, s, step, pid, k);
    } else if step.OfRun? {
      ActorKeepsKnown(par, s, pid, step.run, k);
    }
  }

  lemma {:induction false} KnownAlways(par: Params, s: Sys, steps: seq<Step>, pid: Pid, k: Known)
    requires ValidConfig(par.cfg) && Inv(par, s) && Executable(par, s, steps) && KnownOk(s, pid, k)
    ensures KnownOk(Final(par, s, steps), pid,
                    Known(if k.began.Some? then k.began else ClockAt(par, s, steps, OfRun(pid, Begin)),
                          k.read || OfRun(pid, ReadIntents) in steps))
    decreases |steps|
  {
    if steps != [] {
      KeepInv(par, s, steps[0]);
      KeepKnown(par, s, steps[0], pid, k);
      KnownAlways(par, Next(par, s, steps[0]), steps[1..], pid, Learn(s, steps[0], pid, k));
      assert steps == [steps[0]] + steps[1..];
    }
  }

  lemma HistoryKnows(par: Params, start: Start, steps: seq<Step>, pid: Pid)
    requires IsHistory(par, start, steps)
    ensures KnownOk(StateAfter(par, start, steps), pid,
                    Known(ClockAt(par, Initial(start.clock, start.members), steps, OfRun(pid, Begin)),
                          OfRun(pid, ReadIntents) in steps))
  {
    InitialInv(par, start.clock, start.members);
    KnownAlways(par, Initial(start.clock, start.members), steps, pid, NOTHING);
  }

  /** What a recorded failure leaves behind, over every history: the attempt is
      dated when the run began. If the run had read the intents, the next
      transition is the first boundary after that of the intents stored now, so
      that a backoff never hides one; if not, the row keeps its own. The retry
      comes after one delay per failure since the last success. */
  lemma FailureLeavesBoundary(par: Params, start: Start, steps: seq<Step>, pid: Pid, message: string)
    requires IsHistory(par, start, steps) && Enabled(par, StateAfter(par, start, steps), OfRun(pid, RecordFailure(message)))
    ensures var s := StateAfter(par, start, steps);
      var x, db := s.procs[pid].subject, Next(par, s, OfRun(pid, RecordFailure(message))).db;
      && x in db.states
      && db.states[x].lastAttempt == ClockAt(par, Initial(start.clock, start.members), steps, OfRun(pid, Begin))
      && db.states[x].lastAttempt.Some?
      && (if OfRun(pid, ReadIntents) in steps then
            IsEarliest(BoundariesOf(IntentsOf(s.db, x)), db.states[x].lastAttempt.value, db.states[x].nextTransition)
          else db.states[x].nextTransition == TransitionOf(s.db, x))
      && db.states[x].lastAttempt == Some(db.states[x].updatedAt) && db.states[x].lastError == message
      && db.states[x].lastSuccess == (if x in s.db.states then s.db.states[x].lastSuccess else None)
      && db.states[x].nextRetry
         == Some(db.states[x].lastAttempt.value
                 + Delay(par.retryInitial, par.retryMax, FailureCount(par, Initial(start.clock, start.members), steps, x, 0)))
  {
    var s := StateAfter(par, start, steps);
    HistoryInv(par, start, steps);
    HistoryKnows(par, start, steps, pid);
    FailureEffect(par, s, pid, message);
    CountIsKept(par, start, steps, s.procs[pid].subject);
  }

  lemma CountIsKept(par: Params, start: Start, steps: seq<Step>, x: string)
    requires IsHistory(par, start, steps)
    ensures var s := StateAfter(par, start, steps);
      (if RowOf(s.db, x).Some? then RowOf(s.db, x).value.retryCount else 0)
      == FailureCount(par, Initial(start.clock, start.members), steps, x, 0)
  {
    var s := StateAfter(par, start, steps);
    HistoryInv(par, start, steps);
    FailuresCounted(par, Initial(start.clock, start.members), steps, x);
    if x in s.db.states {
      assert RowOk(par, s, x);
    }
  }

  /** What a recorded success leaves behind: a clean row, dated when the run
      began, that waits for the first boundary after that of the intents stored
      now. */
  lemma SuccessLeavesBoundary(par: Params, start: Start, steps: seq<Step>, pid: Pid)
    requires IsHistory(par, start, steps) && Enabled(par, StateAfter(par, start, steps), OfRun(pid, RecordSuccess))
    ensures var s := StateAfter(par, start, steps);
      var x, db := s.procs[pid].subject, Next(par, s, OfRun(pid, RecordSuccess)).db;
      && x in db.states
      && db.states[x].lastAttempt == db.states[x].lastSuccess
         == ClockAt(par, Initial(start.clock, start.members), steps, OfRun(pid, Begin))
      && db.states[x].lastAttempt.Some?
      && IsEarliest(BoundariesOf(IntentsOf(s.db, x)), db.states[x].lastAttempt.value, db.states[x].nextTransition)
      && db.states[x].nextRetry.None? && db.states[x].retryCount == 0 && db.states[x].lastError == ""
      && db.states[x].lastAttempt == Some(db.states[x].updatedAt)
  {
    var s := StateAfter(par, start, steps);
    HistoryInv(par, start, steps);
    HistoryKnows(par, start, steps, pid);
    SuccessEffect(par, s, pid);
  }

  // ----- deliveries

  ghost predicate ArrivalOk(s: Sys, pid: Pid, e: Intent, arrived: Option<Time>) {
    && (pid !in s.procs ==> arrived.None?)
    && (IsDelivery(s, pid) && s.procs[pid].accepted == e ==> arrived == Some(s.procs[pid].at))
  }

  lemma KeepArrival(par: Params, s: Sys, step: Step, pid: Pid, e: Intent, arrived: Option<Time>)
    requires Enabled(par, s, step) && ArrivalOk(s, pid, e, arrived)
    ensures ArrivalOk(Next(par, s, step), pid, e,
                      if arrived.None? && step == Arrive(pid, e) then Some(s.clock) else arrived)
  {
  }

  lemma {:induction false} ArrivalAlways(par: Params, s: Sys, steps: seq<Step>, pid: Pid, e: Intent, arrived: Option<Time>)
    requires Executable(par, s, steps) && ArrivalOk(s, pid, e, arrived)
    ensures ArrivalOk(Final(par, s, steps), pid, e,
                      if arrived.Some? then arrived else ClockAt(par, s, steps, Arrive(pid, e)))
    decreases |steps|
  {
    if steps != [] {
      KeepArrival(par, s, steps[0], pid, e, arrived);
      ArrivalAlways(par, Next(par, s, steps[0]), steps[1..], pid, e,
                    if arrived.None? && steps[0] == Arrive(pid, e) then Some(s.clock) else arrived);
    }
  }

  /** What a commit leaves behind: the subject that gets the intent and the one
      that loses it are marked with the time at which the handler accepted it. */
  lemma CommitMarksArrival(par: Params, start: Start, steps: seq<Step>, pid: Pid, x: string)
    requires IsHistory(par, start, steps) && Enabled(par, StateAfter(par, start, steps), OfDelivery(pid, Commit))
    requires var s := StateAfter(par, start, steps);
      var e := s.procs[pid].accepted;
      x == e.subject || (exists i :: i in IntentsOf(s.db, x) && i.Identity() == e.Identity())
    ensures var s := StateAfter(par, start, steps);
      var e, db := s.procs[pid].accepted, Next(par, s, OfDelivery(pid, Commit)).db;
      && x in db.states && db.states[x].nextRetry.Some?
      && db.states[x].nextRetry == ClockAt(par, Initial(start.clock, start.members), steps, Arrive(pid, e))
      && e in IntentsOf(db, e.subject)
  {
    var s := StateAfter(par, start, steps);
    var e, at := s.procs[pid].accepted, s.procs[pid].at;
    HistoryInv(par, start, steps);
    ArrivalAlways(par, Initial(start.clock, start.members), steps, pid, e, None);
    CommitEffect(par, s, pid);
    HoldersAreAffected(s.db, e, x);
    UpsertMarksAffected(s.db, e, at, x, at);
    UpsertedIntents(s.db, e, at, e.subject);
  }

  lemma HoldersAreAffected(db: Tables, e: Intent, x: string)
    requires ValidTables(db)
    requires x == e.subject || exists i :: i in IntentsOf(db, x) && i.Identity() == e.Identity()
    ensures x in Affected(PreviousSubject(db, e.Identity()), e.subject)
  {
    if x != e.subject {
      var i :| i in IntentsOf(db, x) && i.Identity() == e.Identity();
      var k :| k in db.intents && db.intents[k].intent == i;
      assert k == e.Identity();
    }
  }

  // ----- the error a row shows

  /** The message of the last recorded outcome of x: that of a failure, none after
      a success. */
  ghost function LastMessage(par: Params, s: Sys, steps: seq<Step>, x: string, message: string): string
    requires Executable(par, s, steps)
    decreases |steps|
  {
    if steps == [] then message else
    var now := if !Records(s, steps[0], x) then message
               else if steps[0].run.RecordFailure? then steps[0].run.message else "";
    LastMessage(par, Next(par, s, steps[0]), steps[1..], x, now)
  }

  ghost function ErrorOf(db: Tables, x: string): string {
    if x in db.states then db.states[x].lastError else ""
  }

  lemma CommitKeepsError(par: Params, s: Sys, pid: Pid, x: string)
    requires Enabled(par, s, OfDelivery(pid, Commit)) && Inv(par, s)
    ensures ErrorOf(Next(par, s, OfDelivery(pid, Commit)).db, x) == ErrorOf(s.db, x)
  {
    var e, at := s.procs[pid].accepted, s.procs[pid].at;
    CommitEffect(par, s, pid);
    if x in Affected(PreviousSubject(s.db, e.Identity()), e.subject) {
      UpsertMarksAffected(s.db, e, at, x, at);
    } else {
      UpsertLeavesOthers(s.db, e, at, x);
      assert x in Upserted(s.db, e, at).states <==> RowOf(Upserted(s.db, e, at), x).Some?;
      assert x in s.db.states <==> RowOf(s.db, x).Some?;
    }
  }

  lemma RecordSetsError(par: Params, s: Sys, pid: Pid, r: RunStep, x: string)
    requires Enabled(par, s, OfRun(pid, r)) && (r.RecordSuccess? || r.RecordFailure?)
    ensures ErrorOf(Next(par, s, OfRun(pid, r)).db, x)
         == if s.procs[pid].subject != x then ErrorOf(s.db, x) else if r.RecordFailure? then r.message else ""
  {
  }

  lemma ErrorFollows(par: Params, s: Sys, step: Step, x: string)
    requires Enabled(par, s, step) && Inv(par, s)
    ensures ErrorOf(Next(par, s, step).db, x)
         == if !Records(s, step, x) then ErrorOf(s.db, x) else if step.run.RecordFailure? then step.run.message else ""
  {
    if step.OfDelivery? && step.delivery.Commit? {
      CommitKeepsError(par, s, step.pid, x);
    } else if step.OfRun? && (step.run.RecordSuccess? || step.run.RecordFailure?) {
      RecordSetsError(par, s, step.pid, step.run, x);
    } else {
      QuietSteps(par, s, step);
    }
  }

  lemma {:induction false} ErrorsFollow(par: Params, s: Sys, steps: seq<Step>, x: string)
    requires ValidConfig(par.cfg) && Inv(par, s) && Executable(par, s, steps)
    ensures ErrorOf(Final(par, s, steps).db, x) == LastMessage(par, s, steps, x, ErrorOf(s.db, x))
    decreases |steps|
  {
    if steps != [] {
      KeepInv(par, s, steps[0]);
      ErrorFollows(par, s, steps[0], x);
      ErrorsFollow(par, Next(par, s, steps[0]), steps[1..], x);
    }
  }

  /** The subjects whose last recorded outcome left a message. */
  ghost function LeftMessage(par: Params, start: Start, steps: seq<Step>): set<string>
    requires IsHistory(par, start, steps)
  {
    set x | x in StateAfter(par, start, steps).db.states
            && LastMessage(par, Initial(start.clock, start.members), steps, x, "") != ""
  }

  lemma ShowsLastMessage(par: Params, start: Start, steps: seq<Step>, x: string)
    requires IsHistory(par, start, steps) && x in StateAfter(par, start, steps).db.states
    ensures StateAfter(par, start, steps).db.states[x].lastError
         == LastMessage(par, Initial(start.clock, start.members), steps, x, "")
  {
    InitialInv(par, start.clock, start.members);
    ErrorsFollow(par, Initial(start.clock, start.members), steps, x);
  }

  /** Over every history a row shows the message of its last recorded outcome,
      deliveries in between notwithstanding, and the metric of failed subjects
      counts those whose last outcome left one. */
  lemma ErrorsAreCounted(par: Params, start: Start, steps: seq<Step>)
    requires IsHistory(par, start, steps)
    ensures MetricsAt(StateAfter(par, start, steps).db, StateAfter(par, start, steps).clock).failedSubjects
         == |LeftMessage(par, start, steps)|
  {
    var db := StateAfter(par, start, steps).db;
    var failed := set x | x in db.states && db.states[x].lastError != "";
    forall x ensures x in failed <==> x in LeftMessage(par, start, steps) {
      if x in db.states {
        ShowsLastMessage(par, start, steps, x);
      }
    }
    assert failed == LeftMessage(par, start, steps);
  }

  // ----- what disturbs, and what settles

  /** A run that starts to resolve has an up-to-date view ahead of it, whoever
      wrote before; a success based on such a view settles its subject; and a write
      disturbs nobody but subjects of its user. */
  lemma ResolvingAnew(par: Params, s: Sys, pid: Pid)
    requires Enabled(par, s, OfRun(pid, StartResolve))
    ensures pid !in Next(par, s, OfRun(pid, StartResolve)).spoiled
  {
  }

  lemma SuccessSettles(par: Params, s: Sys, pid: Pid)
    requires Enabled(par, s, OfRun(pid, RecordSuccess)) && pid !in s.spoiled
    ensures Next(par, s, OfRun(pid, RecordSuccess)).disturbed == s.disturbed - {s.procs[pid].subject}
  {
  }

  lemma OnlyOwnUserDisturbs(par: Params, s: Sys, step: Step, x: string)
    requires Enabled(par, s, step) && x in Next(par, s, step).disturbed && x !in s.disturbed
    ensures EditOf(par, s, step).Some? ==> par.userOf(x) == EditOf(par, s, step).value.user
    ensures EditOf(par, s, step).None? ==> step.OfRun? && step.run.RecordSuccess? && step.pid in s.spoiled
  {
  }

  // ----- what can go wrong at any time

  /** Every call of a run may fail and leave it failing, whatever the run is at;
      it may be given up, and its session may die. */
  lemma AnyCallMayFail(par: Params, s: Sys, pid: Pid)
    requires IsRun(s, pid) && !s.procs[pid].run.Closing? && !s.procs[pid].run.Done?
    ensures var at := s.procs[pid].run;
      && Enabled(par, s, OfRun(pid, Quit))
      && (at.Stated? ==> Enabled(par, s, OfRun(pid, ReadIntentsFails)))
      && (at.Resolving? ==> Enabled(par, s, OfRun(pid, ResolveFails)))
      && (at.Applying? && at.ops != [] ==>
            Enabled(par, s, OfRun(pid, WriteFails(true))) && Enabled(par, s, OfRun(pid, WriteFails(false))))
      && (s.procs[pid].live && !at.Waiting? ==> Enabled(par, s, OfRun(pid, LoseConnection)))
    ensures forall r: RunStep :: (r.ReadIntentsFails? || r.ResolveFails? || r.WriteFails?) && Enabled(par, s, OfRun(pid, r)) ==>
      Next(par, s, OfRun(pid, r)).procs[pid].run.Failing?
  {
  }

  /** A failed write may have taken effect, or not. */
  lemma FailedWriteMayHold(par: Params, s: Sys, pid: Pid, tookEffect: bool)
    requires Enabled(par, s, OfRun(pid, WriteFails(tookEffect)))
    ensures var user, op := par.userOf(s.procs[pid].subject), s.procs[pid].run.ops[0];
      Members(Next(par, s, OfRun(pid, WriteFails(tookEffect))), user)
      == if !tookEffect then Members(s, user) else if op.Add? then Members(s, user) + {op.group} else Members(s, user) - {op.group}
  {
  }

  /** A lost session releases its lock; an aborted delivery all of its locks. */
  lemma LossReleasesLocks(par: Params, s: Sys, step: Step)
    requires Enabled(par, s, step)
    requires (step.OfRun? && step.run.LoseConnection?) || (step.OfDelivery? && step.delivery.Abort?)
    ensures Holds(Next(par, s, step).procs[step.pid]) == {} && Next(par, s, step).db == s.db
  {
  }
}
