/** The main result under conditions on the history itself: no lost sessions, no
    foreign edits of the groups of the users concerned, a directory user of its
    own for every subject that comes up, and a rule selection that does not
    change. */
module Undisturbed {
  import opened Common
  import opened Timeline
  import opened Policy
  import opened Planner
  import opened Store
  import opened Convergence
  import opened Protocol
  import opened ProtocolInvariant
  import opened Coherence

  /** Different ones of the subjects resolve to different directory users. */
  ghost predicate DistinctUsers(par: Params, subjects: set<string>) {
    forall x, y :: x in subjects && y in subjects && par.userOf(x) == par.userOf(y) ==> x == y
  }

  /** The subjects that a step brings up. */
  ghost function NamedBy(step: Step): set<string> {
    match step
    case Arrive(_, accepted) => {accepted.subject}
    case Launch(_, subject) => {subject}
    case _ => {}
  }

  /** The subjects that come up in a history. */
  ghost function NamedIn(steps: seq<Step>): set<string> {
    set i, x | 0 <= i < |steps| && x in NamedBy(steps[i]) :: x
  }

  ghost predicate NamesOnly(subjects: set<string>, p: Proc) {
    match p
    case Delivery(accepted, _, _) => accepted.subject in subjects
    case Run(subject, _, _) => subject in subjects
  }

  /** No other subject is at work or has a row. */
  ghost predicate Confined(subjects: set<string>, s: Sys) {
    (forall pid :: pid in s.procs ==> NamesOnly(subjects, s.procs[pid])) && s.db.states.Keys <= subjects
  }

  lemma CommitConfined(par: Params, subjects: set<string>, s: Sys, pid: Pid)
    requires Enabled(par, s, OfDelivery(pid, Commit)) && ProcsOk(par, s) && TablesOk(par, s) && Confined(subjects, s)
    ensures Next(par, s, OfDelivery(pid, Commit)).db.states.Keys <= subjects
  {
    var e := s.procs[pid].accepted;
    CommitEffect(par, s, pid);
    assert NamesOnly(subjects, s.procs[pid]);
    assert Affected(PreviousSubject(s.db, e.Identity()), e.subject) <= subjects by {
      var previous := PreviousSubject(s.db, e.Identity());
      assert previous.Some? ==> previous.value in SubjectsWithIntents(s.db);
    }
  }

  lemma RecordConfined(par: Params, subjects: set<string>, s: Sys, pid: Pid, r: RunStep)
    requires Enabled(par, s, OfRun(pid, r)) && (r.RecordSuccess? || r.RecordFailure?) && Confined(subjects, s)
    ensures Next(par, s, OfRun(pid, r)).db.states.Keys <= subjects
  {
    assert NamesOnly(subjects, s.procs[pid]);
  }

  lemma StatesConfined(par: Params, subjects: set<string>, s: Sys, step: Step)
    requires Enabled(par, s, step) && ProcsOk(par, s) && TablesOk(par, s) && Confined(subjects, s)
    ensures Next(par, s, step).db.states.Keys <= subjects
  {
    if step.OfDelivery? && step.delivery.Commit? {
      CommitConfined(par, subjects, s, step.pid);
    } else if step.OfRun? && (step.run.RecordSuccess? || step.run.RecordFailure?) {
      RecordConfined(par, subjects, s, step.pid, step.run);
    } else {
      QuietSteps(par, s, step);
    }
  }

  lemma KeepConfined(par: Params, subjects: set<string>, s: Sys, step: Step)
    requires Enabled(par, s, step) && ProcsOk(par, s) && TablesOk(par, s)
    requires Confined(subjects, s) && NamedBy(step) <= subjects
    ensures Confined(subjects, Next(par, s, step))
  {
    StatesConfined(par, subjects, s, step);
    forall q | q in Next(par, s, step).procs ensures NamesOnly(subjects, Next(par, s, step).procs[q]) {
      if Actor(step) != Some(q) {
        OtherProcs(par, s, step, q);
      }
      assert q in s.procs ==> NamesOnly(subjects, s.procs[q]);
    }
  }

  /** The rule each subject matches, as long as its conditions evaluate. */
  type Selection = string -> Option<nat>

  ghost predicate OrderlyStep(par: Params, ruleOf: Selection, subjects: set<string>, s: Sys, step: Step) {
    match step
    case ExternalEdit(user, _) => forall x :: x in subjects ==> par.userOf(x) != user
    case OfRun(_, LoseConnection) => false
    case OfRun(pid, Resolve(profile, _)) =>
      IsRun(s, pid) && FirstMatch(par.cfg.programs, profile).Ok? ==>
        FirstMatch(par.cfg.programs, profile).value == ruleOf(s.procs[pid].subject)
    case _ => true
  }

  ghost predicate Orderly(par: Params, ruleOf: Selection, subjects: set<string>, s: Sys, steps: seq<Step>)
    requires Executable(par, s, steps)
    decreases |steps|
  {
    steps == [] || (OrderlyStep(par, ruleOf, subjects, s, steps[0]) && Orderly(par, ruleOf, subjects, Next(par, s, steps[0]), steps[1..]))
  }

  /** A run with a live session, a current view and the subject's own rule. */
  ghost predicate CalmRun(ruleOf: Selection, spoiled: bool, x: string, live: bool, at: RunAt) {
    && live
    && (at.Resolving? || at.Applying? ==> !spoiled)
    && (at.Applying? ==> at.rule == ruleOf(x))
  }

  ghost predicate CalmProc(ruleOf: Selection, spoiled: bool, p: Proc) {
    p.Run? ==> CalmRun(ruleOf, spoiled, p.subject, p.live, p.run)
  }

  ghost predicate Calm(par: Params, ruleOf: Selection, subjects: set<string>, s: Sys) {
    && Confined(subjects, s)
    && s.disturbed == {}
    && (forall x :: x in s.seen ==> s.seen[x].rule == ruleOf(x))
    && (forall pid :: pid in s.procs ==> CalmProc(ruleOf, pid in s.spoiled, s.procs[pid]))
  }

  /** With one subject per user, only runs of the writer's own subject can be
      spoiled by its writes, and those do not hold the lock. */
  lemma OthersStayCalm(par: Params, ruleOf: Selection, subjects: set<string>, s: Sys, step: Step, q: Pid)
    requires Enabled(par, s, step) && Mutex(par, s) && DistinctUsers(par, subjects) && Calm(par, ruleOf, subjects, s)
    requires OrderlyStep(par, ruleOf, subjects, s, step) && Actor(step) != Some(q) && q in s.procs
    ensures CalmProc(ruleOf, q in Next(par, s, step).spoiled, s.procs[q])
  {
    var p := s.procs[q];
    assert CalmProc(ruleOf, q in s.spoiled, p);
    if p.Run? && (p.run.Resolving? || p.run.Applying?) && q in Next(par, s, step).spoiled {
      SpoiledBySameSubject(par, ruleOf, subjects, s, step, q);
      var writer := s.procs[step.pid];
      assert CalmProc(ruleOf, step.pid in s.spoiled, writer);
      assert SubjectLock(p.subject) in Holds(p) && SubjectLock(p.subject) in Holds(writer);
      NamesDiffer(par, s, q, step.pid, SubjectLock(p.subject), SubjectLock(p.subject));
    }
  }

  lemma SpoiledBySameSubject(par: Params, ruleOf: Selection, subjects: set<string>, s: Sys, step: Step, q: Pid)
    requires Enabled(par, s, step) && DistinctUsers(par, subjects) && Confined(subjects, s)
    requires OrderlyStep(par, ruleOf, subjects, s, step)
    requires IsRun(s, q) && q !in s.spoiled && q in Next(par, s, step).spoiled
    ensures step.OfRun? && IsRun(s, step.pid) && step.pid != q
    ensures s.procs[step.pid].run.Applying? && s.procs[step.pid].subject == s.procs[q].subject
  {
    var edit := EditOf(par, s, step);
    assert edit.Some? && q in RunsOn(par, s, edit.value.user, edit.value.writer);
    assert NamesOnly(subjects, s.procs[q]);
    if step.OfRun? {
      assert NamesOnly(subjects, s.procs[step.pid]);
    }
  }

  lemma ActorStaysCalm(par: Params, ruleOf: Selection, subjects: set<string>, s: Sys, pid: Pid, r: RunStep)
    requires Enabled(par, s, OfRun(pid, r)) && Calm(par, ruleOf, subjects, s) && OrderlyStep(par, ruleOf, subjects, s, OfRun(pid, r))
    ensures var s' := Next(par, s, OfRun(pid, r));
      pid in s'.procs && CalmProc(ruleOf, pid in s'.spoiled, s'.procs[pid])
  {
    var p, s' := s.procs[pid], Next(par, s, OfRun(pid, r));
    assert CalmProc(ruleOf, pid in s.spoiled, p);
    assert pid in s'.spoiled ==> pid in s.spoiled && !r.StartResolve?;
    if r.Resolve? {
      assert RunNext(par, s, p.subject, p.run, r) == Resolved(par, p.run, r.profile, r.view);
    }
  }

  /** A calm run's writes are regular, so they disturb nobody. */
  lemma NobodyDisturbed(par: Params, ruleOf: Selection, subjects: set<string>, s: Sys, step: Step)
    requires Enabled(par, s, step) && DistinctUsers(par, subjects) && Calm(par, ruleOf, subjects, s) && OrderlyStep(par, ruleOf, subjects, s, step)
    ensures Next(par, s, step).disturbed == {}
  {
    var edit := EditOf(par, s, step);
    if edit.Some? {
      if step.OfRun? {
        assert CalmProc(ruleOf, step.pid in s.spoiled, s.procs[step.pid]) && NamesOnly(subjects, s.procs[step.pid]);
      }
      assert Disturbs(par, s, edit.value.user, edit.value.writer) == {};
    } else if step.OfRun? && step.run.RecordSuccess? {
      assert CalmProc(ruleOf, step.pid in s.spoiled, s.procs[step.pid]);
    }
  }

  lemma RulesStay(par: Params, ruleOf: Selection, subjects: set<string>, s: Sys, step: Step)
    requires Enabled(par, s, step) && Calm(par, ruleOf, subjects, s)
    ensures forall x :: x in Next(par, s, step).seen ==> Next(par, s, step).seen[x].rule == ruleOf(x)
  {
  }

  lemma KeepCalm(par: Params, ruleOf: Selection, subjects: set<string>, s: Sys, step: Step)
    requires Enabled(par, s, step) && Inv(par, s) && DistinctUsers(par, subjects) && NamedBy(step) <= subjects
    requires Calm(par, ruleOf, subjects, s) && OrderlyStep(par, ruleOf, subjects, s, step)
    ensures Calm(par, ruleOf, subjects, Next(par, s, step))
  {
    var s' := Next(par, s, step);
    KeepConfined(par, subjects, s, step);
    NobodyDisturbed(par, ruleOf, subjects, s, step);
    RulesStay(par, ruleOf, subjects, s, step);
    forall q | q in s'.procs ensures CalmProc(ruleOf, q in s'.spoiled, s'.procs[q]) {
      if Actor(step) != Some(q) {
        OtherProcs(par, s, step, q);
        OthersStayCalm(par, ruleOf, subjects, s, step, q);
      } else if step.OfRun? {
        ActorStaysCalm(par, ruleOf, subjects, s, q, step.run);
      }
    }
  }

  lemma {:induction false} CalmAlways(par: Params, ruleOf: Selection, subjects: set<string>, s: Sys, steps: seq<Step>)
    requires ValidConfig(par.cfg) && DistinctUsers(par, subjects) && Inv(par, s) && Calm(par, ruleOf, subjects, s)
    requires Executable(par, s, steps) && Orderly(par, ruleOf, subjects, s, steps) && NamedIn(steps) <= subjects
    ensures Calm(par, ruleOf, subjects, Final(par, s, steps))
    decreases |steps|
  {
    if steps != [] {
      assert NamedBy(steps[0]) <= NamedIn(steps) && NamedIn(steps[1..]) <= NamedIn(steps) by {
        assert forall i :: 0 <= i < |steps[1..]| ==> steps[1..][i] == steps[i + 1];
      }
      KeepInv(par, s, steps[0]);
      KeepCalm(par, ruleOf, subjects, s, steps[0]);
      CalmAlways(par, ruleOf, subjects, Next(par, s, steps[0]), steps[1..]);
    }
  }

  /** Event-driven reconciliation implements its specification: after every
      orderly history, whatever deliveries, failures, cancellations and
      concurrent runs it contains, each subject with an intent that is neither
      due nor waiting for a retry has exactly the memberships its rule asserts
      for its aggregate state at this instant. */
  lemma AssertionsAreApplied(par: Params, ruleOf: Selection, start: Start, steps: seq<Step>, x: string)
    requires IsHistory(par, start, steps) && DistinctUsers(par, NamedIn(steps))
    requires Orderly(par, ruleOf, NamedIn(steps), Initial(start.clock, start.members), steps)
    requires var s := StateAfter(par, start, steps);
      && x in SubjectsWithIntents(s.db) && x !in DueSubjects(s.db, s.clock)
      && (x in s.db.states ==> s.db.states[x].nextRetry.None?)
    ensures var s := StateAfter(par, start, steps);
      var state, members := StateOf(IntentsOf(s.db, x), s.clock), Members(s, par.userOf(x));
      && Satisfied(GoalFor(par.cfg, ruleOf(x), state), members)
      && OpsFor(par.cfg, ruleOf(x), state, members) == []
  {
    InitialInv(par, start.clock, start.members);
    IntentsHaveRows(par, start, steps);
    CalmAlways(par, ruleOf, NamedIn(steps), Initial(start.clock, start.members), steps);
    NotDueMeansApplied(par, start, steps, x);
  }
}
