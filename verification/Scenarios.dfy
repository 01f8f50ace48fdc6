/** Undisturbed stretches of the protocol, to build histories from. */
module Scenarios {
  import opened Common
  import opened Ordering
  import opened Intents
  import opened Timeline
  import opened Policy
  import opened Aliases
  import opened Planner
  import opened Store
  import opened Convergence
  import opened Protocol
  import opened ProtocolInvariant

  /** The steps lead from s to s'. */
  ghost predicate Takes(par: Params, s: Sys, steps: seq<Step>, s': Sys) {
    Executable(par, s, steps) && Final(par, s, steps) == s'
  }

  lemma {:induction false} JoinTakes(par: Params, s: Sys, first: seq<Step>, mid: Sys, then_: seq<Step>, s': Sys)
    requires Takes(par, s, first, mid) && Takes(par, mid, then_, s')
    ensures Takes(par, s, first + then_, s')
    decreases |first|
  {
    if first == [] {
      assert first + then_ == then_;
    } else {
      JoinTakes(par, Next(par, s, first[0]), first[1..], mid, then_, s');
      assert (first + then_)[1..] == first[1..] + then_;
    }
  }

  lemma TakesOne(par: Params, s: Sys, step: Step)
    requires Enabled(par, s, step)
    ensures Takes(par, s, [step], Next(par, s, step))
  {
    var steps, s' := [step], Next(par, s, step);
    assert steps[0] == step && steps[1..] == [];
    assert Executable(par, s', []) && Final(par, s', []) == s';
    assert Final(par, s, steps) == Final(par, s', steps[1..]);
  }

  /** Nobody outside the system edits the groups. */
  ghost predicate NoEdits(steps: seq<Step>) {
    forall i :: 0 <= i < |steps| ==> !steps[i].ExternalEdit?
  }

  /** Nothing goes wrong: no outside edit, no failed call, no lost session and
      nothing given up. */
  ghost predicate SmoothStep(step: Step) {
    match step
    case ExternalEdit(_, _) => false
    case OfDelivery(_, d) => !d.Abort?
    case OfRun(_, r) =>
      !r.ReadIntentsFails? && !r.ResolveFails? && !r.WriteFails? && !r.LoseConnection? && !r.Quit?
    case _ => true
  }

  ghost predicate Smooth(steps: seq<Step>) {
    forall i :: 0 <= i < |steps| ==> SmoothStep(steps[i])
  }

  /** The steps lead from s to s', and nothing goes wrong on the way. */
  ghost predicate Leads(par: Params, s: Sys, steps: seq<Step>, s': Sys) {
    Takes(par, s, steps, s') && Smooth(steps)
  }

  lemma Join(par: Params, s: Sys, first: seq<Step>, mid: Sys, then_: seq<Step>, s': Sys)
    requires Leads(par, s, first, mid) && Leads(par, mid, then_, s')
    ensures Leads(par, s, first + then_, s')
  {
    JoinTakes(par, s, first, mid, then_, s');
  }

  lemma Extend(par: Params, s: Sys, steps: seq<Step>, mid: Sys, step: Step)
    requires Leads(par, s, steps, mid) && Enabled(par, mid, step) && SmoothStep(step)
    ensures Leads(par, s, steps + [step], Next(par, mid, step))
  {
    TakesOne(par, mid, step);
    JoinTakes(par, s, steps, mid, [step], Next(par, mid, step));
  }

  /** s with one process put in place. */
  ghost function At(s: Sys, pid: Pid, p: Proc): Sys {
    s.(procs := s.procs[pid := p])
  }

  /** Nobody but possibly pid holds a lock, and there is a connection left. */
  ghost predicate Idle(par: Params, s: Sys, pid: Pid) {
    && (forall q :: q in s.procs && q != pid ==> Holds(s.procs[q]) == {})
    && |UsedConnections(s) - {pid}| < par.poolSize
  }

  /** Nobody else holds a lock with the key of n, and there is a connection left. */
  ghost predicate Clear(par: Params, s: Sys, pid: Pid, n: LockName) {
    Free(par, s, pid, n) && |UsedConnections(s) - {pid}| < par.poolSize
  }

  lemma StillClear(par: Params, s: Sys, pid: Pid, p: Proc, n: LockName)
    requires Clear(par, s, pid, n)
    ensures Free(par, At(s, pid, p), pid, n)
    ensures !HasConnection(p) ==> |UsedConnections(At(s, pid, p))| < par.poolSize
  {
    if !HasConnection(p) {
      assert UsedConnections(At(s, pid, p)) == UsedConnections(s) - {pid};
    }
  }

  lemma DeliveryNextState(par: Params, s: Sys, pid: Pid, e: Intent, at: DeliveryAt, d: DeliveryStep)
    requires d != Commit
    ensures Next(par, At(s, pid, Delivery(e, s.clock, at)), OfDelivery(pid, d))
         == At(s, pid, Delivery(e, s.clock, DeliveryNext(s.db, e, at, d)))
  {
    var mid := At(s, pid, Delivery(e, s.clock, at));
    QuietSteps(par, mid, OfDelivery(pid, d));
    assert EditOf(par, mid, OfDelivery(pid, d)).None?;
    assert NextProcs(par, mid, OfDelivery(pid, d)) == s.procs[pid := Delivery(e, s.clock, DeliveryNext(s.db, e, at, d))];
  }

  lemma DeliveryMoves(par: Params, s: Sys, steps: seq<Step>, pid: Pid, e: Intent, at: DeliveryAt, d: DeliveryStep, s0: Sys)
    returns (more: seq<Step>)
    requires Leads(par, s0, steps, At(s, pid, Delivery(e, s.clock, at))) && !d.Commit? && !d.Abort?
    requires DeliveryEnabled(par, At(s, pid, Delivery(e, s.clock, at)), pid, e, at, d)
    ensures Leads(par, s0, more, At(s, pid, Delivery(e, s.clock, DeliveryNext(s.db, e, at, d))))
  {
    Extend(par, s0, steps, At(s, pid, Delivery(e, s.clock, at)), OfDelivery(pid, d));
    more := steps + [OfDelivery(pid, d)];
    DeliveryNextState(par, s, pid, e, at, d);
  }

  lemma OnlyElement<T>(s: seq<T>, x: T)
    requires NoRepeats(s) && Elements(s) == {x}
    ensures s == [x]
  {
    ListSize(s);
    assert s[0] in Elements(s);
  }

  lemma DeliverToIdentity(par: Params, s: Sys, pid: Pid, e: Intent) returns (steps: seq<Step>)
    requires Clear(par, s, pid, IdentityLock(e.Identity())) && pid !in s.procs && Valid(e)
    ensures Leads(par, s, steps, At(s, pid, Delivery(e, s.clock, Identified)))
  {
    assert Leads(par, s, [], s);
    Extend(par, s, [], s, Arrive(pid, e));
    assert Next(par, s, Arrive(pid, e)) == At(s, pid, Delivery(e, s.clock, Queued));
    steps := [] + [Arrive(pid, e)];
    StillClear(par, s, pid, Delivery(e, s.clock, Queued), IdentityLock(e.Identity()));
    steps := DeliveryMoves(par, s, steps, pid, e, Queued, Connect, s);
    StillClear(par, s, pid, Delivery(e, s.clock, Connected), IdentityLock(e.Identity()));
    steps := DeliveryMoves(par, s, steps, pid, e, Connected, LockIdentity, s);
  }

  lemma DeliverToCommit(par: Params, s: Sys, pid: Pid, e: Intent) returns (steps: seq<Step>)
    requires Idle(par, s, pid) && pid !in s.procs && Valid(e) && PreviousSubject(s.db, e.Identity()).None?
    ensures Leads(par, s, steps, At(s, pid, Delivery(e, s.clock, Locking(None, [e.subject], 1))))
  {
    steps := DeliverToIdentity(par, s, pid, e);
    steps := DeliveryMoves(par, s, steps, pid, e, Identified, ReadPrevious, s);
    var names := SortedElements(Affected(None, e.subject));
    OnlyElement(names, e.subject);
    StillClear(par, s, pid, Delivery(e, s.clock, Locking(None, names, 0)), SubjectLock(e.subject));
    steps := DeliveryMoves(par, s, steps, pid, e, Locking(None, names, 0), LockNextSubject, s);
  }

  /** A delivery of a new intent that nothing gets in the way of. */
  lemma Deliver(par: Params, s: Sys, pid: Pid, e: Intent) returns (steps: seq<Step>)
    requires Idle(par, s, pid) && pid !in s.procs && Valid(e) && PreviousSubject(s.db, e.Identity()).None?
    ensures Leads(par, s, steps, Delivered(s, pid, e))
  {
    steps := DeliverToCommit(par, s, pid, e);
    Extend(par, s, steps, At(s, pid, Delivery(e, s.clock, Locking(None, [e.subject], 1))), OfDelivery(pid, Commit));
    steps := steps + [OfDelivery(pid, Commit)];
    CommitsTo(par, s, pid, e, [e.subject]);
  }

  /** The state after that delivery. */
  ghost function Delivered(s: Sys, pid: Pid, e: Intent): Sys {
    At(s, pid, Delivery(e, s.clock, Finished)).(
      db := Upserted(s.db, e, s.clock), marks := s.marks[e.subject := ByDelivery(s.clock)])
  }

  lemma MarksOfNew(marks: map<string, Mark>, e: Intent, at: Time)
    ensures marks + DeliveryMarks(None, e, at) == marks[e.subject := ByDelivery(at)]
  {
  }

  lemma CommitsTo(par: Params, s: Sys, pid: Pid, e: Intent, names: seq<string>)
    requires PreviousSubject(s.db, e.Identity()).None?
    ensures Next(par, At(s, pid, Delivery(e, s.clock, Locking(None, names, 1))), OfDelivery(pid, Commit)) == Delivered(s, pid, e)
  {
    var ready := At(s, pid, Delivery(e, s.clock, Locking(None, names, 1)));
    MarksOfNew(s.marks, e, s.clock);
    assert NextDb(par, ready, OfDelivery(pid, Commit)) == Upserted(s.db, e, s.clock);
    assert NextMarks(ready, OfDelivery(pid, Commit)) == s.marks + DeliveryMarks(None, e, s.clock);
    assert NextProcs(par, ready, OfDelivery(pid, Commit)) == s.procs[pid := Delivery(e, s.clock, Finished)];
  }

  /** Steps of a run that neither write nor record nor fail. */
  ghost predicate Plain(r: RunStep) {
    !r.Write? && !r.RecordSuccess? && !r.RecordFailure? && SmoothStep(OfRun(0, r))
  }

  lemma RunNextState(par: Params, s: Sys, pid: Pid, x: string, at: RunAt, r: RunStep)
    requires Plain(r) && pid !in s.spoiled
    ensures Next(par, At(s, pid, Run(x, true, at)), OfRun(pid, r)) == At(s, pid, Run(x, true, RunNext(par, s, x, at, r)))
  {
    var mid := At(s, pid, Run(x, true, at));
    QuietSteps(par, mid, OfRun(pid, r));
    assert EditOf(par, mid, OfRun(pid, r)).None?;
    assert s.spoiled - {pid} == s.spoiled;
    assert RunNext(par, mid, x, at, r) == RunNext(par, s, x, at, r);
  }

  lemma RunMovesOn(par: Params, s: Sys, steps: seq<Step>, pid: Pid, x: string, at: RunAt, r: RunStep, s0: Sys)
    returns (more: seq<Step>)
    requires Leads(par, s0, steps, At(s, pid, Run(x, true, at))) && pid !in s.spoiled && Plain(r)
    requires RunEnabled(par, At(s, pid, Run(x, true, at)), pid, x, true, at, r)
    ensures Leads(par, s0, more, At(s, pid, Run(x, true, RunNext(par, s, x, at, r))))
  {
    Extend(par, s0, steps, At(s, pid, Run(x, true, at)), OfRun(pid, r));
    more := steps + [OfRun(pid, r)];
    RunNextState(par, s, pid, x, at, r);
  }

  /** A run on x that has planned and is about to write. */
  ghost function Planned(par: Params, s: Sys, x: string, rule: Option<nat>): RunAt {
    var intents := IntentsOf(s.db, x);
    Applying(s.clock, RowOf(s.db, x), intents, rule,
             OpsFor(par.cfg, rule, StateOf(intents, s.clock), Members(s, par.userOf(x))))
  }

  lemma RunToLock(par: Params, s: Sys, pid: Pid, x: string) returns (steps: seq<Step>)
    requires Idle(par, s, pid) && pid !in s.procs && pid !in s.spoiled
    ensures Leads(par, s, steps, At(s, pid, Run(x, true, Locked)))
  {
    assert Leads(par, s, [], s);
    Extend(par, s, [], s, Launch(pid, x));
    assert Next(par, s, Launch(pid, x)) == At(s, pid, Run(x, true, Waiting));
    steps := [] + [Launch(pid, x)];
    StillClear(par, s, pid, Run(x, true, Waiting), SubjectLock(x));
    steps := RunMovesOn(par, s, steps, pid, x, Waiting, Acquire, s);
    StillClear(par, s, pid, Run(x, true, Opening), SubjectLock(x));
    steps := RunMovesOn(par, s, steps, pid, x, Opening, RunStep.LockSubject, s);
  }

  lemma RunToView(par: Params, s: Sys, pid: Pid, x: string) returns (steps: seq<Step>)
    requires Idle(par, s, pid) && pid !in s.procs && pid !in s.spoiled
    ensures Leads(par, s, steps, At(s, pid, Run(x, true, Resolving(s.clock, RowOf(s.db, x), IntentsOf(s.db, x)))))
  {
    var t, row, intents := s.clock, RowOf(s.db, x), IntentsOf(s.db, x);
    steps := RunToLock(par, s, pid, x);
    steps := RunMovesOn(par, s, steps, pid, x, Locked, Begin, s);
    steps := RunMovesOn(par, s, steps, pid, x, Begun(t), ReadState, s);
    steps := RunMovesOn(par, s, steps, pid, x, Stated(t, row), ReadIntents, s);
    steps := RunMovesOn(par, s, steps, pid, x, Listed(t, row, intents), StartResolve, s);
  }

  /** A run that gets as far as its plan without interruption. */
  lemma RunToPlan(par: Params, s: Sys, pid: Pid, x: string, profile: User, rule: Option<nat>) returns (steps: seq<Step>)
    requires Idle(par, s, pid) && pid !in s.procs && pid !in s.spoiled
    requires profile.id == par.userOf(x) && FirstMatch(par.cfg.programs, profile) == Ok(rule)
    requires profile.groups == SortedElements(AliasesIn(par.cfg.groups, Members(s, par.userOf(x))))
    ensures Leads(par, s, steps, At(s, pid, Run(x, true, Planned(par, s, x, rule))))
  {
    steps := RunToView(par, s, pid, x);
    var at, view := Resolving(s.clock, RowOf(s.db, x), IntentsOf(s.db, x)), Members(s, par.userOf(x));
    steps := RunMovesOn(par, s, steps, pid, x, at, RunStep.Resolve(profile, view), s);
    assert RunNext(par, s, x, at, RunStep.Resolve(profile, view)) == Resolved(par, at, profile, view);
  }

  lemma WriteLeads(par: Params, s: Sys, pid: Pid)
    requires IsRun(s, pid) && s.procs[pid].run.Applying? && s.procs[pid].run.ops != []
    ensures Enabled(par, s, OfRun(pid, Write))
    ensures var p, user, s' := s.procs[pid], par.userOf(s.procs[pid].subject), Next(par, s, OfRun(pid, Write));
      && s'.clock == s.clock && s'.db == s.db && s'.seen == s.seen
      && s'.procs == s.procs[pid := p.(run := p.run.(ops := p.run.ops[1..]))]
      && s'.members == s.members[user := Apply(p.run.ops[0], Members(s, user))]
      && s'.spoiled == s.spoiled + RunsOn(par, s, user, Some(pid))
  {
    QuietSteps(par, s, OfRun(pid, Write));
  }

  lemma RecordsTo(par: Params, s: Sys, pid: Pid)
    requires IsRun(s, pid) && s.procs[pid].live && s.procs[pid].run.Applying? && s.procs[pid].run.ops == []
    ensures Enabled(par, s, OfRun(pid, RecordSuccess))
    ensures var x, at, s' := s.procs[pid].subject, s.procs[pid].run, Next(par, s, OfRun(pid, RecordSuccess));
      && s'.clock == s.clock && s'.members == s.members && s'.spoiled == s.spoiled
      && s'.db == Succeeded(s.db, x, at.started, NextOf(at.intents, at.started))
      && s'.seen == s.seen[x := Seen(at.intents, at.started, at.rule)]
      && s'.procs == s.procs[pid := Run(x, true, Closing)]
  {
  }

  lemma ClosesTo(par: Params, s: Sys, pid: Pid)
    requires IsRun(s, pid) && s.procs[pid].live && s.procs[pid].run.Closing?
    ensures Enabled(par, s, OfRun(pid, Close))
    ensures Next(par, s, OfRun(pid, Close)) == s.(procs := s.procs[pid := Run(s.procs[pid].subject, true, Done)])
  {
  }

  lemma Overwrites<K, V>(m: map<K, V>, k: K, first: V, second: V)
    ensures m[k := first][k := second] == m[k := second]
    ensures m[k := first].Keys - {k} <= m.Keys
  {
  }

  lemma RunsAreProcs(par: Params, s: Sys, user: string, pid: Pid)
    ensures RunsOn(par, s, user, Some(pid)) <= s.procs.Keys - {pid}
  {
  }

  /** No process is under way. */
  ghost predicate Rests(s: Sys) {
    forall q :: q in s.procs ==> !HasConnection(s.procs[q]) && Holds(s.procs[q]) == {}
  }

  lemma DeliveredRests(s: Sys, pid: Pid, e: Intent)
    requires Rests(s)
    ensures Rests(Delivered(s, pid, e))
    ensures Delivered(s, pid, e).procs.Keys == s.procs.Keys + {pid}
  {
  }

  lemma NobodyConnected(par: Params, s: Sys, pid: Pid)
    requires Rests(s) && par.poolSize > 0
    ensures Idle(par, s, pid)
  {
  }

  /** What making all the planned writes changes. */
  ghost predicate Wrote(par: Params, s: Sys, s': Sys, pid: Pid)
    requires IsRun(s, pid) && s.procs[pid].run.Applying?
  {
    var p, user := s.procs[pid], par.userOf(s.procs[pid].subject);
    && s'.clock == s.clock && s'.db == s.db && s'.seen == s.seen
    && s'.procs == s.procs[pid := p.(run := p.run.(ops := []))]
    && Members(s', user) == ApplyAll(p.run.ops, Members(s, user))
    && (forall u :: u != user ==> Members(s', u) == Members(s, u))
    && s'.spoiled <= s.spoiled + (s.procs.Keys - {pid})
  }

  lemma {:induction false} WritesAll(par: Params, s: Sys, pid: Pid) returns (steps: seq<Step>, s': Sys)
    requires IsRun(s, pid) && s.procs[pid].run.Applying?
    ensures Leads(par, s, steps, s') && Wrote(par, s, s', pid)
    decreases |s.procs[pid].run.ops|
  {
    if s.procs[pid].run.ops == [] {
      steps, s' := [], s;
    } else {
      WriteLeads(par, s, pid);
      var mid := Next(par, s, OfRun(pid, Write));
      var rest;
      rest, s' := WritesAll(par, mid, pid);
      WroteOneMore(par, s, mid, s', pid);
      TakesOne(par, s, OfRun(pid, Write));
      Join(par, s, [OfRun(pid, Write)], mid, rest, s');
      steps := [OfRun(pid, Write)] + rest;
    }
  }

  lemma WroteOneMore(par: Params, s: Sys, mid: Sys, s': Sys, pid: Pid)
    requires IsRun(s, pid) && s.procs[pid].run.Applying? && s.procs[pid].run.ops != []
    requires mid == Next(par, s, OfRun(pid, Write))
    requires IsRun(mid, pid) && mid.procs[pid].run.Applying? && Wrote(par, mid, s', pid)
    ensures Wrote(par, s, s', pid)
  {
    var p, user := s.procs[pid], par.userOf(s.procs[pid].subject);
    WriteLeads(par, s, pid);
    RunsAreProcs(par, s, user, pid);
    Overwrites(s.procs, pid, mid.procs[pid], p.(run := p.run.(ops := [])));
    assert mid.procs.Keys == s.procs.Keys;
  }

  /** What a complete run under a rule leaves behind. */
  ghost predicate Ran(par: Params, s: Sys, s': Sys, pid: Pid, x: string, rule: Option<nat>) {
    var intents, user := IntentsOf(s.db, x), par.userOf(x);
    && s'.clock == s.clock && s'.procs == s.procs[pid := Run(x, true, Done)] && s'.spoiled <= s.spoiled + s.procs.Keys
    && Members(s', user) == ApplyAll(OpsFor(par.cfg, rule, StateOf(intents, s.clock), Members(s, user)), Members(s, user))
    && (forall u :: u != user ==> Members(s', u) == Members(s, u))
    && s'.db == Succeeded(s.db, x, s.clock, NextOf(intents, s.clock))
    && s'.seen == s.seen[x := Seen(intents, s.clock, rule)]
  }

  /** A complete run leaves the goal of its rule met. */
  lemma RanMeetsGoal(par: Params, s: Sys, s': Sys, pid: Pid, x: string, rule: Option<nat>)
    requires ValidConfig(par.cfg) && Ran(par, s, s', pid, x, rule)
    ensures Satisfied(GoalFor(par.cfg, rule, StateOf(IntentsOf(s.db, x), s.clock)), Members(s', par.userOf(x)))
  {
    ApplyReachesFixedPoint(par.cfg, rule, StateOf(IntentsOf(s.db, x), s.clock), Members(s, par.userOf(x)));
  }

  /** A run that makes all its writes, records its success and closes. */
  lemma FinishRun(par: Params, s: Sys, pid: Pid) returns (steps: seq<Step>, s': Sys)
    requires IsRun(s, pid) && s.procs[pid].live && s.procs[pid].run.Applying?
    ensures Leads(par, s, steps, s')
    ensures var x, at := s.procs[pid].subject, s.procs[pid].run;
      && s'.clock == s.clock && s'.procs == s.procs[pid := Run(x, true, Done)]
      && s'.spoiled <= s.spoiled + (s.procs.Keys - {pid})
      && Members(s', par.userOf(x)) == ApplyAll(at.ops, Members(s, par.userOf(x)))
      && (forall u :: u != par.userOf(x) ==> Members(s', u) == Members(s, u))
      && s'.db == Succeeded(s.db, x, at.started, NextOf(at.intents, at.started))
      && s'.seen == s.seen[x := Seen(at.intents, at.started, at.rule)]
  {
    var s1;
    steps, s1 := WritesAll(par, s, pid);
    RecordsTo(par, s1, pid);
    var s2 := Next(par, s1, OfRun(pid, RecordSuccess));
    Extend(par, s, steps, s1, OfRun(pid, RecordSuccess));
    ClosesTo(par, s2, pid);
    s' := Next(par, s2, OfRun(pid, Close));
    Extend(par, s, steps + [OfRun(pid, RecordSuccess)], s2, OfRun(pid, Close));
    steps := steps + [OfRun(pid, RecordSuccess)] + [OfRun(pid, Close)];
  }

  /** A run from start to end that nothing gets in the way of. */
  lemma FullRun(par: Params, s: Sys, pid: Pid, x: string, profile: User, rule: Option<nat>)
    returns (steps: seq<Step>, s': Sys)
    requires Idle(par, s, pid) && pid !in s.procs && pid !in s.spoiled
    requires profile.id == par.userOf(x) && FirstMatch(par.cfg.programs, profile) == Ok(rule)
    requires profile.groups == SortedElements(AliasesIn(par.cfg.groups, Members(s, par.userOf(x))))
    ensures Leads(par, s, steps, s') && Ran(par, s, s', pid, x, rule)
  {
    steps := RunToPlan(par, s, pid, x, profile, rule);
    var s1 := At(s, pid, Run(x, true, Planned(par, s, x, rule)));
    var more;
    more, s' := FinishRun(par, s1, pid);
    Join(par, s, steps, s1, more, s');
    steps := steps + more;
    Overwrites(s.procs, pid, s1.procs[pid], Run(x, true, Done));
  }
}
