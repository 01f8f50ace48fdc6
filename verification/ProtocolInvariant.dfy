/** The inductive invariant of the reconciliation protocol. */
module ProtocolInvariant {
  import opened Common
  import opened Ordering
  import opened Intents
  import opened Timeline
  import opened Policy
  import opened Planner
  import opened Backoff
  import opened Store
  import opened Convergence
  import opened Protocol

  /** No two processes hold locks with the same key. */
  ghost predicate Mutex(par: Params, s: Sys) {
    forall p, q, m, n ::
      (p in s.procs && q in s.procs && p != q && m in Holds(s.procs[p]) && n in Holds(s.procs[q]) ==>
        par.lockKey(m) != par.lockKey(n))
  }

  ghost function SeenOf(s: Sys, subject: string): Option<Seen> {
    if subject in s.seen then Some(s.seen[subject]) else None
  }

  /** A run started after the last recorded success, and not in the future. */
  ghost predicate StartedAfter(s: Sys, subject: string, started: Time) {
    started <= s.clock && (subject in s.seen ==> s.seen[subject].at <= started)
  }

  /** What a run with a live session knows is still true. */
  ghost predicate RunOk(par: Params, s: Sys, pid: Pid, x: string, at: RunAt) {
    match at
    case Begun(t) => StartedAfter(s, x, t)
    case Stated(t, row) => StartedAfter(s, x, t) && row == RowOf(s.db, x)
    case Listed(t, row, intents) => StartedAfter(s, x, t) && row == RowOf(s.db, x) && intents == IntentsOf(s.db, x)
    case Resolving(t, row, intents) => StartedAfter(s, x, t) && row == RowOf(s.db, x) && intents == IntentsOf(s.db, x)
    case Applying(t, row, intents, rule, ops) =>
      && StartedAfter(s, x, t) && row == RowOf(s.db, x) && intents == IntentsOf(s.db, x)
      && (pid !in s.spoiled ==> Exact(ops, GoalFor(par.cfg, rule, StateOf(intents, t)), Members(s, par.userOf(x))))
    case Failing(t, row, _) => StartedAfter(s, x, t) && row == RowOf(s.db, x)
    case _ => true
  }

  ghost predicate DeliveryOk(s: Sys, e: Intent, at: Time, d: DeliveryAt) {
    && Valid(e) && at <= s.clock
    && (d.Locking? ==>
          && d.previous == PreviousSubject(s.db, e.Identity())
          && d.names == SortedElements(Affected(d.previous, e.subject))
          && d.taken <= |d.names|)
  }

  ghost predicate ProcOk(par: Params, s: Sys, pid: Pid, p: Proc) {
    match p
    case Delivery(e, at, d) => DeliveryOk(s, e, at, d)
    case Run(x, live, at) => live ==> RunOk(par, s, pid, x, at)
  }

  ghost predicate ProcsOk(par: Params, s: Sys) {
    forall p :: p in s.procs ==> ProcOk(par, s, p, s.procs[p])
  }

  /** The retry time a mark stands for: at once after a delivery; after the
      k-th failure in a row, the k-th backoff delay after the attempt. */
  ghost function MarkTime(par: Params, m: Mark): Time {
    match m
    case ByDelivery(at) => at
    case ByFailure(k, started) => started + Delay(par.retryInitial, par.retryMax, if k > 0 then k - 1 else 0)
  }

  ghost predicate MarkOk(s: Sys, x: string, m: Mark) {
    match m
    case ByDelivery(at) => at <= s.clock
    case ByFailure(k, started) => started <= s.clock && 1 <= k == Failures(s, x)
  }

  /** A row without a retry mark describes the intents stored now: they are
      exactly the ones its last success read, and its next transition is their
      first boundary after that. A marked row says when and why. */
  ghost predicate RowOk(par: Params, s: Sys, x: string)
    requires x in s.db.states
  {
    var row := s.db.states[x];
    && row.lastSuccess == (if x in s.seen then Some(s.seen[x].at) else None)
    && (x in s.seen ==> s.seen[x].at <= s.clock)
    && row.retryCount == Failures(s, x)
    && (row.nextRetry.None? ==>
          && x in s.seen
          && s.seen[x].intents == IntentsOf(s.db, x)
          && row.nextTransition == NextOf(s.seen[x].intents, s.seen[x].at))
    && (row.nextRetry.Some? ==>
          x in s.marks && MarkOk(s, x, s.marks[x]) && row.nextRetry.value == MarkTime(par, s.marks[x]))
  }

  ghost predicate TablesOk(par: Params, s: Sys) {
    && ValidTables(s.db)
    && SubjectsWithIntents(s.db) <= s.db.states.Keys
    && s.seen.Keys <= s.db.states.Keys && s.failures.Keys <= s.db.states.Keys
    && (forall x :: x in s.db.states ==> RowOk(par, s, x))
  }

  /** The row carries no mark and its next transition lies ahead. */
  ghost predicate Quiet(s: Sys, x: string)
    requires x in s.db.states
  {
    s.db.states[x].nextRetry.None? && Before(s.clock, s.db.states[x].nextTransition)
  }

  /** The assertions the last success of a subject established. */
  ghost function SeenGoal(par: Params, seen: Seen): Goal {
    GoalFor(par.cfg, seen.rule, StateOf(seen.intents, seen.at))
  }

  /** While a subject is quiet and undisturbed, its user's groups satisfy what
      the last success established. */
  ghost predicate GroupsOk(par: Params, s: Sys, x: string) {
    x in s.db.states && x in s.seen && Quiet(s, x) && x !in s.disturbed ==>
      Satisfied(SeenGoal(par, s.seen[x]), Members(s, par.userOf(x)))
  }

  ghost predicate DirectoryOk(par: Params, s: Sys) {
    forall x :: GroupsOk(par, s, x)
  }

  /** The pool never lends more connections than it has. */
  ghost predicate PoolOk(par: Params, s: Sys) {
    |UsedConnections(s)| <= par.poolSize
  }

  ghost predicate Inv(par: Params, s: Sys) {
    PoolOk(par, s) && Mutex(par, s) && ProcsOk(par, s) && TablesOk(par, s) && DirectoryOk(par, s)
  }

  lemma InitialInv(par: Params, clock: Time, members: map<string, set<string>>)
    ensures Inv(par, Initial(clock, members))
  {
    assert UsedConnections(Initial(clock, members)) == {};
  }

  // ----- mutual exclusion

  /** The process a step belongs to. */
  ghost function Actor(step: Step): Option<Pid> {
    match step
    case Tick(_) => None
    case ExternalEdit(_, _) => None
    case _ => Some(step.pid)
  }

  /** A step changes no process but its own. */
  lemma OtherProcs(par: Params, s: Sys, step: Step, q: Pid)
    requires Actor(step) != Some(q)
    ensures q in Next(par, s, step).procs <==> q in s.procs
    ensures q in s.procs ==> Next(par, s, step).procs[q] == s.procs[q]
  {
  }

  lemma DeliveryLocks(par: Params, s: Sys, pid: Pid, e: Intent, at: Time, d: DeliveryAt, step: DeliveryStep, n: LockName)
    requires DeliveryEnabled(par, s, pid, e, d, step)
    requires n in Holds(Delivery(e, at, DeliveryNext(s.db, e, d, step)))
    ensures n in Holds(Delivery(e, at, d)) || Free(par, s, pid, n)
  {
  }

  lemma RunLocks(par: Params, s: Sys, pid: Pid, x: string, live: bool, at: RunAt, step: RunStep, n: LockName)
    requires RunEnabled(par, s, pid, x, live, at, step)
    requires n in Holds(Run(x, live && !step.LoseConnection?, RunNext(par, s, x, at, step)))
    ensures n in Holds(Run(x, live, at)) || Free(par, s, pid, n)
  {
  }

  /** A step gives its process at most a lock that was free. */
  lemma LocksTaken(par: Params, s: Sys, step: Step, q: Pid, n: LockName)
    requires Enabled(par, s, step) && q in Next(par, s, step).procs && n in Holds(Next(par, s, step).procs[q])
    ensures (q in s.procs && n in Holds(s.procs[q])) || (Actor(step) == Some(q) && Free(par, s, q, n))
  {
    if Actor(step) != Some(q) {
      OtherProcs(par, s, step, q);
    } else {
      match step
      case OfDelivery(pid, d) =>
        DeliveryLocks(par, s, pid, s.procs[pid].accepted, s.procs[pid].at, s.procs[pid].delivery, d, n);
      case OfRun(pid, r) =>
        RunLocks(par, s, pid, s.procs[pid].subject, s.procs[pid].live, s.procs[pid].run, r, n);
      case _ =>
    }
  }

  lemma KeepMutex(par: Params, s: Sys, step: Step)
    requires Enabled(par, s, step) && Mutex(par, s)
    ensures Mutex(par, Next(par, s, step))
  {
    var s' := Next(par, s, step);
    forall p, q, m, n | p in s'.procs && q in s'.procs && p != q && m in Holds(s'.procs[p]) && n in Holds(s'.procs[q])
      ensures par.lockKey(m) != par.lockKey(n)
    {
      LocksTaken(par, s, step, p, m);
      LocksTaken(par, s, step, q, n);
    }
  }

  // ----- the pool

  /** Only connecting takes a connection. */
  lemma ConnectionsTaken(par: Params, s: Sys, step: Step, q: Pid)
    requires Enabled(par, s, step) && q in UsedConnections(Next(par, s, step)) && q !in UsedConnections(s)
    ensures Actor(step) == Some(q) && |UsedConnections(s)| < par.poolSize
  {
    if Actor(step) != Some(q) {
      OtherProcs(par, s, step, q);
    }
  }

  lemma KeepPool(par: Params, s: Sys, step: Step)
    requires Enabled(par, s, step) && PoolOk(par, s)
    ensures PoolOk(par, Next(par, s, step))
  {
    var before, after := UsedConnections(s), UsedConnections(Next(par, s, step));
    if after - before == {} {
      forall q | q in after ensures q in before { assert q !in after - before; }
      SubsetAtMost(after, before);
    } else {
      var pid := Member(after - before);
      ConnectionsTaken(par, s, step, pid);
      forall q | q in after - before ensures q == pid { ConnectionsTaken(par, s, step, q); }
      SubsetAtMost(after, before + {pid});
    }
  }

  // ----- what processes know

  /** The data a lock protects is the same before and after. */
  ghost predicate SameView(s: Sys, s': Sys, name: LockName) {
    match name
    case IdentityLock(key) => PreviousSubject(s'.db, key) == PreviousSubject(s.db, key)
    case SubjectLock(x) =>
      RowOf(s'.db, x) == RowOf(s.db, x) && IntentsOf(s'.db, x) == IntentsOf(s.db, x) && SeenOf(s', x) == SeenOf(s, x)
  }

  /** A process whose locks protected its data, and whose user's groups nobody
      else wrote, still knows what it knew. */
  lemma ProcFrame(par: Params, s: Sys, s': Sys, pid: Pid, p: Proc)
    requires ProcOk(par, s, pid, p) && s.clock <= s'.clock
    requires forall n :: n in Holds(p) ==> SameView(s, s', n)
    requires p.Run? && pid !in s'.spoiled ==>
      pid !in s.spoiled && Members(s', par.userOf(p.subject)) == Members(s, par.userOf(p.subject))
    ensures ProcOk(par, s', pid, p)
  {
    match p
    case Delivery(e, _, d) =>
      if d.Locking? {
        assert IdentityLock(e.Identity()) in Holds(p);
        assert SameView(s, s', IdentityLock(e.Identity()));
      }
    case Run(x, live, at) =>
      if live && !at.Waiting? && !at.Opening? && !at.Done? {
        assert SubjectLock(x) in Holds(p);
        assert SameView(s, s', SubjectLock(x));
        assert SeenOf(s', x) == SeenOf(s, x);
      }
  }

  /** What a delivery read as the previous subject, before it waited for the subject
      locks, is still true when it commits, and so its commit is the delivery's
      effect on the tables of that instant. */
  lemma CapturedIsCurrent(par: Params, s: Sys, pid: Pid)
    requires Enabled(par, s, OfDelivery(pid, Commit)) && ProcsOk(par, s)
    ensures s.procs[pid].delivery.Locking?
    ensures s.procs[pid].delivery.previous == PreviousSubject(s.db, s.procs[pid].accepted.Identity())
    ensures Next(par, s, OfDelivery(pid, Commit)).db == Upserted(s.db, s.procs[pid].accepted, s.procs[pid].at)
  {
    assert ProcOk(par, s, pid, s.procs[pid]);
  }

  /** At commit time a delivery holds the locks of everything it changes. */
  lemma CommitHolds(par: Params, s: Sys, pid: Pid)
    requires Enabled(par, s, OfDelivery(pid, Commit)) && ProcsOk(par, s)
    ensures var e := s.procs[pid].accepted;
      && Valid(e) && s.procs[pid].at <= s.clock
      && IdentityLock(e.Identity()) in Holds(s.procs[pid])
      && forall x :: x in Affected(PreviousSubject(s.db, e.Identity()), e.subject) ==> SubjectLock(x) in Holds(s.procs[pid])
  {
  }

  /** A run that records holds its subject's lock. */
  lemma RecordHolds(par: Params, s: Sys, pid: Pid, r: RunStep)
    requires Enabled(par, s, OfRun(pid, r)) && (r.RecordSuccess? || r.RecordFailure?)
    ensures SubjectLock(s.procs[pid].subject) in Holds(s.procs[pid])
  {
  }

  /** Only commits and recordings touch the tables and the success history. */
  lemma QuietSteps(par: Params, s: Sys, step: Step)
    requires !(step.OfDelivery? && step.delivery.Commit?)
    requires !(step.OfRun? && (step.run.RecordSuccess? || step.run.RecordFailure?))
    ensures var s' := Next(par, s, step);
      s'.db == s.db && s'.seen == s.seen && s'.failures == s.failures && s'.marks == s.marks
  {
  }

  lemma CommitView(par: Params, s: Sys, pid: Pid, name: LockName)
    requires Enabled(par, s, OfDelivery(pid, Commit)) && ProcsOk(par, s) && ValidTables(s.db)
    requires match name
      case IdentityLock(key) => key != s.procs[pid].accepted.Identity()
      case SubjectLock(x) =>
        x !in Affected(PreviousSubject(s.db, s.procs[pid].accepted.Identity()), s.procs[pid].accepted.subject)
    ensures SameView(s, Next(par, s, OfDelivery(pid, Commit)), name)
  {
    var e := s.procs[pid].accepted;
    CapturedIsCurrent(par, s, pid);
    if name.SubjectLock? {
      UpsertLeavesOthers(s.db, e, s.procs[pid].at, name.subject);
    }
  }

  lemma RecordView(par: Params, s: Sys, pid: Pid, r: RunStep, name: LockName)
    requires Enabled(par, s, OfRun(pid, r)) && (r.RecordSuccess? || r.RecordFailure?)
    requires name != SubjectLock(s.procs[pid].subject)
    ensures SameView(s, Next(par, s, OfRun(pid, r)), name)
  {
    RecordKeepsIntents(par, s, pid, r);
  }

  lemma RecordKeepsIntents(par: Params, s: Sys, pid: Pid, r: RunStep)
    requires r.RecordSuccess? || r.RecordFailure?
    ensures Next(par, s, OfRun(pid, r)).db.intents == s.db.intents
    ensures forall x :: IntentsOf(Next(par, s, OfRun(pid, r)).db, x) == IntentsOf(s.db, x)
  {
  }

  /** Locks held by different processes have different names. */
  lemma NamesDiffer(par: Params, s: Sys, p: Pid, q: Pid, m: LockName, n: LockName)
    requires Mutex(par, s) && p in s.procs && q in s.procs && p != q
    requires m in Holds(s.procs[p]) && n in Holds(s.procs[q])
    ensures m != n
  {
    assert par.lockKey(m) != par.lockKey(n);
  }

  lemma OthersAtCommit(par: Params, s: Sys, pid: Pid, q: Pid, name: LockName)
    requires Enabled(par, s, OfDelivery(pid, Commit)) && Mutex(par, s) && ProcsOk(par, s) && ValidTables(s.db)
    requires q in s.procs && q != pid && name in Holds(s.procs[q])
    ensures SameView(s, Next(par, s, OfDelivery(pid, Commit)), name)
  {
    var e := s.procs[pid].accepted;
    CommitHolds(par, s, pid);
    NamesDiffer(par, s, pid, q, IdentityLock(e.Identity()), name);
    if name.SubjectLock? && name.subject in Affected(PreviousSubject(s.db, e.Identity()), e.subject) {
      NamesDiffer(par, s, pid, q, name, name);
    }
    CommitView(par, s, pid, name);
  }

  /** A step leaves what other processes' locks protect as it was. */
  lemma OthersViews(par: Params, s: Sys, step: Step, q: Pid, name: LockName)
    requires Enabled(par, s, step) && Mutex(par, s) && ProcsOk(par, s) && ValidTables(s.db)
    requires q in s.procs && Actor(step) != Some(q) && name in Holds(s.procs[q])
    ensures SameView(s, Next(par, s, step), name)
  {
    if step.OfDelivery? && step.delivery.Commit? {
      OthersAtCommit(par, s, step.pid, q, name);
    } else if step.OfRun? && (step.run.RecordSuccess? || step.run.RecordFailure?) {
      RecordHolds(par, s, step.pid, step.run);
      NamesDiffer(par, s, step.pid, q, SubjectLock(s.procs[step.pid].subject), name);
      RecordView(par, s, step.pid, step.run, name);
    } else {
      QuietSteps(par, s, step);
    }
  }

  /** A step that changes a user's groups spoils every other run on that user. */
  lemma OthersSpoiled(par: Params, s: Sys, step: Step, q: Pid)
    requires IsRun(s, q) && Actor(step) != Some(q) && q !in Next(par, s, step).spoiled
    ensures q !in s.spoiled
    ensures var user := par.userOf(s.procs[q].subject); Members(Next(par, s, step), user) == Members(s, user)
  {
  }

  lemma DeliveryKnows(par: Params, s: Sys, pid: Pid, d: DeliveryStep)
    requires Enabled(par, s, OfDelivery(pid, d)) && ProcsOk(par, s)
    ensures var s' := Next(par, s, OfDelivery(pid, d)); ProcOk(par, s', pid, s'.procs[pid])
  {
  }

  /** What a run learns or computes in a step is true of the state it steps
      from. */
  lemma RunLearns(par: Params, s: Sys, pid: Pid, x: string, live: bool, at: RunAt, r: RunStep)
    requires RunEnabled(par, s, pid, x, live, at, r) && TablesOk(par, s)
    requires live ==> RunOk(par, s, pid, x, at)
    requires !r.Resolve? && !r.Write?
    ensures live ==> RunOk(par, s, pid, x, RunNext(par, s, x, at, r))
  {
  }

  lemma ResolveLearns(par: Params, s: Sys, pid: Pid, x: string, live: bool, at: RunAt, profile: User, view: set<string>)
    requires RunEnabled(par, s, pid, x, live, at, Resolve(profile, view)) && ValidConfig(par.cfg)
    requires live ==> RunOk(par, s, pid, x, at)
    ensures live ==> RunOk(par, s, pid, x, Resolved(par, at, profile, view))
  {
    match FirstMatch(par.cfg.programs, profile)
    case Err(_) =>
    case Ok(rule) => OpsForExact(par.cfg, rule, StateOf(at.intents, at.started), view);
  }

  /** Steps of a run that change nothing but the run itself. */
  lemma RunKnows(par: Params, s: Sys, pid: Pid, r: RunStep)
    requires Enabled(par, s, OfRun(pid, r)) && ProcsOk(par, s) && TablesOk(par, s) && ValidConfig(par.cfg)
    requires !r.Write? && !r.WriteFails? && !r.RecordSuccess? && !r.RecordFailure?
    ensures var s' := Next(par, s, OfRun(pid, r)); ProcOk(par, s', pid, s'.procs[pid])
  {
    var p := s.procs[pid];
    assert ProcOk(par, s, pid, p);
    QuietSteps(par, s, OfRun(pid, r));
    assert EditOf(par, s, OfRun(pid, r)).None?;
    if r.Resolve? {
      ResolveLearns(par, s, pid, p.subject, p.live, p.run, r.profile, r.view);
      assert RunNext(par, s, p.subject, p.run, r) == Resolved(par, p.run, r.profile, r.view);
    } else {
      RunLearns(par, s, pid, p.subject, p.live, p.run, r);
    }
    RunMoves(par, s, pid, r);
  }

  lemma PlainEffect(par: Params, s: Sys, pid: Pid, r: RunStep)
    requires Enabled(par, s, OfRun(pid, r)) && !r.RecordSuccess? && !r.RecordFailure?
    requires EditOf(par, s, OfRun(pid, r)).None?
    ensures var p, s' := s.procs[pid], Next(par, s, OfRun(pid, r));
      && s'.procs[pid] == Run(p.subject, p.live && !r.LoseConnection?, RunNext(par, s, p.subject, p.run, r))
      && s'.clock == s.clock && s'.db == s.db && s'.seen == s.seen && s'.members == s.members
      && (pid in s'.spoiled <==> pid in s.spoiled && !r.StartResolve?)
  {
  }

  lemma RunOkFrame(par: Params, s: Sys, s': Sys, pid: Pid, x: string, at: RunAt)
    requires RunOk(par, s, pid, x, at)
    requires s'.clock == s.clock && s'.db == s.db && s'.seen == s.seen && s'.members == s.members
    requires at.Applying? ==> (pid in s'.spoiled <==> pid in s.spoiled)
    ensures RunOk(par, s', pid, x, at)
  {
  }

  /** The run after such a step knows in the new state what it knew in the
      old one. */
  lemma RunMoves(par: Params, s: Sys, pid: Pid, r: RunStep)
    requires Enabled(par, s, OfRun(pid, r)) && !r.RecordSuccess? && !r.RecordFailure?
    requires EditOf(par, s, OfRun(pid, r)).None?
    ensures var p, s' := s.procs[pid], Next(par, s, OfRun(pid, r));
      && s'.procs[pid] == Run(p.subject, p.live && !r.LoseConnection?, RunNext(par, s, p.subject, p.run, r))
      && (RunOk(par, s, pid, p.subject, RunNext(par, s, p.subject, p.run, r)) ==>
            RunOk(par, s', pid, p.subject, RunNext(par, s, p.subject, p.run, r)))
  {
    var p, s' := s.procs[pid], Next(par, s, OfRun(pid, r));
    PlainEffect(par, s, pid, r);
    var at := RunNext(par, s, p.subject, p.run, r);
    if RunOk(par, s, pid, p.subject, at) {
      RunOkFrame(par, s, s', pid, p.subject, at);
    }
  }

  lemma WriteKnows(par: Params, s: Sys, pid: Pid)
    requires Enabled(par, s, OfRun(pid, Write)) && ProcsOk(par, s) && ValidConfig(par.cfg)
    ensures var s' := Next(par, s, OfRun(pid, Write)); ProcOk(par, s', pid, s'.procs[pid])
  {
    var at, x, s' := s.procs[pid].run, s.procs[pid].subject, Next(par, s, OfRun(pid, Write));
    var user, state := par.userOf(x), StateOf(at.intents, at.started);
    assert ProcOk(par, s, pid, s.procs[pid]);
    QuietSteps(par, s, OfRun(pid, Write));
    WriteEffect(par, s, pid);
    if s.procs[pid].live && pid !in s.spoiled {
      SelectedAssertions(par.cfg, at.rule, state);
      ExactTail(at.ops, GoalFor(par.cfg, at.rule, state), Members(s, user));
    }
  }

  lemma WriteEffect(par: Params, s: Sys, pid: Pid)
    requires Enabled(par, s, OfRun(pid, Write))
    ensures var at, user, s' := s.procs[pid].run, par.userOf(s.procs[pid].subject), Next(par, s, OfRun(pid, Write));
      && Members(s', user) == Apply(at.ops[0], Members(s, user))
      && s'.procs[pid] == s.procs[pid].(run := at.(ops := at.ops[1..]))
      && s'.clock == s.clock && (pid in s'.spoiled <==> pid in s.spoiled)
  {
  }

  lemma WriteFailsKnows(par: Params, s: Sys, pid: Pid, tookEffect: bool)
    requires Enabled(par, s, OfRun(pid, WriteFails(tookEffect))) && ProcsOk(par, s)
    ensures var s' := Next(par, s, OfRun(pid, WriteFails(tookEffect))); ProcOk(par, s', pid, s'.procs[pid])
  {
    assert ProcOk(par, s, pid, s.procs[pid]);
    QuietSteps(par, s, OfRun(pid, WriteFails(tookEffect)));
  }

  /** The process that takes the step knows the truth afterwards. */
  lemma ActorKnows(par: Params, s: Sys, step: Step)
    requires Enabled(par, s, step) && ProcsOk(par, s) && TablesOk(par, s) && ValidConfig(par.cfg)
    requires Actor(step).Some?
    ensures var s' := Next(par, s, step);
      step.pid in s'.procs && ProcOk(par, s', step.pid, s'.procs[step.pid])
  {
    match step
    case Arrive(_, _) =>
    case Launch(_, _) =>
    case OfDelivery(pid, d) => DeliveryKnows(par, s, pid, d);
    case OfRun(pid, r) =>
      match r {
        case Write => WriteKnows(par, s, pid);
        case WriteFails(tookEffect) => WriteFailsKnows(par, s, pid, tookEffect);
        case RecordSuccess =>
        case RecordFailure(_) =>
        case _ => RunKnows(par, s, pid, r);
      }
  }

  lemma KeepProcs(par: Params, s: Sys, step: Step)
    requires Enabled(par, s, step) && Inv(par, s) && ValidConfig(par.cfg)
    ensures ProcsOk(par, Next(par, s, step))
  {
    var s' := Next(par, s, step);
    forall q | q in s'.procs ensures ProcOk(par, s', q, s'.procs[q]) {
      if Actor(step) == Some(q) {
        ActorKnows(par, s, step);
      } else {
        OtherProcs(par, s, step, q);
        forall n | n in Holds(s.procs[q]) ensures SameView(s, s', n) {
          OthersViews(par, s, step, q, n);
        }
        if s.procs[q].Run? && q !in s'.spoiled { OthersSpoiled(par, s, step, q); }
        ProcFrame(par, s, s', q, s.procs[q]);
      }
    }
  }

  // ----- the tables

  lemma IntentsAreValid(db: Tables, x: string)
    requires ValidTables(db)
    ensures forall i :: i in IntentsOf(db, x) ==> Valid(i)
    ensures Windowed(IntentsOf(db, x))
  {
  }

  /** Later, the same row is still right. */
  lemma RowFrame(par: Params, s: Sys, s': Sys, x: string)
    requires x in s.db.states && RowOk(par, s, x) && s.clock <= s'.clock
    requires RowOf(s'.db, x) == RowOf(s.db, x) && IntentsOf(s'.db, x) == IntentsOf(s.db, x)
    requires SeenOf(s', x) == SeenOf(s, x) && Failures(s', x) == Failures(s, x)
    requires x in s.marks ==> x in s'.marks && s'.marks[x] == s.marks[x]
    ensures x in s'.db.states && RowOk(par, s', x)
  {
  }

  /** What a commit changes. */
  ghost predicate AfterCommit(s: Sys, s': Sys, e: Intent, at: Time) {
    && s'.db == Upserted(s.db, e, at) && s'.marks == s.marks + DeliveryMarks(PreviousSubject(s.db, e.Identity()), e, at)
    && s'.(db := s.db, marks := s.marks, procs := s.procs) == s
  }

  /** What recording a success changes. */
  ghost predicate AfterSuccess(s: Sys, s': Sys, x: string, seen: Seen) {
    && s'.db == Succeeded(s.db, x, seen.at, NextOf(seen.intents, seen.at))
    && s'.seen == s.seen[x := seen] && s'.failures == s.failures[x := 0]
    && s'.(db := s.db, seen := s.seen, failures := s.failures, procs := s.procs, disturbed := s.disturbed) == s
  }

  /** What recording a failure changes. */
  ghost predicate AfterFailure(par: Params, s: Sys, s': Sys, x: string, started: Time, message: string, next: Option<Time>) {
    && s'.db == Failed(s.db, x, started, message, next, RetryAt(par, RowOf(s.db, x), started))
    && s'.failures == s.failures[x := Failures(s, x) + 1]
    && s'.marks == s.marks[x := ByFailure(Failures(s, x) + 1, started)]
    && s'.(db := s.db, failures := s.failures, marks := s.marks, procs := s.procs) == s
  }

  lemma CommitEffect(par: Params, s: Sys, pid: Pid)
    requires Enabled(par, s, OfDelivery(pid, Commit)) && ProcsOk(par, s)
    ensures AfterCommit(s, Next(par, s, OfDelivery(pid, Commit)), s.procs[pid].accepted, s.procs[pid].at)
    ensures Valid(s.procs[pid].accepted) && s.procs[pid].at <= s.clock
  {
  }

  lemma SuccessEffect(par: Params, s: Sys, pid: Pid)
    requires Enabled(par, s, OfRun(pid, RecordSuccess)) && ProcsOk(par, s)
    ensures var at, x, s' := s.procs[pid].run, s.procs[pid].subject, Next(par, s, OfRun(pid, RecordSuccess));
      && at.Applying? && at.ops == [] && RunOk(par, s, pid, x, at)
      && AfterSuccess(s, s', x, Seen(at.intents, at.started, at.rule))
      && s'.disturbed == (if pid in s.spoiled then s.disturbed + {x} else s.disturbed - {x})
  {
  }

  lemma FailureEffect(par: Params, s: Sys, pid: Pid, message: string)
    requires Enabled(par, s, OfRun(pid, RecordFailure(message))) && ProcsOk(par, s)
    ensures var at, x, s' := s.procs[pid].run, s.procs[pid].subject, Next(par, s, OfRun(pid, RecordFailure(message)));
      && at.Failing? && RunOk(par, s, pid, x, at)
      && AfterFailure(par, s, s', x, at.started, message, at.next)
  {
    assert ProcOk(par, s, pid, s.procs[pid]);
  }

  lemma CommitTables(par: Params, s: Sys, s': Sys, e: Intent, at: Time)
    requires AfterCommit(s, s', e, at) && Valid(e) && at <= s.clock && TablesOk(par, s)
    ensures TablesOk(par, s')
  {
    var affected := Affected(PreviousSubject(s.db, e.Identity()), e.subject);
    UpsertCovers(s.db, e, at);
    forall x | x in s'.db.states ensures RowOk(par, s', x) {
      if x in affected {
        MarkedRowOk(par, s, s', e, at, x);
      } else {
        UpsertLeavesOthers(s.db, e, at, x);
        RowFrame(par, s, s', x);
      }
    }
  }

  /** Every subject that has intents after a delivery has a row. */
  lemma UpsertCovers(db: Tables, e: Intent, at: Time)
    requires ValidTables(db) && Valid(e) && SubjectsWithIntents(db) <= db.states.Keys
    ensures var db' := Upserted(db, e, at);
      && ValidTables(db') && SubjectsWithIntents(db') <= db'.states.Keys
      && db'.states.Keys == db.states.Keys + Affected(PreviousSubject(db, e.Identity()), e.subject)
  {
  }

  /** The row of an affected subject right after the delivery. */
  lemma MarkedRowOk(par: Params, s: Sys, s': Sys, e: Intent, at: Time, x: string)
    requires TablesOk(par, s) && at <= s.clock && AfterCommit(s, s', e, at)
    requires x in Affected(PreviousSubject(s.db, e.Identity()), e.subject)
    ensures x in s'.db.states && RowOk(par, s', x)
  {
    UpsertMarksAffected(s.db, e, at, x, at);
    assert x in DeliveryMarks(PreviousSubject(s.db, e.Identity()), e, at);
    assert x in s.db.states ==> RowOk(par, s, x);
    assert x !in s.db.states ==> x !in s.seen && x !in s.failures;
    MarkIsRight(par, s, s', at, x);
  }

  lemma MarkIsRight(par: Params, s: Sys, s': Sys, at: Time, x: string)
    requires x in s'.db.states && s'.db.states[x] == Marked(RowOf(s.db, x), at)
    requires x in s'.marks && s'.marks[x] == ByDelivery(at) && at <= s.clock == s'.clock
    requires s'.seen == s.seen && s'.failures == s.failures
    requires if x in s.db.states then RowOk(par, s, x) else x !in s.seen && x !in s.failures
    ensures RowOk(par, s', x)
  {
  }

  lemma SuccessTables(par: Params, s: Sys, s': Sys, x: string, seen: Seen)
    requires AfterSuccess(s, s', x, seen) && TablesOk(par, s)
    requires seen.intents == IntentsOf(s.db, x) && seen.at <= s.clock
    ensures TablesOk(par, s')
  {
    SameIntents(s.db, s'.db);
    forall y | y in s'.db.states ensures RowOk(par, s', y) {
      if y != x {
        RowFrame(par, s, s', y);
      }
    }
  }

  lemma SameIntents(db: Tables, db': Tables)
    requires db'.intents == db.intents
    ensures SubjectsWithIntents(db') == SubjectsWithIntents(db)
    ensures ValidTables(db) ==> ValidTables(db')
    ensures forall x :: IntentsOf(db', x) == IntentsOf(db, x)
  {
  }

  lemma FailureTables(par: Params, s: Sys, s': Sys, x: string, started: Time, message: string, next: Option<Time>)
    requires AfterFailure(par, s, s', x, started, message, next) && TablesOk(par, s) && started <= s.clock
    ensures TablesOk(par, s')
  {
    SameIntents(s.db, s'.db);
    FailedRowOk(par, s, s', x, started, message, next);
    forall y | y in s'.db.states ensures RowOk(par, s', y) {
      if y != x {
        RowFrame(par, s, s', y);
      }
    }
  }

  lemma FailedRowOk(par: Params, s: Sys, s': Sys, x: string, started: Time, message: string, next: Option<Time>)
    requires AfterFailure(par, s, s', x, started, message, next) && TablesOk(par, s) && started <= s.clock
    ensures x in s'.db.states && RowOk(par, s', x)
  {
    if x in s.db.states {
      assert RowOk(par, s, x);
    }
  }

  lemma RecordTables(par: Params, s: Sys, pid: Pid, r: RunStep)
    requires Enabled(par, s, OfRun(pid, r)) && (r.RecordSuccess? || r.RecordFailure?)
    requires ProcsOk(par, s) && TablesOk(par, s)
    ensures TablesOk(par, Next(par, s, OfRun(pid, r)))
  {
    var at, x, s' := s.procs[pid].run, s.procs[pid].subject, Next(par, s, OfRun(pid, r));
    match r
    case RecordSuccess =>
      SuccessEffect(par, s, pid);
      SuccessTables(par, s, s', x, Seen(at.intents, at.started, at.rule));
    case RecordFailure(message) =>
      FailureEffect(par, s, pid, message);
      FailureTables(par, s, s', x, at.started, message, at.next);
  }

  lemma KeepTables(par: Params, s: Sys, step: Step)
    requires Enabled(par, s, step) && ProcsOk(par, s) && TablesOk(par, s)
    ensures TablesOk(par, Next(par, s, step))
  {
    var s' := Next(par, s, step);
    if step.OfDelivery? && step.delivery.Commit? {
      CommitEffect(par, s, step.pid);
      CommitTables(par, s, s', s.procs[step.pid].accepted, s.procs[step.pid].at);
    } else if step.OfRun? && (step.run.RecordSuccess? || step.run.RecordFailure?) {
      RecordTables(par, s, step.pid, step.run);
    } else {
      QuietSteps(par, s, step);
      QuietTables(par, s, s');
    }
  }

  lemma QuietTables(par: Params, s: Sys, s': Sys)
    requires TablesOk(par, s) && s.clock <= s'.clock
    requires s'.db == s.db && s'.seen == s.seen && s'.failures == s.failures && s'.marks == s.marks
    ensures TablesOk(par, s')
  {
  }

  // ----- the directory

  /** A quiet subject's own regular run has nothing left to write while the groups
      are as they should be: it works on the same intents, in the same state,
      under the same rule. */
  lemma RegularRunIsIdle(par: Params, s: Sys, pid: Pid, x: string)
    requires ProcsOk(par, s) && TablesOk(par, s) && x in s.db.states && x in s.seen && Quiet(s, x) && Regular(s, pid, x)
    requires Satisfied(SeenGoal(par, s.seen[x]), Members(s, par.userOf(x)))
    ensures s.procs[pid].run.ops == []
  {
    var at, seen := s.procs[pid].run, s.seen[x];
    assert ProcOk(par, s, pid, s.procs[pid]);
    assert RowOk(par, s, x);
    IntentsAreValid(s.db, x);
    QuietUntilNext(seen.intents, seen.at, at.started);
    NothingListed(at.ops, SeenGoal(par, seen), Members(s, par.userOf(x)));
  }

  lemma RegularRunHasNothingToDo(par: Params, s: Sys, pid: Pid, x: string)
    requires Inv(par, s) && x in s.db.states && x in s.seen && Quiet(s, x) && x !in s.disturbed
    requires Regular(s, pid, x)
    ensures s.procs[pid].run.ops == []
  {
    assert GroupsOk(par, s, x);
    RegularRunIsIdle(par, s, pid, x);
  }

  lemma EditEffect(par: Params, s: Sys, step: Step)
    requires Enabled(par, s, step) && EditOf(par, s, step).Some?
    ensures var s', edit := Next(par, s, step), EditOf(par, s, step).value;
      && s'.clock == s.clock && s'.db == s.db && s'.seen == s.seen
      && s'.members == s.members[edit.user := edit.groups]
      && s'.disturbed == s.disturbed + Disturbs(par, s, edit.user, edit.writer)
  {
  }

  /** A write to a user's groups disturbs every quiet subject of that user. */
  lemma EditKeepsGroups(par: Params, s: Sys, step: Step, x: string)
    requires Enabled(par, s, step) && Inv(par, s) && EditOf(par, s, step).Some?
    ensures GroupsOk(par, Next(par, s, step), x)
  {
    var s', edit := Next(par, s, step), EditOf(par, s, step).value;
    EditEffect(par, s, step);
    assert GroupsOk(par, s, x);
    if x in s.db.states && x in s.seen && Quiet(s, x) && x !in s'.disturbed {
      if par.userOf(x) == edit.user {
        assert x !in Disturbs(par, s, edit.user, edit.writer);
        RegularRunHasNothingToDo(par, s, edit.writer.value, x);
      }
    }
  }

  lemma CommitKeepsGroups(par: Params, s: Sys, s': Sys, e: Intent, at: Time, x: string)
    requires AfterCommit(s, s', e, at) && TablesOk(par, s) && GroupsOk(par, s, x)
    ensures GroupsOk(par, s', x)
  {
  }

  lemma SuccessKeepsGroups(par: Params, s: Sys, s': Sys, y: string, seen: Seen, x: string)
    requires AfterSuccess(s, s', y, seen) && GroupsOk(par, s, x)
    requires y !in s'.disturbed ==> Satisfied(SeenGoal(par, seen), Members(s, par.userOf(y)))
    requires x != y ==> (x in s'.disturbed <==> x in s.disturbed)
    ensures GroupsOk(par, s', x)
  {
  }

  lemma FailureKeepsGroups(par: Params, s: Sys, s': Sys, y: string, started: Time, message: string, next: Option<Time>, x: string)
    requires AfterFailure(par, s, s', y, started, message, next) && GroupsOk(par, s, x)
    ensures GroupsOk(par, s', x)
  {
  }

  lemma RecordKeepsGroups(par: Params, s: Sys, pid: Pid, r: RunStep, x: string)
    requires Enabled(par, s, OfRun(pid, r)) && Inv(par, s) && (r.RecordSuccess? || r.RecordFailure?)
    ensures GroupsOk(par, Next(par, s, OfRun(pid, r)), x)
  {
    var at, y, s' := s.procs[pid].run, s.procs[pid].subject, Next(par, s, OfRun(pid, r));
    assert GroupsOk(par, s, x);
    match r
    case RecordSuccess =>
      SuccessEffect(par, s, pid);
      var seen := Seen(at.intents, at.started, at.rule);
      if y !in s'.disturbed {
        ExactDone(SeenGoal(par, seen), Members(s, par.userOf(y)));
      }
      SuccessKeepsGroups(par, s, s', y, seen, x);
    case RecordFailure(message) =>
      FailureEffect(par, s, pid, message);
      FailureKeepsGroups(par, s, s', y, at.started, message, at.next, x);
  }

  lemma KeepDirectory(par: Params, s: Sys, step: Step)
    requires Enabled(par, s, step) && Inv(par, s)
    ensures DirectoryOk(par, Next(par, s, step))
  {
    var s' := Next(par, s, step);
    forall x ensures GroupsOk(par, s', x) {
      if EditOf(par, s, step).Some? {
        EditKeepsGroups(par, s, step, x);
      } else if step.OfDelivery? && step.delivery.Commit? {
        CommitEffect(par, s, step.pid);
        assert GroupsOk(par, s, x);
        CommitKeepsGroups(par, s, s', s.procs[step.pid].accepted, s.procs[step.pid].at, x);
      } else if step.OfRun? && (step.run.RecordSuccess? || step.run.RecordFailure?) {
        RecordKeepsGroups(par, s, step.pid, step.run, x);
      } else {
        QuietSteps(par, s, step);
        assert GroupsOk(par, s, x);
      }
    }
  }

  // ----- the invariant

  lemma KeepInv(par: Params, s: Sys, step: Step)
    requires Enabled(par, s, step) && Inv(par, s) && ValidConfig(par.cfg)
    ensures Inv(par, Next(par, s, step))
  {
    KeepPool(par, s, step);
    KeepMutex(par, s, step);
    KeepProcs(par, s, step);
    KeepTables(par, s, step);
    KeepDirectory(par, s, step);
  }

  /** The invariant holds after every run of the system. */
  lemma {:induction false} InvAlways(par: Params, s: Sys, steps: seq<Step>)
    requires Inv(par, s) && ValidConfig(par.cfg) && Executable(par, s, steps)
    ensures Inv(par, Final(par, s, steps))
    decreases |steps|
  {
    if steps != [] {
      KeepInv(par, s, steps[0]);
      InvAlways(par, Next(par, s, steps[0]), steps[1..]);
    }
  }
}
