/** The subject reconciliation protocol as a state machine: webhook deliveries
    (UpsertIntent) and reconciliation runs (ReconcileSubject) interleave step by
    step over the tables, the advisory locks, the connection pool and the
    directory (internal/store/store.go, internal/reconcile/service.go). */
module Protocol {
  import opened Common
  import opened Ordering
  import opened Intents
  import opened Timeline
  import opened Policy
  import opened Aliases
  import opened Planner
  import opened Backoff
  import opened Store
  import opened Convergence

  type Pid = nat

  /** What an advisory lock is taken for. The key is a hash of the name. */
  datatype LockName = IdentityLock(key: Key) | SubjectLock(subject: string)

  /** Fixed for a run of the system. lockKey and userOf are any functions: two
      names may share a key, and two subjects may name one directory user. */
  datatype Params = Params(
    cfg: Config, retryInitial: int, retryMax: int, poolSize: nat,
    lockKey: LockName -> int, userOf: string -> string)

  /** Where a delivery is. */
  datatype DeliveryAt =
    | Queued                                                       // waits for a connection
    | Connected                                                    // waits for the identity lock
    | Identified                                                   // holds it
    | Locking(previous: Option<string>, names: seq<string>, taken: nat)  // holds the first taken subject locks
    | Finished                                                     // committed or rolled back

  /** Where a reconciliation run is. */
  datatype RunAt =
    | Waiting                                                      // for a connection
    | Opening                                                      // waits for the subject lock
    | Locked
    | Begun(started: Time)
    | Stated(started: Time, row: Option<Row>)
    | Listed(started: Time, row: Option<Row>, intents: set<Intent>)
    | Resolving(started: Time, row: Option<Row>, intents: set<Intent>)
    | Applying(started: Time, row: Option<Row>, intents: set<Intent>, rule: Option<nat>, ops: seq<Op>)
    | Failing(started: Time, row: Option<Row>, next: Option<Time>)
    | Closing
    | Done

  /** live: the database session of the run is alive. A session that dies takes
      its lock with it and can write no more, while the run itself goes on. */
  datatype Proc =
    | Delivery(accepted: Intent, at: Time, delivery: DeliveryAt)
    | Run(subject: string, live: bool, run: RunAt)

  /** What the last recorded success of a subject was based on. */
  datatype Seen = Seen(intents: set<Intent>, at: Time, rule: Option<nat>)

  /** Why a row has the retry time it has. */
  datatype Mark = ByDelivery(at: Time) | ByFailure(count: nat, started: Time)

  /** The last five fields only record history; no step reads them.
      disturbed: subjects whose user's groups were written by someone other than
      a regular run of theirs since the resolution that their last success was
      based on. spoiled: runs whose resolved view is out of date for the same
      reason. */
  datatype Sys = Sys(
    clock: Time, db: Tables, procs: map<Pid, Proc>, members: map<string, set<string>>,
    seen: map<string, Seen>, failures: map<string, nat>, marks: map<string, Mark>,
    disturbed: set<string>, spoiled: set<Pid>)

  ghost function Initial(clock: Time, members: map<string, set<string>>): Sys {
    Sys(clock, Tables(map[], map[]), map[], members, map[], map[], map[], {}, {})
  }

  ghost function Members(s: Sys, user: string): set<string> {
    if user in s.members then s.members[user] else {}
  }

  /** The locks a process holds. */
  ghost function Holds(p: Proc): set<LockName> {
    match p
    case Delivery(e, _, Identified) => {IdentityLock(e.Identity())}
    case Delivery(e, _, Locking(_, names, taken)) =>
      {IdentityLock(e.Identity())} + set i | 0 <= i < taken && i < |names| :: SubjectLock(names[i])
    case Run(subject, true, at) =>
      if at.Waiting? || at.Opening? || at.Done? then {} else {SubjectLock(subject)}
    case _ => {}
  }

  /** The lock a process waits for. */
  ghost function Wants(p: Proc): Option<LockName> {
    match p
    case Delivery(e, _, Connected) => Some(IdentityLock(e.Identity()))
    case Delivery(_, _, Locking(_, names, taken)) => if taken < |names| then Some(SubjectLock(names[taken])) else None
    case Run(subject, true, Opening) => Some(SubjectLock(subject))
    case _ => None
  }

  ghost predicate HasConnection(p: Proc) {
    match p
    case Delivery(_, _, at) => !at.Queued? && !at.Finished?
    case Run(_, _, at) => !at.Waiting? && !at.Done?
  }

  ghost predicate Unfinished(p: Proc) {
    match p
    case Delivery(_, _, at) => !at.Finished?
    case Run(_, _, at) => !at.Done?
  }

  ghost function UsedConnections(s: Sys): set<Pid> {
    set p | p in s.procs && HasConnection(s.procs[p])
  }

  /** No other process holds a lock with the same key. */
  ghost predicate Free(par: Params, s: Sys, pid: Pid, name: LockName) {
    forall q, held :: q in s.procs && q != pid && held in Holds(s.procs[q]) ==> par.lockKey(held) != par.lockKey(name)
  }

  datatype DeliveryStep =
    | Connect
    | LockIdentity
    | ReadPrevious
    | LockNextSubject
    | Commit
    | Abort                                       // error, cancellation or lost connection: rollback

  datatype RunStep =
    | Acquire                                     // a pool connection
    | LockSubject
    | Begin
    | ReadState
    | ReadIntents
    | ReadIntentsFails
    | StartResolve
    | Resolve(profile: User, view: set<string>)
    | ResolveFails
    | Write
    | WriteFails(tookEffect: bool)
    | RecordSuccess
    | RecordFailure(message: string)
    | Quit                                        // nothing recorded: cancellation, failed read, failed record write
    | LoseConnection
    | Close

  datatype Step =
    | Arrive(pid: Pid, accepted: Intent)          // a webhook handler accepts a valid intent
    | Launch(pid: Pid, subject: string)           // the reconciler turns to a subject
    | Tick(to: Time)
    | ExternalEdit(user: string, groups: set<string>)
    | OfDelivery(pid: Pid, delivery: DeliveryStep)
    | OfRun(pid: Pid, run: RunStep)

  ghost predicate IsDelivery(s: Sys, pid: Pid) {
    pid in s.procs && s.procs[pid].Delivery?
  }

  ghost predicate IsRun(s: Sys, pid: Pid) {
    pid in s.procs && s.procs[pid].Run?
  }

  ghost predicate DeliveryEnabled(par: Params, s: Sys, pid: Pid, e: Intent, at: DeliveryAt, d: DeliveryStep) {
    match d
    case Connect => at.Queued? && |UsedConnections(s)| < par.poolSize
    case LockIdentity => at.Connected? && Free(par, s, pid, IdentityLock(e.Identity()))
    case ReadPrevious => at.Identified?
    case LockNextSubject => at.Locking? && at.taken < |at.names| && Free(par, s, pid, SubjectLock(at.names[at.taken]))
    case Commit => at.Locking? && at.taken == |at.names|
    case Abort => !at.Finished?
  }

  ghost function DeliveryNext(db: Tables, e: Intent, at: DeliveryAt, d: DeliveryStep): DeliveryAt {
    match d
    case Connect => Connected
    case LockIdentity => Identified
    case ReadPrevious =>
      var previous := PreviousSubject(db, e.Identity());
      Locking(previous, SortedElements(Affected(previous, e.subject)), 0)
    case LockNextSubject => if at.Locking? then at.(taken := at.taken + 1) else at
    case Commit => Finished
    case Abort => Finished
  }

  ghost predicate RunEnabled(par: Params, s: Sys, pid: Pid, x: string, live: bool, at: RunAt, r: RunStep) {
    match r
    case Acquire => at.Waiting? && |UsedConnections(s)| < par.poolSize
    case LockSubject => live && at.Opening? && Free(par, s, pid, SubjectLock(x))
    case Begin => at.Locked?
    case ReadState => live && at.Begun?
    case ReadIntents => live && at.Stated?
    case ReadIntentsFails => at.Stated?
    case StartResolve => at.Listed?
    case Resolve(profile, view) =>
      && at.Resolving? && profile.id == par.userOf(x)
      && profile.groups == SortedElements(AliasesIn(par.cfg.groups, view))
      && (pid !in s.spoiled ==> view == Members(s, par.userOf(x)))
    case ResolveFails => at.Resolving?
    case Write => at.Applying? && at.ops != []
    case WriteFails(_) => at.Applying? && at.ops != []
    case RecordSuccess => live && at.Applying? && at.ops == []
    case RecordFailure(_) => live && at.Failing?
    case Quit => !at.Closing? && !at.Done?
    case LoseConnection => live && !at.Waiting? && !at.Done?
    case Close => at.Closing?
  }

  /** A run that failed after it read the intents records their next boundary. */
  ghost function FailedRead(at: RunAt): RunAt
    requires at.Resolving? || at.Applying?
  {
    Failing(at.started, at.row, NextOf(at.intents, at.started))
  }

  ghost function Resolved(par: Params, at: RunAt, profile: User, view: set<string>): RunAt
    requires at.Resolving?
  {
    match FirstMatch(par.cfg.programs, profile)
    case Err(_) => FailedRead(at)
    case Ok(rule) =>
      Applying(at.started, at.row, at.intents, rule, OpsFor(par.cfg, rule, StateOf(at.intents, at.started), view))
  }

  ghost function RunNext(par: Params, s: Sys, x: string, at: RunAt, r: RunStep): RunAt {
    match r
    case Acquire => Opening
    case LockSubject => Locked
    case Begin => Begun(s.clock)
    case ReadState => if at.Begun? then Stated(at.started, RowOf(s.db, x)) else at
    case ReadIntents => if at.Stated? then Listed(at.started, at.row, IntentsOf(s.db, x)) else at
    case ReadIntentsFails =>
      if at.Stated? then Failing(at.started, at.row, if at.row.Some? then at.row.value.nextTransition else None) else at
    case StartResolve => if at.Listed? then Resolving(at.started, at.row, at.intents) else at
    case Resolve(profile, view) => if at.Resolving? then Resolved(par, at, profile, view) else at
    case ResolveFails => if at.Resolving? then FailedRead(at) else at
    case Write => if at.Applying? && at.ops != [] then at.(ops := at.ops[1..]) else at
    case WriteFails(_) => if at.Applying? then FailedRead(at) else at
    case RecordSuccess => Closing
    case RecordFailure(_) => Closing
    case Quit => if at.Waiting? || at.Opening? then Done else Closing
    case LoseConnection => at
    case Close => Done
  }

  ghost predicate Enabled(par: Params, s: Sys, step: Step) {
    match step
    case Arrive(pid, e) => pid !in s.procs && Valid(e)
    case Launch(pid, subject) => pid !in s.procs
    case Tick(to) => s.clock <= to
    case ExternalEdit(_, _) => true
    case OfDelivery(pid, d) =>
      IsDelivery(s, pid) && DeliveryEnabled(par, s, pid, s.procs[pid].accepted, s.procs[pid].delivery, d)
    case OfRun(pid, r) =>
      IsRun(s, pid) && RunEnabled(par, s, pid, s.procs[pid].subject, s.procs[pid].live, s.procs[pid].run, r)
  }

  /** The process that takes the step, and what becomes of it. */
  ghost function NextProcs(par: Params, s: Sys, step: Step): map<Pid, Proc> {
    match step
    case Arrive(pid, e) => s.procs[pid := Delivery(e, s.clock, Queued)]
    case Launch(pid, subject) => s.procs[pid := Run(subject, true, Waiting)]
    case OfDelivery(pid, d) =>
      if !IsDelivery(s, pid) then s.procs else
      var p := s.procs[pid];
      s.procs[pid := Delivery(p.accepted, p.at, DeliveryNext(s.db, p.accepted, p.delivery, d))]
    case OfRun(pid, r) =>
      if !IsRun(s, pid) then s.procs else
      var p := s.procs[pid];
      s.procs[pid := Run(p.subject, p.live && !r.LoseConnection?, RunNext(par, s, p.subject, p.run, r))]
    case _ => s.procs
  }

  /** The delivery marks the subject it read before and the one it names. */
  ghost function DeliveryMarks(previous: Option<string>, e: Intent, at: Time): map<string, Mark> {
    map x | x in Affected(previous, e.subject) :: ByDelivery(at)
  }

  ghost function RetryAt(par: Params, row: Option<Row>, started: Time): Time {
    started + Delay(par.retryInitial, par.retryMax, if row.Some? then row.value.retryCount else 0)
  }

  ghost function NextDb(par: Params, s: Sys, step: Step): Tables {
    match step
    case OfDelivery(pid, Commit) =>
      if IsDelivery(s, pid) && s.procs[pid].delivery.Locking? then
        UpsertedFrom(s.db, s.procs[pid].delivery.previous, s.procs[pid].accepted, s.procs[pid].at)
      else s.db
    case OfRun(pid, RecordSuccess) =>
      if IsRun(s, pid) && s.procs[pid].run.Applying? then
        Succeeded(s.db, s.procs[pid].subject, s.procs[pid].run.started,
                  NextOf(s.procs[pid].run.intents, s.procs[pid].run.started))
      else s.db
    case OfRun(pid, RecordFailure(message)) =>
      if IsRun(s, pid) && s.procs[pid].run.Failing? then
        var at := s.procs[pid].run;
        Failed(s.db, s.procs[pid].subject, at.started, message, at.next, RetryAt(par, at.row, at.started))
      else s.db
    case _ => s.db
  }

  /** Runs on the user, other than the writer: what they resolved may be stale
      now. */
  ghost function RunsOn(par: Params, s: Sys, user: string, writer: Option<Pid>): set<Pid> {
    set q | q in s.procs && s.procs[q].Run? && par.userOf(s.procs[q].subject) == user && writer != Some(q)
  }

  /** The subject's own run writes as its last success would have it write: the
      session holds the lock, the resolved view is current and the rule is the
      same. */
  ghost predicate Regular(s: Sys, pid: Pid, subject: string) {
    && IsRun(s, pid) && s.procs[pid].subject == subject && s.procs[pid].live && pid !in s.spoiled
    && s.procs[pid].run.Applying?
    && (subject in s.seen ==> s.seen[subject].rule == s.procs[pid].run.rule)
  }

  /** The subjects that a write to the user's groups disturbs. */
  ghost function Disturbs(par: Params, s: Sys, user: string, writer: Option<Pid>): set<string> {
    set x | x in s.db.states && par.userOf(x) == user && !(writer.Some? && Regular(s, writer.value, x))
  }

  /** A write to a user's groups: by whom, and what the groups become. */
  datatype Edit = Edit(user: string, groups: set<string>, writer: Option<Pid>)

  ghost function EditOf(par: Params, s: Sys, step: Step): Option<Edit> {
    match step
    case ExternalEdit(user, groups) => Some(Edit(user, groups, None))
    case OfRun(pid, r) =>
      if (r.Write? || (r.WriteFails? && r.tookEffect)) && IsRun(s, pid) && s.procs[pid].run.Applying? && s.procs[pid].run.ops != [] then
        var user := par.userOf(s.procs[pid].subject);
        Some(Edit(user, Apply(s.procs[pid].run.ops[0], Members(s, user)), Some(pid)))
      else None
    case _ => None
  }

  ghost function NextMembers(par: Params, s: Sys, step: Step): map<string, set<string>> {
    match EditOf(par, s, step)
    case Some(edit) => s.members[edit.user := edit.groups]
    case None => s.members
  }

  ghost function NextSpoiled(par: Params, s: Sys, step: Step): set<Pid> {
    match step
    case OfRun(pid, StartResolve) => s.spoiled - {pid}
    case _ =>
      match EditOf(par, s, step)
      case Some(edit) => s.spoiled + RunsOn(par, s, edit.user, edit.writer)
      case None => s.spoiled
  }

  ghost function NextDisturbed(par: Params, s: Sys, step: Step): set<string> {
    match step
    case OfRun(pid, RecordSuccess) =>
      if !IsRun(s, pid) then s.disturbed
      else if pid in s.spoiled then s.disturbed + {s.procs[pid].subject}
      else s.disturbed - {s.procs[pid].subject}
    case _ =>
      match EditOf(par, s, step)
      case Some(edit) => s.disturbed + Disturbs(par, s, edit.user, edit.writer)
      case None => s.disturbed
  }

  ghost function NextSeen(s: Sys, step: Step): map<string, Seen> {
    match step
    case OfRun(pid, RecordSuccess) =>
      if IsRun(s, pid) && s.procs[pid].run.Applying? then
        var at := s.procs[pid].run;
        s.seen[s.procs[pid].subject := Seen(at.intents, at.started, at.rule)]
      else s.seen
    case _ => s.seen
  }

  ghost function Failures(s: Sys, subject: string): nat {
    if subject in s.failures then s.failures[subject] else 0
  }

  ghost function NextFailures(s: Sys, step: Step): map<string, nat> {
    match step
    case OfRun(pid, RecordSuccess) =>
      if IsRun(s, pid) then s.failures[s.procs[pid].subject := 0] else s.failures
    case OfRun(pid, RecordFailure(_)) =>
      if IsRun(s, pid) then s.failures[s.procs[pid].subject := Failures(s, s.procs[pid].subject) + 1] else s.failures
    case _ => s.failures
  }

  ghost function NextMarks(s: Sys, step: Step): map<string, Mark> {
    match step
    case OfDelivery(pid, Commit) =>
      if IsDelivery(s, pid) && s.procs[pid].delivery.Locking? then
        s.marks + DeliveryMarks(s.procs[pid].delivery.previous, s.procs[pid].accepted, s.procs[pid].at)
      else s.marks
    case OfRun(pid, RecordFailure(_)) =>
      if IsRun(s, pid) && s.procs[pid].run.Failing? then
        var x := s.procs[pid].subject;
        s.marks[x := ByFailure(Failures(s, x) + 1, s.procs[pid].run.started)]
      else s.marks
    case _ => s.marks
  }

  ghost function Next(par: Params, s: Sys, step: Step): Sys {
    Sys(
      if step.Tick? then step.to else s.clock,
      NextDb(par, s, step), NextProcs(par, s, step), NextMembers(par, s, step),
      NextSeen(s, step), NextFailures(s, step), NextMarks(s, step),
      NextDisturbed(par, s, step), NextSpoiled(par, s, step))
  }

  /** A run of the system from s. */
  ghost predicate Executable(par: Params, s: Sys, steps: seq<Step>)
    decreases |steps|
  {
    steps == [] || (Enabled(par, s, steps[0]) && Executable(par, Next(par, s, steps[0]), steps[1..]))
  }

  ghost function Final(par: Params, s: Sys, steps: seq<Step>): Sys
    requires Executable(par, s, steps)
    decreases |steps|
  {
    if steps == [] then s else Final(par, Next(par, s, steps[0]), steps[1..])
  }
}
