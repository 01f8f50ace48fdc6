/** ReconcileSubject (internal/reconcile/service.go) as it runs: read, resolve,
    plan, write to the directory, record. Which calls fail is an input. */
module Reconciliation {
  import opened Common
  import opened Ordering
  import opened Intents
  import opened Timeline
  import opened Policy
  import opened Aliases
  import opened Planner
  import opened Backoff
  import opened Store
  import opened Convergence
  import opened Preview
  import D = Database

  /** How a write ends: it may also take effect although its answer is lost. */
  datatype Outcome = Works | Refused | Unacknowledged

  /** What goes wrong in one attempt. A flag says that the call fails; batches are
      the batches of group IDs that Graph does not answer, and writes says how the
      first writes end. */
  datatype Faults = Faults(
    lock: bool, readState: bool, listIntents: bool, lookup: bool, batches: set<seq<string>>,
    writes: seq<Outcome>, recordSuccess: Outcome, close: bool, cancelled: bool, recordFailure: Outcome)
  {
    /** How the k-th write ends. */
    function Write(k: nat): Outcome { if k < |writes| then writes[k] else Works }
  }

  /** Every call to the directory about a user with this entry succeeds. */
  ghost predicate Resolvable(groups: Groups, f: Faults, entry: User) {
    !f.lookup && entry.id != "" && forall b :: b in Batches(SortedElements(AllIds(groups))) ==> b !in f.batches
  }

  /** The user that a directory entry becomes, with the aliases of the groups held. */
  ghost function ResolvedAs(groups: Groups, entry: User, held: set<string>): User {
    entry.(present := true, groups := SortedElements(AliasesIn(groups, held)))
  }

  /** The groups of every directory user. */
  class Directory {
    var members: map<string, set<string>>

    ghost function Of(user: string): set<string>
      reads this
    {
      if user in members then members[user] else {}
    }

    constructor (members: map<string, set<string>>)
      ensures this.members == members
    {
      this.members := members;
    }

    /** Resolves a subject to the user of its entry, with the aliases the user
        holds. An entry without an ID is refused. */
    method Resolve(subject: string, groups: Groups, entries: string -> User, f: Faults) returns (user: Option<User>)
      ensures user.Some? <==> Resolvable(groups, f, entries(subject))
      ensures user.Some? ==> user.value == ResolvedAs(groups, entries(subject), Of(entries(subject).id))
    {
      var entry := entries(subject);
      if f.lookup || entry.id == "" {
        return None;
      }
      var held := if entry.id in members then members[entry.id] else {};
      GraphIsTruthful(f, held);
      var aliases, _ := ResolveGroups(GraphOf(f, held), held, groups);
      if aliases.None? {
        return None;
      }
      return Some(entry.(present := true, groups := aliases.value));
    }

    /** AddGroupMember and RemoveGroupMember. */
    method Write(op: Op, user: string, outcome: Outcome) returns (ok: bool)
      modifies this
      ensures ok <==> outcome.Works?
      ensures Of(user) == if outcome.Refused? then old(Of(user)) else Apply(op, old(Of(user)))
      ensures forall u :: u != user ==> Of(u) == old(Of(u))
    {
      if outcome.Refused? {
        return false;
      }
      var before := if user in members then members[user] else {};
      members := members[user := Apply(op, before)];
      ok := outcome.Works?;
    }
  }

  /** The members of the batch, as Graph answers. */
  function Kept(batch: seq<string>, members: set<string>): (r: seq<string>)
    ensures Elements(r) == Elements(batch) * members
  {
    if batch == [] then [] else
    assert batch == [batch[0]] + batch[1..];
    assert Elements(batch) == {batch[0]} + Elements(batch[1..]);
    if batch[0] in members then
      assert Elements([batch[0]] + Kept(batch[1..], members)) == {batch[0]} + Elements(Kept(batch[1..], members));
      [batch[0]] + Kept(batch[1..], members)
    else Kept(batch[1..], members)
  }

  /** Graph's answers to checkMemberGroups about a user with these groups. */
  function GraphOf(f: Faults, members: set<string>): Graph {
    (batch: seq<string>) => if batch in f.batches then None else Some(Kept(batch, members))
  }

  lemma GraphIsTruthful(f: Faults, members: set<string>)
    ensures Truthful(GraphOf(f, members), members)
    ensures forall batch :: GraphOf(f, members)(batch).Some? <==> batch !in f.batches
  {
    forall batch | GraphOf(f, members)(batch).Some?
      ensures Elements(GraphOf(f, members)(batch).value) == Elements(batch) * members
    {
      assert GraphOf(f, members)(batch) == Some(Kept(batch, members));
    }
  }

  datatype Action = AddMember | RemoveMember

  /** A membership write by alias, as reports name it. */
  datatype MembershipOperation = MembershipOperation(action: Action, group: string)

  function OpOf(groups: Groups, o: MembershipOperation): Op {
    if o.action == AddMember then Add(Target(groups, o.group)) else Remove(Target(groups, o.group))
  }

  function OnSide(action: Action, groups: seq<string>): (r: seq<MembershipOperation>)
    ensures |r| == |groups| && forall i :: 0 <= i < |r| ==> r[i] == MembershipOperation(action, groups[i])
  {
    seq(|groups|, i requires 0 <= i < |groups| => MembershipOperation(action, groups[i]))
  }

  /** Adds, then removes. */
  function Operations(add: seq<string>, remove: seq<string>): seq<MembershipOperation> {
    OnSide(AddMember, add) + OnSide(RemoveMember, remove)
  }

  /** The operations done are the first planned ones, and the failed one, if any,
      is the next; without a failure all are done. */
  ghost predicate Accounted(planned: seq<MembershipOperation>, done: seq<MembershipOperation>, failed: Option<MembershipOperation>) {
    && done <= planned
    && match failed
       case None => done == planned
       case Some(op) => |done| < |planned| && planned[|done|] == op
  }

  /** The first writes work, and the one after them fails if failed says so. */
  ghost predicate WritesEnd(f: Faults, done: nat, failed: bool) {
    (forall j: nat :: j < done ==> f.Write(j).Works?) && (failed ==> !f.Write(done).Works?)
  }

  /** What the directory holds afterwards: every completed write and nothing
      else, except that the failed one may have taken effect. */
  ghost predicate Written(groups: Groups, f: Faults, before: set<string>, after: set<string>,
      added: seq<string>, removed: seq<string>, failed: Option<MembershipOperation>)
  {
    var completed := ApplyAll(PlanOps(groups, added, removed), before);
    after == if failed.Some? && f.Write(|added| + |removed|).Unacknowledged? then Apply(OpOf(groups, failed.value), completed)
             else completed
  }

  lemma {:induction false} ApplyAllSnoc(ops: seq<Op>, op: Op, members: set<string>)
    ensures ApplyAll(ops + [op], members) == Apply(op, ApplyAll(ops, members))
  {
    if ops == [] {
      assert ops + [op] == [op] && [op][1..] == [];
    } else {
      assert (ops + [op])[1..] == ops[1..] + [op];
      ApplyAllSnoc(ops[1..], op, Apply(ops[0], members));
    }
  }

  lemma AddOneMore(groups: Groups, added: seq<string>, alias: string, members: set<string>)
    ensures ApplyAll(PlanOps(groups, added + [alias], []), members)
         == Apply(Add(Target(groups, alias)), ApplyAll(PlanOps(groups, added, []), members))
  {
    assert PlanOps(groups, added + [alias], []) == PlanOps(groups, added, []) + [Add(Target(groups, alias))];
    ApplyAllSnoc(PlanOps(groups, added, []), Add(Target(groups, alias)), members);
  }

  lemma RemoveOneMore(groups: Groups, added: seq<string>, removed: seq<string>, alias: string, members: set<string>)
    ensures ApplyAll(PlanOps(groups, added, removed + [alias]), members)
         == Apply(Remove(Target(groups, alias)), ApplyAll(PlanOps(groups, added, removed), members))
  {
    assert PlanOps(groups, added, removed + [alias]) == PlanOps(groups, added, removed) + [Remove(Target(groups, alias))];
    ApplyAllSnoc(PlanOps(groups, added, removed), Remove(Target(groups, alias)), members);
  }

  /** One side of a plan is done as far as it goes: all of it, or up to the write
      that failed. */
  ghost predicate SideDone(action: Action, planned: seq<string>, done: seq<string>, failed: Option<MembershipOperation>) {
    match failed
    case None => done == planned
    case Some(op) =>
      |done| < |planned| && done == planned[..|done|] && op == MembershipOperation(action, planned[|done|])
  }

  /** The loop over the adds. */
  method ApplyAdds(groups: Groups, directory: Directory, user: string, add: seq<string>, f: Faults)
    returns (added: seq<string>, failed: Option<MembershipOperation>)
    requires forall alias :: alias in add ==> Writable(groups, alias)
    modifies directory
    ensures SideDone(AddMember, add, added, failed) && WritesEnd(f, |added|, failed.Some?)
    ensures Written(groups, f, old(directory.Of(user)), directory.Of(user), added, [], failed)
    ensures forall u :: u != user ==> directory.Of(u) == old(directory.Of(u))
  {
    ghost var before := directory.Of(user);
    added, failed := [], None;
    for i := 0 to |add|
      invariant added == add[..i] && WritesEnd(f, i, false)
      invariant directory.Of(user) == ApplyAll(PlanOps(groups, added, []), before)
      invariant forall u :: u != user ==> directory.Of(u) == old(directory.Of(u))
    {
      var alias := add[i];
      AddOneMore(groups, added, alias, before);
      var ok := directory.Write(Add(groups[alias][0]), user, f.Write(i));
      if !ok {
        failed := Some(MembershipOperation(AddMember, alias));
        return;
      }
      added := added + [alias];
      assert add[..i + 1] == added;
    }
    assert added == add;
  }

  /** The loop over the removes, after all adds. */
  method ApplyRemoves(groups: Groups, directory: Directory, user: string, ghost before: set<string>,
      add: seq<string>, remove: seq<string>, f: Faults)
    returns (removed: seq<string>, failed: Option<MembershipOperation>)
    requires forall alias :: alias in remove ==> Writable(groups, alias)
    requires directory.Of(user) == ApplyAll(PlanOps(groups, add, []), before) && WritesEnd(f, |add|, false)
    modifies directory
    ensures SideDone(RemoveMember, remove, removed, failed) && WritesEnd(f, |add| + |removed|, failed.Some?)
    ensures Written(groups, f, before, directory.Of(user), add, removed, failed)
    ensures forall u :: u != user ==> directory.Of(u) == old(directory.Of(u))
  {
    removed, failed := [], None;
    for i := 0 to |remove|
      invariant removed == remove[..i] && WritesEnd(f, |add| + i, false)
      invariant directory.Of(user) == ApplyAll(PlanOps(groups, add, removed), before)
      invariant forall u :: u != user ==> directory.Of(u) == old(directory.Of(u))
    {
      var alias := remove[i];
      RemoveOneMore(groups, add, removed, alias, before);
      var ok := directory.Write(Remove(groups[alias][0]), user, f.Write(|add| + i));
      if !ok {
        failed := Some(MembershipOperation(RemoveMember, alias));
        return;
      }
      removed := removed + [alias];
      assert remove[..i + 1] == removed;
    }
    assert removed == remove;
  }

  /** Applying a plan: the adds, then the removes, up to the first write that
      fails. */
  method ApplyPlan(groups: Groups, directory: Directory, user: string, add: seq<string>, remove: seq<string>, f: Faults)
    returns (added: seq<string>, removed: seq<string>, failed: Option<MembershipOperation>)
    requires forall alias :: alias in add || alias in remove ==> Writable(groups, alias)
    modifies directory
    ensures Accounted(Operations(add, remove), Operations(added, removed), failed)
    ensures Written(groups, f, old(directory.Of(user)), directory.Of(user), added, removed, failed)
    ensures WritesEnd(f, |added| + |removed|, failed.Some?)
    ensures failed.None? ==> added == add && removed == remove
    ensures forall u :: u != user ==> directory.Of(u) == old(directory.Of(u))
  {
    ghost var before := directory.Of(user);
    added, failed := ApplyAdds(groups, directory, user, add, f);
    removed := [];
    if failed.Some? {
      PrefixOfAdds(add, remove, |added|);
      return;
    }
    removed, failed := ApplyRemoves(groups, directory, user, before, add, remove, f);
    if failed.Some? {
      PrefixOfRemoves(add, remove, |removed|);
    }
  }

  lemma PrefixOfAdds(add: seq<string>, remove: seq<string>, i: nat)
    requires i < |add|
    ensures Accounted(Operations(add, remove), Operations(add[..i], []), Some(MembershipOperation(AddMember, add[i])))
  {
  }

  lemma PrefixOfRemoves(add: seq<string>, remove: seq<string>, i: nat)
    requires i < |remove|
    ensures Accounted(Operations(add, remove), Operations(add, remove[..i]), Some(MembershipOperation(RemoveMember, remove[i])))
  {
  }

  /** Validated policy makes every planned alias writable, so taking its first
      group ID is safe. */
  lemma PlannedAreWritable(cfg: Config, user: User, rule: Option<nat>, intents: seq<Intent>, now: Time)
    requires ValidConfig(cfg)
    ensures var plan := PlanWith(cfg, user, rule, intents, now);
      forall alias :: alias in plan.addGroups || alias in plan.removeGroups ==> Writable(cfg.groups, alias)
  {
    var plan := PlanWith(cfg, user, rule, intents, now);
    var asserted := AssertionsFor(cfg.rules, rule, plan.state);
    PlannedChanges(cfg, user, rule, intents, now);
    SelectedAssertions(cfg, rule, plan.state);
    forall alias | alias in plan.addGroups || alias in plan.removeGroups ensures Writable(cfg.groups, alias) {
      assert alias in asserted.All();
      var i :| 0 <= i < |asserted.All()| && asserted.All()[i] == alias;
    }
  }

  datatype RunError =
    | NotLocked | StateUnread | IntentsUnread | Unresolved | NotPlanned(index: nat)
    | NotWritten(operation: MembershipOperation) | NotRecorded | NotClosed

  /** The error text that a failure record keeps. */
  function Message(e: RunError): string {
    match e
    case IntentsUnread => "list subject intents"
    case Unresolved => "resolve"
    case NotPlanned(_) => "evaluate condition"
    case NotWritten(op) => (if op.action == AddMember then "add group " else "remove group ") + op.group
    case _ => ""
  }

  /** What one reconciliation attempt reports. */
  datatype Report = Report(
    subject: string, plan: Option<Plan>, error: Option<RunError>,
    added: seq<string>, removed: seq<string>, failed: Option<MembershipOperation>)

  /** Whatever is recorded as a failure leaves a message. */
  lemma MessagesAreShown(e: RunError)
    requires e.IntentsUnread? || e.Unresolved? || e.NotPlanned? || e.NotWritten?
    ensures Message(e) != ""
  {
  }

  /** A failure is recorded unless the run was cancelled or the record refused. */
  ghost predicate FailureRecorded(s: Settings, f: Faults, before: Tables, after: Tables, subject: string, started: Time,
      cause: RunError, next: Option<Time>)
  {
    var row := RowOf(before, subject);
    var delay := Delay(s.retryInitial as int, s.retryMax as int, if row.Some? then row.value.retryCount else 0);
    after == if f.cancelled || f.recordFailure.Refused? then before
             else Failed(before, subject, started, Message(cause), next, started + delay)
  }

  method RecordFailure(s: Settings, db: D.Database, subject: string, state: Option<Row>, started: Time,
      cause: RunError, next: Option<Time>, f: Faults)
    requires ValidSettings(s) && state == RowOf(db.Tables(), subject)
    modifies db
    ensures FailureRecorded(s, f, old(db.Tables()), db.Tables(), subject, started, cause, next)
  {
    if f.cancelled {
      return;
    }
    var delay := RetryDelay(s.retryInitial, s.retryMax, if state.Some? then state.value.retryCount else 0);
    if !f.recordFailure.Refused? {
      db.RecordFailure(subject, started, Message(cause), next, started + delay as int);
    }
  }

  /** What the attempt did to the tables, by how it ended. */
  ghost predicate TablesAfter(s: Settings, f: Faults, before: Tables, after: Tables, x: string, error: Option<RunError>, started: Time) {
    var next := NextOf(IntentsOf(before, x), started);
    match error
    case None => after == Succeeded(before, x, started, next)
    case Some(NotClosed) => after == Succeeded(before, x, started, next)
    case Some(NotRecorded) =>
      after == if f.recordSuccess.Refused? then before else Succeeded(before, x, started, next)
    case Some(NotLocked) => after == before
    case Some(StateUnread) => after == before
    case Some(IntentsUnread) =>
      FailureRecorded(s, f, before, after, x, started, IntentsUnread,
                      if x in before.states then before.states[x].nextTransition else None)
    case Some(cause) => FailureRecorded(s, f, before, after, x, started, cause, next)
  }

  /** Each report accounts exactly for what was written. */
  ghost predicate ReportOk(groups: Groups, f: Faults, report: Report, before: set<string>, after: set<string>) {
    && Written(groups, f, before, after, report.added, report.removed, report.failed)
    && (report.failed.Some? <==> report.error.Some? && report.error.value.NotWritten?)
    && (report.failed.Some? ==> report.error == Some(NotWritten(report.failed.value)))
    && match report.plan
       case None => report.added == [] && report.removed == [] && report.failed.None? && after == before
       case Some(plan) =>
         Accounted(Operations(plan.addGroups, plan.removeGroups), Operations(report.added, report.removed), report.failed)
  }

  /** The plan that the report carries is Build's, for the subject's stored
      intents. */
  ghost predicate PlanIsBuilt(cfg: Config, report: Report, user: User, listing: seq<Intent>, before: Tables, started: Time) {
    && Lists(before, report.subject, listing)
    && FirstMatch(cfg.programs, user).Ok?
    && report.plan == Some(PlanWith(cfg, user, FirstMatch(cfg.programs, user).value, listing, started))
  }

  /** The failures before there is a plan. */
  predicate BeforePlan(e: RunError) {
    e.NotLocked? || e.StateUnread? || e.IntentsUnread? || e.Unresolved? || e.NotPlanned?
  }

  /** The attempt gets as far as listing the intents, resolving the user, matching
      a rule. */
  predicate ReadsIntents(f: Faults) { !f.lock && !f.readState && !f.listIntents }

  ghost predicate ReadsUser(groups: Groups, f: Faults, entry: User) {
    ReadsIntents(f) && Resolvable(groups, f, entry)
  }

  ghost predicate HasPlan(cfg: Config, f: Faults, entry: User, user: User) {
    ReadsUser(cfg.groups, f, entry) && FirstMatch(cfg.programs, user).Ok?
  }

  /** The error is the first thing that went wrong, and there is none only if
      nothing did. */
  ghost predicate Blamed(cfg: Config, f: Faults, entry: User, user: User, report: Report) {
    var done := |report.added| + |report.removed|;
    match report.error
    case Some(NotLocked) => f.lock
    case Some(StateUnread) => !f.lock && f.readState
    case Some(IntentsUnread) => !f.lock && !f.readState && f.listIntents
    case Some(Unresolved) => ReadsIntents(f) && !Resolvable(cfg.groups, f, entry)
    case Some(NotPlanned(i)) => ReadsUser(cfg.groups, f, entry) && FirstMatch(cfg.programs, user) == Err(i)
    case Some(NotWritten(_)) => HasPlan(cfg, f, entry, user) && WritesEnd(f, done, true)
    case Some(NotRecorded) => HasPlan(cfg, f, entry, user) && WritesEnd(f, done, false) && !f.recordSuccess.Works?
    case Some(NotClosed) => HasPlan(cfg, f, entry, user) && WritesEnd(f, done, false) && f.recordSuccess.Works? && f.close
    case None => HasPlan(cfg, f, entry, user) && WritesEnd(f, done, false) && f.recordSuccess.Works? && !f.close
  }

  /** Nothing goes wrong. */
  ghost predicate Flawless(f: Faults) {
    && ReadsIntents(f) && !f.lookup && f.batches == {} && (forall k: nat :: f.Write(k).Works?)
    && f.recordSuccess.Works? && !f.close
  }

  /** With nothing going wrong, an attempt on a known user succeeds unless a
      condition fails to evaluate. */
  lemma FlawlessSucceeds(cfg: Config, f: Faults, entry: User, user: User, report: Report)
    requires Flawless(f) && entry.id != "" && Blamed(cfg, f, entry, user, report)
    ensures if FirstMatch(cfg.programs, user).Ok? then report.error.None?
            else report.error == Some(NotPlanned(FirstMatch(cfg.programs, user).error))
  {
  }

  /** The attempt itself, from the subject's lock to its release. What goes wrong
      decides how it ends: the error names the first call that failed, and what
      failed decides what tables and directory hold. On success the directory
      meets the goal of the rule that matched, a new plan would be empty, and the
      row is clean until the next boundary; a failure after the state was read is
      recorded with its retry time unless the run was cancelled or the record was
      refused. */
  method ReconcileSubject(cfg: Config, s: Settings, db: D.Database, directory: Directory,
      entries: string -> User, subject: string, started: Time, f: Faults)
    returns (report: Report, ghost listing: seq<Intent>)
    requires ValidConfig(cfg) && ValidSettings(s) && ValidTables(db.Tables())
    modifies db, directory
    ensures report.subject == subject
    ensures Blamed(cfg, f, entries(subject), ResolvedAs(cfg.groups, entries(subject), old(directory.Of(entries(subject).id))), report)
    ensures TablesAfter(s, f, old(db.Tables()), db.Tables(), subject, report.error, started)
    ensures ReportOk(cfg.groups, f, report, old(directory.Of(entries(subject).id)), directory.Of(entries(subject).id))
    ensures forall u :: u != entries(subject).id ==> directory.Of(u) == old(directory.Of(u))
    ensures report.plan.None? <==> report.error.Some? && BeforePlan(report.error.value)
    ensures report.plan.Some? ==>
      PlanIsBuilt(cfg, report, ResolvedAs(cfg.groups, entries(subject), old(directory.Of(entries(subject).id))),
                  listing, old(db.Tables()), started)
    ensures report.error.None? ==>
      var user := ResolvedAs(cfg.groups, entries(subject), old(directory.Of(entries(subject).id)));
      MeetsGoal(cfg, FirstMatch(cfg.programs, user).value, IntentsOf(old(db.Tables()), subject), started, directory.Of(user.id))
  {
    report, listing := Report(subject, None, None, [], [], None), [];
    if f.lock {
      report := report.(error := Some(NotLocked));
      return;
    }
    if f.readState {
      report := report.(error := Some(StateUnread));
      return;
    }
    var state := RowOf(Store.Tables(db.intents, db.states), subject);
    if f.listIntents {
      RecordFailure(s, db, subject, state, started, IntentsUnread, if state.Some? then state.value.nextTransition else None, f);
      report := report.(error := Some(IntentsUnread));
      return;
    }
    var intents := db.ListIntents(subject);
    listing := intents;
    ListedAreValid(db.Tables(), subject, intents);
    var next := NextTransitionOf(intents, started);
    report := PlanAndWrite(cfg, s, db, directory, entries, subject, intents, state, next, started, f);
  }

  /** An attempt that fails before it has a plan, but after it read the intents. */
  method FailUnplanned(groups: Groups, s: Settings, db: D.Database, subject: string, state: Option<Row>, started: Time,
      cause: RunError, next: Option<Time>, f: Faults, ghost held: set<string>)
    returns (report: Report)
    requires ValidSettings(s) && state == RowOf(db.Tables(), subject) && (cause.Unresolved? || cause.NotPlanned?)
    requires next == NextOf(IntentsOf(db.Tables(), subject), started)
    modifies db
    ensures report == Report(subject, None, Some(cause), [], [], None)
    ensures TablesAfter(s, f, old(db.Tables()), db.Tables(), subject, report.error, started)
    ensures ReportOk(groups, f, report, held, held)
  {
    RecordFailure(s, db, subject, state, started, cause, next, f);
    report := Report(subject, None, Some(cause), [], [], None);
    NoWrites(groups);
  }

  /** From the listing on: resolve, plan, write. */
  method PlanAndWrite(cfg: Config, s: Settings, db: D.Database, directory: Directory, entries: string -> User, subject: string,
      intents: seq<Intent>, state: Option<Row>, next: Option<Time>, started: Time, f: Faults)
    returns (report: Report)
    requires ValidConfig(cfg) && ValidSettings(s) && ValidTables(db.Tables()) && ReadsIntents(f)
    requires Lists(db.Tables(), subject, intents) && state == RowOf(db.Tables(), subject)
    requires next == NextOf(IntentsOf(db.Tables(), subject), started)
    modifies db, directory
    ensures report.subject == subject
    ensures Blamed(cfg, f, entries(subject), ResolvedAs(cfg.groups, entries(subject), old(directory.Of(entries(subject).id))), report)
    ensures TablesAfter(s, f, old(db.Tables()), db.Tables(), subject, report.error, started)
    ensures ReportOk(cfg.groups, f, report, old(directory.Of(entries(subject).id)), directory.Of(entries(subject).id))
    ensures forall u :: u != entries(subject).id ==> directory.Of(u) == old(directory.Of(u))
    ensures report.plan.None? <==> report.error.Some? && BeforePlan(report.error.value)
    ensures report.plan.Some? ==>
      PlanIsBuilt(cfg, report, ResolvedAs(cfg.groups, entries(subject), old(directory.Of(entries(subject).id))),
                  intents, old(db.Tables()), started)
    ensures report.error.None? ==>
      var user := ResolvedAs(cfg.groups, entries(subject), old(directory.Of(entries(subject).id)));
      MeetsGoal(cfg, FirstMatch(cfg.programs, user).value, IntentsOf(old(db.Tables()), subject), started, directory.Of(user.id))
  {
    ListedAreValid(db.Tables(), subject, intents);
    ghost var held := directory.Of(entries(subject).id);
    var resolved := directory.Resolve(subject, cfg.groups, entries, f);
    if resolved.None? {
      report := FailUnplanned(cfg.groups, s, db, subject, state, started, Unresolved, next, f, held);
      return;
    }
    var built := Build(cfg, resolved.value, intents, started);
    if built.Err? {
      report := FailUnplanned(cfg.groups, s, db, subject, state, started, NotPlanned(built.error), next, f, held);
      return;
    }
    ghost var rule := FirstMatch(cfg.programs, resolved.value).value;
    report := WritePlan(cfg, s, db, directory, subject, resolved.value, rule, intents, state, started, built.value, f);
    OutcomeBlames(cfg, f, entries(subject), resolved.value, report);
  }

  lemma OutcomeBlames(cfg: Config, f: Faults, entry: User, user: User, report: Report)
    requires HasPlan(cfg, f, entry, user) && OutcomeIs(f, |report.added| + |report.removed|, report.failed, report.error)
    ensures Blamed(cfg, f, entry, user, report)
    ensures report.error.Some? ==> !BeforePlan(report.error.value)
  {
  }

  /** The user's groups meet what the rule asserts, and nothing is left to plan. */
  ghost predicate MeetsGoal(cfg: Config, rule: Option<nat>, intents: set<Intent>, now: Time, members: set<string>) {
    Satisfied(GoalFor(cfg, rule, StateOf(intents, now)), members) && OpsFor(cfg, rule, StateOf(intents, now), members) == []
  }

  lemma ListedAreValid(db: Tables, subject: string, listing: seq<Intent>)
    requires ValidTables(db) && Lists(db, subject, listing)
    ensures forall i :: i in listing ==> i.startsAt < i.endsAt
    ensures Elements(listing) == IntentsOf(db, subject)
  {
    forall i | i in listing ensures i.startsAt < i.endsAt {
      assert i in Elements(listing);
    }
  }

  lemma CompletePlanMeetsGoal(cfg: Config, user: User, rule: Option<nat>, intents: seq<Intent>, now: Time, members: set<string>)
    requires ValidConfig(cfg) && user.groups == SortedElements(AliasesIn(cfg.groups, members))
    ensures var plan := PlanWith(cfg, user, rule, intents, now);
      MeetsGoal(cfg, rule, Elements(intents), now, ApplyAll(PlanOps(cfg.groups, plan.addGroups, plan.removeGroups), members))
  {
    OpsForIsThePlan(cfg, user, rule, intents, now, members);
    ApplyReachesFixedPoint(cfg, rule, StateOf(Elements(intents), now), members);
  }

  /** How an attempt with a plan ends. */
  ghost predicate OutcomeIs(f: Faults, done: nat, failed: Option<MembershipOperation>, error: Option<RunError>) {
    WritesEnd(f, done, failed.Some?) && error == ErrorAfter(f, failed)
  }

  function ErrorAfter(f: Faults, failed: Option<MembershipOperation>): Option<RunError> {
    if failed.Some? then Some(NotWritten(failed.value))
    else if !f.recordSuccess.Works? then Some(NotRecorded)
    else if f.close then Some(NotClosed)
    else None
  }

  /** Apply, record, close. */
  method ApplyAndRecord(groups: Groups, s: Settings, db: D.Database, directory: Directory, subject: string, user: string,
      plan: Plan, state: Option<Row>, started: Time, f: Faults)
    returns (report: Report)
    requires ValidSettings(s) && state == RowOf(db.Tables(), subject)
    requires plan.nextTransition == NextOf(IntentsOf(db.Tables(), subject), started)
    requires forall alias :: alias in plan.addGroups || alias in plan.removeGroups ==> Writable(groups, alias)
    modifies db, directory
    ensures report.subject == subject && report.plan == Some(plan)
    ensures OutcomeIs(f, |report.added| + |report.removed|, report.failed, report.error)
    ensures TablesAfter(s, f, old(db.Tables()), db.Tables(), subject, report.error, started)
    ensures ReportOk(groups, f, report, old(directory.Of(user)), directory.Of(user))
    ensures forall u :: u != user ==> directory.Of(u) == old(directory.Of(u))
    ensures report.error.None? ==>
      directory.Of(user) == ApplyAll(PlanOps(groups, plan.addGroups, plan.removeGroups), old(directory.Of(user)))
  {
    var added, removed, failed := ApplyPlan(groups, directory, user, plan.addGroups, plan.removeGroups, f);
    var error := RecordOutcome(s, db, subject, state, started, failed, plan.nextTransition, f);
    report := Report(subject, Some(plan), error, added, removed, failed);
    ReportIsOk(groups, f, report, plan, old(directory.Of(user)), directory.Of(user));
  }

  lemma ReportIsOk(groups: Groups, f: Faults, report: Report, plan: Plan, before: set<string>, after: set<string>)
    requires report.plan == Some(plan) && report.error == ErrorAfter(f, report.failed)
    requires Accounted(Operations(plan.addGroups, plan.removeGroups), Operations(report.added, report.removed), report.failed)
    requires Written(groups, f, before, after, report.added, report.removed, report.failed)
    ensures ReportOk(groups, f, report, before, after)
  {
  }

  /** From the plan on. */
  method WritePlan(cfg: Config, s: Settings, db: D.Database, directory: Directory, subject: string, user: User,
      ghost rule: Option<nat>, ghost intents: seq<Intent>, state: Option<Row>, started: Time, plan: Plan, f: Faults)
    returns (report: Report)
    requires ValidConfig(cfg) && ValidSettings(s) && state == RowOf(db.Tables(), subject)
    requires Elements(intents) == IntentsOf(db.Tables(), subject) && plan == PlanWith(cfg, user, rule, intents, started)
    requires user.groups == SortedElements(AliasesIn(cfg.groups, directory.Of(user.id)))
    modifies db, directory
    ensures report.subject == subject && report.plan == Some(plan)
    ensures OutcomeIs(f, |report.added| + |report.removed|, report.failed, report.error)
    ensures TablesAfter(s, f, old(db.Tables()), db.Tables(), subject, report.error, started)
    ensures ReportOk(cfg.groups, f, report, old(directory.Of(user.id)), directory.Of(user.id))
    ensures forall u :: u != user.id ==> directory.Of(u) == old(directory.Of(u))
    ensures report.error.None? ==>
      MeetsGoal(cfg, rule, IntentsOf(old(db.Tables()), subject), started, directory.Of(user.id))
  {
    PlannedAreWritable(cfg, user, rule, intents, started);
    CompletePlanMeetsGoal(cfg, user, rule, intents, started, directory.Of(user.id));
    report := ApplyAndRecord(cfg.groups, s, db, directory, subject, user.id, plan, state, started, f);
  }

  /** Recording how the writes went, and releasing the subject. A record that was
      not acknowledged may have been made. */
  method RecordOutcome(s: Settings, db: D.Database, subject: string, state: Option<Row>, started: Time,
      failed: Option<MembershipOperation>, next: Option<Time>, f: Faults)
    returns (error: Option<RunError>)
    requires ValidSettings(s) && state == RowOf(db.Tables(), subject)
    requires next == NextOf(IntentsOf(db.Tables(), subject), started)
    modifies db
    ensures TablesAfter(s, f, old(db.Tables()), db.Tables(), subject, error, started)
    ensures error == ErrorAfter(f, failed)
  {
    if failed.Some? {
      RecordFailure(s, db, subject, state, started, NotWritten(failed.value), next, f);
      return Some(NotWritten(failed.value));
    }
    if !f.recordSuccess.Refused? {
      db.RecordSuccess(subject, started, next);
    }
    if !f.recordSuccess.Works? {
      return Some(NotRecorded);
    }
    return if f.close then Some(NotClosed) else None;
  }
}
