/** The persisted tables and what each statement does to them
    (internal/store/store.go). */
module Store {
  import opened Common
  import opened Ordering
  import opened Intents
  import opened Timeline

  /** A row of reconciliation_state. */
  datatype Row = Row(
    lastAttempt: Option<Time>, lastSuccess: Option<Time>, lastError: string,
    nextTransition: Option<Time>, nextRetry: Option<Time>, retryCount: nat, updatedAt: Time)

  /** A row of intents. */
  datatype Stored = Stored(intent: Intent, createdAt: Time, updatedAt: Time)

  datatype Tables = Tables(intents: map<Key, Stored>, states: map<string, Row>)

  /** The primary key and the window constraint of the intents table. */
  ghost predicate ValidTables(db: Tables) {
    forall k :: k in db.intents ==>
      db.intents[k].intent.Identity() == k && Valid(db.intents[k].intent)
  }

  /** Every stored intent of a subject, ended and cancelled ones included. */
  ghost function IntentsOf(db: Tables, subject: string): set<Intent> {
    set k | k in db.intents && db.intents[k].intent.subject == subject :: db.intents[k].intent
  }

  function RowOf(db: Tables, subject: string): Option<Row> {
    if subject in db.states then Some(db.states[subject]) else None
  }

  function PreviousSubject(db: Tables, key: Key): Option<string> {
    if key in db.intents then Some(db.intents[key].intent.subject) else None
  }

  /** The subjects a delivery changes: the one it names and the one it leaves. */
  function Affected(previous: Option<string>, subject: string): set<string> {
    {subject} + if previous.Some? then {previous.value} else {}
  }

  function Marked(row: Option<Row>, now: Time): Row {
    match row
    case None => Row(None, None, "", None, Some(now), 0, now)
    case Some(r) => r.(nextRetry := Some(now), updatedAt := now)
  }

  /** The tables after a delivery commits that read previous as the subject of the
      intent it replaces: it marks that subject and the one it names. */
  function UpsertedFrom(db: Tables, previous: Option<string>, accepted: Intent, now: Time): Tables {
    var key := accepted.Identity();
    var created := if key in db.intents then db.intents[key].createdAt else now;
    Tables(
      db.intents[key := Stored(accepted, created, now)],
      db.states + map s | s in Affected(previous, accepted.subject) :: Marked(RowOf(db, s), now))
  }

  /** The tables after a committed delivery whose reading was still true. */
  function Upserted(db: Tables, accepted: Intent, now: Time): Tables {
    UpsertedFrom(db, PreviousSubject(db, accepted.Identity()), accepted, now)
  }

  function Succeeded(db: Tables, subject: string, at: Time, next: Option<Time>): Tables {
    db.(states := db.states[subject := Row(Some(at), Some(at), "", next, None, 0, at)])
  }

  function Failed(db: Tables, subject: string, at: Time, message: string, next: Option<Time>, retry: Time): Tables {
    var row := match RowOf(db, subject)
      case None => Row(Some(at), None, message, next, Some(retry), 1, at)
      case Some(r) => r.(lastAttempt := Some(at), lastError := message, nextTransition := next,
                         nextRetry := Some(retry), retryCount := r.retryCount + 1, updatedAt := at);
    db.(states := db.states[subject := row])
  }

  predicate Reached(when: Option<Time>, now: Time) {
    when.Some? && when.value <= now
  }

  predicate RowDue(row: Row, now: Time) {
    Reached(row.nextTransition, now) || Reached(row.nextRetry, now)
  }

  function SubjectsWithIntents(db: Tables): set<string> {
    set k | k in db.intents :: db.intents[k].intent.subject
  }

  /** ListSubjectsDue. */
  function DueSubjects(db: Tables, now: Time): set<string> {
    (set s | s in SubjectsWithIntents(db) && s !in db.states)
    + (set s | s in db.states && RowDue(db.states[s], now))
  }

  /** ListSubjects. */
  function KnownSubjects(db: Tables): set<string> {
    SubjectsWithIntents(db)
    + set s | s in db.states && (db.states[s].nextTransition.Some? || db.states[s].nextRetry.Some?)
  }

  /** Every persisted transition and retry time. */
  ghost function WakeTimes(db: Tables): set<Time> {
    (set s | s in db.states && db.states[s].nextTransition.Some? :: db.states[s].nextTransition.value)
    + (set s | s in db.states && db.states[s].nextRetry.Some? :: db.states[s].nextRetry.value)
  }

  /** NextWake. */
  ghost function NextWake(db: Tables, now: Time): Option<Time> {
    Earliest(WakeTimes(db), now)
  }

  /** Whom ListSubjects lists: every subject that has an intent, in whatever phase
      and whatever its row says, and every subject whose row still waits for a
      transition or a retry. */
  lemma KnownExactly(db: Tables, x: string)
    ensures x in KnownSubjects(db) <==>
      || (exists k :: k in db.intents && db.intents[k].intent.subject == x)
      || (x in db.states && (db.states[x].nextTransition != None || db.states[x].nextRetry != None))
  {
    if k :| k in db.intents && db.intents[k].intent.subject == x {
      assert x in SubjectsWithIntents(db);
    }
  }

  /** Whom ListSubjectsDue lists: subjects with an intent and no row, and those
      whose transition or retry has come. */
  lemma DueExactly(db: Tables, x: string, now: Time)
    ensures x in DueSubjects(db, now) <==>
      if x in db.states then
        exists when :: when <= now && (db.states[x].nextTransition == Some(when) || db.states[x].nextRetry == Some(when))
      else exists k :: k in db.intents && db.intents[k].intent.subject == x
  {
    if x in db.states && RowDue(db.states[x], now) {
      var row := db.states[x];
      var when := if Reached(row.nextTransition, now) then row.nextTransition.value else row.nextRetry.value;
      assert when <= now && (row.nextTransition == Some(when) || row.nextRetry == Some(when));
    }
    if k :| k in db.intents && db.intents[k].intent.subject == x {
      assert x in SubjectsWithIntents(db);
    }
  }

  /** The next wake is a persisted time that lies ahead, and no persisted time lies
      between. */
  lemma NextWakeIsPersisted(db: Tables, now: Time)
    requires NextWake(db, now).Some?
    ensures now < NextWake(db, now).value
    ensures exists x :: (x in db.states
      && (db.states[x].nextTransition == NextWake(db, now) || db.states[x].nextRetry == NextWake(db, now)))
  {
    assert NextWake(db, now).value in WakeTimes(db);
  }

  lemma DueAreKnown(db: Tables, now: Time)
    ensures DueSubjects(db, now) <= KnownSubjects(db)
  {
  }

  /** Nothing persisted escapes the scheduler: a transition or retry time is
      either listed as due or an upper bound of the next wake. */
  lemma ListedOrAwaited(db: Tables, subject: string, now: Time, when: Time)
    requires subject in db.states
    requires db.states[subject].nextTransition == Some(when) || db.states[subject].nextRetry == Some(when)
    ensures subject in DueSubjects(db, now) || (NextWake(db, now).Some? && NextWake(db, now).value <= when)
  {
    if now < when {
      assert when in WakeTimes(db);
      NothingBefore(WakeTimes(db), now, when);
    }
  }

  /** What a delivery does to a subject's intents: the subject it names has it,
      no other subject has an intent of that identity, and the rest is as
      before. */
  lemma UpsertedIntents(db: Tables, accepted: Intent, now: Time, subject: string)
    requires ValidTables(db)
    ensures IntentsOf(Upserted(db, accepted, now), subject)
         == (set i | i in IntentsOf(db, subject) && i.Identity() != accepted.Identity())
            + if subject == accepted.subject then {accepted} else {}
  {
    var db', key := Upserted(db, accepted, now), accepted.Identity();
    var kept := set i | i in IntentsOf(db, subject) && i.Identity() != key;
    forall i ensures i in IntentsOf(db', subject) <==> i in kept || (i == accepted && subject == accepted.subject) {
      if i in IntentsOf(db', subject) {
        var k :| k in db'.intents && db'.intents[k].intent == i && i.subject == subject;
        if k != key { assert k in db.intents; }
      }
      if i in kept {
        var k :| k in db.intents && db.intents[k].intent == i;
        assert db'.intents[k].intent == i;
      }
      if i == accepted {
        assert db'.intents[key].intent == i;
      }
    }
  }

  /** A delivery changes neither the intents nor the row of a subject it does
      not name and does not leave. */
  lemma UpsertLeavesOthers(db: Tables, accepted: Intent, now: Time, subject: string)
    requires ValidTables(db)
    requires subject !in Affected(PreviousSubject(db, accepted.Identity()), accepted.subject)
    ensures IntentsOf(Upserted(db, accepted, now), subject) == IntentsOf(db, subject)
    ensures RowOf(Upserted(db, accepted, now), subject) == RowOf(db, subject)
  {
    UpsertedIntents(db, accepted, now, subject);
    forall i | i in IntentsOf(db, subject) ensures i.Identity() != accepted.Identity() {
      var k :| k in db.intents && db.intents[k].intent == i;
    }
  }

  /** Why the reading must still be true at commit: a delivery marks every subject
      whose intents it changes exactly if the subject it takes the intent from,
      if any, is one it read or names. */
  lemma CapturedSubjectMatters(db: Tables, previous: Option<string>, accepted: Intent, now: Time)
    requires ValidTables(db)
    ensures (forall x :: IntentsOf(UpsertedFrom(db, previous, accepted, now), x) != IntentsOf(db, x) ==>
               x in Affected(previous, accepted.subject))
       <==> (var stored := PreviousSubject(db, accepted.Identity());
             stored.None? || stored.value in Affected(previous, accepted.subject))
  {
    var db', key := UpsertedFrom(db, previous, accepted, now), accepted.Identity();
    var stored := PreviousSubject(db, key);
    forall x ensures IntentsOf(db', x) == IntentsOf(Upserted(db, accepted, now), x) { }
    if stored.Some? && stored.value != accepted.subject {
      UpsertedIntents(db, accepted, now, stored.value);
      assert db.intents[key].intent in IntentsOf(db, stored.value);
      assert db.intents[key].intent !in IntentsOf(db', stored.value);
    }
    forall x | x !in Affected(stored, accepted.subject) ensures IntentsOf(db', x) == IntentsOf(db, x) {
      UpsertLeavesOthers(db, accepted, now, x);
    }
  }

  /** A delivery marks every affected subject, and a marked subject is due from
      the delivery's instant on. */
  lemma UpsertMarksAffected(db: Tables, accepted: Intent, now: Time, subject: string, t: Time)
    requires subject in Affected(PreviousSubject(db, accepted.Identity()), accepted.subject) && now <= t
    ensures var db' := Upserted(db, accepted, now);
      subject in db'.states && db'.states[subject] == Marked(RowOf(db, subject), now)
      && subject in DueSubjects(db', t)
  {
  }

  /** A mark changes nothing but the retry time: what the last outcomes left in the
      row stays, and a new row has none of it. The intent keeps the time at which
      it was first accepted. */
  lemma UpsertKeepsOutcomes(db: Tables, accepted: Intent, now: Time, subject: string)
    requires subject in Affected(PreviousSubject(db, accepted.Identity()), accepted.subject)
    ensures var db' := Upserted(db, accepted, now);
      && subject in db'.states && db'.states[subject].nextRetry == Some(now) == Some(db'.states[subject].updatedAt)
      && (subject in db.states ==>
            var row, row' := db.states[subject], db'.states[subject];
            && row'.lastAttempt == row.lastAttempt && row'.lastSuccess == row.lastSuccess
            && row'.lastError == row.lastError && row'.retryCount == row.retryCount
            && row'.nextTransition == row.nextTransition)
      && (subject !in db.states ==>
            var row' := db'.states[subject];
            row'.lastAttempt == row'.lastSuccess == row'.nextTransition == None && row'.lastError == "" && row'.retryCount == 0)
    ensures var key, db' := accepted.Identity(), Upserted(db, accepted, now);
      && key in db'.intents && db'.intents[key].intent == accepted && db'.intents[key].updatedAt == now
      && db'.intents[key].createdAt == (if key in db.intents then db.intents[key].createdAt else now)
  {
  }

  /** Recording a success clears the mark: the subject is next due exactly when
      its next transition arrives. */
  lemma SuccessSchedules(db: Tables, subject: string, at: Time, next: Option<Time>, t: Time)
    ensures subject in DueSubjects(Succeeded(db, subject, at, next), t) <==> Reached(next, t)
    ensures forall s :: s != subject ==>
              (s in DueSubjects(Succeeded(db, subject, at, next), t) <==> s in DueSubjects(db, t))
  {
  }

  /** Recording a failure makes the subject due at the retry time, or at its
      next transition if that comes first. */
  lemma FailureSchedules(db: Tables, subject: string, at: Time, message: string, next: Option<Time>, retry: Time, t: Time)
    ensures subject in DueSubjects(Failed(db, subject, at, message, next, retry), t) <==> Reached(next, t) || retry <= t
    ensures forall s :: s != subject ==>
              (s in DueSubjects(Failed(db, subject, at, message, next, retry), t) <==> s in DueSubjects(db, t))
  {
  }

  datatype Metrics = Metrics(
    pending: nat, active: nat, ended: nat, cancelled: nat, failedSubjects: nat, dueSubjects: nat)

  /** The rows each filter of CollectMetrics counts. */
  function PendingRows(db: Tables, now: Time): set<Key> {
    set k | k in db.intents && !db.intents[k].intent.cancelled && now < db.intents[k].intent.startsAt
  }

  function ActiveRows(db: Tables, now: Time): set<Key> {
    set k | k in db.intents && !db.intents[k].intent.cancelled
            && db.intents[k].intent.startsAt <= now && now < db.intents[k].intent.endsAt
  }

  function EndedRows(db: Tables, now: Time): set<Key> {
    set k | k in db.intents && !db.intents[k].intent.cancelled && db.intents[k].intent.endsAt <= now
  }

  function CancelledRows(db: Tables): set<Key> {
    set k | k in db.intents && db.intents[k].intent.cancelled
  }

  function DueRows(db: Tables, now: Time): set<string> {
    (set k | k in db.intents && db.intents[k].intent.subject !in db.states :: db.intents[k].intent.subject)
    + (set s | s in db.states && (Reached(db.states[s].nextTransition, now) || Reached(db.states[s].nextRetry, now)))
  }

  function MetricsAt(db: Tables, now: Time): Metrics {
    Metrics(|PendingRows(db, now)|, |ActiveRows(db, now)|, |EndedRows(db, now)|, |CancelledRows(db)|,
            |set s | s in db.states && db.states[s].lastError != ""|, |DueRows(db, now)|)
  }

  ghost function KeysInPhase(db: Tables, phase: Phase, now: Time): set<Key> {
    set k | k in db.intents && PhaseAt(db.intents[k].intent, now) == phase
  }

  /** The filters count phases, the phases partition the intents, and the due
      count is the size of the due listing. */
  lemma MetricsCountPhases(db: Tables, now: Time)
    requires ValidTables(db)
    ensures var m := MetricsAt(db, now);
      && m.pending == |KeysInPhase(db, Pending, now)| && m.active == |KeysInPhase(db, Active, now)|
      && m.ended == |KeysInPhase(db, Ended, now)| && m.cancelled == |KeysInPhase(db, Cancelled, now)|
      && m.pending + m.active + m.ended + m.cancelled == |db.intents|
      && m.dueSubjects == |DueSubjects(db, now)|
  {
    FiltersArePhases(db, now);
    PhasesPartition(db, now);
    DueRowsAreListed(db, now);
  }

  lemma FiltersArePhases(db: Tables, now: Time)
    requires ValidTables(db)
    ensures PendingRows(db, now) == KeysInPhase(db, Pending, now)
    ensures ActiveRows(db, now) == KeysInPhase(db, Active, now)
    ensures EndedRows(db, now) == KeysInPhase(db, Ended, now)
    ensures CancelledRows(db) == KeysInPhase(db, Cancelled, now)
  {
  }

  lemma DueRowsAreListed(db: Tables, now: Time)
    ensures DueRows(db, now) == DueSubjects(db, now)
  {
  }

  lemma DisjointSizes<T>(a: set<T>, b: set<T>)
    requires a !! b
    ensures |a + b| == |a| + |b|
  {
  }

  lemma PhasesPartition(db: Tables, now: Time)
    ensures |KeysInPhase(db, Pending, now)| + |KeysInPhase(db, Active, now)|
          + |KeysInPhase(db, Ended, now)| + |KeysInPhase(db, Cancelled, now)| == |db.intents|
  {
    var p, a := KeysInPhase(db, Pending, now), KeysInPhase(db, Active, now);
    var e, c := KeysInPhase(db, Ended, now), KeysInPhase(db, Cancelled, now);
    DisjointSizes(p, a);
    DisjointSizes(p + a, e);
    DisjointSizes(p + a + e, c);
    assert db.intents.Keys == p + a + e + c;
  }

  ghost function NonEmpty(values: seq<string>): set<string> {
    set v | v in values && v != ""
  }

  /** uniqueSubjects: the non-empty values, sorted, each once. */
  method UniqueSubjects(values: seq<string>) returns (result: seq<string>)
    ensures StrictlySorted(result) && Elements(result) == NonEmpty(values)
  {
    var seen := {};
    result := [];
    for i := 0 to |values|
      invariant Elements(result) == seen == NonEmpty(values[..i])
      invariant |result| == |seen|
    {
      assert values[..i + 1] == values[..i] + [values[i]];
      if values[i] != "" && values[i] !in seen {
        assert Elements(result + [values[i]]) == Elements(result) + {values[i]};
        seen := seen + {values[i]};
        result := result + [values[i]];
      }
    }
    assert values[..|values|] == values;
    SortDistinct(result);
    result := Sort(result, StrLe);
  }
}
