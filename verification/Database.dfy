/** The store as an object: statements that update its tables in place
    (internal/store/store.go). */
module Database {
  import opened Common
  import opened Ordering
  import opened Intents
  import opened Timeline
  import opened Aliases
  import opened Planner
  import opened Store
  import opened Convergence
  import opened Preview

  /** The subjects of a sequence marked due, the others as they were. */
  function MarkedAll(states: map<string, Row>, subjects: seq<string>, now: Time): map<string, Row> {
    map s | s in states.Keys + (set x | x in subjects) ::
      if s in subjects then Marked(if s in states then Some(states[s]) else None, now) else states[s]
  }

  lemma MarkedOne(states: map<string, Row>, subjects: seq<string>, k: nat, now: Time)
    requires k < |subjects| && forall i :: 0 <= i < k ==> subjects[i] != subjects[k]
    ensures var before := MarkedAll(states, subjects[..k], now);
      MarkedAll(states, subjects[..k + 1], now)
      == before[subjects[k] := Marked(if subjects[k] in before then Some(before[subjects[k]]) else None, now)]
  {
  }

  /** The order of listings: by source, then by ID. */
  predicate InOrder(a: Intent, b: Intent) {
    PhaseLe(PhaseRecord(a, 0), PhaseRecord(b, 0))
  }

  lemma SortedListing(listing: seq<Intent>)
    requires NoRepeats(listing)
    ensures var r := Sort(listing, InOrder);
      SortedBy(r, InOrder) && NoRepeats(r) && Elements(r) == Elements(listing)
  {
    var r := Sort(listing, InOrder);
    PhaseLeIsTotalPreorder();
    SortSorts(listing, InOrder);
    ElementsOfMultiset(r, listing);
    ListSize(listing);
    forall i, j | 0 <= i < j < |r| ensures r[i] != r[j] {
      if r[i] == r[j] { RepetitionShrinks(r, i, j); }
    }
  }

  class Database {
    var intents: map<Key, Stored>
    var states: map<string, Row>

    ghost function Tables(): (db: Tables)
      reads this
    {
      Store.Tables(intents, states)
    }

    constructor ()
      ensures Tables() == Store.Tables(map[], map[])
    {
      intents, states := map[], map[];
    }

    /** The statements that mark the subjects due, numbered from 2. */
    method MarkDue(subjects: seq<string>, now: Time, fault: nat) returns (ok: bool, marked: map<string, Row>)
      requires StrictlySorted(subjects)
      ensures ok <==> !(2 <= fault < 2 + |subjects|)
      ensures ok ==> marked == MarkedAll(states, subjects, now)
    {
      marked := states;
      assert subjects[..0] == [];
      for k := 0 to |subjects|
        invariant marked == MarkedAll(states, subjects[..k], now) && !(2 <= fault < 2 + k)
      {
        if fault == 2 + k {
          return false, marked;
        }
        var subject := subjects[k];
        MarkedOne(states, subjects, k, now);
        marked := marked[subject := Marked(if subject in marked then Some(marked[subject]) else None, now)];
      }
      assert subjects[..|subjects|] == subjects;
      ok := true;
    }

    /** UpsertIntent as one transaction. The statement with number fault fails,
        if there is one: the reading, the upsert, one mark per affected subject, of
        which there are one or two, or the commit. Then everything is rolled back. */
    method UpsertIntent(accepted: Intent, now: Time, fault: nat) returns (ok: bool)
      requires accepted.subject != "" && ValidTables(Tables())
      modifies this
      ensures Tables() == if ok then Upserted(old(Tables()), accepted, now) else old(Tables())
      ensures ok <==>
        (fault > 4 || (fault == 3 && |Affected(PreviousSubject(old(Tables()), accepted.Identity()), accepted.subject)| == 1))
    {
      var key := accepted.Identity();
      var previousSubject := "";
      if key in intents {
        previousSubject := intents[key].intent.subject;
      }
      if fault == 0 {
        return false;
      }
      var subjects := UniqueSubjects([previousSubject, accepted.subject]);
      var createdAt := if key in intents then intents[key].createdAt else now;
      var newIntents := intents[key := Stored(accepted, createdAt, now)];
      if fault == 1 {
        return false;
      }
      SubjectsCounted(Tables(), accepted, previousSubject, subjects);
      var marked, newStates := MarkDue(subjects, now, fault);
      if !marked || fault == 4 {
        return false;
      }
      UpsertMatches(Tables(), accepted, now, previousSubject, subjects);
      intents, states := newIntents, newStates;
      return true;
    }

    /** recordSuccess. The row of a subject without one is inserted. */
    method RecordSuccess(subject: string, attemptedAt: Time, nextTransition: Option<Time>)
      modifies this
      ensures Tables() == Succeeded(old(Tables()), subject, attemptedAt, nextTransition)
    {
      if subject !in states {
        states := states[subject := Row(Some(attemptedAt), Some(attemptedAt), "", nextTransition, None, 0, attemptedAt)];
      } else {
        states := states[subject := states[subject].(
          lastAttempt := Some(attemptedAt), lastSuccess := Some(attemptedAt), lastError := "",
          nextTransition := nextTransition, nextRetry := None, retryCount := 0, updatedAt := attemptedAt)];
      }
    }

    /** recordFailure. The success time stays, and the count goes up. */
    method RecordFailure(subject: string, attemptedAt: Time, message: string, nextTransition: Option<Time>, nextRetry: Time)
      modifies this
      ensures Tables() == Failed(old(Tables()), subject, attemptedAt, message, nextTransition, nextRetry)
    {
      if subject !in states {
        states := states[subject := Row(Some(attemptedAt), None, message, nextTransition, Some(nextRetry), 1, attemptedAt)];
      } else {
        states := states[subject := states[subject].(
          lastAttempt := Some(attemptedAt), lastError := message, nextTransition := nextTransition,
          nextRetry := Some(nextRetry), retryCount := states[subject].retryCount + 1, updatedAt := attemptedAt)];
      }
    }

    /** ListIntents: every intent of the subject, once, by source and ID. */
    method ListIntents(subject: string) returns (listing: seq<Intent>)
      requires ValidTables(Tables())
      ensures Lists(Tables(), subject, listing) && SortedBy(listing, InOrder)
    {
      listing := [];
      var remaining := intents.Keys;
      while remaining != {}
        invariant remaining <= intents.Keys
        invariant NoRepeats(listing)
        invariant Elements(listing) == IntentsAmong(intents, subject, intents.Keys - remaining)
      {
        var key :| key in remaining;
        if intents[key].intent.subject == subject {
          FreshIntent(Tables(), subject, intents.Keys - remaining, key);
          ListOneMore(listing, intents[key].intent);
          listing := listing + [intents[key].intent];
        }
        IntentsOfOneMore(intents, subject, intents.Keys - remaining, key);
        assert intents.Keys - (remaining - {key}) == (intents.Keys - remaining) + {key};
        remaining := remaining - {key};
      }
      assert intents.Keys - remaining == intents.Keys;
      SortedListing(listing);
      listing := Sort(listing, InOrder);
    }

    /** ListSubjects. */
    method ListSubjects() returns (subjects: seq<string>)
      ensures subjects == SortedElements(KnownSubjects(Tables()))
    {
      var known := KnownSubjects(Store.Tables(intents, states));
      subjects := ListSet(known);
      StrictUnique(subjects, SortedElements(known));
    }

    /** ListSubjectsDue. */
    method ListSubjectsDue(now: Time) returns (subjects: seq<string>)
      ensures subjects == SortedElements(DueSubjects(Tables(), now))
    {
      var due := DueSubjects(Store.Tables(intents, states), now);
      subjects := ListSet(due);
      StrictUnique(subjects, SortedElements(due));
    }

    /** NextWake: the minimum over both columns. */
    method NextWake(now: Time) returns (next: Option<Time>)
      ensures next == Store.NextWake(Tables(), now)
    {
      next := None;
      var remaining := states.Keys;
      WakesOfNone(states);
      while remaining != {}
        invariant remaining <= states.Keys
        invariant IsEarliest(WakesAmong(states, states.Keys - remaining), now, next)
      {
        var subject :| subject in remaining;
        var row := states[subject];
        ghost var done := states.Keys - remaining;
        next := Sooner(Sooner(next, Later(row.nextTransition, now)), Later(row.nextRetry, now));
        WakesOfOneMore(states, done, subject, now);
        assert states.Keys - (remaining - {subject}) == done + {subject};
        remaining := remaining - {subject};
      }
      assert states.Keys - remaining == states.Keys;
      WakesOfAll(Tables());
      EarliestUnique(WakeTimes(Tables()), now, next, Store.NextWake(Tables(), now));
    }
  }

  /** A delivery marks one subject or two. */
  lemma SubjectsCounted(db: Tables, accepted: Intent, previousSubject: string, subjects: seq<string>)
    requires ValidTables(db) && accepted.subject != ""
    requires var previous := PreviousSubject(db, accepted.Identity());
      previousSubject == if previous.Some? then previous.value else ""
    requires StrictlySorted(subjects) && Elements(subjects) == NonEmpty([previousSubject, accepted.subject])
    ensures 1 <= |subjects| == |Affected(PreviousSubject(db, accepted.Identity()), accepted.subject)| <= 2
  {
    AffectedAreNamed(db, accepted, previousSubject);
    ListSize(subjects);
  }

  /** The marks of the loop are those of the transaction. */
  lemma UpsertMatches(db: Tables, accepted: Intent, now: Time, previousSubject: string, subjects: seq<string>)
    requires ValidTables(db) && accepted.subject != ""
    requires var previous := PreviousSubject(db, accepted.Identity());
      previousSubject == if previous.Some? then previous.value else ""
    requires Elements(subjects) == NonEmpty([previousSubject, accepted.subject])
    ensures MarkedAll(db.states, subjects, now) == Upserted(db, accepted, now).states
  {
    AffectedAreNamed(db, accepted, previousSubject);
    MarkedMatch(db, subjects, Affected(PreviousSubject(db, accepted.Identity()), accepted.subject), now);
  }

  /** A stored intent always names a subject, so the affected subjects are the
      non-empty ones of the two. */
  lemma AffectedAreNamed(db: Tables, accepted: Intent, previousSubject: string)
    requires ValidTables(db) && accepted.subject != ""
    requires var previous := PreviousSubject(db, accepted.Identity());
      previousSubject == if previous.Some? then previous.value else ""
    ensures NonEmpty([previousSubject, accepted.subject])
         == Affected(PreviousSubject(db, accepted.Identity()), accepted.subject)
  {
  }

  lemma MarkedMatch(db: Tables, subjects: seq<string>, affected: set<string>, now: Time)
    requires Elements(subjects) == affected
    ensures MarkedAll(db.states, subjects, now) == db.states + map s | s in affected :: Marked(RowOf(db, s), now)
  {
  }

  lemma ListOneMore(listing: seq<Intent>, i: Intent)
    requires NoRepeats(listing) && i !in Elements(listing)
    ensures NoRepeats(listing + [i]) && Elements(listing + [i]) == Elements(listing) + {i}
  {
  }

  ghost function IntentsAmong(intents: map<Key, Stored>, subject: string, keys: set<Key>): set<Intent> {
    set k | k in keys && k in intents && intents[k].intent.subject == subject :: intents[k].intent
  }

  lemma IntentsOfOneMore(intents: map<Key, Stored>, subject: string, keys: set<Key>, key: Key)
    requires key in intents
    ensures IntentsAmong(intents, subject, keys + {key})
         == IntentsAmong(intents, subject, keys) + if intents[key].intent.subject == subject then {intents[key].intent} else {}
  {
  }

  lemma FreshIntent(db: Tables, subject: string, keys: set<Key>, key: Key)
    requires ValidTables(db) && key in db.intents && key !in keys
    ensures db.intents[key].intent !in IntentsAmong(db.intents, subject, keys)
  {
  }

  /** The instant, if it lies ahead. */
  function Later(when: Option<Time>, now: Time): Option<Time> {
    if when.Some? && when.value > now then when else None
  }

  ghost function WakesAmong(states: map<string, Row>, subjects: set<string>): set<Time> {
    (set s | s in subjects && s in states && states[s].nextTransition.Some? :: states[s].nextTransition.value)
    + (set s | s in subjects && s in states && states[s].nextRetry.Some? :: states[s].nextRetry.value)
  }

  lemma WakesOfNone(states: map<string, Row>)
    ensures WakesAmong(states, states.Keys - states.Keys) == {}
  {
  }

  lemma WakesOfAll(db: Tables)
    ensures WakesAmong(db.states, db.states.Keys) == WakeTimes(db)
  {
  }

  ghost function Times(when: Option<Time>): set<Time> {
    if when.Some? then {when.value} else {}
  }

  lemma WakesOfOneMore(states: map<string, Row>, done: set<string>, subject: string, now: Time)
    requires subject in states
    ensures forall next :: IsEarliest(WakesAmong(states, done), now, next) ==>
      IsEarliest(WakesAmong(states, done + {subject}), now,
                 Sooner(Sooner(next, Later(states[subject].nextTransition, now)), Later(states[subject].nextRetry, now)))
  {
    var row := states[subject];
    assert WakesAmong(states, done + {subject}) == WakesAmong(states, done) + Times(row.nextTransition) + Times(row.nextRetry);
    forall next | IsEarliest(WakesAmong(states, done), now, next)
      ensures IsEarliest(WakesAmong(states, done + {subject}), now,
                         Sooner(Sooner(next, Later(row.nextTransition, now)), Later(row.nextRetry, now)))
    {
      EarliestWithOne(WakesAmong(states, done), now, next, row.nextTransition);
      EarliestWithOne(WakesAmong(states, done) + Times(row.nextTransition), now,
                      Sooner(next, Later(row.nextTransition, now)), row.nextRetry);
    }
  }

  lemma EarliestWithOne(s: set<Time>, now: Time, next: Option<Time>, when: Option<Time>)
    requires IsEarliest(s, now, next)
    ensures IsEarliest(s + Times(when), now, Sooner(next, Later(when, now)))
  {
    assert After(s + Times(when), now) == After(s, now) + Times(Later(when, now));
  }
}
