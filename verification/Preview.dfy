/** PlanEvent (internal/reconcile/service.go): the plan an event would lead to,
    without writing anything. */
module Preview {
  import opened Common
  import opened Ordering
  import opened Intents
  import opened Policy
  import opened Planner
  import opened Store
  import opened Convergence

  /** A listing of a subject's stored intents, in some order. */
  ghost predicate Lists(db: Tables, subject: string, listing: seq<Intent>) {
    NoRepeats(listing) && Elements(listing) == IntentsOf(db, subject)
  }

  /** The position of the first intent with this identity, or the length. */
  function IndexOf(intents: seq<Intent>, key: Key): (k: nat)
    ensures k <= |intents|
    ensures k < |intents| ==> intents[k].Identity() == key
    ensures forall j :: 0 <= j < k ==> intents[j].Identity() != key
  {
    if intents == [] then 0
    else if intents[0].Identity() == key then 0
    else 1 + IndexOf(intents[1..], key)
  }

  /** The listing with the event put in the place of the intent it replaces, or
      at the end. */
  function Overlaid(intents: seq<Intent>, event: Intent): seq<Intent> {
    var k := IndexOf(intents, event.Identity());
    if k < |intents| then intents[k := event] else intents + [event]
  }

  datatype PreviewError = Invalid(why: InvalidIntent) | NotListed | NotResolved | NotEvaluated(index: nat)

  /** The first check of the event that fails. */
  ghost predicate FirstFails(event: Intent, why: InvalidIntent) {
    Fails(event, why) && forall c: InvalidIntent :: Place(c) < Place(why) ==> !Fails(event, c)
  }

  /** list is ListIntents, which may fail, and resolve is the directory. */
  method PlanEvent(cfg: Config, list: string -> Option<seq<Intent>>, resolve: string -> Option<User>, given: Intent, now: Time)
    returns (result: Result<Plan, PreviewError>)
    requires |cfg.programs| == |cfg.rules|
    requires forall subject :: list(subject).Some? ==> forall i :: i in list(subject).value ==> i.startsAt < i.endsAt
    ensures var event := given.(source := Trim(given.source), id := Trim(given.id), subject := Trim(given.subject));
      if !Valid(event) then result.Err? && result.error.Invalid? && FirstFails(event, result.error.why)
      else if list(event.subject).None? then result == Err(NotListed)
      else if resolve(event.subject).None? then result == Err(NotResolved)
      else match PlanOf(cfg, resolve(event.subject).value, Overlaid(list(event.subject).value, event), now)
           case Ok(plan) => result == Ok(plan)
           case Err(index) => result == Err(NotEvaluated(index))
  {
    var event, problem := Validate(given);
    if problem.Some? {
      return Err(Invalid(problem.value));
    }
    var listed := list(event.subject);
    if listed.None? {
      return Err(NotListed);
    }
    var intents := OverlayEvent(listed.value, event);
    var user := resolve(event.subject);
    if user.None? {
      return Err(NotResolved);
    }
    var plan := Build(cfg, user.value, intents, now);
    return match plan case Ok(p) => Ok(p) case Err(index) => Err(NotEvaluated(index));
  }

  /** The loop that overlays the event. */
  method OverlayEvent(listed: seq<Intent>, event: Intent) returns (intents: seq<Intent>)
    ensures intents == Overlaid(listed, event)
    ensures forall i :: i in intents ==> i in listed || i == event
  {
    intents := listed;
    var replaced := false;
    for index := 0 to |intents|
      invariant !replaced && intents == listed
      invariant forall j :: 0 <= j < index ==> listed[j].Identity() != event.Identity()
    {
      if intents[index].source == event.source && intents[index].id == event.id {
        intents := intents[index := event];
        replaced := true;
        assert IndexOf(listed, event.Identity()) == index;
        break;
      }
    }
    if !replaced {
      intents := intents + [event];
    }
  }

  lemma {:induction false} SameElementsSameMultiset<T>(a: seq<T>, b: seq<T>)
    requires NoRepeats(a) && NoRepeats(b) && Elements(a) == Elements(b)
    ensures multiset(a) == multiset(b)
  {
    forall x ensures multiset(a)[x] == multiset(b)[x] {
      OnceInList(a, x);
      OnceInList(b, x);
      assert x in Elements(a) <==> x in Elements(b);
    }
  }

  lemma {:induction false} OnceInList<T>(a: seq<T>, x: T)
    requires NoRepeats(a)
    ensures multiset(a)[x] == if x in a then 1 else 0
  {
    if a != [] {
      assert a == [a[0]] + a[1..];
      assert forall i :: 0 <= i < |a[1..]| ==> a[1..][i] == a[i + 1];
      OnceInList(a[1..], x);
    }
  }

  /** Stored intents of one subject differ in identity. */
  lemma ListingIsDistinct(db: Tables, subject: string, listing: seq<Intent>)
    requires ValidTables(db) && Lists(db, subject, listing)
    ensures DistinctIdentities(listing) && OneSubject(listing, subject)
  {
    forall i | 0 <= i < |listing| ensures listing[i] in IntentsOf(db, subject) {
      assert listing[i] in Elements(listing);
    }
    forall i, j | 0 <= i < j < |listing| ensures listing[i].Identity() != listing[j].Identity() {
      StoredOnce(db, subject, listing[i], listing[j]);
    }
  }

  lemma StoredOnce(db: Tables, subject: string, a: Intent, b: Intent)
    requires ValidTables(db) && a in IntentsOf(db, subject) && b in IntentsOf(db, subject)
    ensures a.Identity() == b.Identity() ==> a == b
  {
  }

  /** The overlaid listing has exactly the intents that the delivery would leave
      the subject with, each once. */
  lemma OverlaidMeaning(listing: seq<Intent>, event: Intent, subject: string)
    requires DistinctIdentities(listing) && OneSubject(listing, subject) && event.subject == subject
    ensures var r := Overlaid(listing, event);
      && DistinctIdentities(r) && OneSubject(r, subject) && NoRepeats(r)
      && Elements(r) == (set i | i in Elements(listing) && i.Identity() != event.Identity()) + {event}
  {
    var k, r := IndexOf(listing, event.Identity()), Overlaid(listing, event);
    assert forall j :: 0 <= j < |listing| && j != k ==> listing[j].Identity() != event.Identity();
    forall i ensures i in r <==> (i in listing && i.Identity() != event.Identity()) || i == event {
      if i in listing && i.Identity() != event.Identity() {
        var j :| 0 <= j < |listing| && listing[j] == i;
        assert r[j] == i;
      }
      if i == event {
        assert r[k] == i;
      }
    }
  }

  /** Preview equals reality. For every configuration, user and instant, the plan
      previewed for an event is the plan that a reconciliation would build right
      after the event was delivered, in whatever order intents are listed, also
      when the event moves the intent here from another subject. */
  lemma PreviewEqualsReality(cfg: Config, user: User, db: Tables, event: Intent, at: Time, now: Time,
      before: seq<Intent>, after: seq<Intent>)
    requires ValidTables(db) && Valid(event)
    requires Lists(db, event.subject, before) && Lists(Upserted(db, event, at), event.subject, after)
    ensures PlanOf(cfg, user, Overlaid(before, event), now) == PlanOf(cfg, user, after, now)
  {
    var subject := event.subject;
    ListingIsDistinct(db, subject, before);
    ListingIsDistinct(Upserted(db, event, at), subject, after);
    OverlaidMeaning(before, event, subject);
    UpsertedIntents(db, event, at, subject);
    SameElementsSameMultiset(Overlaid(before, event), after);
    var rule := FirstMatch(cfg.programs, user);
    if rule.Ok? {
      PlanIgnoresOrder(cfg, user, rule.value, Overlaid(before, event), after, subject, now);
    }
  }
}
