/** What a failed first listing costs: the loop lists everybody only once, at its
    start, and does not come back to it. */
module FailedStart {
  import opened Common
  import opened Intents
  import opened Timeline
  import opened Policy
  import opened Store
  import opened Protocol
  import opened Coherence
  import opened Recovery
  import opened Progress
  import opened Scenarios
  import S = Scheduler

  /** Protocol steps while the loop waits. */
  ghost function Lifted(steps: seq<Step>): seq<S.Event> {
    if steps == [] then [] else [S.System(steps[0])] + Lifted(steps[1..])
  }

  /** The events bring w to w'. */
  ghost predicate Brings(par: Params, poll: nat, w: S.World, events: seq<S.Event>, w': S.World) {
    S.Happens(par, poll, w, events) && S.WorldAfter(par, poll, w, events) == w'
  }

  lemma {:induction false} LiftedHappens(par: Params, poll: nat, w: S.World, steps: seq<Step>) returns (w': S.World)
    requires Executable(par, w.sys, steps) && w.loop.Listing?
    ensures Brings(par, poll, w, Lifted(steps), w') && w'.sys == Final(par, w.sys, steps) && w'.loop == w.loop
    ensures forall i :: 0 <= i < |Lifted(steps)| ==> Lifted(steps)[i].System?
    decreases |steps|
  {
    if steps == [] {
      w' := w;
    } else {
      w' := LiftedHappens(par, poll, S.WorldNext(par, poll, w, S.System(steps[0])), steps[1..]);
      assert Lifted(steps)[1..] == Lifted(steps[1..]);
    }
  }

  lemma AfterFirst(par: Params, poll: nat, w: S.World, events: seq<S.Event>, w': S.World)
    requires Brings(par, poll, w, events, w') && events != []
    ensures S.Possible(par, w, events[0]) && Brings(par, poll, S.WorldNext(par, poll, w, events[0]), events[1..], w')
  {
  }

  lemma BeforeRest(par: Params, poll: nat, w: S.World, event: S.Event, rest: seq<S.Event>, w': S.World)
    requires S.Possible(par, w, event) && Brings(par, poll, S.WorldNext(par, poll, w, event), rest, w')
    ensures Brings(par, poll, w, [event] + rest, w')
  {
    assert ([event] + rest)[0] == event && ([event] + rest)[1..] == rest;
  }

  lemma {:induction false} JoinEvents(par: Params, poll: nat, w: S.World, first: seq<S.Event>, mid: S.World,
      then_: seq<S.Event>, w': S.World)
    requires Brings(par, poll, w, first, mid) && Brings(par, poll, mid, then_, w')
    ensures Brings(par, poll, w, first + then_, w')
    decreases |first|
  {
    if first == [] {
      assert first + then_ == then_;
    } else {
      AfterFirst(par, poll, w, first, mid);
      var next := S.WorldNext(par, poll, w, first[0]);
      JoinEvents(par, poll, next, first[1..], mid, then_, w');
      BeforeRest(par, poll, w, first[0], first[1..] + then_, w');
      Regroup(first, then_);
    }
  }

  lemma Regroup<T>(first: seq<T>, rest: seq<T>)
    requires first != []
    ensures first + rest == [first[0]] + (first[1..] + rest)
  {
  }

  lemma OneEvent(par: Params, poll: nat, w: S.World, event: S.Event)
    requires S.Possible(par, w, event)
    ensures Brings(par, poll, w, [event], S.WorldNext(par, poll, w, event))
  {
    var w' := S.WorldNext(par, poll, w, event);
    assert Brings(par, poll, w', [], w');
    BeforeRest(par, poll, w, event, [], w');
    assert [event] + [] == [event];
  }

  lemma OneMore(par: Params, poll: nat, w: S.World, events: seq<S.Event>, mid: S.World, event: S.Event)
    requires Brings(par, poll, w, events, mid) && S.Possible(par, mid, event)
    ensures Brings(par, poll, w, events + [event], S.WorldNext(par, poll, mid, event))
  {
    OneEvent(par, poll, mid, event);
    JoinEvents(par, poll, w, events, mid, [event], S.WorldNext(par, poll, mid, event));
  }

  /** The listing and the wake query fail. */
  lemma StartFails(par: Params, poll: nat, w: S.World) returns (events: seq<S.Event>, w': S.World)
    requires w.loop == S.Listing(true)
    ensures Brings(par, poll, w, events, w') && w'.sys == w.sys && w'.loop == S.Asked(w.sys.clock, None, {})
    ensures forall i :: 0 <= i < |events| ==> !events[i].List?
  {
    var w1 := S.WorldNext(par, poll, w, S.ReadClock);
    var w2 := S.WorldNext(par, poll, w1, S.ListFails);
    w' := S.WorldNext(par, poll, w2, S.AskFails);
    OneEvent(par, poll, w, S.ReadClock);
    OneMore(par, poll, w, [S.ReadClock], w1, S.ListFails);
    OneMore(par, poll, w, [S.ReadClock] + [S.ListFails], w2, S.AskFails);
    events := [S.ReadClock] + [S.ListFails] + [S.AskFails];
  }

  /** The loop sleeps through one poll interval and is about to list again. */
  lemma SleepsOnce(par: Params, poll: nat, w: S.World) returns (events: seq<S.Event>, w': S.World)
    requires w.loop == S.Asked(w.sys.clock, None, {})
    ensures Brings(par, poll, w, events, w')
    ensures w'.sys == w.sys.(clock := w.sys.clock + poll) && w'.loop == S.Querying(false, w.sys.clock + poll)
    ensures forall i :: 0 <= i < |events| ==> !events[i].List?
  {
    var tick := Tick(w.sys.clock + poll);
    var w1 := S.WorldNext(par, poll, w, S.Sleep);
    var w2 := S.WorldNext(par, poll, w1, S.System(tick));
    var w3 := S.WorldNext(par, poll, w2, S.Fire);
    w' := S.WorldNext(par, poll, w3, S.ReadClock);
    TickOnly(par, w1.sys, w.sys.clock + poll);
    OneEvent(par, poll, w, S.Sleep);
    OneMore(par, poll, w, [S.Sleep], w1, S.System(tick));
    OneMore(par, poll, w, [S.Sleep] + [S.System(tick)], w2, S.Fire);
    OneMore(par, poll, w, [S.Sleep] + [S.System(tick)] + [S.Fire], w3, S.ReadClock);
    events := [S.Sleep] + [S.System(tick)] + [S.Fire] + [S.ReadClock];
  }

  lemma TickOnly(par: Params, s: Sys, to: Time)
    requires s.clock <= to
    ensures Enabled(par, s, Tick(to)) && Next(par, s, Tick(to)) == s.(clock := to)
  {
  }

  /** The row of x is clean and waits for nothing. */
  ghost predicate Settled(db: Tables, x: string) {
    && x in SubjectsWithIntents(db)
    && x in db.states && db.states[x].nextTransition.None? && db.states[x].nextRetry.None?
  }

  lemma DeliversAlone(par: Params, clock: Time, e: Intent) returns (steps: seq<Step>, s': Sys)
    requires par.poolSize >= 1 && Valid(e) && e.endsAt <= clock
    ensures Leads(par, Initial(clock, map[]), steps, s') && AllFinished(s') && s'.clock == clock
    ensures e.subject in SubjectsWithIntents(s'.db) && NextOf(IntentsOf(s'.db, e.subject), clock) == None
  {
    var s0 := Initial(clock, map[]);
    NobodyConnected(par, s0, 0);
    steps := Deliver(par, s0, 0, e);
    s' := Delivered(s0, 0, e);
    OnlyIntent(clock, e);
  }

  lemma OnlyIntent(clock: Time, e: Intent)
    requires Valid(e) && e.endsAt <= clock
    ensures var db := Upserted(Tables(map[], map[]), e, clock);
      e.subject in SubjectsWithIntents(db) && NextOf(IntentsOf(db, e.subject), clock) == None
  {
    var db := Upserted(Tables(map[], map[]), e, clock);
    assert db.intents.Keys == {e.Identity()};
    assert IntentsOf(db, e.subject) == {e};
    assert Boundaries(e) <= {e.startsAt, e.endsAt};
  }

  /** An ended intent is delivered and settled by a complete run. */
  lemma Settles(par: Params, clock: Time, e: Intent) returns (steps: seq<Step>, s': Sys)
    requires ValidConfig(par.cfg) && Evaluates(par.cfg) && par.poolSize >= 1 && Valid(e) && e.endsAt <= clock
    ensures Leads(par, Initial(clock, map[]), steps, s') && s'.clock == clock && Settled(s'.db, e.subject)
  {
    var s1, more, pid, rule;
    steps, s1 := DeliversAlone(par, clock, e);
    more, s', pid, rule := ServeOne(par, s1, e.subject);
    Join(par, Initial(clock, map[]), steps, s1, more, s');
    steps := steps + more;
  }

  lemma SettledIsNotDue(db: Tables, x: string, now: Time)
    requires Settled(db, x)
    ensures x !in DueSubjects(db, now)
  {
  }

  /** The promise that the loop starts by reconciling every subject with an intent
      fails if the first listing does: for every configuration whose conditions
      evaluate, every poll interval and every intent that has ended, there is a
      history in which the first successful listing leaves its subject out. */
  lemma FailedStartSkips(par: Params, poll: nat, clock: Time, e: Intent) returns (events: seq<S.Event>)
    requires ValidConfig(par.cfg) && Evaluates(par.cfg) && par.poolSize >= 1 && Valid(e) && e.endsAt <= clock
    ensures S.WorldHistory(par, poll, Start(clock, map[]), events)
    ensures var w := S.WorldIn(par, poll, Start(clock, map[]), events);
      && S.Possible(par, w, S.List) && (forall i :: 0 <= i < |events| ==> !events[i].List?)
      && e.subject in SubjectsWithIntents(w.sys.db) && e.subject !in S.LoopNext(poll, w, S.List).subjects
  {
    var steps, s' := Settles(par, clock, e);
    var w := S.FirstWorld(Start(clock, map[]));
    var w1 := LiftedHappens(par, poll, w, steps);
    var first, w2 := StartFails(par, poll, w1);
    var second, w3 := SleepsOnce(par, poll, w2);
    JoinEvents(par, poll, w, Lifted(steps), w1, first, w2);
    JoinEvents(par, poll, w, Lifted(steps) + first, w2, second, w3);
    events := Lifted(steps) + first + second;
    SettledIsNotDue(w3.sys.db, e.subject, w3.loop.now);
    S.ListedInCycle(poll, w3, e.subject);
  }
}
