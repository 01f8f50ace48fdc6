/** Event-driven time: what the phases of a set of intents do between their
    boundaries, and why waking at the next boundary misses nothing. */
module Timeline {
  import opened Common
  import opened Intents
  import opened Ordering

  /** The aggregate temporal state of a subject's intents (planner.State). */
  datatype State = NoIntents | PendingState | ActiveState | SettledState

  /** Active wins over pending; settled needs at least one intent. */
  ghost function StateOf(intents: set<Intent>, now: Time): State {
    if exists i :: i in intents && PhaseAt(i, now) == Active then ActiveState
    else if exists i :: i in intents && PhaseAt(i, now) == Pending then PendingState
    else if intents != {} then SettledState
    else NoIntents
  }

  ghost predicate Windowed(intents: set<Intent>) {
    forall i :: i in intents ==> i.startsAt < i.endsAt
  }

  ghost function BoundariesOf(intents: set<Intent>): set<Time> {
    set i, b | i in intents && b in Boundaries(i) :: b
  }

  lemma BoundariesIncluded(intents: set<Intent>, i: Intent)
    requires i in intents && !i.cancelled
    ensures i.startsAt in BoundariesOf(intents) && i.endsAt in BoundariesOf(intents)
  {
    assert i.startsAt in Boundaries(i) && i.endsAt in Boundaries(i);
  }

  /** The instants of s later than now. */
  ghost function After(s: set<Time>, now: Time): set<Time> {
    set b | b in s && b > now
  }

  /** next is the earliest element of s later than now, if there is one. */
  ghost predicate IsEarliest(s: set<Time>, now: Time, next: Option<Time>) {
    match next
    case None => After(s, now) == {}
    case Some(t) => t in After(s, now) && forall b :: b in After(s, now) ==> t <= b
  }

  lemma Member<T>(s: set<T>) returns (x: T)
    requires s != {}
    ensures x in s
  {
    x :| x in s;
  }

  lemma {:induction false} EarliestExists(s: set<Time>) returns (t: Time)
    requires s != {}
    ensures t in s && forall b :: b in s ==> t <= b
  {
    var x := Member(s);
    t := x;
    var rest := s - {x};
    if rest != {} {
      var u := EarliestExists(rest);
      if u < x { t := u; }
    }
    forall b | b in s ensures t <= b {
      assert b == x || b in rest;
    }
  }

  ghost function Earliest(s: set<Time>, now: Time): (next: Option<Time>)
    ensures IsEarliest(s, now, next)
  {
    if After(s, now) == {} then None else
    assert exists t :: t in After(s, now) && forall b :: b in After(s, now) ==> t <= b by {
      var t := EarliestExists(After(s, now));
    }
    var t :| t in After(s, now) && forall b :: b in After(s, now) ==> t <= b;
    Some(t)
  }

  lemma NothingBefore(s: set<Time>, now: Time, b: Time)
    requires b in s && now < b
    ensures Earliest(s, now).Some? && Earliest(s, now).value <= b
  {
    assert b in After(s, now);
  }

  lemma EarliestUnique(s: set<Time>, now: Time, a: Option<Time>, b: Option<Time>)
    requires IsEarliest(s, now, a) && IsEarliest(s, now, b)
    ensures a == b
  {
  }

  /** The next wake a set of intents asks for. */
  ghost function NextOf(intents: set<Intent>, now: Time): Option<Time> {
    Earliest(BoundariesOf(intents), now)
  }

  /** t lies before the wake asked for at now. */
  ghost predicate Before(t: Time, next: Option<Time>) {
    next.Some? ==> t < next.value
  }

  /** A single intent's next transition is the earliest of its own boundaries. */
  lemma NextTransitionIsEarliest(i: Intent, now: Time)
    requires i.startsAt < i.endsAt
    ensures IsEarliest(Boundaries(i), now, NextTransitionAt(i, now))
  {
  }

  /** No phase changes before the next wake: on [now, next) every intent keeps
      the phase it had at now, and so does the aggregate state. */
  lemma QuietUntilNext(intents: set<Intent>, now: Time, t: Time)
    requires Windowed(intents)
    requires now <= t && Before(t, NextOf(intents, now))
    ensures forall i :: i in intents ==> PhaseAt(i, t) == PhaseAt(i, now)
    ensures StateOf(intents, t) == StateOf(intents, now)
  {
    forall i | i in intents ensures PhaseAt(i, t) == PhaseAt(i, now) {
      if !i.cancelled {
        BoundariesIncluded(intents, i);
        if now < i.startsAt { NothingBefore(BoundariesOf(intents), now, i.startsAt); }
        if now < i.endsAt { NothingBefore(BoundariesOf(intents), now, i.endsAt); }
      }
    }
  }

  /** Some phase changes exactly at the next wake, and not earlier. */
  lemma ChangesAtNext(intents: set<Intent>, now: Time) returns (i: Intent)
    requires Windowed(intents) && NextOf(intents, now).Some?
    ensures i in intents
    ensures forall t :: now <= t < NextOf(intents, now).value ==>
              PhaseAt(i, t) != PhaseAt(i, NextOf(intents, now).value)
  {
    var next := NextOf(intents, now).value;
    assert next in BoundariesOf(intents);
    i :| i in intents && next in Boundaries(i);
    forall t | now <= t < next ensures PhaseAt(i, t) != PhaseAt(i, next) {
      QuietUntilNext(intents, now, t);
      if next == i.endsAt && t < i.startsAt {
        BoundariesIncluded(intents, i);
      }
    }
  }

  /** Every wake of a scheduler that starts at now and always sleeps until the
      next boundary. */
  ghost function Wakes(intents: set<Intent>, now: Time): seq<Time>
    decreases |After(BoundariesOf(intents), now)|
  {
    match NextOf(intents, now)
    case None => []
    case Some(t) =>
      NextIsFirst(BoundariesOf(intents), now, t);
      [t] + Wakes(intents, t)
  }

  lemma {:induction false} SubsetAtMost<T>(a: set<T>, b: set<T>)
    requires a <= b
    ensures |a| <= |b|
  {
    if a != {} {
      var x :| x in a;
      SubsetAtMost(a - {x}, b - {x});
    }
  }

  /** The last instant of the wake list not after t, or start. */
  ghost function LastWake(start: Time, wakes: seq<Time>, t: Time): Time
    decreases |wakes|
  {
    if wakes == [] || t < wakes[0] then start else LastWake(wakes[0], wakes[1..], t)
  }

  /** Taking the next wake removes exactly that boundary. */
  lemma NextIsFirst(s: set<Time>, now: Time, t: Time)
    requires IsEarliest(s, now, Some(t))
    ensures t > now && t !in After(s, t) && After(s, now) == {t} + After(s, t)
    ensures |After(s, now)| == 1 + |After(s, t)|
  {
  }

  /** The wakes are exactly the boundaries later than now, each once. */
  lemma {:induction false} WakesAreTheBoundaries(intents: set<Intent>, now: Time)
    ensures Elements(Wakes(intents, now)) == After(BoundariesOf(intents), now)
    ensures |Wakes(intents, now)| == |After(BoundariesOf(intents), now)|
    decreases |After(BoundariesOf(intents), now)|
  {
    var bs := BoundariesOf(intents);
    if NextOf(intents, now).Some? {
      var t := NextOf(intents, now).value;
      NextIsFirst(bs, now, t);
      WakesAreTheBoundaries(intents, t);
      ElementsCons(t, Wakes(intents, t));
    } else {
      assert Elements(Wakes(intents, now)) == {};
    }
  }

  lemma ElementsCons<T>(x: T, s: seq<T>)
    ensures Elements([x] + s) == {x} + Elements(s)
  {
  }

  /** The wakes come in strictly increasing order, all later than now. */
  lemma {:induction false} WakesIncrease(intents: set<Intent>, now: Time)
    ensures Increasing(now, Wakes(intents, now))
    decreases |After(BoundariesOf(intents), now)|
  {
    if NextOf(intents, now).Some? {
      var t := NextOf(intents, now).value;
      NextIsFirst(BoundariesOf(intents), now, t);
      WakesIncrease(intents, t);
      var rest := Wakes(intents, t);
      assert forall i :: 0 <= i < |rest| ==> t < rest[i];
    }
  }

  /** Strictly increasing from a point later than start. */
  ghost predicate Increasing(start: Time, w: seq<Time>) {
    && (forall i :: 0 <= i < |w| ==> start < w[i])
    && (forall i, j :: 0 <= i < j < |w| ==> w[i] < w[j])
  }

  /** Sleeping from wake to wake loses nothing: at every instant t >= now all
      phases, and the aggregate state, are those of the last wake. */
  lemma {:induction false} EventDrivenRefinesContinuous(intents: set<Intent>, now: Time, t: Time)
    requires Windowed(intents) && now <= t
    ensures var last := LastWake(now, Wakes(intents, now), t);
      && now <= last <= t
      && (forall i :: i in intents ==> PhaseAt(i, t) == PhaseAt(i, last))
      && StateOf(intents, t) == StateOf(intents, last)
    decreases |After(BoundariesOf(intents), now)|
  {
    var w := Wakes(intents, now);
    if NextOf(intents, now).None? || t < NextOf(intents, now).value {
      QuietUntilNext(intents, now, t);
    } else {
      var next := NextOf(intents, now).value;
      NextIsFirst(BoundariesOf(intents), now, next);
      EventDrivenRefinesContinuous(intents, next, t);
      assert w[1..] == Wakes(intents, next);
    }
  }

  ghost function Live(intents: set<Intent>): set<Intent> {
    set i | i in intents && !i.cancelled
  }

  lemma {:induction false} BoundaryCount(intents: set<Intent>)
    ensures |BoundariesOf(intents)| <= 2 * |Live(intents)|
    decreases |intents|
  {
    if intents == {} {
      assert BoundariesOf(intents) == {} && Live(intents) == {};
    } else {
      var i :| i in intents;
      var rest := intents - {i};
      BoundaryCount(rest);
      assert BoundariesOf(intents) == BoundariesOf(rest) + Boundaries(i);
      if i.cancelled {
        assert Live(intents) == Live(rest);
      } else {
        assert Live(intents) == Live(rest) + {i};
        assert |Boundaries(i)| <= 2;
      }
    }
  }

  /** The wake chain is short, and once it is used up a subject with intents is
      settled for good. */
  lemma WakeChainEndsSettled(intents: set<Intent>, now: Time)
    requires Windowed(intents)
    ensures |Wakes(intents, now)| <= 2 * |Live(intents)|
    ensures var w := Wakes(intents, now);
      var end := if w == [] then now else w[|w| - 1];
      forall t :: end <= t ==> StateOf(intents, t) == if intents == {} then NoIntents else SettledState
  {
    WakesAreTheBoundaries(intents, now);
    BoundaryCount(intents);
    SubsetAtMost(After(BoundariesOf(intents), now), BoundariesOf(intents));
    var w := Wakes(intents, now);
    var end := if w == [] then now else w[|w| - 1];
    forall t, i | end <= t && i in intents ensures PhaseAt(i, t) == Ended || PhaseAt(i, t) == Cancelled {
      if !i.cancelled {
        WakesIncrease(intents, now);
        BoundariesIncluded(intents, i);
        assert i.endsAt > now ==> i.endsAt in After(BoundariesOf(intents), now);
        assert i.endsAt > now ==> i.endsAt in w;
      }
    }
  }

  /** nextTransitionAt (internal/reconcile/service.go): a loop that keeps the
      earliest transition seen. */
  method NextTransitionOf(intents: seq<Intent>, now: Time) returns (next: Option<Time>)
    requires forall i :: i in intents ==> i.startsAt < i.endsAt
    ensures next == NextOf(Elements(intents), now)
  {
    next := None;
    for k := 0 to |intents|
      invariant IsEarliest(BoundariesOf(Elements(intents[..k])), now, next)
    {
      var transition := NextTransitionAt(intents[k], now);
      ExtendEarliest(intents, k, now, next, transition);
      if transition.Some? && (next.None? || transition.value < next.value) {
        next := transition;
      }
    }
    assert intents[..|intents|] == intents;
    EarliestUnique(BoundariesOf(Elements(intents)), now, next, NextOf(Elements(intents), now));
  }

  /** The earlier of two optional instants. */
  function Sooner(a: Option<Time>, b: Option<Time>): Option<Time> {
    if b.Some? && (a.None? || b.value < a.value) then b else a
  }

  /** One round of the loop above keeps its invariant. */
  lemma ExtendEarliest(intents: seq<Intent>, k: nat, now: Time, next: Option<Time>, transition: Option<Time>)
    requires k < |intents| && intents[k].startsAt < intents[k].endsAt
    requires IsEarliest(BoundariesOf(Elements(intents[..k])), now, next)
    requires transition == NextTransitionAt(intents[k], now)
    ensures IsEarliest(BoundariesOf(Elements(intents[..k + 1])), now, Sooner(next, transition))
  {
    NextTransitionIsEarliest(intents[k], now);
    var before, after := Elements(intents[..k]), Elements(intents[..k + 1]);
    assert intents[..k + 1] == intents[..k] + [intents[k]];
    assert after == before + {intents[k]};
    assert After(BoundariesOf(after), now) == After(BoundariesOf(before), now) + After(Boundaries(intents[k]), now);
  }
}
