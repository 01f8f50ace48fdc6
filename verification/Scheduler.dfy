/** The reconciliation loop (cmd/metabasis/loop.go) and the webhook handlers'
    wake channel (internal/httpapi/server.go) around the protocol. */
module Scheduler {
  import opened Common
  import opened Ordering
  import opened Intents
  import opened Timeline
  import opened Policy
  import opened Backoff
  import opened Store
  import opened Protocol
  import opened ProtocolInvariant
  import opened Coherence

  /** Where runLoop is. runs holds the runs of the cycle so far, and known the
      persisted times that the last successful wake query saw; they only record
      history. */
  datatype LoopAt =
    | Listing(all: bool)                                  // a cycle has begun; the first one lists all subjects
    | Querying(all: bool, now: Time)                      // the clock is read, the subjects are not
    | Cycling(subjects: seq<string>, next: nat, current: Option<Pid>, runs: seq<Pid>)
    | Asking                                              // the cycle is over
    | Asked(asked: Time, answer: Option<Time>, known: set<Time>)
    | Sleeping(since: Time, deadline: Time, asked: Time, known: set<Time>)
    | Stopped

  /** The system with one loop, and the one-slot channel between the handlers and
      the loop. The last four fields record history: committed are the deliveries
      that committed, sent those whose handlers have sent their wake since;
      waiting maps each subject that has
      been marked, and neither listed nor recorded since, to the delivery that
      marked it last; missed are those of them that a failed listing passed over
      with no wake left in the channel, as long as nothing woke the loop since. */
  datatype World = World(
    sys: Sys, loop: LoopAt, token: bool,
    committed: set<Pid>, sent: set<Pid>, waiting: map<string, Pid>, missed: set<string>)

  datatype Event =
    | System(step: Step)               // handlers, runs, other programs, the clock
    | Send(pid: Pid)                   // a handler whose intent was accepted
    | ReadClock
    | List
    | ListFails
    | StartNext(pid: Pid)
    | EndCurrent
    | EndCycle
    | Ask
    | AskFails
    | Sleep
    | TakeToken
    | Fire                             // the timer
    | Stop                             // cancellation

  ghost function FirstWorld(start: Start): World {
    World(Initial(start.clock, start.members), Listing(true), false, {}, {}, map[], {})
  }

  ghost predicate FinishedDelivery(s: Sys, pid: Pid) {
    IsDelivery(s, pid) && s.procs[pid].delivery.Finished?
  }

  /** Timers are exact: time does not pass a sleeping loop's deadline. */
  ghost predicate Possible(par: Params, w: World, event: Event) {
    match event
    case System(step) => Enabled(par, w.sys, step) && (step.Tick? && w.loop.Sleeping? ==> step.to <= w.loop.deadline)
    case Send(pid) => pid in w.committed && pid !in w.sent
    case ReadClock => w.loop.Listing?
    case List => w.loop.Querying?
    case ListFails => w.loop.Querying?
    case StartNext(pid) =>
      w.loop.Cycling? && w.loop.current.None? && w.loop.next < |w.loop.subjects| && pid !in w.sys.procs
    case EndCurrent =>
      w.loop.Cycling? && w.loop.current.Some? && w.loop.next < |w.loop.subjects|
      && IsRun(w.sys, w.loop.current.value) && w.sys.procs[w.loop.current.value].run.Done?
    case EndCycle => w.loop.Cycling? && w.loop.current.None? && w.loop.next == |w.loop.subjects|
    case Ask => w.loop.Asking?
    case AskFails => w.loop.Asking?
    case Sleep => w.loop.Asked?
    case TakeToken => w.loop.Sleeping? && w.token
    case Fire => w.loop.Sleeping? && w.sys.clock == w.loop.deadline
    case Stop => true
  }

  /** The delay of the timer: min(interval, max(until, 0)). */
  function SleepTime(poll: nat, now: Time, answer: Option<Time>): nat {
    if answer.None? then poll
    else Min(poll, if answer.value < now then 0 else answer.value - now)
  }

  ghost function Listed(db: Tables, all: bool, now: Time): set<string> {
    if all then KnownSubjects(db) else DueSubjects(db, now)
  }

  ghost function LoopNext(poll: nat, w: World, event: Event): LoopAt {
    match event
    case ReadClock => if w.loop.Listing? then Querying(w.loop.all, w.sys.clock) else w.loop
    case List =>
      if w.loop.Querying? then Cycling(SortedElements(Listed(w.sys.db, w.loop.all, w.loop.now)), 0, None, []) else w.loop
    case ListFails => Asking
    case StartNext(pid) => if w.loop.Cycling? then w.loop.(current := Some(pid), runs := w.loop.runs + [pid]) else w.loop
    case EndCurrent => if w.loop.Cycling? then w.loop.(next := w.loop.next + 1, current := None) else w.loop
    case EndCycle => Asking
    case Ask => Asked(w.sys.clock, NextWake(w.sys.db, w.sys.clock), WakeTimes(w.sys.db))
    case AskFails => Asked(w.sys.clock, None, {})
    case Sleep =>
      if w.loop.Asked? then
        Sleeping(w.sys.clock, w.sys.clock + SleepTime(poll, w.sys.clock, w.loop.answer), w.loop.asked, w.loop.known)
      else w.loop
    case TakeToken => Listing(false)
    case Fire => Listing(false)
    case Stop => Stopped
    case _ => w.loop
  }

  ghost function SysNext(par: Params, w: World, event: Event): Sys {
    match event
    case System(step) => Next(par, w.sys, step)
    case StartNext(pid) =>
      if w.loop.Cycling? && w.loop.next < |w.loop.subjects| then
        Next(par, w.sys, Launch(pid, w.loop.subjects[w.loop.next]))
      else w.sys
    case _ => w.sys
  }

  /** The subjects that a protocol step marks due by a delivery. */
  ghost function MarkedBy(s: Sys, step: Step): set<string> {
    if step.OfDelivery? && step.delivery.Commit? && IsDelivery(s, step.pid) && s.procs[step.pid].delivery.Locking? then
      Affected(s.procs[step.pid].delivery.previous, s.procs[step.pid].accepted.subject)
    else {}
  }

  /** The subject for which a protocol step records an outcome. */
  ghost function RecordedBy(s: Sys, step: Step): set<string> {
    if step.OfRun? && Records(s, step, RunSubject(s, step.pid)) then {RunSubject(s, step.pid)} else {}
  }

  ghost function RunSubject(s: Sys, pid: Pid): string {
    if IsRun(s, pid) then s.procs[pid].subject else ""
  }

  ghost function WaitingNext(w: World, event: Event): map<string, Pid> {
    match event
    case System(step) =>
      (w.waiting - RecordedBy(w.sys, step)) + map x | x in MarkedBy(w.sys, step) :: step.pid
    case List => if w.loop.Querying? then w.waiting - Listed(w.sys.db, w.loop.all, w.loop.now) else w.waiting
    case _ => w.waiting
  }

  /** Waiting subjects whose mark lies in the past of the given time. */
  ghost function Overdue(w: World, now: Time): set<string> {
    set x | x in w.waiting && FinishedDelivery(w.sys, w.waiting[x]) && w.sys.procs[w.waiting[x]].at <= now
  }

  /** After such an event a listing of everything due now is certain to come,
      or the loop is over. */
  ghost predicate Wakes(event: Event) {
    event.Send? || event.TakeToken? || event.Fire? || event.Stop?
  }

  ghost function MissedNext(w: World, event: Event): set<string> {
    match event
    case System(step) => w.missed - RecordedBy(w.sys, step) - MarkedBy(w.sys, step)
    case List => if w.loop.Querying? then w.missed - Listed(w.sys.db, w.loop.all, w.loop.now) else w.missed
    case ListFails => if w.loop.Querying? && !w.token then w.missed + Overdue(w, w.loop.now) else w.missed
    case _ => if Wakes(event) then {} else w.missed
  }

  ghost function WorldNext(par: Params, poll: nat, w: World, event: Event): World {
    World(
      SysNext(par, w, event), LoopNext(poll, w, event),
      if event.Send? then true else if event.TakeToken? then false else w.token,
      if event.System? && event.step.OfDelivery? && event.step.delivery.Commit? then w.committed + {event.step.pid}
      else w.committed,
      if event.Send? then w.sent + {event.pid} else w.sent,
      WaitingNext(w, event), MissedNext(w, event))
  }

  ghost predicate Happens(par: Params, poll: nat, w: World, events: seq<Event>)
    decreases |events|
  {
    events == [] || (Possible(par, w, events[0]) && Happens(par, poll, WorldNext(par, poll, w, events[0]), events[1..]))
  }

  ghost function WorldAfter(par: Params, poll: nat, w: World, events: seq<Event>): World
    requires Happens(par, poll, w, events)
    decreases |events|
  {
    if events == [] then w else WorldAfter(par, poll, WorldNext(par, poll, w, events[0]), events[1..])
  }

  // ----- the invariant

  /** A listing that will see marks of the given time is certain to come. */
  ghost predicate Awaited(w: World, at: Time) {
    w.token || w.loop.Listing? || w.loop.Stopped? || (w.loop.Querying? && at <= w.loop.now)
  }

  ghost predicate WakeOk(w: World, x: string) {
    x in w.waiting ==>
      var p := w.waiting[x];
      && FinishedDelivery(w.sys, p)
      && x in w.sys.db.states && w.sys.db.states[x].nextRetry == Some(w.sys.procs[p].at)
      && (p in w.sent ==> (Awaited(w, w.sys.procs[p].at) <==> x !in w.missed))
  }

  /** While a wake is in the channel or a listing is on its way, nothing is
      missed. */
  ghost predicate MissedOk(w: World) {
    w.token || w.loop.Listing? || w.loop.Querying? || w.loop.Stopped? ==> w.missed == {}
  }

  ghost predicate SentOk(w: World) {
    w.sent <= w.committed && forall p :: p in w.committed ==> FinishedDelivery(w.sys, p)
  }

  ghost predicate RunsSubject(s: Sys, pid: Pid, subject: string) {
    IsRun(s, pid) && s.procs[pid].subject == subject
  }

  function Max(a: int, b: int): int { if a <= b then b else a }

  /** The loop has run the listed subjects one by one. A sleeping loop sleeps at most
      one poll interval, and not through a time that its wake query saw in the
      future. */
  ghost predicate LoopOk(poll: nat, s: Sys, loop: LoopAt) {
    match loop
    case Querying(_, now) => now <= s.clock
    case Cycling(subjects, next, current, runs) =>
      && next <= |subjects| && (current.Some? ==> next < |subjects|)
      && |runs| == next + (if current.Some? then 1 else 0)
      && (current.Some? ==> runs[next] == current.value)
      && (forall i :: 0 <= i < |runs| ==> RunsSubject(s, runs[i], subjects[i]))
      && (forall i :: 0 <= i < next ==> s.procs[runs[i]].run.Done?)
    case Asked(asked, answer, known) => asked <= s.clock && IsEarliest(known, asked, answer)
    case Sleeping(since, deadline, asked, known) =>
      && asked <= since <= s.clock <= deadline <= since + poll
      && (forall v :: v in known && asked < v ==> deadline <= v || deadline <= since)
      && (deadline == since + poll || exists v :: v in known && asked < v && deadline == Max(v, since))
    case _ => true
  }

  ghost predicate WorldInv(par: Params, poll: nat, w: World) {
    && Inv(par, w.sys)
    && LoopOk(poll, w.sys, w.loop)
    && SentOk(w) && MissedOk(w)
    && (forall x :: WakeOk(w, x))
  }

  lemma FirstWorldInv(par: Params, poll: nat, start: Start)
    ensures WorldInv(par, poll, FirstWorld(start))
  {
    InitialInv(par, start.clock, start.members);
  }

  /** A finished delivery stays as it is. */
  lemma FinishedStays(par: Params, s: Sys, step: Step, pid: Pid)
    requires Enabled(par, s, step) && FinishedDelivery(s, pid)
    ensures FinishedDelivery(Next(par, s, step), pid) && Next(par, s, step).procs[pid] == s.procs[pid]
  {
  }

  lemma RecordStays(par: Params, s: Sys, pid: Pid, r: RunStep, x: string)
    requires Enabled(par, s, OfRun(pid, r)) && ProcsOk(par, s) && (r.RecordSuccess? || r.RecordFailure?)
    requires s.procs[pid].subject != x
    ensures RowOf(Next(par, s, OfRun(pid, r)).db, x) == RowOf(s.db, x)
  {
  }

  /** Only marking and recording touch a row. */
  lemma RowStays(par: Params, s: Sys, step: Step, x: string)
    requires Enabled(par, s, step) && Inv(par, s) && x !in MarkedBy(s, step) && x !in RecordedBy(s, step)
    ensures RowOf(Next(par, s, step).db, x) == RowOf(s.db, x)
  {
    if step.OfDelivery? && step.delivery.Commit? {
      CommitEffect(par, s, step.pid);
      UpsertLeavesOthers(s.db, s.procs[step.pid].accepted, s.procs[step.pid].at, x);
    } else if step.OfRun? && (step.run.RecordSuccess? || step.run.RecordFailure?) {
      RecordStays(par, s, step.pid, step.run, x);
    } else {
      QuietSteps(par, s, step);
    }
  }

  lemma CommitMarksRow(par: Params, s: Sys, step: Step, x: string)
    requires Enabled(par, s, step) && Inv(par, s) && x in MarkedBy(s, step)
    ensures var s' := Next(par, s, step);
      && FinishedDelivery(s', step.pid) && !FinishedDelivery(s, step.pid)
      && s'.procs[step.pid].at == s.procs[step.pid].at
      && x in s'.db.states && s'.db.states[x].nextRetry == Some(s.procs[step.pid].at)
  {
    var e, at := s.procs[step.pid].accepted, s.procs[step.pid].at;
    CommitEffect(par, s, step.pid);
    UpsertMarksAffected(s.db, e, at, x, at);
  }

  lemma SystemKeepsWake(par: Params, poll: nat, w: World, step: Step, x: string)
    requires Possible(par, w, System(step)) && WorldInv(par, poll, w)
    ensures WakeOk(WorldNext(par, poll, w, System(step)), x)
  {
    var w' := WorldNext(par, poll, w, System(step));
    assert WakeOk(w, x);
    if x in MarkedBy(w.sys, step) {
      CommitMarksRow(par, w.sys, step, x);
    } else if x in w'.waiting {
      FinishedStays(par, w.sys, step, w.waiting[x]);
      RowStays(par, w.sys, step, x);
      assert x in w'.sys.db.states <==> RowOf(w'.sys.db, x).Some?;
    }
  }

  /** A run keeps its subject, and a finished one stays finished. */
  lemma RunStays(par: Params, s: Sys, step: Step, pid: Pid)
    requires Enabled(par, s, step) && IsRun(s, pid)
    ensures RunsSubject(Next(par, s, step), pid, s.procs[pid].subject)
    ensures s.procs[pid].run.Done? ==> Next(par, s, step).procs[pid].run.Done?
  {
    if Actor(step) != Some(pid) {
      OtherProcs(par, s, step, pid);
    }
  }

  lemma SystemKeepsLoop(par: Params, poll: nat, w: World, step: Step)
    requires Possible(par, w, System(step)) && LoopOk(poll, w.sys, w.loop)
    ensures LoopOk(poll, Next(par, w.sys, step), w.loop)
  {
    if w.loop.Cycling? {
      forall i | 0 <= i < |w.loop.runs|
        ensures RunsSubject(Next(par, w.sys, step), w.loop.runs[i], w.loop.subjects[i])
        ensures i < w.loop.next ==> Next(par, w.sys, step).procs[w.loop.runs[i]].run.Done?
      {
        RunStays(par, w.sys, step, w.loop.runs[i]);
      }
    }
  }

  lemma CommitFinishes(par: Params, s: Sys, pid: Pid)
    requires Enabled(par, s, OfDelivery(pid, Commit))
    ensures FinishedDelivery(Next(par, s, OfDelivery(pid, Commit)), pid)
  {
  }

  lemma KeepSent(par: Params, poll: nat, w: World, event: Event)
    requires Possible(par, w, event) && SentOk(w)
    ensures SentOk(WorldNext(par, poll, w, event))
  {
    var w' := WorldNext(par, poll, w, event);
    forall p | p in w'.committed ensures FinishedDelivery(w'.sys, p) {
      if p !in w.committed {
        CommitFinishes(par, w.sys, p);
      } else if event.System? {
        FinishedStays(par, w.sys, event.step, p);
      } else if event.StartNext? {
        FinishedStays(par, w.sys, Launch(event.pid, w.loop.subjects[w.loop.next]), p);
      }
    }
  }

  lemma KeepMissed(par: Params, poll: nat, w: World, event: Event)
    requires Possible(par, w, event) && MissedOk(w)
    ensures MissedOk(WorldNext(par, poll, w, event))
  {
  }

  /** Launching the run of a listed subject is an ordinary protocol step that
      touches no row. */
  lemma StartKeepsWake(par: Params, poll: nat, w: World, pid: Pid, x: string)
    requires Possible(par, w, StartNext(pid)) && WakeOk(w, x)
    ensures WakeOk(WorldNext(par, poll, w, StartNext(pid)), x)
  {
    var step := Launch(pid, w.loop.subjects[w.loop.next]);
    QuietSteps(par, w.sys, step);
    if x in w.waiting {
      FinishedStays(par, w.sys, step, w.waiting[x]);
    }
  }

  lemma StartKeepsLoop(par: Params, poll: nat, w: World, pid: Pid)
    requires Possible(par, w, StartNext(pid)) && LoopOk(poll, w.sys, w.loop)
    ensures LoopOk(poll, SysNext(par, w, StartNext(pid)), LoopNext(poll, w, StartNext(pid)))
  {
    var step := Launch(pid, w.loop.subjects[w.loop.next]);
    forall i | 0 <= i < |w.loop.runs|
      ensures RunsSubject(Next(par, w.sys, step), w.loop.runs[i], w.loop.subjects[i])
      ensures i < w.loop.next ==> Next(par, w.sys, step).procs[w.loop.runs[i]].run.Done?
    {
      RunStays(par, w.sys, step, w.loop.runs[i]);
    }
  }

  /** A subject that a listing leaves out is not due at the listing's time, so
      its mark is later, and that mark's wake is still in the channel. */
  lemma ListKeepsWake(par: Params, poll: nat, w: World, x: string)
    requires Possible(par, w, List) && WorldInv(par, poll, w)
    ensures WakeOk(WorldNext(par, poll, w, List), x)
  {
    assert WakeOk(w, x);
    if x in w.waiting && x !in Listed(w.sys.db, w.loop.all, w.loop.now) {
      DueAreKnown(w.sys.db, w.loop.now);
      assert x !in DueSubjects(w.sys.db, w.loop.now);
      NotDue(w.sys.db, x, w.loop.now);
    }
  }

  /** Marks are made at a time that has come. */
  lemma MarkedBefore(par: Params, w: World, x: string)
    requires ProcsOk(par, w.sys) && WakeOk(w, x) && x in w.waiting
    ensures w.sys.procs[w.waiting[x]].at <= w.sys.clock
  {
    assert ProcOk(par, w.sys, w.waiting[x], w.sys.procs[w.waiting[x]]);
  }

  lemma LoopKeepsWake(par: Params, poll: nat, w: World, event: Event, x: string)
    requires Possible(par, w, event) && ProcsOk(par, w.sys) && WakeOk(w, x) && MissedOk(w)
    requires !event.System? && !event.StartNext? && !event.List?
    ensures WakeOk(WorldNext(par, poll, w, event), x)
  {
    if x in w.waiting {
      MarkedBefore(par, w, x);
    }
  }

  lemma LoopKeepsLoop(par: Params, poll: nat, w: World, event: Event)
    requires Possible(par, w, event) && LoopOk(poll, w.sys, w.loop) && !event.System? && !event.StartNext?
    ensures LoopOk(poll, w.sys, LoopNext(poll, w, event))
  {
    if event.Sleep? {
      KnownBound(w.loop.known, w.loop.asked, w.loop.answer);
    }
  }

  lemma KnownBound(known: set<Time>, asked: Time, answer: Option<Time>)
    requires IsEarliest(known, asked, answer)
    ensures answer.Some? ==> answer.value in known && asked < answer.value
    ensures forall v :: v in known && asked < v ==> answer.Some? && answer.value <= v
  {
    assert forall v :: v in known && asked < v ==> v in After(known, asked);
  }

  lemma KeepLoop(par: Params, poll: nat, w: World, event: Event)
    requires Possible(par, w, event) && LoopOk(poll, w.sys, w.loop)
    ensures LoopOk(poll, SysNext(par, w, event), LoopNext(poll, w, event))
  {
    match event
    case System(step) => SystemKeepsLoop(par, poll, w, step);
    case StartNext(pid) => StartKeepsLoop(par, poll, w, pid);
    case _ => LoopKeepsLoop(par, poll, w, event);
  }

  lemma KeepWake(par: Params, poll: nat, w: World, event: Event, x: string)
    requires Possible(par, w, event) && WorldInv(par, poll, w)
    ensures WakeOk(WorldNext(par, poll, w, event), x)
  {
    assert WakeOk(w, x);
    match event
    case System(step) => SystemKeepsWake(par, poll, w, step, x);
    case StartNext(pid) => StartKeepsWake(par, poll, w, pid, x);
    case List => ListKeepsWake(par, poll, w, x);
    case _ => LoopKeepsWake(par, poll, w, event, x);
  }

  lemma KeepSys(par: Params, w: World, event: Event)
    requires Possible(par, w, event) && Inv(par, w.sys) && ValidConfig(par.cfg)
    ensures Inv(par, SysNext(par, w, event))
  {
    if event.System? {
      KeepInv(par, w.sys, event.step);
    } else if event.StartNext? {
      KeepInv(par, w.sys, Launch(event.pid, w.loop.subjects[w.loop.next]));
    }
  }

  lemma KeepWorldInv(par: Params, poll: nat, w: World, event: Event)
    requires Possible(par, w, event) && WorldInv(par, poll, w) && ValidConfig(par.cfg)
    ensures WorldInv(par, poll, WorldNext(par, poll, w, event))
  {
    KeepSys(par, w, event);
    KeepLoop(par, poll, w, event);
    KeepSent(par, poll, w, event);
    KeepMissed(par, poll, w, event);
    forall x ensures WakeOk(WorldNext(par, poll, w, event), x) { KeepWake(par, poll, w, event, x); }
  }

  lemma {:induction false} WorldInvAlways(par: Params, poll: nat, w: World, events: seq<Event>)
    requires Happens(par, poll, w, events) && WorldInv(par, poll, w) && ValidConfig(par.cfg)
    ensures WorldInv(par, poll, WorldAfter(par, poll, w, events))
    decreases |events|
  {
    if events != [] {
      KeepWorldInv(par, poll, w, events[0]);
      WorldInvAlways(par, poll, WorldNext(par, poll, w, events[0]), events[1..]);
    }
  }

  // ----- the main results

  ghost predicate WorldHistory(par: Params, poll: nat, start: Start, events: seq<Event>) {
    ValidConfig(par.cfg) && Happens(par, poll, FirstWorld(start), events)
  }

  ghost function WorldIn(par: Params, poll: nat, start: Start, events: seq<Event>): World
    requires WorldHistory(par, poll, start, events)
  {
    WorldAfter(par, poll, FirstWorld(start), events)
  }

  lemma WorldHistoryInv(par: Params, poll: nat, start: Start, events: seq<Event>)
    requires WorldHistory(par, poll, start, events)
    ensures WorldInv(par, poll, WorldIn(par, poll, start, events))
  {
    FirstWorldInv(par, poll, start);
    WorldInvAlways(par, poll, FirstWorld(start), events);
  }

  /** A listing that will contain x is certain to come, or the loop is over. */
  ghost predicate WillList(w: World, x: string) {
    || w.token || w.loop.Listing? || w.loop.Stopped?
    || (w.loop.Querying? && x in Listed(w.sys.db, w.loop.all, w.loop.now))
  }

  /** The last accepted intent of x has been persisted and its handler has sent;
      x has been neither listed nor recorded since. */
  ghost predicate Waits(w: World, x: string) {
    x in w.waiting && w.waiting[x] in w.sent
  }

  /** No lost wake-up: for any number of handlers interleaved with the loop, a
      waiting subject will be listed exactly if it is not among the missed. */
  lemma NoLostWakeUp(par: Params, poll: nat, start: Start, events: seq<Event>, x: string)
    requires WorldHistory(par, poll, start, events) && Waits(WorldIn(par, poll, start, events), x)
    ensures WillList(WorldIn(par, poll, start, events), x) <==> x !in WorldIn(par, poll, start, events).missed
  {
    var w := WorldIn(par, poll, start, events);
    WorldHistoryInv(par, poll, start, events);
    assert WakeOk(w, x);
    if w.loop.Querying? {
      DueAreKnown(w.sys.db, w.loop.now);
    }
  }

  /** The event marks or records x, or lists it. */
  ghost predicate Settles(w: World, event: Event, x: string) {
    match event
    case System(step) => x in MarkedBy(w.sys, step) || x in RecordedBy(w.sys, step)
    case List => w.loop.Querying? && x in Listed(w.sys.db, w.loop.all, w.loop.now)
    case _ => false
  }

  /** Nothing wakes the loop and nothing settles x. */
  ghost predicate LeftAlone(par: Params, poll: nat, w: World, events: seq<Event>, x: string)
    requires Happens(par, poll, w, events)
    decreases |events|
  {
    events == [] ||
    (!Wakes(events[0]) && !Settles(w, events[0], x)
     && LeftAlone(par, poll, WorldNext(par, poll, w, events[0]), events[1..], x))
  }

  /** A listing fails that x waited for, with no wake in the channel. */
  ghost predicate FailsFor(w: World, event: Event, x: string) {
    event.ListFails? && w.loop.Querying? && !w.token && x in Overdue(w, w.loop.now)
  }

  /** Somewhere in the events a listing fails for x, and x is left alone since. */
  ghost predicate PassedOver(par: Params, poll: nat, w: World, events: seq<Event>, x: string)
    requires Happens(par, poll, w, events)
    decreases |events|
  {
    events != [] &&
    var rest := WorldNext(par, poll, w, events[0]);
    || (FailsFor(w, events[0], x) && LeftAlone(par, poll, rest, events[1..], x))
    || PassedOver(par, poll, rest, events[1..], x)
  }

  lemma MissedStep(par: Params, poll: nat, w: World, event: Event, x: string)
    ensures x in WorldNext(par, poll, w, event).missed
       <==> FailsFor(w, event, x) || (x in w.missed && !Wakes(event) && !Settles(w, event, x))
  {
  }

  lemma {:induction false} MissedIffPassedOver(par: Params, poll: nat, w: World, events: seq<Event>, x: string)
    requires Happens(par, poll, w, events)
    ensures x in WorldAfter(par, poll, w, events).missed
       <==> PassedOver(par, poll, w, events, x) || (x in w.missed && LeftAlone(par, poll, w, events, x))
    decreases |events|
  {
    if events != [] {
      MissedStep(par, poll, w, events[0], x);
      MissedIffPassedOver(par, poll, WorldNext(par, poll, w, events[0]), events[1..], x);
    }
  }

  /** When exactly a wake-up is lost. After every history, with protocol steps
      anywhere in between, a waiting subject will be listed if and only if no
      listing failed for it, with an empty channel, since which nothing woke the
      loop. */
  lemma WakeSurvivesIffListed(par: Params, poll: nat, start: Start, events: seq<Event>, x: string)
    requires WorldHistory(par, poll, start, events) && Waits(WorldIn(par, poll, start, events), x)
    ensures WillList(WorldIn(par, poll, start, events), x) <==> !PassedOver(par, poll, FirstWorld(start), events, x)
  {
    NoLostWakeUp(par, poll, start, events, x);
    MissedIffPassedOver(par, poll, FirstWorld(start), events, x);
  }

  ghost predicate ListingsSucceed(events: seq<Event>) {
    forall i :: 0 <= i < |events| ==> !events[i].ListFails?
  }

  /** Only a failed listing passes over a subject. */
  lemma {:induction false} NothingMissed(par: Params, poll: nat, w: World, events: seq<Event>)
    requires Happens(par, poll, w, events) && ListingsSucceed(events) && w.missed == {}
    ensures WorldAfter(par, poll, w, events).missed == {}
    decreases |events|
  {
    if events != [] {
      NothingMissed(par, poll, WorldNext(par, poll, w, events[0]), events[1..]);
    }
  }

  /** Even a subject that was passed over stays due, so the next successful
      listing contains it, and the loop never sleeps longer than one poll
      interval before it lists again. */
  lemma NothingForgotten(par: Params, poll: nat, start: Start, events: seq<Event>, x: string)
    requires WorldHistory(par, poll, start, events) && x in WorldIn(par, poll, start, events).waiting
    ensures var w := WorldIn(par, poll, start, events);
      && x in DueSubjects(w.sys.db, w.sys.clock)
      && (w.loop.Sleeping? ==> w.sys.clock <= w.loop.deadline <= w.loop.since + poll)
  {
    var w := WorldIn(par, poll, start, events);
    WorldHistoryInv(par, poll, start, events);
    assert WakeOk(w, x);
    assert ProcOk(par, w.sys, w.waiting[x], w.sys.procs[w.waiting[x]]);
  }

  /** Lateness. While the loop sleeps, no persisted time that lay ahead when the
      wakes were queried has passed since it went to sleep: each is met when it
      arrives. Whatever else is persisted, the loop sleeps at most one poll
      interval. */
  lemma NeverSleepsThrough(par: Params, poll: nat, start: Start, events: seq<Event>)
    requires WorldHistory(par, poll, start, events) && WorldIn(par, poll, start, events).loop.Sleeping?
    ensures var w := WorldIn(par, poll, start, events);
      && w.sys.clock <= w.loop.since + poll
      && forall v :: v in w.loop.known && w.loop.asked < v ==> w.sys.clock <= v || w.sys.clock == w.loop.since
  {
    WorldHistoryInv(par, poll, start, events);
  }

  ghost predicate Persisted(db: Tables, x: string, when: Time) {
    x in db.states && (db.states[x].nextTransition == Some(when) || db.states[x].nextRetry == Some(when))
  }

  /** The wake query sees every persisted time. */
  lemma AskSeesAll(poll: nat, w: World, x: string, when: Time)
    requires Persisted(w.sys.db, x, when)
    ensures when in LoopNext(poll, w, Ask).known
  {
  }

  /** How long the loop sleeps: to the end of the poll interval or, if a time that
      lay ahead at the wake query comes first, exactly to that, or not at all if
      it has come meanwhile. */
  lemma SleepsUntilWake(par: Params, poll: nat, start: Start, events: seq<Event>)
    requires WorldHistory(par, poll, start, events) && WorldIn(par, poll, start, events).loop.Sleeping?
    ensures var loop := WorldIn(par, poll, start, events).loop;
      && loop.deadline <= loop.since + poll
      && (forall v :: v in loop.known && loop.asked < v ==> loop.deadline <= Max(v, loop.since))
      && (loop.deadline < loop.since + poll ==>
            exists v :: v in loop.known && loop.asked < v && loop.deadline == Max(v, loop.since))
  {
    WorldHistoryInv(par, poll, start, events);
  }

  /** A cycle that ends has run every subject it listed, in order, each to its
      end. */
  lemma CycleRunsAll(par: Params, poll: nat, start: Start, events: seq<Event>)
    requires WorldHistory(par, poll, start, events) && Possible(par, WorldIn(par, poll, start, events), EndCycle)
    ensures var w := WorldIn(par, poll, start, events);
      && |w.loop.runs| == |w.loop.subjects|
      && forall i :: 0 <= i < |w.loop.runs| ==>
           RunsSubject(w.sys, w.loop.runs[i], w.loop.subjects[i]) && w.sys.procs[w.loop.runs[i]].run.Done?
  {
    WorldHistoryInv(par, poll, start, events);
  }

  /** None of the events reads the subjects, or fails to. */
  ghost predicate NoListing(events: seq<Event>) {
    forall i :: 0 <= i < |events| ==> !events[i].List? && !events[i].ListFails?
  }

  /** A loop that wakes lists before it sleeps again: without a listing it either
      still sleeps the same sleep or is about to list. */
  lemma {:induction false} WakesToList(par: Params, poll: nat, w: World, events: seq<Event>)
    requires Happens(par, poll, w, events) && NoListing(events)
    requires w.loop.Sleeping? || w.loop.Listing? || w.loop.Querying? || w.loop.Stopped?
    ensures var loop := WorldAfter(par, poll, w, events).loop;
      (loop.Sleeping? ==> loop == w.loop) && (loop.Sleeping? || loop.Listing? || loop.Querying? || loop.Stopped?)
    decreases |events|
  {
    if events != [] {
      WakesToList(par, poll, WorldNext(par, poll, w, events[0]), events[1..]);
    }
  }

  // ----- whom the listings contain

  ghost predicate ListsAll(loop: LoopAt) {
    (loop.Listing? || loop.Querying?) && loop.all
  }

  lemma {:induction false} FirstListsAll(par: Params, poll: nat, w: World, events: seq<Event>)
    requires Happens(par, poll, w, events) && NoListing(events) && (ListsAll(w.loop) || w.loop.Stopped?)
    ensures var loop := WorldAfter(par, poll, w, events).loop; ListsAll(loop) || loop.Stopped?
    decreases |events|
  {
    if events != [] {
      FirstListsAll(par, poll, WorldNext(par, poll, w, events[0]), events[1..]);
    }
  }

  lemma {:induction false} NeverListsAllAgain(par: Params, poll: nat, w: World, events: seq<Event>)
    requires Happens(par, poll, w, events) && !ListsAll(w.loop)
    ensures !ListsAll(WorldAfter(par, poll, w, events).loop)
    decreases |events|
  {
    if events != [] {
      NeverListsAllAgain(par, poll, WorldNext(par, poll, w, events[0]), events[1..]);
    }
  }

  lemma {:induction false} LaterListsDue(par: Params, poll: nat, w: World, events: seq<Event>)
    requires Happens(par, poll, w, events) && !NoListing(events)
    ensures !ListsAll(WorldAfter(par, poll, w, events).loop)
    decreases |events|
  {
    var w' := WorldNext(par, poll, w, events[0]);
    if events[0].List? || events[0].ListFails? {
      NeverListsAllAgain(par, poll, w', events[1..]);
    } else {
      assert !NoListing(events[1..]) by {
        var i :| 0 <= i < |events| && (events[i].List? || events[i].ListFails?);
        assert events[1..][i - 1] == events[i];
      }
      LaterListsDue(par, poll, w', events[1..]);
    }
  }

  /** The first listing contains every subject that has an intent, whatever its
      row says, and besides them exactly those whose row waits for something. */
  lemma FirstListingIsComplete(par: Params, poll: nat, start: Start, events: seq<Event>, x: string)
    requires WorldHistory(par, poll, start, events) && Possible(par, WorldIn(par, poll, start, events), List)
    requires NoListing(events)
    ensures var w := WorldIn(par, poll, start, events);
      x in LoopNext(poll, w, List).subjects <==>
        || (exists k :: k in w.sys.db.intents && w.sys.db.intents[k].intent.subject == x)
        || (exists when :: Persisted(w.sys.db, x, when))
  {
    var w := WorldIn(par, poll, start, events);
    FirstListsAll(par, poll, FirstWorld(start), events);
    KnownExactly(w.sys.db, x);
    ListedInCycle(poll, w, x);
    PersistedMeans(w.sys.db, x);
  }

  lemma PersistedMeans(db: Tables, x: string)
    ensures (exists when :: Persisted(db, x, when)) <==>
      x in db.states && (db.states[x].nextTransition != None || db.states[x].nextRetry != None)
  {
    if x in db.states && db.states[x].nextTransition.Some? { assert Persisted(db, x, db.states[x].nextTransition.value); }
    if x in db.states && db.states[x].nextRetry.Some? { assert Persisted(db, x, db.states[x].nextRetry.value); }
  }

  lemma ListedInCycle(poll: nat, w: World, x: string)
    requires w.loop.Querying?
    ensures var next := LoopNext(poll, w, List);
      next.Cycling? && (x in next.subjects <==> x in Listed(w.sys.db, w.loop.all, w.loop.now))
  {
    assert x in SortedElements(Listed(w.sys.db, w.loop.all, w.loop.now))
      <==> x in Elements(SortedElements(Listed(w.sys.db, w.loop.all, w.loop.now)));
  }

  /** Every later listing, also after a failed first one, contains exactly the
      subjects that are due at its time. */
  lemma LaterListingsAreDue(par: Params, poll: nat, start: Start, events: seq<Event>, x: string)
    requires WorldHistory(par, poll, start, events) && Possible(par, WorldIn(par, poll, start, events), List)
    requires !NoListing(events)
    ensures var w := WorldIn(par, poll, start, events);
      x in LoopNext(poll, w, List).subjects <==> x in DueSubjects(w.sys.db, w.loop.now)
  {
    LaterListsDue(par, poll, FirstWorld(start), events);
    ListedInCycle(poll, WorldIn(par, poll, start, events), x);
  }

  /** The first listing that succeeds contains every subject with an intent if and
      only if no listing failed before it or all of them are due anyway: a failed
      start is not made up for. */
  lemma FirstSuccessIsCompleteIff(par: Params, poll: nat, start: Start, events: seq<Event>)
    requires WorldHistory(par, poll, start, events) && Possible(par, WorldIn(par, poll, start, events), List)
    requires forall i :: 0 <= i < |events| ==> !events[i].List?
    ensures var w := WorldIn(par, poll, start, events);
      SubjectsWithIntents(w.sys.db) <= Elements(LoopNext(poll, w, List).subjects) <==>
        ListingsSucceed(events) || SubjectsWithIntents(w.sys.db) <= DueSubjects(w.sys.db, w.loop.now)
  {
    var w := WorldIn(par, poll, start, events);
    var subjects := LoopNext(poll, w, List).subjects;
    forall x | x in SubjectsWithIntents(w.sys.db)
      ensures x in subjects <==> ListingsSucceed(events) || x in DueSubjects(w.sys.db, w.loop.now)
    {
      if NoListing(events) {
        FirstListingIsComplete(par, poll, start, events, x);
      } else {
        LaterListingsAreDue(par, poll, start, events, x);
      }
    }
    assert forall x :: x in subjects <==> x in Elements(subjects);
  }

  lemma {:induction false} StoppedForGood(par: Params, poll: nat, w: World, events: seq<Event>)
    requires Happens(par, poll, w, events) && w.loop.Stopped?
    ensures WorldAfter(par, poll, w, events).loop.Stopped?
    decreases |events|
  {
    if events != [] {
      StoppedForGood(par, poll, WorldNext(par, poll, w, events[0]), events[1..]);
    }
  }

  lemma FrontHappens(par: Params, poll: nat, w: World, events: seq<Event>, k: nat)
    requires 0 < k <= |events| && Possible(par, w, events[0])
    requires var w' := WorldNext(par, poll, w, events[0]); Happens(par, poll, w', events[1..][..k - 1])
    ensures Happens(par, poll, w, events[..k])
    ensures WorldAfter(par, poll, w, events[..k])
         == WorldAfter(par, poll, WorldNext(par, poll, w, events[0]), events[1..][..k - 1])
  {
    assert events[..k][0] == events[0] && events[..k][1..] == events[1..][..k - 1];
  }

  /** The event that ends a sleep, if the loop goes on to query. */
  lemma {:induction false} SleepEnds(par: Params, poll: nat, w: World, events: seq<Event>) returns (wake: nat)
    requires Happens(par, poll, w, events) && WorldInv(par, poll, w) && ValidConfig(par.cfg) && NoListing(events)
    requires w.loop.Sleeping? && WorldAfter(par, poll, w, events).loop.Querying?
    ensures wake < |events| && (events[wake].TakeToken? || events[wake].Fire?)
    ensures Happens(par, poll, w, events[..wake])
    ensures var woken := WorldAfter(par, poll, w, events[..wake]);
      woken.loop == w.loop && LoopOk(poll, woken.sys, woken.loop)
    decreases |events|
  {
    var w' := WorldNext(par, poll, w, events[0]);
    if events[0].TakeToken? || events[0].Fire? {
      wake := 0;
      assert events[..0] == [];
    } else {
      if events[0].Stop? {
        StoppedForGood(par, poll, w', events[1..]);
      }
      KeepWorldInv(par, poll, w, events[0]);
      wake := SleepEnds(par, poll, w', events[1..]);
      FrontHappens(par, poll, w, events, wake + 1);
      wake := wake + 1;
    }
  }

  lemma ArrivedIsDue(db: Tables, all: bool, now: Time, x: string, when: Time)
    requires when <= now && Persisted(db, x, when)
    ensures x in Listed(db, all, now)
  {
    DueAreKnown(db, now);
  }

  /** When a persisted time has arrived a listing contains its subject. */
  lemma ArrivedIsListed(poll: nat, w: World, x: string, when: Time)
    requires w.loop.Querying? && when <= w.loop.now && Persisted(w.sys.db, x, when)
    ensures var next := LoopNext(poll, w, List); next.Cycling? && x in next.subjects
  {
    ArrivedIsDue(w.sys.db, w.loop.all, w.loop.now, x, when);
    assert x in Elements(SortedElements(Listed(w.sys.db, w.loop.all, w.loop.now)));
  }

  /** The given event ends the sleep of w, in time: no later than one poll interval
      after the loop went to sleep and, for a time that lay ahead at the wake
      query, no later than that time or the moment the loop went to sleep. */
  ghost predicate EndsSleepInTime(par: Params, poll: nat, w: World, events: seq<Event>, wake: nat, when: Time)
    requires w.loop.Sleeping?
  {
    && wake < |events| && (events[wake].TakeToken? || events[wake].Fire?)
    && Happens(par, poll, w, events[..wake])
    && var began := WorldAfter(par, poll, w, events[..wake]).sys.clock;
       && began <= w.loop.since + poll
       && (when in w.loop.known && w.loop.asked < when ==> began <= when || began == w.loop.since)
  }

  lemma SleepEndsInTime(par: Params, poll: nat, w: World, events: seq<Event>, when: Time) returns (wake: nat)
    requires Happens(par, poll, w, events) && WorldInv(par, poll, w) && ValidConfig(par.cfg) && NoListing(events)
    requires w.loop.Sleeping? && WorldAfter(par, poll, w, events).loop.Querying?
    ensures EndsSleepInTime(par, poll, w, events, wake, when)
  {
    wake := SleepEnds(par, poll, w, events);
  }

  /** Lateness, from end to end. A time that is still persisted when the loop next
      reads the subjects after a sleep, and that has arrived by then, is listed,
      and the cycle that lists it began in time. */
  lemma MetOnTime(par: Params, poll: nat, start: Start, before: seq<Event>, events: seq<Event>, x: string, when: Time)
    returns (wake: nat)
    requires WorldHistory(par, poll, start, before) && WorldIn(par, poll, start, before).loop.Sleeping?
    requires Happens(par, poll, WorldIn(par, poll, start, before), events) && NoListing(events)
    requires var w' := WorldAfter(par, poll, WorldIn(par, poll, start, before), events);
      w'.loop.Querying? && when <= w'.loop.now && Persisted(w'.sys.db, x, when)
    ensures EndsSleepInTime(par, poll, WorldIn(par, poll, start, before), events, wake, when)
    ensures var next := LoopNext(poll, WorldAfter(par, poll, WorldIn(par, poll, start, before), events), List);
      next.Cycling? && x in next.subjects
  {
    WorldHistoryInv(par, poll, start, before);
    wake := SleepEndsInTime(par, poll, WorldIn(par, poll, start, before), events, when);
    ArrivedIsListed(poll, WorldAfter(par, poll, WorldIn(par, poll, start, before), events), x, when);
  }

  /** The joined system runs the protocol: whatever holds after every history of
      the protocol holds in every reachable world. */
  lemma {:induction false} WorldRunsTheProtocol(par: Params, poll: nat, w: World, events: seq<Event>) returns (steps: seq<Step>)
    requires Happens(par, poll, w, events)
    ensures Executable(par, w.sys, steps) && Final(par, w.sys, steps) == WorldAfter(par, poll, w, events).sys
    decreases |events|
  {
    if events == [] {
      steps := [];
    } else {
      var event := events[0];
      var rest := WorldRunsTheProtocol(par, poll, WorldNext(par, poll, w, event), events[1..]);
      steps := rest;
      if event.System? || event.StartNext? {
        var step := if event.System? then event.step else Launch(event.pid, w.loop.subjects[w.loop.next]);
        steps := [step] + rest;
        assert steps[0] == step && steps[1..] == rest;
      }
    }
  }
}
