/** Lock keys that collide: which collisions deadlock deliveries, for every hash
    function. */
module Deadlock {
  import opened Common
  import opened Ordering
  import opened Intents
  import opened Timeline
  import opened Policy
  import opened Store
  import opened Protocol
  import opened Coherence
  import opened Progress
  import opened Scenarios

  /** The identity of each intent has the key of the other's subject. */
  ghost predicate Crossing(par: Params, e: Intent, f: Intent) {
    && par.lockKey(IdentityLock(e.Identity())) == par.lockKey(SubjectLock(f.subject))
    && par.lockKey(IdentityLock(f.Identity())) == par.lockKey(SubjectLock(e.subject))
    && par.lockKey(IdentityLock(e.Identity())) != par.lockKey(IdentityLock(f.Identity()))
  }

  /** Two deliveries at the same point of their way. */
  ghost function Both(clock: Time, e: Intent, at: DeliveryAt, f: Intent, also: DeliveryAt): Sys {
    At(At(Initial(clock, map[]), 0, Delivery(e, clock, at)), 1, Delivery(f, clock, also))
  }

  lemma FirstLeavesRoom(par: Params, clock: Time, e: Intent, f: Intent)
    requires par.poolSize >= 2 && Crossing(par, e, f)
    ensures Clear(par, Initial(clock, map[]), 0, IdentityLock(e.Identity()))
    ensures Clear(par, At(Initial(clock, map[]), 0, Delivery(e, clock, Identified)), 1, IdentityLock(f.Identity()))
  {
    var s := At(Initial(clock, map[]), 0, Delivery(e, clock, Identified));
    assert UsedConnections(Initial(clock, map[])) == {};
    assert UsedConnections(s) - {1} <= {0};
    SubsetAtMost(UsedConnections(s) - {1}, {0});
    assert Holds(s.procs[0]) == {IdentityLock(e.Identity())};
  }

  lemma BothIdentified(par: Params, clock: Time, e: Intent, f: Intent) returns (steps: seq<Step>)
    requires par.poolSize >= 2 && Crossing(par, e, f) && Valid(e) && Valid(f)
    ensures Leads(par, Initial(clock, map[]), steps, Both(clock, e, Identified, f, Identified))
  {
    var s0 := Initial(clock, map[]);
    FirstLeavesRoom(par, clock, e, f);
    steps := DeliverToIdentity(par, s0, 0, e);
    var s1 := At(s0, 0, Delivery(e, clock, Identified));
    var more := DeliverToIdentity(par, s1, 1, f);
    Join(par, s0, steps, s1, more, Both(clock, e, Identified, f, Identified));
    steps := steps + more;
  }

  lemma Reads(par: Params, s: Sys, pid: Pid, e: Intent) returns (steps: seq<Step>)
    requires PreviousSubject(s.db, e.Identity()).None?
    ensures Leads(par, At(s, pid, Delivery(e, s.clock, Identified)), steps,
                  At(s, pid, Delivery(e, s.clock, Locking(None, [e.subject], 0))))
  {
    OnlyElement(SortedElements(Affected(None, e.subject)), e.subject);
    var s0 := At(s, pid, Delivery(e, s.clock, Identified));
    assert Leads(par, s0, [], s0);
    steps := DeliveryMoves(par, s, [], pid, e, Identified, ReadPrevious, s0);
  }

  lemma Swap(s: Sys, p: Proc, q: Proc)
    ensures At(At(s, 0, p), 1, q) == At(At(s, 1, q), 0, p)
  {
  }

  /** Each waits for its subject's lock. */
  ghost function Stuck(clock: Time, e: Intent, f: Intent): Sys {
    Both(clock, e, Locking(None, [e.subject], 0), f, Locking(None, [f.subject], 0))
  }

  lemma BothWait(par: Params, clock: Time, e: Intent, f: Intent) returns (steps: seq<Step>)
    ensures Leads(par, Both(clock, e, Identified, f, Identified), steps, Stuck(clock, e, f))
  {
    var s, waits := Initial(clock, map[]), Delivery(f, clock, Locking(None, [f.subject], 0));
    var s1 := At(At(s, 0, Delivery(e, clock, Identified)), 1, waits);
    steps := Reads(par, At(s, 0, Delivery(e, clock, Identified)), 1, f);
    Swap(s, Delivery(e, clock, Identified), waits);
    Swap(s, Delivery(e, clock, Locking(None, [e.subject], 0)), waits);
    var more := Reads(par, At(s, 1, waits), 0, e);
    Join(par, Both(clock, e, Identified, f, Identified), steps, s1, more, Stuck(clock, e, f));
    steps := steps + more;
  }

  lemma NeitherIsFree(par: Params, clock: Time, e: Intent, f: Intent)
    requires Crossing(par, e, f)
    ensures !Free(par, Stuck(clock, e, f), 0, SubjectLock(e.subject))
    ensures !Free(par, Stuck(clock, e, f), 1, SubjectLock(f.subject))
  {
    var s := Stuck(clock, e, f);
    assert IdentityLock(e.Identity()) in Holds(s.procs[0]) && IdentityLock(f.Identity()) in Holds(s.procs[1]);
  }

  lemma NobodySteps(par: Params, clock: Time, e: Intent, f: Intent, step: Step)
    requires Crossing(par, e, f)
    ensures !CanStep(par, Stuck(clock, e, f), step)
  {
    NeitherIsFree(par, clock, e, f);
    assert Stuck(clock, e, f).procs.Keys == {0, 1};
  }

  /** For every hash function and every pool of at least two connections: two
      valid intents whose identities have the keys of each other's subjects can
      be delivered so that both deliveries wait for ever, unless one is given
      up. Only aborts are left; PostgreSQL ends such a wait with an error. */
  lemma CrossingKeysDeadlock(par: Params, clock: Time, e: Intent, f: Intent) returns (steps: seq<Step>)
    requires ValidConfig(par.cfg) && par.poolSize >= 2 && Valid(e) && Valid(f) && Crossing(par, e, f)
    ensures IsHistory(par, Start(clock, map[]), steps) && Smooth(steps)
    ensures var s := StateAfter(par, Start(clock, map[]), steps);
      && !AllFinished(s) && (forall step :: !CanStep(par, s, step))
      && Enabled(par, s, OfDelivery(0, Abort)) && Enabled(par, s, OfDelivery(1, Abort))
  {
    steps := BothIdentified(par, clock, e, f);
    var more := BothWait(par, clock, e, f);
    Join(par, Initial(clock, map[]), steps, Both(clock, e, Identified, f, Identified), more, Stuck(clock, e, f));
    steps := steps + more;
    forall step ensures !CanStep(par, Stuck(clock, e, f), step) { NobodySteps(par, clock, e, f, step); }
    assert Unfinished(Stuck(clock, e, f).procs[0]);
  }

  /** Such keys exist: a hash function that crosses two intents. */
  lemma CrossingExists() returns (key: LockName -> int, e: Intent, f: Intent)
    ensures Valid(e) && Valid(f)
    ensures forall par: Params :: par.lockKey == key ==> Crossing(par, e, f)
  {
    e, f := Intent("desk", "1", "ann", 1, 10, false), Intent("desk", "2", "bob", 1, 10, false);
    key := (n: LockName) =>
      match n
      case IdentityLock(k) => if k.id == "1" then 1 else 2
      case SubjectLock(x) => if x == "ann" then 2 else 1;
    assert "1"[0] != "2"[0] && "ann"[0] != "bob"[0];
  }
}
