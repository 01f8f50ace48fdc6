/** Deadlock freedom, and that pending work always finishes. */
module Progress {
  import opened Common
  import opened Ordering
  import opened Intents
  import Timeline
  import opened Policy
  import opened Aliases
  import opened Store
  import opened Convergence
  import opened Protocol
  import opened ProtocolInvariant

  /** A step that takes its process towards its end. Failures and cancellations
      are not; a run whose session died has nothing left but to quit. */
  ghost predicate Forward(s: Sys, step: Step) {
    match step
    case OfDelivery(_, d) => !d.Abort?
    case OfRun(pid, r) =>
      if r.Quit? then IsRun(s, pid) && !s.procs[pid].live
      else !r.ReadIntentsFails? && !r.ResolveFails? && !r.WriteFails? && !r.LoseConnection?
    case _ => false
  }

  ghost predicate CanStep(par: Params, s: Sys, step: Step) {
    Enabled(par, s, step) && Forward(s, step)
  }

  /** No two names that some process holds or waits for share a key. */
  ghost predicate KeysDistinct(par: Params, s: Sys) {
    forall p, q, m, n ::
      (p in s.procs && q in s.procs && InPlay(s.procs[p], m) && InPlay(s.procs[q], n) && par.lockKey(m) == par.lockKey(n) ==>
        m == n)
  }

  ghost predicate InPlay(p: Proc, n: LockName) {
    n in Holds(p) || Wants(p) == Some(n)
  }

  /** The order in which every process takes its locks: its identity lock, then
      subject locks by name. */
  ghost predicate Precedes(m: LockName, n: LockName) {
    n.SubjectLock? && (m.SubjectLock? ==> StrLe(m.subject, n.subject) && m != n)
  }

  lemma PrecedesTransitive(a: LockName, b: LockName, c: LockName)
    requires Precedes(a, b) && Precedes(b, c)
    ensures Precedes(a, c) && a != c
  {
    if a.SubjectLock? {
      StrLeTransitive(a.subject, b.subject, c.subject);
      if a == c {
        StrLeAntisymmetric(a.subject, b.subject);
      }
    }
  }

  /** Whatever a process holds comes before what it waits for. */
  lemma HeldPrecedesWanted(par: Params, s: Sys, pid: Pid, p: Proc, n: LockName)
    requires ProcOk(par, s, pid, p) && Wants(p).Some? && n in Holds(p)
    ensures Precedes(n, Wants(p).value)
  {
    if p.Delivery? && n.SubjectLock? {
      var names, taken := p.delivery.names, p.delivery.taken;
      var i :| 0 <= i < taken && i < |names| && n == SubjectLock(names[i]);
      assert StrLe(names[i], names[taken]) && names[i] != names[taken];
    }
  }

  /** A process with a connection that waits for no lock can step. */
  lemma UnblockedSteps(par: Params, s: Sys, pid: Pid) returns (step: Step)
    requires pid in s.procs && HasConnection(s.procs[pid]) && Wants(s.procs[pid]).None?
    requires ProcOk(par, s, pid, s.procs[pid])
    ensures CanStep(par, s, step)
  {
    match s.procs[pid]
    case Delivery(_, _, at) =>
      step := OfDelivery(pid, if at.Identified? then ReadPrevious else Commit);
    case Run(x, live, at) =>
      NextRunStepEnabled(par, s, pid, x, live, at);
      step := OfRun(pid, NextRunStep(par, s, x, live, at));
  }

  lemma NextRunStepEnabled(par: Params, s: Sys, pid: Pid, x: string, live: bool, at: RunAt)
    requires HasConnection(Run(x, live, at)) && Wants(Run(x, live, at)).None?
    ensures var r := NextRunStep(par, s, x, live, at);
      && RunEnabled(par, s, pid, x, live, at, r)
      && !r.ReadIntentsFails? && !r.ResolveFails? && !r.WriteFails? && !r.LoseConnection? && (r.Quit? ==> !live)
  {
  }

  ghost function NextRunStep(par: Params, s: Sys, x: string, live: bool, at: RunAt): RunStep {
    if at.Closing? then Close
    else if !live then Quit
    else match at
      case Locked => Begin
      case Begun(_) => ReadState
      case Stated(_, _) => ReadIntents
      case Listed(_, _, _) => StartResolve
      case Resolving(_, _, _) =>
        var view := Members(s, par.userOf(x));
        RunStep.Resolve(User(true, par.userOf(x), "", "", "", SortedElements(AliasesIn(par.cfg.groups, view))), view)
      case Applying(_, _, _, _, ops) => if ops == [] then RecordSuccess else Write
      case _ => RecordFailure("")
  }

  /** The processes that wait for a lock later than n. */
  ghost function WaitingBeyond(s: Sys, n: LockName): set<Pid> {
    set p | p in s.procs && Wants(s.procs[p]).Some? && Precedes(n, Wants(s.procs[p]).value)
  }

  /** Following a waiting process to the holder of its lock, and on, ends with
      one that can step: each holder waits for a later lock than the last. */
  lemma {:induction false} ChainSteps(par: Params, s: Sys, pid: Pid) returns (step: Step)
    requires ProcsOk(par, s) && KeysDistinct(par, s)
    requires pid in s.procs && HasConnection(s.procs[pid])
    ensures CanStep(par, s, step)
    decreases if Wants(s.procs[pid]).None? then 0 else 1 + |WaitingBeyond(s, Wants(s.procs[pid]).value)|
  {
    var p := s.procs[pid];
    assert ProcOk(par, s, pid, p);
    if Wants(p).None? {
      step := UnblockedSteps(par, s, pid);
    } else if Free(par, s, pid, Wants(p).value) {
      step := TakeLock(par, s, pid);
    } else {
      var n := Wants(p).value;
      var q, held :| q in s.procs && q != pid && held in Holds(s.procs[q]) && par.lockKey(held) == par.lockKey(n);
      assert InPlay(s.procs[q], held) && InPlay(p, n);
      assert held == n;
      if Wants(s.procs[q]).Some? {
        assert ProcOk(par, s, q, s.procs[q]);
        HeldPrecedesWanted(par, s, q, s.procs[q], n);
        FewerBeyond(s, q, n);
      }
      step := ChainSteps(par, s, q);
    }
  }

  lemma TakeLock(par: Params, s: Sys, pid: Pid) returns (step: Step)
    requires pid in s.procs && Wants(s.procs[pid]).Some? && Free(par, s, pid, Wants(s.procs[pid]).value)
    ensures CanStep(par, s, step)
  {
    match s.procs[pid]
    case Delivery(_, _, at) => step := OfDelivery(pid, if at.Connected? then LockIdentity else LockNextSubject);
    case Run(_, _, _) => step := OfRun(pid, RunStep.LockSubject);
  }

  lemma FewerBeyond(s: Sys, q: Pid, n: LockName)
    requires q in s.procs && Wants(s.procs[q]).Some? && Precedes(n, Wants(s.procs[q]).value)
    ensures |WaitingBeyond(s, Wants(s.procs[q]).value)| < |WaitingBeyond(s, n)|
  {
    var m := Wants(s.procs[q]).value;
    forall p | p in WaitingBeyond(s, m) ensures p in WaitingBeyond(s, n) && p != q {
      PrecedesTransitive(n, m, Wants(s.procs[p]).value);
    }
    Timeline.SubsetAtMost(WaitingBeyond(s, m), WaitingBeyond(s, n) - {q});
  }

  lemma WaitingForConnection(par: Params, s: Sys, waiting: Pid) returns (step: Step)
    requires UsedConnections(s) == {} && par.poolSize >= 1
    requires waiting in s.procs && Unfinished(s.procs[waiting])
    ensures CanStep(par, s, step)
  {
    assert waiting !in UsedConnections(s);
    match s.procs[waiting]
    case Delivery(_, _, _) => step := OfDelivery(waiting, Connect);
    case Run(_, _, _) => step := OfRun(waiting, Acquire);
  }

  /** Deadlock freedom: with a pool of at least one connection and distinct keys
      for the names in play, some unfinished process can always step, without
      any failure or cancellation. */
  lemma SomeoneCanStep(par: Params, s: Sys, waiting: Pid) returns (step: Step)
    requires Inv(par, s) && KeysDistinct(par, s) && par.poolSize >= 1
    requires waiting in s.procs && Unfinished(s.procs[waiting])
    ensures CanStep(par, s, step)
  {
    if UsedConnections(s) != {} {
      var pid := Timeline.Member(UsedConnections(s));
      step := ChainSteps(par, s, pid);
    } else {
      step := WaitingForConnection(par, s, waiting);
    }
  }

  lemma HoldersAreConnected(p: Proc)
    requires Holds(p) != {}
    ensures HasConnection(p)
  {
  }

  /** With a single connection no hash function can block anyone: whoever has the
      connection holds the only locks there are. */
  lemma OneConnectionNeverBlocks(par: Params, s: Sys, waiting: Pid) returns (step: Step)
    requires Inv(par, s) && par.poolSize == 1
    requires waiting in s.procs && Unfinished(s.procs[waiting])
    ensures CanStep(par, s, step)
  {
    if UsedConnections(s) == {} {
      step := WaitingForConnection(par, s, waiting);
    } else {
      var pid := Timeline.Member(UsedConnections(s));
      forall q | q in s.procs && q != pid ensures Holds(s.procs[q]) == {} {
        if Holds(s.procs[q]) != {} {
          HoldersAreConnected(s.procs[q]);
          Timeline.SubsetAtMost({pid, q}, UsedConnections(s));
        }
      }
      assert ProcOk(par, s, pid, s.procs[pid]);
      if Wants(s.procs[pid]).None? {
        step := UnblockedSteps(par, s, pid);
      } else {
        step := TakeLock(par, s, pid);
      }
    }
  }

  // ----- pending work finishes

  /** How far a process is from its end, writes aside. */
  ghost function StagesLeft(p: Proc): nat {
    match p
    case Delivery(_, _, at) => (
      match at
      case Queued => 6
      case Connected => 5
      case Identified => 4
      case Locking(_, names, taken) => if taken <= |names| then 1 + |names| - taken else 1
      case Finished => 0)
    case Run(_, _, at) =>
      match at
      case Waiting => 9
      case Opening => 8
      case Locked => 7
      case Begun(_) => 6
      case Stated(_, _) => 5
      case Listed(_, _, _) => 4
      case Resolving(_, _, _) => 3
      case Applying(_, _, _, _, _) => 2
      case Failing(_, _, _) => 2
      case Closing => 1
      case Done => 0
  }

  ghost function WritesLeft(p: Proc): nat {
    if p.Run? && p.run.Applying? then |p.run.ops| else 0
  }

  ghost function Sum(procs: map<Pid, Proc>, f: Proc -> nat): nat
    decreases |procs|
  {
    if procs == map[] then 0 else
    var p :| p in procs;
    f(procs[p]) + Sum(procs - {p}, f)
  }

  lemma {:induction false} SumAt(procs: map<Pid, Proc>, f: Proc -> nat, pid: Pid)
    requires pid in procs
    ensures Sum(procs, f) == f(procs[pid]) + Sum(procs - {pid}, f)
    decreases |procs|
  {
    var p :| p in procs && Sum(procs, f) == f(procs[p]) + Sum(procs - {p}, f);
    if p != pid {
      SumAt(procs - {p}, f, pid);
      SumAt(procs - {pid}, f, p);
      assert procs - {p} - {pid} == procs - {pid} - {p};
    }
  }

  lemma SumAfter(procs: map<Pid, Proc>, f: Proc -> nat, pid: Pid, p: Proc)
    requires pid in procs
    ensures Sum(procs[pid := p], f) == Sum(procs, f) - f(procs[pid]) + f(p)
  {
    SumAt(procs, f, pid);
    SumAt(procs[pid := p], f, pid);
    assert procs[pid := p] - {pid} == procs - {pid};
  }

  /** All the work that is left: stages, then writes. */
  ghost function Stages(s: Sys): nat { Sum(s.procs, StagesLeft) }

  ghost function Writes(s: Sys): nat { Sum(s.procs, WritesLeft) }

  ghost predicate Shrinks(before: Proc, after: Proc) {
    || StagesLeft(after) < StagesLeft(before)
    || (StagesLeft(after) == StagesLeft(before) && WritesLeft(after) < WritesLeft(before))
  }

  lemma AtMostTwo(previous: Option<string>, subject: string)
    ensures |SortedElements(Affected(previous, subject))| <= 2
  {
    ListSize(SortedElements(Affected(previous, subject)));
  }

  lemma DeliveryShrinks(par: Params, s: Sys, pid: Pid, e: Intent, at: Time, d: DeliveryAt, step: DeliveryStep)
    requires DeliveryEnabled(par, s, pid, e, d, step) && !step.Abort? && DeliveryOk(s, e, at, d)
    ensures Shrinks(Delivery(e, at, d), Delivery(e, at, DeliveryNext(s.db, e, d, step)))
  {
    if step.ReadPrevious? {
      AtMostTwo(PreviousSubject(s.db, e.Identity()), e.subject);
    }
  }

  lemma RunShrinks(par: Params, s: Sys, pid: Pid, x: string, live: bool, at: RunAt, r: RunStep)
    requires RunEnabled(par, s, pid, x, live, at, r) && (r.Quit? ==> !live)
    requires !r.ReadIntentsFails? && !r.ResolveFails? && !r.WriteFails? && !r.LoseConnection?
    ensures Shrinks(Run(x, live, at), Run(x, live, RunNext(par, s, x, at, r)))
  {
    match r
    case Resolve(profile, view) => ResolveShrinks(par, s, x, live, at, profile, view);
    case _ => StepShrinks(par, s, pid, x, live, at, r);
  }

  lemma ResolveShrinks(par: Params, s: Sys, x: string, live: bool, at: RunAt, profile: User, view: set<string>)
    requires at.Resolving?
    ensures Shrinks(Run(x, live, at), Run(x, live, RunNext(par, s, x, at, RunStep.Resolve(profile, view))))
  {
    assert RunNext(par, s, x, at, RunStep.Resolve(profile, view)) == Resolved(par, at, profile, view);
  }

  lemma StepShrinks(par: Params, s: Sys, pid: Pid, x: string, live: bool, at: RunAt, r: RunStep)
    requires RunEnabled(par, s, pid, x, live, at, r) && (r.Quit? ==> !live) && !r.Resolve?
    requires !r.ReadIntentsFails? && !r.ResolveFails? && !r.WriteFails? && !r.LoseConnection?
    ensures Shrinks(Run(x, live, at), Run(x, live, RunNext(par, s, x, at, r)))
  {
  }

  /** Every forward step leaves less to do, so forward steps alone cannot go on
      for ever, in whatever order they are taken. */
  lemma ForwardShrinks(par: Params, s: Sys, step: Step)
    requires CanStep(par, s, step) && ProcsOk(par, s)
    ensures var s' := Next(par, s, step);
      Stages(s') < Stages(s) || (Stages(s') == Stages(s) && Writes(s') < Writes(s))
  {
    var pid, s' := step.pid, Next(par, s, step);
    var p, p' := s.procs[pid], s'.procs[pid];
    assert ProcOk(par, s, pid, p);
    assert s'.procs == s.procs[pid := p'];
    match step {
      case OfDelivery(_, d) => DeliveryShrinks(par, s, pid, p.accepted, p.at, p.delivery, d);
      case OfRun(_, r) => RunShrinks(par, s, pid, p.subject, p.live, p.run, r);
    }
    SumAfter(s.procs, StagesLeft, pid, p');
    SumAfter(s.procs, WritesLeft, pid, p');
  }

  /** Every lock that the processes of s will ever ask for is in names. */
  ghost predicate Covers(names: set<LockName>, s: Sys) {
    && (forall p :: p in s.procs ==> CoversProc(names, s.procs[p]))
    && (forall x :: x in SubjectsWithIntents(s.db) ==> SubjectLock(x) in names)
  }

  ghost predicate CoversProc(names: set<LockName>, p: Proc) {
    match p
    case Delivery(e, _, _) => IdentityLock(e.Identity()) in names && SubjectLock(e.subject) in names
    case Run(x, _, _) => SubjectLock(x) in names
  }

  ghost predicate InjectiveOn(par: Params, names: set<LockName>) {
    forall m, n :: m in names && n in names && par.lockKey(m) == par.lockKey(n) ==> m == n
  }

  lemma CoveredInPlay(par: Params, s: Sys, names: set<LockName>, pid: Pid, n: LockName)
    requires ProcsOk(par, s) && Covers(names, s) && pid in s.procs && InPlay(s.procs[pid], n)
    ensures n in names
  {
    var p := s.procs[pid];
    assert ProcOk(par, s, pid, p) && CoversProc(names, p);
    if p.Delivery? && n.SubjectLock? {
      assert p.delivery.Locking? && n.subject in Elements(p.delivery.names) by { LockedNames(p, n); }
      assert n.subject in Affected(PreviousSubject(s.db, p.accepted.Identity()), p.accepted.subject);
    }
  }

  lemma LockedNames(p: Proc, n: LockName)
    requires p.Delivery? && n.SubjectLock? && InPlay(p, n)
    ensures p.delivery.Locking? && n.subject in Elements(p.delivery.names)
  {
  }

  lemma CoveredKeysDistinct(par: Params, s: Sys, names: set<LockName>)
    requires ProcsOk(par, s) && Covers(names, s) && InjectiveOn(par, names)
    ensures KeysDistinct(par, s)
  {
    forall p, q, m, n | p in s.procs && q in s.procs && InPlay(s.procs[p], m) && InPlay(s.procs[q], n)
        && par.lockKey(m) == par.lockKey(n)
      ensures m == n
    {
      CoveredInPlay(par, s, names, p, m);
      CoveredInPlay(par, s, names, q, n);
    }
  }

  lemma SameNames(par: Params, s: Sys, step: Step, names: set<LockName>, q: Pid)
    requires CanStep(par, s, step) && Covers(names, s) && q in Next(par, s, step).procs
    ensures CoversProc(names, Next(par, s, step).procs[q])
  {
  }

  lemma SameSubjects(par: Params, s: Sys, step: Step)
    requires CanStep(par, s, step) && ProcsOk(par, s)
    ensures SubjectsWithIntents(Next(par, s, step).db)
         <= SubjectsWithIntents(s.db) + if s.procs[step.pid].Delivery? then {s.procs[step.pid].accepted.subject} else {}
  {
  }

  lemma StillCovered(par: Params, s: Sys, step: Step, names: set<LockName>)
    requires CanStep(par, s, step) && Covers(names, s) && ProcsOk(par, s)
    ensures Covers(names, Next(par, s, step))
  {
    var s' := Next(par, s, step);
    SameSubjects(par, s, step);
    assert CoversProc(names, s.procs[step.pid]);
    forall q | q in s'.procs ensures CoversProc(names, s'.procs[q]) {
      SameNames(par, s, step, names, q);
    }
  }

  ghost predicate AllForward(par: Params, s: Sys, steps: seq<Step>)
    requires Executable(par, s, steps)
    decreases |steps|
  {
    steps == [] || (Forward(s, steps[0]) && AllForward(par, Next(par, s, steps[0]), steps[1..]))
  }

  ghost predicate AllFinished(s: Sys) {
    forall p :: p in s.procs ==> !Unfinished(s.procs[p])
  }

  lemma UncontestedStep(par: Params, s: Sys, names: set<LockName>, waiting: Pid) returns (step: Step)
    requires Inv(par, s) && par.poolSize >= 1 && waiting in s.procs && Unfinished(s.procs[waiting])
    requires par.poolSize == 1 || (Covers(names, s) && InjectiveOn(par, names))
    ensures CanStep(par, s, step)
    ensures par.poolSize == 1 || Covers(names, Next(par, s, step))
  {
    if par.poolSize == 1 {
      step := OneConnectionNeverBlocks(par, s, waiting);
    } else {
      CoveredKeysDistinct(par, s, names);
      step := SomeoneCanStep(par, s, waiting);
      StillCovered(par, s, step, names);
    }
  }

  /** From every reachable state the pending deliveries and runs can all finish
      without any failure, if the pool has one connection or the lock keys in play
      differ: there is neither deadlock nor livelock. */
  lemma {:induction false} EverythingFinishes(par: Params, s: Sys, names: set<LockName>) returns (steps: seq<Step>)
    requires ValidConfig(par.cfg) && Inv(par, s) && par.poolSize >= 1
    requires par.poolSize == 1 || (Covers(names, s) && InjectiveOn(par, names))
    ensures Executable(par, s, steps) && AllForward(par, s, steps) && AllFinished(Final(par, s, steps))
    decreases Stages(s), Writes(s)
  {
    if AllFinished(s) {
      steps := [];
    } else {
      var waiting :| waiting in s.procs && Unfinished(s.procs[waiting]);
      var step := UncontestedStep(par, s, names, waiting);
      ForwardShrinks(par, s, step);
      KeepInv(par, s, step);
      var rest := EverythingFinishes(par, Next(par, s, step), names);
      steps := [step] + rest;
      assert steps[1..] == rest;
    }
  }
}
