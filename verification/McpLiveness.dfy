/** The connection manager never gets stuck and never runs forever. */
module McpLiveness {
  import opened Prelude
  import opened McpProtocol
  import opened McpInvariants
  import opened McpTheorems

  // ----- absence of deadlock -----

  // An outcome for the action thread t stands before that needs no luck.
  function Default(s: State, p: PC): Event {
    if p.CDial? || p.RDial? then DialFailed
    else if p.KCall? || p.KRetry? then CallOk
    else Tick
  }

  // Go's RWMutex lets no new reader in while a writer waits. A scheduler that never picks
  // such a reader is admissible; progress must not depend on picking one.
  ghost predicate Admissible(s: State, t: Tid, e: Event) {
    Enabled(s, t, e) && (AwaitsRead(s.pc[t]) ==> forall u | u in s.pc :: !AwaitsWrite(s.pc[u]))
  }

  ghost predicate CanStep(s: State) {
    exists t, e :: Admissible(s, t, e)
  }

  // Program points at which a thread waits for nobody.
  predicate Free(p: PC) {
    !AwaitsWrite(p) && !AwaitsRead(p) && !p.RLockMu? && !p.XWait? && !p.Done?
  }

  lemma FreeCanStep(s: State, t: Tid)
    requires Shape(s) && t in s.pc && Free(s.pc[t])
    ensures CanStep(s)
  {
    if s.pc[t].XSweep? && s.Live() != {} {
      var n :| n in s.Live();
      assert Admissible(s, t, Sweep(n));
    } else {
      assert Admissible(s, t, Default(s, s.pc[t]));
    }
  }

  // If nobody is free, nobody holds mu.
  lemma NobodyHoldsMu(s: State)
    requires Shape(s) && Locks(s) && forall t | t in s.pc :: !Free(s.pc[t])
    ensures s.writer.None? && s.readers == {}
  {
    assert forall t | t in s.pc :: s.writer != Some(t) && t !in s.readers;
  }

  // A thread that waits, but not for mu.
  predicate WaitsElsewhere(p: PC) {
    p.RLockMu? || p.XWait? || p.Done?
  }

  // If every thread waits, and none for mu, then no reconnectMu is held ...
  lemma NoMutexHeld(s: State)
    requires Shape(s) && Locks(s) && forall t | t in s.pc :: WaitsElsewhere(s.pc[t])
    ensures forall c :: c !in s.reconnect
  {
    assert forall t | t in s.pc :: !InReconnect(s.pc[t]);
  }

  // ... and if none waits for a reconnectMu either, the wait group is at zero.
  lemma NobodyRegistered(s: State)
    requires Counted(s) && forall t | t in s.pc :: s.pc[t].XWait? || s.pc[t].Done?
    ensures s.wg == 0
  {
    assert forall t | t in s.pc :: !Registered(s.pc[t]);
    assert RegisteredThreads(s.pc) == {};
  }

  lemma MuFreeCanStep(s: State, t: Tid)
    requires Shape(s) && s.writer.None? && s.readers == {} && t in s.pc
    requires AwaitsWrite(s.pc[t]) || (AwaitsRead(s.pc[t]) && forall u | u in s.pc :: !AwaitsWrite(s.pc[u]))
    ensures CanStep(s)
  {
    assert Admissible(s, t, Tick);
  }

  lemma WaiterCanStep(s: State, t: Tid)
    requires Shape(s) && t in s.pc
    requires (s.pc[t].RLockMu? && forall c :: c !in s.reconnect) || (s.pc[t].XWait? && s.wg == 0)
    ensures CanStep(s)
  {
    assert Admissible(s, t, Tick);
  }

  // In every state of the invariant in which some thread has not returned, some thread can act:
  // whoever holds a lock can go on, and a thread waiting for a connection's reconnectMu or for
  // the wait group waits for a thread that can.
  lemma NoDeadlock(s: State, t: Tid)
    requires Shape(s) && Locks(s) && Counted(s) && t in s.pc && !s.pc[t].Done?
    ensures CanStep(s)
  {
    hide CanStep, Shape, Locks, Counted;
    if u :| u in s.pc && Free(s.pc[u]) {
      FreeCanStep(s, u);
      return;
    }
    NobodyHoldsMu(s);
    if u :| u in s.pc && AwaitsWrite(s.pc[u]) {
      MuFreeCanStep(s, u);
    } else if u :| u in s.pc && AwaitsRead(s.pc[u]) {
      MuFreeCanStep(s, u);
    } else {
      NoMutexHeld(s);
      if u :| u in s.pc && s.pc[u].RLockMu? {
        WaiterCanStep(s, u);
      } else {
        NobodyRegistered(s);
        WaiterCanStep(s, t);
      }
    }
  }

  // ----- termination -----

  // The names that can ever be in the map.
  function Names(jobs: map<Tid, Job>): set<Name> {
    set t | t in jobs && jobs[t].Connect? :: jobs[t].name
  }

  // A bound on the number of actions left to a thread at p. Close's loop takes as many more as
  // there are entries to close: `left` of them now, at most `bound` before it has begun.
  function Rank(p: PC, bound: nat, left: nat): nat {
    match p
    case CDial => 5 case CLock(_) => 4 case CCheck(_) => 3 case CPublish(_) => 2 case CClose(_) => 2
        case CUnlock(_) => 1
    case KCheck => 20 case KRLock => 19 case KCheck2 => 18 case KLookup => 17 case KFound(_) => 16 case KCall(_) => 15
    case KRefuse => 1 case KMiss => 1
    case RLockMu(_) => 14 case RCheck(_) => 13 case RRLock(_) => 12 case RLookup(_) => 11 case RCompare(_, _) => 10
    case RDial(_) => 9 case RLock(_, _) => 8 case RCheck2(_, _) => 7 case RSwap(_, _) => 6 case RUnlock(_, _, _) => 5
    case RClose(_, _, _) => 4 case RRelease(_, _) => 3 case KRetry(_) => 2 case KDone(_) => 1
    case XFlip => bound + 6 case XWait => bound + 5 case XLock => bound + 4 case XSweep => left + 3
    case XReset => 2 case XUnlock => 1
    case Done(_) => 0
  }

  function RankOf(s: State, t: Tid): nat
    requires t in s.pc
  {
    Rank(s.pc[t], |Names(s.jobs)|, |s.Live()|)
  }

  // Only names that some ConnectServer was given are in the map.
  ghost predicate Named(s: State) {
    s.servers.Keys <= Names(s.jobs)
  }

  // The part of the invariant that holds even when names are connected twice.
  ghost predicate Basic(s: State) {
    Shape(s) && Locks(s) && Counted(s) && OneCloser(s) && Named(s)
  }

  lemma NamedKept(s: State, t: Tid, e: Event)
    requires Shape(s) && Named(s) && Enabled(s, t, e)
    ensures Named(Next(s, t, e))
  {
    AllMovesGood(s, t, e);
    hide MoveOf;
  }

  lemma BasicKept(s: State, t: Tid, e: Event)
    requires Basic(s) && Enabled(s, t, e)
    ensures Basic(Next(s, t, e)) && Next(s, t, e).jobs == s.jobs
  {
    AllMovesGood(s, t, e);
    NamedKept(s, t, e);
    var m := MoveOf(s, t, e);
    hide After, MoveOf, GoodMove, Shape, Locks, Counted, OneCloser, Named, Enabled;
    ShapeKept(s, t, e, m);
    LocksKept(s, t, e, m);
    CountedKept(s, t, e, m);
    OneCloserKept(s, t, e, m);
  }

  lemma InitBasic(jobs: map<Tid, Job>)
    ensures var s := Init(jobs);
            Basic(s) && s.jobs == jobs && s.Live() == {} && forall t | t in jobs :: s.pc[t] == Start(jobs[t])
  {
    var s := Init(jobs);
    assert Shape(s) && Locks(s) && OneCloser(s);
    assert forall t | t in s.pc :: !Registered(s.pc[t]);
    assert RegisteredThreads(s.pc) == {};
  }

  lemma {:induction false} RunKeepsBasic(jobs: map<Tid, Job>, run: seq<Label>)
    requires Legal(Init(jobs), run)
    ensures Basic(Exec(Init(jobs), run)) && Exec(Init(jobs), run).jobs == jobs
    decreases |run|
  {
    hide Basic, Init, Enabled, Next;
    InitBasic(jobs);
    if run != [] {
      RunKeepsBasic(jobs, run[..|run|-1]);
      BasicKept(Exec(Init(jobs), run[..|run|-1]), run[|run|-1].t, run[|run|-1].e);
    }
  }

  // No run gets stuck: unless every thread has returned, some thread can act.
  lemma RunsNeverStick(jobs: map<Tid, Job>, run: seq<Label>)
    requires Legal(Init(jobs), run)
    ensures AllDone(Exec(Init(jobs), run)) || CanStep(Exec(Init(jobs), run))
  {
    RunKeepsBasic(jobs, run);
    var s := Exec(Init(jobs), run);
    hide CanStep, Init;
    if !AllDone(s) {
      var t :| t in s.pc && !s.pc[t].Done?;
      NoDeadlock(s, t);
    }
  }

  // Away from the loop of Close every action lowers the rank whatever the map looks like.
  predicate Drops(p: PC, m: Move, bound: nat, left: nat) {
    p.XLock? || m.effect.SweepEntry? || Rank(m.to, bound, left) < Rank(p, bound, left)
  }

  lemma ConnectDrops(j: Job, p: PC, e: Event, closed: bool, bound: nat, left: nat)
    requires j.Connect? && Fits(j, p) && !p.Done?
    ensures Drops(p, ConnectMove(p, e, closed), bound, left)
  {
  }

  lemma CallDrops(j: Job, p: PC, e: Event, closed: bool, cur: Option<Sid>, bound: nat, left: nat)
    requires j.Call? && Fits(j, p) && !InReconnect(p) && !p.Done?
    ensures Drops(p, CallMove(p, e, closed, cur), bound, left)
  {
  }

  lemma ReconnectDrops(p: PC, e: Event, closed: bool, cur: Option<Sid>, bound: nat, left: nat)
    requires InReconnect(p)
    ensures Drops(p, ReconnectMove(p, e, closed, cur), bound, left)
  {
  }

  lemma CloseDrops(j: Job, p: PC, e: Event, closed: bool, bound: nat, left: nat)
    requires j.Close? && Fits(j, p) && !p.Done?
    ensures Drops(p, CloseMove(p, e, closed), bound, left)
  {
  }

  lemma MoveDrops(s: State, t: Tid, e: Event, bound: nat, left: nat)
    requires Shape(s) && Enabled(s, t, e)
    ensures Drops(s.pc[t], MoveOf(s, t, e), bound, left)
  {
    var j, p, cur := s.jobs[t], s.pc[t], Entry(s, NameOf(s.jobs[t]));
    assert !p.Done?;
    hide Drops;
    match j {
      case Connect(_) => ConnectDrops(j, p, e, s.closed, bound, left);
      case Close => CloseDrops(j, p, e, s.closed, bound, left);
      case Call(_) =>
        if InReconnect(p) {
          ReconnectDrops(p, e, s.closed, cur, bound, left);
        } else {
          CallDrops(j, p, e, s.closed, cur, bound, left);
        }
    }
  }

  lemma SubsetSize<T>(a: set<T>, b: set<T>)
    requires a <= b
    ensures |a| <= |b|
  {
    assert |b| == |a| + |b - a|;
  }

  lemma RankIgnoresLoop(p: PC, bound: nat, left: nat, other: nat)
    requires !p.XSweep?
    ensures Rank(p, bound, left) == Rank(p, bound, other)
  {
  }

  lemma LiveAfter(s: State, t: Tid, m: Move)
    requires t in s.pc && t in s.jobs
    ensures m.effect.SweepEntry? ==> After(s, t, m).Live() == s.Live() - {m.effect.name}
    ensures !m.effect.SweepEntry? && !m.effect.Publish? && !m.effect.ResetMap? ==> After(s, t, m).Live() == s.Live()
    ensures After(s, t, m).jobs == s.jobs && After(s, t, m).pc == s.pc[t := m.to]
  {
  }

  // What the loop of Close does to its own rank.
  lemma LoopMoves(s: State, t: Tid, e: Event)
    requires Shape(s) && Enabled(s, t, e)
    ensures var m := MoveOf(s, t, e);
            && (s.pc[t].XLock? ==> m.to.XSweep? && m.effect.TakeWrite?)
            && (m.effect.SweepEntry? ==> m.effect.name in s.Live() && s.pc[t].XSweep? && m.to.XSweep?)
            && (m.to.XSweep? ==> s.pc[t].XLock? || s.pc[t].XSweep?)
  {
    AllMovesGood(s, t, e);
  }

  lemma LoopRankDrops(bound: nat, live: set<Name>, names: set<Name>, m: Move, p: PC)
    requires live <= names && bound == |names| && m.to.XSweep?
    requires (p.XSweep? && m.effect.SweepEntry? && m.effect.name in live) || p.XLock?
    ensures m.effect.SweepEntry? && p.XSweep? ==> Rank(m.to, bound, |live - {m.effect.name}|) < Rank(p, bound, |live|)
    ensures p.XLock? ==> Rank(m.to, bound, |live|) < Rank(p, bound, |live|)
  {
    SubsetSize(live, names);
  }

  lemma OwnRankDrops(s: State, t: Tid, e: Event)
    requires Shape(s) && Named(s) && Enabled(s, t, e)
    ensures t in Next(s, t, e).pc && RankOf(Next(s, t, e), t) < RankOf(s, t)
  {
    var m, bound, left := MoveOf(s, t, e), |Names(s.jobs)|, |s.Live()|;
    hide MoveOf, After, Enabled, Names, Shape, Rank;
    LiveAfter(s, t, m);
    LoopMoves(s, t, e);
    if m.effect.SweepEntry? || s.pc[t].XLock? {
      assert s.Live() <= Names(s.jobs);
      LoopRankDrops(bound, s.Live(), Names(s.jobs), m, s.pc[t]);
    } else {
      MoveDrops(s, t, e, bound, left);
      RankIgnoresLoop(m.to, bound, left, |After(s, t, m).Live()|);
    }
  }

  // While a thread is in Close's loop no other thread touches the map.
  lemma LoopUndisturbed(s: State, t: Tid, e: Event, u: Tid)
    requires Shape(s) && Locks(s) && OneCloser(s) && Enabled(s, t, e) && u in s.pc && u != t && s.pc[u].XSweep?
    ensures var m := MoveOf(s, t, e); !m.effect.SweepEntry? && !m.effect.Publish? && !m.effect.ResetMap?
  {
    AllMovesGood(s, t, e);
    assert HoldsWrite(s.pc[u]) && s.closer == Some(u);
    assert !HoldsWrite(s.pc[t]);
  }

  lemma OtherRanksStay(s: State, t: Tid, e: Event, u: Tid)
    requires Shape(s) && Locks(s) && OneCloser(s) && Enabled(s, t, e) && u in s.pc && u != t
    ensures u in Next(s, t, e).pc && RankOf(Next(s, t, e), u) == RankOf(s, u)
  {
    var m := MoveOf(s, t, e);
    hide MoveOf, After, Enabled, Names, Shape, Locks, OneCloser, Rank;
    LiveAfter(s, t, m);
    if s.pc[u].XSweep? {
      LoopUndisturbed(s, t, e, u);
    } else {
      RankIgnoresLoop(s.pc[u], |Names(s.jobs)|, |s.Live()|, |After(s, t, m).Live()|);
    }
  }

  // How many actions of the run were t's.
  function StepsBy(run: seq<Label>, t: Tid): nat {
    if run == [] then 0 else StepsBy(run[..|run|-1], t) + if run[|run|-1].t == t then 1 else 0
  }

  lemma OneStepCounts(s: State, u: Tid, e: Event, t: Tid)
    requires Basic(s) && Enabled(s, u, e) && t in s.pc
    ensures t in Next(s, u, e).pc
    ensures RankOf(Next(s, u, e), t) + (if u == t then 1 else 0) <= RankOf(s, t)
  {
    hide Named, Next, Enabled, RankOf, Shape, Locks, OneCloser, Counted;
    if u == t {
      OwnRankDrops(s, t, e);
    } else {
      OtherRanksStay(s, u, e, t);
    }
  }

  lemma {:induction false} StepsPlusRank(jobs: map<Tid, Job>, run: seq<Label>, t: Tid)
    requires Legal(Init(jobs), run) && t in jobs
    ensures var s := Exec(Init(jobs), run);
            t in s.pc && StepsBy(run, t) + RankOf(s, t) <= RankOf(Init(jobs), t)
    decreases |run|
  {
    hide Init, Enabled, Next, Named, Names, Rank, RankOf, Locks, Counted, OneCloser;
    InitBasic(jobs);
    if run != [] {
      var shorter, u, e := run[..|run|-1], run[|run|-1].t, run[|run|-1].e;
      StepsPlusRank(jobs, shorter, t);
      RunKeepsBasic(jobs, shorter);
      OneStepCounts(Exec(Init(jobs), shorter), u, e, t);
    }
  }

  lemma StartRank(jobs: map<Tid, Job>, t: Tid)
    requires t in jobs
    ensures t in Init(jobs).pc
    ensures RankOf(Init(jobs), t) == match jobs[t] case Connect(_) => 5 case Call(_) => 20
        case Close => |Names(jobs)| + 6
  {
    assert Init(jobs).pc[t] == Start(jobs[t]);
  }

  // How often a thread acts at most, by its job.
  function MostActions(jobs: map<Tid, Job>, t: Tid): nat
    requires t in jobs
  {
    match jobs[t] case Connect(_) => 5 case Call(_) => 20 case Close => |Names(jobs)| + 6
  }

  // In any run a ConnectServer thread takes at most 5 actions, a CallTool thread at most 20 and
  // a Close thread at most 6 plus one for each name that could be connected.
  lemma EveryThreadFinishes(jobs: map<Tid, Job>, run: seq<Label>, t: Tid)
    requires Legal(Init(jobs), run) && t in jobs
    ensures StepsBy(run, t) <= MostActions(jobs, t)
  {
    hide Init, Exec, Legal, RankOf, StepsBy, Names;
    StartRank(jobs, t);
    StepsPlusRank(jobs, run, t);
  }

  // The ranks of a set of threads together.
  ghost function Work(s: State, ts: set<Tid>): nat
    requires ts <= s.pc.Keys
  {
    if exists t :: t in ts then var t :| t in ts; RankOf(s, t) + Work(s, ts - {t}) else 0
  }

  lemma {:induction false} WorkPick(s: State, ts: set<Tid>, t: Tid)
    requires ts <= s.pc.Keys && t in ts
    ensures Work(s, ts) == RankOf(s, t) + Work(s, ts - {t})
    decreases |ts|
  {
    hide RankOf;
    var u :| u in ts && Work(s, ts) == RankOf(s, u) + Work(s, ts - {u});
    if u != t {
      WorkPick(s, ts - {u}, t);
      WorkPick(s, ts - {t}, u);
      assert ts - {u} - {t} == ts - {t} - {u};
    }
  }

  lemma {:induction false} WorkSame(s: State, s': State, ts: set<Tid>)
    requires ts <= s.pc.Keys && ts <= s'.pc.Keys && forall u | u in ts :: RankOf(s', u) == RankOf(s, u)
    ensures Work(s', ts) == Work(s, ts)
    decreases |ts|
  {
    hide RankOf;
    if t :| t in ts {
      WorkPick(s, ts, t);
      WorkPick(s', ts, t);
      WorkSame(s, s', ts - {t});
    }
  }

  lemma WorkDrops(s: State, t: Tid, e: Event)
    requires Basic(s) && Enabled(s, t, e)
    ensures Next(s, t, e).pc.Keys == s.pc.Keys
    ensures Work(Next(s, t, e), s.pc.Keys) < Work(s, s.pc.Keys)
  {
    var s' := Next(s, t, e);
    assert s'.pc.Keys == s.pc.Keys;
    hide Next, RankOf, Locks, Counted, OneCloser, Named, Enabled, Fits, Work;
    OneStepCounts(s, t, e, t);
    forall u | u in s.pc && u != t
      ensures RankOf(s', u) == RankOf(s, u)
    {
      OtherRanksStay(s, t, e, u);
    }
    WorkPick(s, s.pc.Keys, t);
    WorkPick(s', s.pc.Keys, t);
    WorkSame(s, s', s.pc.Keys - {t});
  }

  // Every run is finite: it is no longer than the sum of the ranks its threads start with.
  lemma {:induction false} RunsTerminate(jobs: map<Tid, Job>, run: seq<Label>)
    requires Legal(Init(jobs), run)
    ensures Init(jobs).pc.Keys == jobs.Keys && Exec(Init(jobs), run).pc.Keys == jobs.Keys
    ensures |run| + Work(Exec(Init(jobs), run), jobs.Keys) <= Work(Init(jobs), jobs.Keys)
    decreases |run|
  {
    InitBasic(jobs);
    hide Init, Enabled, Next, Locks, Counted, OneCloser, Named, Fits, Work;
    if run != [] {
      var shorter := run[..|run|-1];
      RunsTerminate(jobs, shorter);
      RunKeepsBasic(jobs, shorter);
      WorkDrops(Exec(Init(jobs), shorter), run[|run|-1].t, run[|run|-1].e);
    }
  }

  // ----- remote effort of one call -----

  // The remote calls and the connection attempts still open to a CallTool thread at p.
  function CallsLeft(p: PC): nat {
    if p.KCheck? || p.KRLock? || p.KCheck2? || p.KLookup? || p.KFound? || p.KCall? then 2
    else if p.RLockMu? || InReconnect(p) || p.KRetry? then 1
    else 0
  }

  function DialsLeft(p: PC): nat {
    if CallsLeft(p) == 2 || p.RLockMu? || p.RCheck? || p.RRLock? || p.RLookup? || p.RCompare? || p.RDial? then 1 else 0
  }

  datatype Effort = RemoteCall | ConnectionAttempt

  predicate Spends(p: PC, kind: Effort) {
    match kind
    case RemoteCall => p.KCall? || p.KRetry?
    case ConnectionAttempt => p.RDial?
  }

  function Left(p: PC, kind: Effort): nat {
    match kind case RemoteCall => CallsLeft(p) case ConnectionAttempt => DialsLeft(p)
  }

  // How often thread t stood before such an action when it acted.
  ghost function Times(s: State, run: seq<Label>, t: Tid, kind: Effort): nat
    requires Legal(s, run)
    decreases |run|
  {
    if run == [] then 0
    else
      var shorter, l := run[..|run|-1], run[|run|-1];
      Times(s, shorter, t, kind) + if l.t == t && Spends(Exec(s, shorter).pc[t], kind) then 1 else 0
  }

  lemma ReconnectBudget(n: Name, p: PC, e: Event, closed: bool, cur: Option<Sid>, kind: Effort)
    requires Fits(Call(n), p) && InReconnect(p)
    ensures Left(ReconnectMove(p, e, closed, cur).to, kind) + (if Spends(p, kind) then 1 else 0) <= Left(p, kind)
  {
  }

  lemma OwnBudget(n: Name, p: PC, e: Event, closed: bool, cur: Option<Sid>, kind: Effort)
    requires Fits(Call(n), p) && !InReconnect(p)
    ensures Left(CallMove(p, e, closed, cur).to, kind) + (if Spends(p, kind) then 1 else 0) <= Left(p, kind)
  {
  }

  lemma CallBudget(n: Name, p: PC, e: Event, closed: bool, cur: Option<Sid>, kind: Effort)
    requires Fits(Call(n), p)
    ensures Left(Decide(Call(n), p, e, closed, cur).to, kind) + (if Spends(p, kind) then 1 else 0) <= Left(p, kind)
  {
    hide Left, Spends, CallMove, ReconnectMove, Fits;
    if InReconnect(p) {
      ReconnectBudget(n, p, e, closed, cur, kind);
    } else {
      OwnBudget(n, p, e, closed, cur, kind);
    }
  }

  lemma BudgetKept(s: State, u: Tid, e: Event, t: Tid, kind: Effort)
    requires Shape(s) && Enabled(s, u, e) && t in s.pc && s.jobs[t].Call?
    ensures t in Next(s, u, e).pc
    ensures Left(Next(s, u, e).pc[t], kind) + (if u == t && Spends(s.pc[t], kind) then 1 else 0) <= Left(s.pc[t], kind)
  {
    CallBudget(s.jobs[t].name, s.pc[t], e, s.closed, Entry(s, NameOf(s.jobs[t])), kind);
    hide Decide, Left, Spends, Enabled;
  }

  lemma {:induction false} BudgetOfRun(jobs: map<Tid, Job>, run: seq<Label>, t: Tid, kind: Effort)
    requires Legal(Init(jobs), run) && t in jobs && jobs[t].Call?
    ensures var s := Exec(Init(jobs), run);
            t in s.pc && Times(Init(jobs), run, t, kind) + Left(s.pc[t], kind) <= Left(KCheck, kind)
    decreases |run|
  {
    InitBasic(jobs);
    hide Init, Enabled, Next, Locks, Counted, OneCloser, Named, Left, Spends;
    if run != [] {
      var shorter := run[..|run|-1];
      BudgetOfRun(jobs, shorter, t, kind);
      RunKeepsBasic(jobs, shorter);
      BudgetKept(Exec(Init(jobs), shorter), run[|run|-1].t, run[|run|-1].e, t, kind);
    }
  }

  // A CallTool makes at most two remote calls and one connection attempt.
  lemma TwoCallsOneDial(jobs: map<Tid, Job>, run: seq<Label>, t: Tid)
    requires Legal(Init(jobs), run) && t in jobs && jobs[t].Call?
    ensures Times(Init(jobs), run, t, RemoteCall) <= 2
    ensures Times(Init(jobs), run, t, ConnectionAttempt) <= 1
  {
    hide Init, Exec, Legal, Times;
    BudgetOfRun(jobs, run, t, RemoteCall);
    BudgetOfRun(jobs, run, t, ConnectionAttempt);
  }
}
