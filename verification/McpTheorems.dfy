/** What holds of the connection manager in every run, for any finite set of threads. */
module McpTheorems {
  import opened Prelude
  import opened McpProtocol
  import opened McpInvariants

  lemma {:induction false} RunKeepsInv(jobs: map<Tid, Job>, run: seq<Label>)
    requires DistinctNames(jobs) && Legal(Init(jobs), run)
    ensures Inv(Exec(Init(jobs), run))
    ensures Exec(Init(jobs), run).jobs == jobs
    decreases |run|
  {
    hide Inv, Init, Enabled, Next;
    if run == [] {
      InitInv(jobs);
      InitJobs(jobs);
    } else {
      RunKeepsInv(jobs, run[..|run|-1]);
      StepKeepsInv(Exec(Init(jobs), run[..|run|-1]), run[|run|-1].t, run[|run|-1].e);
      StepKeepsJobs(Exec(Init(jobs), run[..|run|-1]), run[|run|-1].t, run[|run|-1].e);
    }
  }

  lemma InitJobs(jobs: map<Tid, Job>)
    ensures Init(jobs).jobs == jobs
  {
  }

  lemma StepKeepsJobs(s: State, t: Tid, e: Event)
    requires Enabled(s, t, e)
    ensures Next(s, t, e).jobs == s.jobs
  {
    hide MoveOf;
  }

  // What needs no two names to differ.
  lemma {:induction false} RunKeepsSafe(jobs: map<Tid, Job>, run: seq<Label>)
    requires Legal(Init(jobs), run)
    ensures Safe(Exec(Init(jobs), run)) && Exec(Init(jobs), run).jobs == jobs
    decreases |run|
  {
    hide Safe, Init, Enabled, Next;
    if run == [] {
      InitSafe(jobs);
      InitJobs(jobs);
    } else {
      RunKeepsSafe(jobs, run[..|run|-1]);
      StepKeepsSafe(Exec(Init(jobs), run[..|run|-1]), run[|run|-1].t, run[|run|-1].e);
      StepKeepsJobs(Exec(Init(jobs), run[..|run|-1]), run[|run|-1].t, run[|run|-1].e);
    }
  }

  // ----- ownership of sessions -----

  // Whatever the threads and their interleaving: no session is closed twice, nothing closed is
  // published or in a thread's hands, and no session is in two places.
  lemma NoSessionClosedTwice(jobs: map<Tid, Job>, run: seq<Label>)
    requires Legal(Init(jobs), run)
    ensures var s := Exec(Init(jobs), run);
            && (forall x | x in s.closes :: s.closes[x] in {0, 1})
            && (forall h, x | At(s, h, x) :: s.Open(x))
            && (forall h, k, x | At(s, h, x) && At(s, k, x) :: h == k)
  {
    RunKeepsSafe(jobs, run);
    hide Init, At, Shape, Locks, Counted, OneCloser, Sweeping, Gate, Drain, Linked, LastLinks, Chained, Forward;
  }

  // If no two connects share a name, a session is open exactly when it is in such a place.
  lemma EverySessionInOnePlace(jobs: map<Tid, Job>, run: seq<Label>)
    requires DistinctNames(jobs) && Legal(Init(jobs), run)
    ensures var s := Exec(Init(jobs), run); forall x :: s.Open(x) <==> exists h :: At(s, h, x)
  {
    RunKeepsInv(jobs, run);
    hide Init, At, Shape, Locks, Counted, OneCloser, Sweeping, Gate, Drain, Linked, LastLinks, Chained, Forward,
        NoRivals;
  }

  lemma FinalState(s: State)
    requires Shape(s) && Ownership(s) && OneCloser(s) && Sweeping(s) && AllDone(s) && s.closed
    ensures s.servers == map[] && forall x | x in s.closes :: s.closes[x] == 1
  {
    var u := s.closer.value;
    assert u in s.pc && s.pc[u].Done?;
    assert forall h, x :: !At(s, h, x);
    forall x | x in s.closes
      ensures s.closes[x] == 1
    {
      assert !s.Open(x);
    }
  }

  // Once Close was called and every thread has returned, every session that was ever opened
  // has been closed exactly once, and the map is empty.
  lemma NothingOpenAtTheEnd(jobs: map<Tid, Job>, run: seq<Label>)
    requires DistinctNames(jobs) && Legal(Init(jobs), run)
    requires var s := Exec(Init(jobs), run); AllDone(s) && s.closed
    ensures var s := Exec(Init(jobs), run); s.servers == map[] && forall x | x in s.closes :: s.closes[x] == 1
  {
    RunKeepsInv(jobs, run);
    hide AllDone, Init, Shape, Locks, Counted, Ownership, OneCloser, Sweeping, Gate, Drain, Linked, LastLinks, Chained,
         Forward, NoRivals;
    FinalState(Exec(Init(jobs), run));
  }

  ghost predicate LeakFree(jobs: map<Tid, Job>) {
    forall run | Legal(Init(jobs), run) ::
      var s := Exec(Init(jobs), run); forall x | s.Open(x) :: exists h :: At(s, h, x)
  }

  // One more action at the end of a run.
  lemma Extend(s: State, run: seq<Label>, t: Tid, e: Event)
    requires Legal(s, run) && Enabled(Exec(s, run), t, e)
    ensures Legal(s, run + [Label(t, e)]) && Exec(s, run + [Label(t, e)]) == Next(Exec(s, run), t, e)
  {
    hide Enabled, Next;
    var longer := run + [Label(t, e)];
    assert longer[..|longer|-1] == run;
  }

  // A manager nobody is using, on which t is about to run ConnectServer.
  ghost predicate Quiet(s: State, t: Tid) {
    t in s.pc && t in s.jobs && s.jobs[t].Connect? && s.pc[t].CDial? && s.writer.None? && s.readers == {} && !s.closed
  }

  // s' is s with thread t at p, and with these values of the lock, the map and the sessions.
  ghost predicate Only(s: State, s': State, t: Tid, p: PC, writer: Option<Tid>, servers: map<Name, Sid>,
                       closes: map<Sid, int>)
  {
    s'.pc == s.pc[t := p] && s'.jobs == s.jobs && s'.writer == writer && s'.readers == {} && !s'.closed &&
    s'.swept == s.swept && s'.reconnect == s.reconnect && s'.servers == servers && s'.closes == closes
  }

  // s' is s with thread t at p on its way to publishing session x.
  ghost predicate OnTheWay(s: State, s': State, t: Tid, x: Sid, p: PC)
    requires t in s.jobs && s.jobs[t].Connect?
  {
    Only(s, s', t, p, if HoldsWrite(p) then Some(t) else None,
         if p.CUnlock? || p.Done? then s.servers[s.jobs[t].name := x] else s.servers,
         if p.CDial? then s.closes else s.closes[x := 0])
  }

  // The uninterrupted course of ConnectServer.
  function Course(p: PC, x: Sid): Move {
    match p
    case CDial => Move(OpenSession(x), CLock(x))
    case CLock(_) => Move(TakeWrite, CCheck(x))
    case CCheck(_) => Move(Nothing, CPublish(x))
    case CPublish(_) => Move(Publish(x), CUnlock(Success))
    case _ => Move(DropWrite, Done(Success))
  }

  ghost predicate MayHop(s: State, s1: State, t: Tid, x: Sid, p: PC, e: Event) {
    && t in s.jobs && s.jobs[t].Connect? && x !in s.closes && t in s.pc
    && p in {CDial, CLock(x), CCheck(x), CPublish(x), CUnlock(Success)}
    && OnTheWay(s, s1, t, x, p)
    && e == if p.CDial? then Opened(x) else Tick
  }

  lemma HopEnabled(s: State, s1: State, t: Tid, x: Sid, p: PC, e: Event)
    requires MayHop(s, s1, t, x, p, e)
    ensures Enabled(s1, t, e) && MoveOf(s1, t, e) == Course(p, x)
  {
    hide CallMove, ReconnectMove, CloseMove;
  }

  lemma Hop(s: State, s1: State, t: Tid, x: Sid, p: PC, e: Event)
    requires MayHop(s, s1, t, x, p, e)
    ensures Enabled(s1, t, e) && OnTheWay(s, Next(s1, t, e), t, x, Course(p, x).to)
  {
    hide Enabled, MoveOf;
    HopEnabled(s, s1, t, x, p, e);
  }

  lemma {:induction false} ConnectOn(s0: State, run: seq<Label>, s: State, t: Tid, x: Sid, p: PC, left: nat)
    returns (longer: seq<Label>)
    requires Legal(s0, run) && t in s.jobs && s.jobs[t].Connect? && x !in s.closes && t in s.pc
    requires p in {CDial, CLock(x), CCheck(x), CPublish(x), CUnlock(Success), Done(Success)}
    requires left == if p.CDial? then 5 else if p.CLock? then 4 else if p.CCheck? then 3 else if p.CPublish? then 2
                     else if p.CUnlock? then 1 else 0
    requires OnTheWay(s, Exec(s0, run), t, x, p)
    ensures Legal(s0, longer) && OnTheWay(s, Exec(s0, longer), t, x, Done(Success))
    decreases left
  {
    hide Legal, Exec, OnTheWay, Enabled, Next;
    if p.Done? {
      return run;
    }
    var e := if p.CDial? then Opened(x) else Tick;
    Hop(s, Exec(s0, run), t, x, p, e);
    Extend(s0, run, t, e);
    longer := ConnectOn(s0, run + [Label(t, e)], s, t, x, Course(p, x).to, left - 1);
  }

  // ConnectServer run without interruption publishes its session and touches nothing else.
  lemma ConnectAlone(s0: State, run: seq<Label>, t: Tid, x: Sid) returns (longer: seq<Label>)
    requires Legal(s0, run) && Quiet(Exec(s0, run), t) && x !in Exec(s0, run).closes
    ensures Legal(s0, longer)
    ensures var s := Exec(s0, run);
            Only(s, Exec(s0, longer), t, Done(Success), None, s.servers[s.jobs[t].name := x], s.closes[x := 0])
  {
    var s := Exec(s0, run);
    assert s.pc[t := CDial] == s.pc;
    longer := ConnectOn(s0, run, s, t, x, CDial, 5);
  }

  // If two ConnectServer calls share a name, one after the other loses the first session: it
  // stays open, no map entry shows it and no thread holds it.
  lemma SharedNameLeaks(jobs: map<Tid, Job>, t: Tid, u: Tid) returns (run: seq<Label>)
    requires t in jobs && u in jobs && t != u && jobs[t].Connect? && jobs[u].Connect? && jobs[t].name == jobs[u].name
    ensures Legal(Init(jobs), run)
    ensures var s := Exec(Init(jobs), run); s.Open(0) && forall h :: !At(s, h, 0)
  {
    hide Init, Legal, Exec, Owned;
    var s0 := Init(jobs);
    StartsQuiet(jobs, t);
    StartsQuiet(jobs, u);
    EmptyRun(s0);
    var first := ConnectAlone(s0, [], t, 0);
    run := ConnectAlone(s0, first, u, 1);
    assert Exec(s0, run).servers == map[jobs[t].name := 1];
  }

  lemma EmptyRun(s: State)
    ensures Legal(s, []) && Exec(s, []) == s
  {
  }

  lemma StartsQuiet(jobs: map<Tid, Job>, t: Tid)
    requires t in jobs && jobs[t].Connect?
    ensures var s := Init(jobs);
            && Quiet(s, t) && s.jobs == jobs && s.servers == map[] && s.closes == map[] && s.reconnect == map[]
            && (forall v | v in s.pc :: Owned(s.pc[v]) == {}) && forall r :: Owned(Done(r)) == {}
  {
  }

  // The ownership discipline holds in every run exactly when no name is connected twice.
  lemma LeakFreeIffNamesDistinct(jobs: map<Tid, Job>)
    ensures LeakFree(jobs) <==> DistinctNames(jobs)
  {
    if DistinctNames(jobs) {
      forall run | Legal(Init(jobs), run)
        ensures var s := Exec(Init(jobs), run); forall x | s.Open(x) :: exists h :: At(s, h, x)
      {
        EverySessionInOnePlace(jobs, run);
      }
    } else {
      var t, u :| t in jobs && u in jobs && t != u && jobs[t].Connect? && jobs[u].Connect?
          && jobs[t].name == jobs[u].name;
      var run := SharedNameLeaks(jobs, t, u);
    }
  }

  // ----- draining -----

  // A session is being closed by Close.
  predicate Sweeps(s: State) {
    s.closer.Some? && s.closer.value in s.pc && s.pc[s.closer.value].XSweep?
  }

  // `flip` is where every thread stood when the closed flag flipped. When Close starts closing
  // sessions, every call that had registered by then has returned; a call that had not started
  // by then never gets past its first check; and a call that is in flight all the same was, at
  // the flip, inside its read-locked section past the second check.
  lemma CallsDrainBeforeSweep(jobs: map<Tid, Job>, run: seq<Label>, t: Tid)
    requires Legal(Init(jobs), run) && t in jobs && Exec(Init(jobs), run).closed
    ensures var s := Exec(Init(jobs), run);
            && t in s.flip && t in s.pc
            && (Sweeps(s) && Registered(s.flip[t]) ==> s.pc[t].Done?)
            && (s.flip[t].KCheck? ==> s.pc[t].KCheck? || s.pc[t] == Done(ManagerClosed))
            && (Sweeps(s) && Registered(s.pc[t]) ==> s.flip[t].KLookup?)
  {
    RunKeepsSafe(jobs, run);
    hide Registered, Locks, Counted, Held, OneCloser, Sweeping, Gate, Linked, LastLinks, Chained, Forward;
  }

  // ----- chains of connections -----

  // reconnectServer's answer is a later link of the chain than the connection it was given, and
  // its two "not found" branches are never taken, whatever the threads.
  lemma ReconnectMovesForward(jobs: map<Tid, Job>, run: seq<Label>, t: Tid)
    requires Legal(Init(jobs), run) && t in jobs && jobs[t].Call?
    ensures var s := Exec(Init(jobs), run);
            t in s.pc && var p, links := s.pc[t], s.Links(jobs[t].name);
            && Distinct(links)
            && (p.RRelease? && p.reply.Use? ==> Later(links, p.c, p.reply.conn))
            && (p.RRelease? ==> p.reply != GiveUp(ServerNotFound))
            && (p.RCompare? ==> p.cur.Some?)
            && (p.RSwap? ==> jobs[t].name in s.servers)
  {
    RunKeepsSafe(jobs, run);
    var s := Exec(Init(jobs), run);
    assert MovesOn(s, jobs[t].name, s.pc[t]);
    if s.pc[t].RSwap? {
      FindsTip(s, t);
    }
    hide Locks, Counted, Held, OneCloser, Sweeping, Gate, Drain, LastLinks, Chained, Forward;
  }

  lemma ChainGrows(s: State, t: Tid, e: Event, n: Name)
    requires Enabled(s, t, e)
    ensures s.Links(n) <= Next(s, t, e).Links(n)
  {
    hide MoveOf;
    LinksAfter(s, t, MoveOf(s, t, e), n);
  }

  lemma {:induction false} ChainGrowsOverRun(s: State, run: seq<Label>, k: nat, n: Name)
    requires Legal(s, run) && k <= |run|
    ensures Legal(s, run[..k]) && Exec(s, run[..k]).Links(n) <= Exec(s, run).Links(n)
    decreases |run|
  {
    hide Enabled, Next;
    if k == |run| {
      assert run[..k] == run;
    } else {
      var shorter := run[..|run|-1];
      ChainGrowsOverRun(s, shorter, k, n);
      assert shorter[..k] == run[..k];
      ChainGrows(Exec(s, shorter), run[|run|-1].t, run[|run|-1].e, n);
    }
  }

  // The k-th action of the run is the map write of a reconnectServer that replaces c.
  ghost predicate Replaces(jobs: map<Tid, Job>, run: seq<Label>, k: nat, c: Sid)
    requires Legal(Init(jobs), run) && k < |run|
  {
    Legal(Init(jobs), run[..k]) &&
    var s, t := Exec(Init(jobs), run[..k]), run[k].t;
    t in s.pc && t in s.jobs && s.jobs[t].Call? && s.pc[t].RSwap? && s.pc[t].c == c &&
    MoveOf(s, t, run[k].e).effect.Publish?
  }

  lemma {:induction false} PrefixLegal(s: State, run: seq<Label>, k: nat)
    requires Legal(s, run) && k < |run|
    ensures Legal(s, run[..k]) && Legal(s, run[..k+1])
    ensures Enabled(Exec(s, run[..k]), run[k].t, run[k].e)
    ensures Exec(s, run[..k+1]) == Next(Exec(s, run[..k]), run[k].t, run[k].e)
    decreases |run|
  {
    hide Enabled, Next;
    if k == |run| - 1 {
      assert run[..k+1] == run;
    } else {
      PrefixLegal(s, run[..|run|-1], k);
      assert run[..|run|-1][..k] == run[..k] && run[..|run|-1][..k+1] == run[..k+1];
    }
  }

  // A thread that publishes a replacement found the stale connection in the map.
  lemma SwapFindsStale(s: State, t: Tid, e: Event)
    requires Shape(s) && Enabled(s, t, e) && s.jobs[t].Call? && s.pc[t].RSwap? && MoveOf(s, t, e).effect.Publish?
    ensures Entry(s, s.jobs[t].name) == Some(s.pc[t].c)
  {
    AllMovesGood(s, t, e);
  }

  lemma ReplacedEndsChain(s: State, t: Tid, e: Event)
    requires Safe(s) && Enabled(s, t, e) && s.jobs[t].Call? && s.pc[t].RSwap? && MoveOf(s, t, e).effect.Publish?
    ensures var links, n := s.Links(s.jobs[t].name), s.jobs[t].name;
            && |links| > 0 && links[|links|-1] == s.pc[t].c && links < Next(s, t, e).Links(n) && Linked(s)
  {
    SwapFindsStale(s, t, e);
    LinksAfter(s, t, MoveOf(s, t, e), s.jobs[t].name);
    hide Fits, Locks, Counted, Held, OneCloser, Sweeping, Gate, Drain, Linked, Chained, Forward, Enabled, MoveOf, After;
  }

  // When a connection is replaced it is the last link of its chain, and then no longer.
  lemma ReplacedWasLast(jobs: map<Tid, Job>, run: seq<Label>, k: nat, c: Sid)
    requires Legal(Init(jobs), run) && k < |run| && Replaces(jobs, run, k, c)
    ensures Legal(Init(jobs), run[..k]) && Legal(Init(jobs), run[..k+1])
    ensures run[k].t in jobs && jobs[run[k].t].Call?
    ensures var n := jobs[run[k].t].name;
            var links := Exec(Init(jobs), run[..k]).Links(n);
            && |links| > 0 && links[|links|-1] == c
            && links < Exec(Init(jobs), run[..k+1]).Links(n)
            && Linked(Exec(Init(jobs), run[..k]))
  {
    hide Safe, Linked, Init, Enabled, Next, MoveOf, State.Links;
    RunKeepsSafe(jobs, run[..k]);
    PrefixLegal(Init(jobs), run, k);
    ReplacedEndsChain(Exec(Init(jobs), run[..k]), run[k].t, run[k].e);
  }

  lemma OneName(s: State, n: Name, m: Name, c: Sid)
    requires Linked(s)
    ensures c in s.Links(n) && c in s.Links(m) ==> n == m
    ensures forall i, j | 0 <= i < |s.Links(n)| && 0 <= j < |s.Links(n)| && s.Links(n)[i] == s.Links(n)[j] :: i == j
  {
    assert InChain(s, n, c) <==> c in s.Links(n);
    assert InChain(s, m, c) <==> c in s.Links(m);
    assert Distinct(s.Links(n));
  }

  // A connection is replaced at most once in a run.
  lemma ReplacedAtMostOnce(jobs: map<Tid, Job>, run: seq<Label>, i: nat, j: nat, c: Sid)
    requires Legal(Init(jobs), run) && i <= j < |run|
    requires Replaces(jobs, run, i, c) && Replaces(jobs, run, j, c)
    ensures i == j
  {
    hide Replaces, Init, Legal, Exec, Linked, State.Links;
    ReplacedWasLast(jobs, run, i, c);
    ReplacedWasLast(jobs, run, j, c);
    if i < j {
      var n, m := jobs[run[i].t].name, jobs[run[j].t].name;
      var s := Exec(Init(jobs), run[..j]);
      ChainGrowsOverRun(Init(jobs), run[..j], i + 1, n);
      assert run[..j][..i+1] == run[..i+1];
      OneName(s, n, m, c);
    }
  }
}
