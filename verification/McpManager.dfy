/**
 The manager as the object that its threads update in place. The operations on its locks, its
 map, its wait group and its sessions are methods; on them stand the source's four functions,
 each of which performs the next action of one thread that is inside it. What an action does to
 the object is the transition of McpProtocol, so what is proved about runs holds of any schedule.
 */
module McpManager {
  import opened Prelude
  import opened McpProtocol
  import opened McpInvariants

  // Which function decides the move of a thread, and what it may find there.
  lemma MoveOfConnect(s: State, t: Tid, e: Event)
    requires Shape(s) && Enabled(s, t, e) && s.jobs[t].Connect?
    ensures t in s.pc && t in s.jobs
    ensures MoveOf(s, t, e) == ConnectMove(s.pc[t], e, s.closed)
    ensures var p := s.pc[t]; p.CDial? || p.CLock? || p.CCheck? || p.CPublish? || p.CClose? || p.CUnlock?
    ensures e.Opened? || e.ToolsFailed? ==> e.s !in s.closes
  {
  }

  lemma MoveOfCall(s: State, t: Tid, e: Event)
    requires Shape(s) && Enabled(s, t, e) && s.jobs[t].Call? && !InReconnect(s.pc[t])
    ensures MoveOf(s, t, e) == CallMove(s.pc[t], e, s.closed, Entry(s, s.jobs[t].name))
    ensures var p := s.pc[t];
            p.KCheck? || p.KRLock? || p.KCheck2? || p.KRefuse? || p.KLookup? || p.KMiss? || p.KFound? || p.KCall? ||
            p.RLockMu? || p.KRetry? || p.KDone?
  {
  }

  lemma MoveOfReconnect(s: State, t: Tid, e: Event)
    requires Shape(s) && Enabled(s, t, e) && InReconnect(s.pc[t])
    ensures s.jobs[t].Call?
    ensures MoveOf(s, t, e) == ReconnectMove(s.pc[t], e, s.closed, Entry(s, s.jobs[t].name))
    ensures e.Opened? || e.ToolsFailed? ==> e.s !in s.closes
  {
  }

  lemma MoveOfClose(s: State, t: Tid, e: Event)
    requires Shape(s) && Enabled(s, t, e) && s.jobs[t].Close?
    ensures MoveOf(s, t, e) == CloseMove(s.pc[t], e, s.closed)
    ensures var p := s.pc[t]; p.XFlip? || p.XWait? || p.XLock? || p.XSweep? || p.XReset? || p.XUnlock?
    ensures e.Sweep? ==> s.pc[t].XSweep? && e.name in s.Live()
  {
  }

  lemma SafeParts(s: State)
    requires Safe(s)
    ensures Shape(s) && Locks(s) && Counted(s) && Held(s) && Sweeping(s) && LastLinks(s)
  {
  }

  // A session in the hands of the thread that holds mu is open and published under no name.
  lemma InHand(s: State, t: Tid, x: Sid)
    requires Locks(s) && Sweeping(s) && Held(s) && t in s.pc && x in Owned(s.pc[t]) && HoldsWrite(s.pc[t])
    requires !InClose(s.pc[t])
    ensures s.Open(x) && forall n | n in s.servers :: s.servers[n] != x
  {
    assert At(s, Hand(t), x);
    assert s.swept == {};
    forall n | n in s.servers
      ensures s.servers[n] != x
    {
      assert At(s, Slot(n), s.servers[n]);
    }
  }

  // Every connection found in the map is the one last published under its name.
  predicate Newest(s: State, n: Name, c: Sid) {
    |s.Links(n)| > 0 && s.Links(n)[|s.Links(n)| - 1] == c
  }

  lemma ConnectMoves(s: State, t: Tid, e: Event)
    requires Shape(s) && Enabled(s, t, e) && s.jobs[t].Connect?
    ensures t in s.pc && t in s.jobs
    ensures s.pc[t].CPublish? ==>
      Next(s, t, e).servers == s.servers[s.jobs[t].name := s.pc[t].s] && Next(s, t, e).closes == s.closes
    ensures s.pc[t].CClose? ==>
      Next(s, t, e).servers == s.servers && Next(s, t, e).closes == s.closes[s.pc[t].s := s.Closes(s.pc[t].s) + 1]
  {
    hide MoveOf, Enabled;
    MoveOfConnect(s, t, e);
  }

  // ConnectServer publishes an open session, or closes the one that it opened.
  lemma ConnectGains(s: State, t: Tid, e: Event)
    requires Safe(s) && Enabled(s, t, e) && s.jobs[t].Connect? && (s.pc[t].CPublish? || s.pc[t].CClose?)
    ensures s.Open(s.pc[t].s)
    ensures s.pc[t].CPublish? ==>
      var x, s' := s.pc[t].s, Next(s, t, e); s'.servers == s.servers[s.jobs[t].name := x] && s'.Open(x)
    ensures s.pc[t].CClose? ==>
      Next(s, t, e).servers == s.servers && Next(s, t, e).closes == s.closes[s.pc[t].s := 1]
  {
    hide Safe, Enabled, Next, Locks, Held, Sweeping, Counted, LastLinks, Shape;
    SafeParts(s);
    ConnectMoves(s, t, e);
    InHand(s, t, s.pc[t].s);
  }

  // CallTool works on the newest connection, and is counted while it does.
  lemma CallGains(s: State, t: Tid, e: Event)
    requires Safe(s) && Enabled(s, t, e) && s.jobs[t].Call? && !InReconnect(s.pc[t])
    ensures var n, s' := s.jobs[t].name, Next(s, t, e);
            s.pc[t].KLookup? ==> if n in s.servers then s'.pc[t] == KFound(s.servers[n]) && Newest(s', n, s.servers[n])
                                 else s'.pc[t] == KMiss
    ensures Next(s, t, e).wg == |RegisteredThreads(Next(s, t, e).pc)|
  {
    StepKeepsSafe(s, t, e);
    hide Safe, Enabled, MoveOf, Locks, Held, Sweeping;
    SafeParts(s);
    SafeParts(Next(s, t, e));
    MoveOfCall(s, t, e);
  }

  // The place of the stale connection in the map goes to the fresh one or stays as it is; the
  // loser is the thread's to close.
  lemma SwapMoves(s: State, t: Tid, e: Event)
    requires Shape(s) && Enabled(s, t, e) && s.pc[t].RSwap?
    ensures t in s.jobs && s.jobs[t].Call? && t in Next(s, t, e).pc && Next(s, t, e).pc[t].RUnlock?
    ensures var n, c, f, s' := s.jobs[t].name, s.pc[t].c, s.pc[t].f, Next(s, t, e);
            if Entry(s, n) == Some(c) then s'.servers == s.servers[n := f] && s'.pc[t].dead == c
            else s'.servers == s.servers && s'.pc[t].dead == f
  {
    hide MoveOf;
    MoveOfReconnect(s, t, e);
  }

  lemma LoserInHand(s: State, t: Tid)
    requires Safe(s) && t in s.pc && s.pc[t].RUnlock?
    ensures s.Open(s.pc[t].dead) && forall m | m in s.servers :: s.servers[m] != s.pc[t].dead
  {
    hide Safe, Locks, Sweeping, Held;
    SafeParts(s);
    InHand(s, t, s.pc[t].dead);
  }

  lemma LiveIsOpen(s: State, n: Name)
    requires Held(s) && n in s.Live()
    ensures n in s.servers && s.Open(s.servers[n])
    ensures ClosesAfter(s, SweepEntry(n)) == s.closes[s.servers[n] := 1]
  {
    assert At(s, Slot(n), s.servers[n]);
  }

  // Each round of Close's loop closes an open session, for the first time; the loop ends when it
  // has done so for every entry.
  lemma SweepGains(s: State, t: Tid, e: Event)
    requires Safe(s) && Enabled(s, t, e) && s.jobs[t].Close? && s.pc[t].XSweep?
    ensures e.Sweep? ==>
        e.name in s.servers && var x := s.servers[e.name]; s.Open(x) && Next(s, t, e).closes == s.closes[x := 1]
    ensures !e.Sweep? ==> s.swept == s.servers.Keys
  {
    hide Safe, MoveOf, Locks, Counted, Held, Shape, LastLinks, ClosesAfter;
    SafeParts(s);
    MoveOfClose(s, t, e);
    if e.Sweep? {
      LiveIsOpen(s, e.name);
    } else {
      SweptAll(s);
    }
  }

  class Manager {
    var servers: map<Name, Sid>
    var closed: bool
    var wg: int
    var muWriter: Option<Tid>
    var muReaders: set<Tid>
    var reconnectMu: map<Sid, Tid>
    var closes: map<Sid, int>
    var pc: map<Tid, PC>
    const jobs: map<Tid, Job>
    var swept: set<Name>
    ghost var chain: map<Name, seq<Sid>>
    ghost var closer: Option<Tid>
    ghost var flip: map<Tid, PC>

    ghost function View(): State
      reads this
    {
      State(jobs, pc, servers, closed, wg, muWriter, muReaders, reconnectMu, closes, chain, swept, closer, flip)
    }

    ghost predicate Valid()
      reads this
    {
      Safe(View())
    }

    ghost predicate MayAct(t: Tid, e: Event)
      reads this
    {
      t in pc && t in jobs && Enabled(View(), t, e)
    }

    // NewManager, with the threads that are going to use it.
    constructor (jobs: map<Tid, Job>)
      ensures View() == Init(jobs) && Valid()
    {
      this.jobs := jobs;
      servers, closed, wg, muWriter, muReaders := map[], false, 0, None, {};
      reconnectMu, closes := map[], map[];
      pc := map t | t in jobs :: Start(jobs[t]);
      chain, swept, closer, flip := map[], {}, None, map[];
      new;
      hide Init, Safe;
      InitSafe(jobs);
    }

    // ----- what the functions are made of: each takes its thread to p -----

    // A look at the shared fields, or a remote call: nothing changes but the thread's place.
    method Go(t: Tid, p: PC)
      requires t in pc && t in jobs
      modifies this`pc
      ensures View() == After(old(View()), t, Move(Nothing, p))
    {
      pc := pc[t := p];
    }

    // m.mu.Lock
    method Lock(t: Tid, p: PC)
      requires t in pc && t in jobs
      modifies this`pc, this`muWriter
      ensures View() == After(old(View()), t, Move(TakeWrite, p))
    {
      muWriter := Some(t);
      pc := pc[t := p];
    }

    // m.mu.Unlock
    method Unlock(t: Tid, p: PC)
      requires t in pc && t in jobs
      modifies this`pc, this`muWriter
      ensures View() == After(old(View()), t, Move(DropWrite, p))
    {
      muWriter := None;
      pc := pc[t := p];
    }

    // m.mu.RLock
    method ReadLock(t: Tid, p: PC)
      requires t in pc && t in jobs
      modifies this`pc, this`muReaders
      ensures View() == After(old(View()), t, Move(TakeRead, p))
    {
      muReaders := muReaders + {t};
      pc := pc[t := p];
    }

    // m.mu.RUnlock
    method ReadUnlock(t: Tid, p: PC)
      requires t in pc && t in jobs
      modifies this`pc, this`muReaders
      ensures View() == After(old(View()), t, Move(DropRead, p))
    {
      muReaders := muReaders - {t};
      pc := pc[t := p];
    }

    // conn.reconnectMu.Lock
    method LockReconnect(t: Tid, c: Sid, p: PC)
      requires t in pc && t in jobs
      modifies this`pc, this`reconnectMu
      ensures View() == After(old(View()), t, Move(TakeMutex(c), p))
    {
      reconnectMu := reconnectMu[c := t];
      pc := pc[t := p];
    }

    // conn.reconnectMu.Unlock
    method UnlockReconnect(t: Tid, c: Sid, p: PC)
      requires t in pc && t in jobs
      modifies this`pc, this`reconnectMu
      ensures View() == After(old(View()), t, Move(DropMutex(c), p))
    {
      reconnectMu := reconnectMu - {c};
      pc := pc[t := p];
    }

    // m.wg.Add(1)
    method WgAdd(t: Tid, p: PC)
      requires t in pc && t in jobs
      modifies this`pc, this`wg
      ensures View() == After(old(View()), t, Move(McpProtocol.WgAdd, p))
    {
      wg := wg + 1;
      pc := pc[t := p];
    }

    // m.wg.Done
    method WgDone(t: Tid, p: PC)
      requires t in pc && t in jobs
      modifies this`pc, this`wg
      ensures View() == After(old(View()), t, Move(McpProtocol.WgDone, p))
    {
      wg := wg - 1;
      pc := pc[t := p];
    }

    // connectServer: a session is opened and, if its tools cannot be listed, closed again.
    method Dial(t: Tid, e: Event, p: PC)
      requires t in pc && t in jobs && (e.Opened? || e.ToolsFailed? ==> e.s !in closes)
      modifies this`pc, this`closes
      ensures View() == After(old(View()), t, Move(Dialled(e), p))
    {
      if e.Opened? {
        closes := closes[e.s := 0];
      } else if e.ToolsFailed? {
        closes := closes[e.s := 1];
      }
      pc := pc[t := p];
    }

    // conn.Session.Close
    method CloseSession(t: Tid, x: Sid, p: PC)
      requires t in pc && t in jobs
      modifies this`pc, this`closes
      ensures View() == After(old(View()), t, Move(McpProtocol.CloseSession(x), p))
    {
      closes := closes[x := (if x in closes then closes[x] else 0) + 1];
      pc := pc[t := p];
    }

    // m.servers[name] = conn
    method Publish(t: Tid, x: Sid, p: PC)
      requires t in pc && t in jobs && !jobs[t].Close?
      modifies this`pc, this`servers, this`chain
      ensures View() == After(old(View()), t, Move(McpProtocol.Publish(x), p))
    {
      var n := jobs[t].name;
      servers := servers[n := x];
      chain := chain[n := View().Links(n) + [x]];
      pc := pc[t := p];
    }

    // m.closed.Swap(true), finding false
    method Flip(t: Tid, p: PC)
      requires t in pc && t in jobs
      modifies this`pc, this`closed, this`closer, this`flip
      ensures View() == After(old(View()), t, Move(McpProtocol.Flip, p))
    {
      closed, closer, flip, pc := true, Some(t), pc, pc[t := p];
    }

    // One round of Close's loop over the map.
    method SweepEntry(t: Tid, n: Name, p: PC)
      requires t in pc && t in jobs && n in servers
      modifies this`pc, this`closes, this`swept
      ensures View() == After(old(View()), t, Move(McpProtocol.SweepEntry(n), p))
    {
      var x := servers[n];
      closes := closes[x := (if x in closes then closes[x] else 0) + 1];
      swept := swept + {n};
      pc := pc[t := p];
    }

    // m.servers = make(map[string]*ServerConnection)
    method ResetMap(t: Tid, p: PC)
      requires t in pc && t in jobs
      modifies this`pc, this`servers, this`swept
      ensures View() == After(old(View()), t, Move(McpProtocol.ResetMap, p))
    {
      servers, swept := map[], {};
      pc := pc[t := p];
    }

    // ----- the functions -----

    method ConnectServer(t: Tid, e: Event)
      requires Valid() && MayAct(t, e) && jobs[t].Connect?
      modifies this
      ensures View() == Next(old(View()), t, e) && Valid()
      ensures old(pc[t].CPublish?) ==>
          servers == old(servers)[jobs[t].name := old(pc[t].s)] && View().Open(old(pc[t].s))
      ensures old(pc[t].CClose?) ==>
          servers == old(servers) && old(View().Open(pc[t].s)) && closes == old(closes[pc[t].s := 1])
    {
      hide Safe, MoveOf, Enabled, After, Locks, Counted, Held, Sweeping, LastLinks;
      ghost var s := View();
      SafeParts(s);
      StepKeepsSafe(s, t, e);
      if pc[t].CPublish? || pc[t].CClose? {
        ConnectGains(s, t, e);
      }
      MoveOfConnect(s, t, e);
      match pc[t] {
        case CDial => Dial(t, e, if e.Opened? then CLock(e.s) else Done(DialError));
        case CLock(x) => Lock(t, CCheck(x));
        case CCheck(x) => Go(t, if closed then CClose(x) else CPublish(x));
        case CClose(x) => CloseSession(t, x, CUnlock(ManagerClosed));
        case CPublish(x) => Publish(t, x, CUnlock(Success));
        case CUnlock(out) => Unlock(t, Done(out));
      }
    }

    // CallTool, outside reconnectServer.
    method CallTool(t: Tid, e: Event)
      requires Valid() && MayAct(t, e) && jobs[t].Call? && !InReconnect(pc[t])
      modifies this
      ensures View() == Next(old(View()), t, e) && Valid()
      ensures wg == |RegisteredThreads(pc)|
      ensures old(pc[t].KLookup? && jobs[t].name in servers) ==> pc[t].KFound? && Newest(View(), jobs[t].name, pc[t].c)
    {
      hide Safe, MoveOf, Enabled, After, Newest, RegisteredThreads, Locks, Counted, Held, Sweeping, LastLinks;
      ghost var s := View();
      SafeParts(s);
      StepKeepsSafe(s, t, e);
      CallGains(s, t, e);
      MoveOfCall(s, t, e);
      var n := jobs[t].name;
      match pc[t] {
        case KCheck => Go(t, if closed then Done(ManagerClosed) else KRLock);
        case KRLock => ReadLock(t, KCheck2);
        case KCheck2 => Go(t, if closed then KRefuse else KLookup);
        case KRefuse => ReadUnlock(t, Done(ManagerClosed));
        case KLookup =>
          if n in servers {
            WgAdd(t, KFound(servers[n]));
          } else {
            Go(t, KMiss);
          }
        case KMiss => ReadUnlock(t, Done(ServerNotFound));
        case KFound(c) => ReadUnlock(t, KCall(c));
        case KCall(c) =>
          Go(t, if e.CallOk? then KDone(Success) else if e.CallLost? then RLockMu(c) else KDone(CallError));
        case RLockMu(c) => LockReconnect(t, c, RCheck(c));
        case KRetry(_) => Go(t, if e.CallOk? then KDone(Success) else KDone(CallError));
        case KDone(out) => WgDone(t, Done(out));
      }
    }

    // reconnectServer under mu: of the stale connection and its replacement one is published; the
    // other, still open and published nowhere, is the one to be closed.
    method Replace(t: Tid, e: Event)
      requires Valid() && MayAct(t, e) && pc[t].RSwap? && jobs[t].Call?
      modifies this
      ensures View() == Next(old(View()), t, e) && Valid()
      ensures t in pc && pc[t].RUnlock? && View().Open(pc[t].dead) && forall m | m in servers ::
          servers[m] != pc[t].dead
      ensures if Entry(old(View()), jobs[t].name) == Some(old(pc[t].c))
              then servers == old(servers)[jobs[t].name := old(pc[t].f)] && pc[t].dead == old(pc[t].c)
              else servers == old(servers) && pc[t].dead == old(pc[t].f)
    {
      hide Safe, MoveOf, Enabled, After, Fits, Locks, Counted, Held, Sweeping, LastLinks;
      ghost var s := View();
      SafeParts(s);
      StepKeepsSafe(s, t, e);
      SwapMoves(s, t, e);
      LoserInHand(Next(s, t, e), t);
      MoveOfReconnect(s, t, e);
      var n, c, f := jobs[t].name, pc[t].c, pc[t].f;
      if n !in servers {
        Go(t, RUnlock(c, f, GiveUp(ServerNotFound)));
      } else if servers[n] == c {
        Publish(t, f, RUnlock(c, c, Use(f)));
      } else {
        Go(t, RUnlock(c, f, Use(servers[n])));
      }
    }

    method ReconnectServer(t: Tid, e: Event)
      requires Valid() && MayAct(t, e) && InReconnect(pc[t])
      modifies this
      ensures View() == Next(old(View()), t, e) && Valid()
    {
      hide Safe, MoveOf, Enabled, After, Fits, Locks, Counted, Held, Sweeping, LastLinks;
      ghost var s := View();
      SafeParts(s);
      StepKeepsSafe(s, t, e);
      MoveOfReconnect(s, t, e);
      var n := jobs[t].name;
      match pc[t] {
        case RCheck(c) => Go(t, if closed then RRelease(c, GiveUp(ManagerClosed)) else RRLock(c));
        case RRLock(c) => ReadLock(t, RLookup(c));
        case RLookup(c) => Go(t, RCompare(c, if n in servers then Some(servers[n]) else None));
        case RCompare(c, cur) =>
          ReadUnlock(t, if cur.None? then RRelease(c, GiveUp(ServerNotFound))
                        else if cur.value != c then RRelease(c, Use(cur.value))
                        else RDial(c));
        case RDial(c) => Dial(t, e, if e.Opened? then RLock(c, e.s) else RRelease(c, GiveUp(DialError)));
        case RLock(c, f) => Lock(t, RCheck2(c, f));
        case RCheck2(c, f) => Go(t, if closed then RUnlock(c, f, GiveUp(ManagerClosed)) else RSwap(c, f));
        case RSwap(_, _) => Replace(t, e);
        case RUnlock(c, dead, reply) => Unlock(t, RClose(c, dead, reply));
        case RClose(c, dead, reply) => CloseSession(t, dead, RRelease(c, reply));
        case RRelease(c, reply) =>
          UnlockReconnect(t, c, if reply.Use? then KRetry(reply.conn) else KDone(reply.why));
      }
    }

    method Close(t: Tid, e: Event)
      requires Valid() && MayAct(t, e) && jobs[t].Close?
      modifies this
      ensures View() == Next(old(View()), t, e) && Valid()
      ensures e.Sweep? ==>
        e.name in old(servers) && var x := old(servers)[e.name]; old(View()).Open(x) && closes == old(closes)[x := 1]
      ensures old(pc[t].XSweep?) && !e.Sweep? ==> swept == servers.Keys && closes == old(closes)
    {
      hide Safe, MoveOf, Enabled, After, Locks, Counted, Held, Sweeping, LastLinks;
      ghost var s := View();
      SafeParts(s);
      StepKeepsSafe(s, t, e);
      MoveOfClose(s, t, e);
      if pc[t].XSweep? {
        SweepGains(s, t, e);
      }
      match pc[t] {
        case XFlip =>
          if closed {
            Go(t, Done(Success));
          } else {
            Flip(t, XWait);
          }
        case XWait => Go(t, XLock);
        case XLock => Lock(t, XSweep);
        case XSweep =>
          if e.Sweep? {
            SweepEntry(t, e.name, XSweep);
          } else {
            Go(t, XReset);
          }
        case XReset => ResetMap(t, XUnlock);
        case XUnlock => Unlock(t, Done(Success));
      }
    }

    // Whatever a thread may do next, one of the four functions does it.
    method Act(t: Tid, e: Event)
      requires Valid() && MayAct(t, e)
      modifies this
      ensures View() == Next(old(View()), t, e) && Valid()
    {
      hide Next, Safe;
      if jobs[t].Connect? {
        ConnectServer(t, e);
      } else if jobs[t].Close? {
        Close(t, e);
      } else if InReconnect(pc[t]) {
        ReconnectServer(t, e);
      } else {
        CallTool(t, e);
      }
    }
  }
}
