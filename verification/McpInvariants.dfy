/** What every transition of the connection manager keeps. */
module McpInvariants {
  import opened Prelude
  import opened McpProtocol

  // ----- the invariant, one concern at a time -----

  ghost predicate Shape(s: State) {
    s.pc.Keys == s.jobs.Keys && forall t | t in s.pc :: Fits(s.jobs[t], s.pc[t])
  }

  ghost predicate Locks(s: State) {
    && (s.writer.Some? ==> s.writer.value in s.pc)
    && s.readers <= s.pc.Keys
    && (forall t | t in s.pc :: HoldsWrite(s.pc[t]) <==> s.writer == Some(t))
    && (forall t | t in s.pc :: HoldsRead(s.pc[t]) <==> t in s.readers)
    && (s.writer.Some? ==> s.readers == {})
    && (forall t | t in s.pc && InReconnect(s.pc[t]) ::
          s.pc[t].c in s.reconnect && s.reconnect[s.pc[t].c] == t)
    && (forall c | c in s.reconnect ::
          s.reconnect[c] in s.pc && InReconnect(s.pc[s.reconnect[c]]) && s.pc[s.reconnect[c]].c == c)
  }

  ghost function RegisteredThreads(pc: map<Tid, PC>): set<Tid> {
    set t | t in pc && Registered(pc[t])
  }

  ghost predicate Counted(s: State) {
    s.wg == |RegisteredThreads(s.pc)|
  }

  // Where a session can be: published under a name (and not yet closed by Close's loop),
  // or in the hands of a thread that has to publish or close it.
  datatype Place = Slot(name: Name) | Hand(tid: Tid)

  predicate At(s: State, h: Place, x: Sid) {
    match h
    case Slot(n) => n in s.servers && n !in s.swept && s.servers[n] == x
    case Hand(t) => t in s.pc && x in Owned(s.pc[t])
  }

  // No session is closed twice, and what is in a place is open and in no other.
  ghost predicate Held(s: State) {
    && (forall x | x in s.closes :: 0 <= s.closes[x] <= 1)
    && (forall h, x | At(s, h, x) :: s.Open(x))
    && (forall h, k, x | At(s, h, x) && At(s, k, x) :: h == k)
  }

  // ... and every open session is in a place.
  ghost predicate Ownership(s: State) {
    Held(s) && forall x | s.Open(x) :: exists h :: At(s, h, x)
  }

  // The thread that flipped the flag has got past wg.Wait.
  predicate Drained(s: State) {
    s.closer.Some? && s.closer.value in s.pc &&
    var p := s.pc[s.closer.value]; p.XLock? || p.XSweep? || p.XReset? || p.XUnlock? || p.Done?
  }

  // ... and has emptied the map.
  predicate WasReset(s: State) {
    s.closer.Some? && s.closer.value in s.pc &&
    var p := s.pc[s.closer.value]; p.XUnlock? || p.Done?
  }

  // Inside reconnectServer on the path that found the manager open.
  predicate PastGate(p: PC) {
    p.RRLock? || p.RLookup? || p.RCompare? || p.RDial? || p.RLock? || p.RCheck2? || p.RSwap? ||
    p.RUnlock? || p.RClose? || (p.RRelease? && p.reply.Use?) || p.KRetry?
  }

  // How a thread may have come from its place f at the flip of the flag to p.
  predicate Since(f: PC, p: PC) {
    && (Registered(f) ==> Registered(p) || p.Done?)
    && (f.KCheck? ==> p.KCheck? || p == Done(ManagerClosed))
    && (Registered(p) ==> Registered(f) || f.KLookup?)
    && (p.KLookup? ==> f.KLookup?)
  }

  predicate InClose(p: PC) {
    p.XWait? || p.XLock? || p.XSweep? || p.XReset? || p.XUnlock?
  }

  ghost predicate OneCloser(s: State)
    requires Shape(s)
  {
    && (s.closed <==> s.closer.Some?)
    && (s.closer.Some? ==> s.closer.value in s.pc && s.jobs[s.closer.value].Close? &&
                           (InClose(s.pc[s.closer.value]) || s.pc[s.closer.value].Done?))
    && (forall t | t in s.pc && InClose(s.pc[t]) :: s.closer == Some(t))
  }

  ghost predicate Sweeping(s: State) {
    && s.swept <= s.servers.Keys
    && (s.swept != {} ==> s.closer.Some? && s.closer.value in s.pc && s.writer == s.closer &&
                          (s.pc[s.closer.value].XSweep? || s.pc[s.closer.value].XReset?))
    && (forall t | t in s.pc && s.pc[t].XReset? :: s.swept == s.servers.Keys)
    && (WasReset(s) ==> s.servers == map[])
  }

  // Once wg.Wait has returned no thread is past the gate of reconnectServer, and once
  // Close holds mu no ConnectServer thread is about to publish.
  ghost predicate Gate(s: State) {
    && (Drained(s) ==> forall t | t in s.pc :: !PastGate(s.pc[t]))
    && (Drained(s) && !s.pc[s.closer.value].XLock? ==> forall t | t in s.pc :: !s.pc[t].CPublish?)
  }

  // What became of the threads that were already running when the flag flipped.
  ghost predicate Drain(s: State) {
    s.closed ==>
      && s.flip.Keys == s.pc.Keys
      && (forall t | t in s.pc :: Since(s.flip[t], s.pc[t]))
      && (Drained(s) ==> forall t | t in s.pc && Registered(s.flip[t]) :: s.pc[t].Done?)
  }

  ghost predicate InChain(s: State, n: Name, x: Sid) {
    x in s.Links(n)
  }

  predicate Distinct(links: seq<Sid>) {
    forall i, j | 0 <= i < j < |links| :: links[i] != links[j]
  }

  // y was published under n after x was.
  ghost predicate Later(links: seq<Sid>, x: Sid, y: Sid) {
    exists i, j :: 0 <= i < j < |links| && links[i] == x && links[j] == y
  }

  // A connection is published at most once, under one name, and only after it was opened.
  ghost predicate Linked(s: State) {
    && (forall n, m, x | InChain(s, n, x) && InChain(s, m, x) :: n == m)
    && (forall n, x | InChain(s, n, x) :: x in s.closes)
    && (forall n :: Distinct(s.Links(n)))
    && (forall n, x, t | t in s.pc && x in Pending(s.pc[t]) :: !InChain(s, n, x))
  }

  // A ConnectServer thread that has not published yet and may still do so.
  predicate Connecting(s: State, t: Tid)
    requires t in s.pc && t in s.jobs
  {
    s.jobs[t].Connect? && !s.pc[t].CUnlock? && !s.pc[t].Done?
  }

  // What the map shows is the last link of its chain.
  ghost predicate LastLinks(s: State) {
    forall n | n in s.servers :: |s.Links(n)| > 0 && s.servers[n] == s.Links(n)[|s.Links(n)| - 1]
  }

  // The map shows every chain, until Close empties it.
  ghost predicate Chained(s: State) {
    !WasReset(s) ==> forall n | |s.Links(n)| > 0 :: n in s.servers
  }

  // Sessions that a thread means to publish.
  function Pending(p: PC): set<Sid> {
    match p
    case CLock(s) => {s}
    case CCheck(s) => {s}
    case CPublish(s) => {s}
    case CClose(s) => {s}
    case RLock(_, f) => {f}
    case RCheck2(_, f) => {f}
    case RSwap(_, f) => {f}
    case _ => {}
  }

  // The connection a CallTool thread works on.
  function Working(p: PC): Option<Sid> {
    if p.KFound? || p.KCall? || p.RLockMu? || InReconnect(p) || p.KRetry? then Some(p.c) else None
  }

  // reconnectServer has found its connection still current and is about to replace it.
  predicate Committed(p: PC) {
    p.RDial? || p.RLock? || p.RCheck2? || p.RSwap?
  }

  function ReplyOf(p: PC): Option<Reply> {
    if p.RUnlock? || p.RClose? || p.RRelease? then Some(p.reply) else None
  }

  // A CallTool thread works on a published connection; what reconnectServer returns is a later
  // link of the chain, and never that there is none.
  ghost predicate MovesOn(s: State, n: Name, p: PC) {
    && (Working(p).Some? ==> InChain(s, n, Working(p).value))
    && (p.RCompare? ==> p.cur == Entry(s, n) && p.cur.Some?)
    && (ReplyOf(p).Some? && ReplyOf(p).value.Use? ==> Later(s.Links(n), p.c, ReplyOf(p).value.conn))
    && ReplyOf(p) != Some(GiveUp(ServerNotFound))
  }

  ghost predicate Forward(s: State)
    requires Shape(s)
  {
    forall t | t in s.pc && s.jobs[t].Call? :: MovesOn(s, s.jobs[t].name, s.pc[t])
  }

  // At most one ConnectServer is called for the name.
  predicate OneConnect(jobs: map<Tid, Job>, n: Name) {
    forall t, u | t in jobs && u in jobs && jobs[t] == Connect(n) && jobs[u] == Connect(n) :: t == u
  }

  // Nobody is on the way to publishing under the name once something is, and whoever is about to
  // replace a connection of the name finds it in the map.
  ghost predicate Unrivalled(s: State, n: Name)
    requires Shape(s)
  {
    && (forall t | t in s.pc && Connecting(s, t) && s.jobs[t].name == n :: |s.Links(n)| == 0)
    && (forall t | t in s.pc && s.jobs[t] == Call(n) && Committed(s.pc[t]) :: Entry(s, n) == Some(s.pc[t].c))
  }

  // The part of the invariant that needs no two ConnectServer calls to differ in name.
  ghost predicate Safe(s: State) {
    && Shape(s) && Locks(s) && Counted(s) && Held(s) && OneCloser(s) && Sweeping(s) && Gate(s) && Drain(s)
    && Linked(s) && LastLinks(s) && Chained(s) && Forward(s)
  }

  ghost predicate NoRivals(s: State)
    requires Shape(s)
  {
    forall n :: Unrivalled(s, n)
  }

  ghost predicate Inv(s: State) {
    Safe(s) && DistinctNames(s.jobs) && Ownership(s) && NoRivals(s)
  }

  // ----- what a move may do, read off the program counters alone -----

  predicate LockMove(p: PC, m: Move) {
    && HoldsWrite(m.to) == (m.effect.TakeWrite? || (HoldsWrite(p) && !m.effect.DropWrite?))
    && (m.effect.TakeWrite? ==> AwaitsWrite(p))
    && (m.effect.DropWrite? ==> HoldsWrite(p))
    && HoldsRead(m.to) == (m.effect.TakeRead? || (HoldsRead(p) && !m.effect.DropRead?))
    && (m.effect.TakeRead? ==> AwaitsRead(p))
    && (m.effect.DropRead? ==> HoldsRead(p))
    && InReconnect(m.to) == (m.effect.TakeMutex? || (InReconnect(p) && !m.effect.DropMutex?))
    && (InReconnect(p) && InReconnect(m.to) ==> m.to.c == p.c)
    && (m.effect.TakeMutex? ==> p == RLockMu(m.effect.conn) && m.to.c == m.effect.conn)
    && (m.effect.DropMutex? ==> InReconnect(p) && p.c == m.effect.conn)
    && Registered(m.to) == (m.effect.WgAdd? || (Registered(p) && !m.effect.WgDone?))
    && (m.effect.WgAdd? ==> !Registered(p))
    && (m.effect.WgDone? ==> Registered(p))
  }

  predicate ClosingMove(p: PC, e: Event, closed: bool, m: Move) {
    && (m.effect.Flip? <==> m.to.XWait?)
    && (m.effect.Flip? ==> p.XFlip? && !closed)
    && (m.to.XLock? ==> p.XWait?)
    && (m.to.XSweep? ==> p.XLock? || p.XSweep?)
    && (m.to.XReset? ==> p.XSweep? && !e.Sweep?)
    && (m.to.XUnlock? <==> m.effect.ResetMap?)
    && (m.effect.ResetMap? ==> p.XReset?)
    && (m.effect.SweepEntry? ==> p.XSweep? && m.to.XSweep? && e == Sweep(m.effect.name))
    && (p.XWait? ==> m.to.XLock?) && (p.XLock? ==> m.to.XSweep?) && (p.XReset? ==> m.to.XUnlock?)
    && (p.XSweep? ==> m.to.XSweep? || m.to.XReset?) && (p.XUnlock? ==> m.to.Done?)
    && !m.to.XFlip?
    && (PastGate(m.to) ==> PastGate(p) || (p.RCheck? && !closed))
    && (m.to.CPublish? ==> p.CCheck? && !closed)
    && (m.effect.Publish? ==> p.CPublish? || p.RSwap?)
  }

  predicate DrainMove(p: PC, closed: bool, m: Move) {
    && (Registered(m.to) ==> Registered(p) || p.KLookup?)
    && (Registered(p) ==> Registered(m.to) || m.to.Done?)
    && (p.KCheck? && closed ==> m.to == Done(ManagerClosed))
    && !m.to.KCheck?
    && (m.to.KLookup? ==> !closed)
  }

  predicate SessionMove(p: PC, e: Event, cur: Option<Sid>, m: Move) {
    && Owned(m.to) == (match m.effect
                       case OpenSession(x) => Owned(p) + {x}
                       case CloseSession(x) => Owned(p) - {x}
                       case Publish(x) => if p.RSwap? then {p.c} else {}
                       case _ => Owned(p))
    && (m.effect.CloseSession? ==> m.effect.x in Owned(p))
    && (m.effect.Publish? ==> Owned(p) == {m.effect.x} && Pending(p) == {m.effect.x})
    && (m.effect.OpenSession? ==> Pending(m.to) == {m.effect.x})
    && (!m.effect.OpenSession? ==> Pending(m.to) <= Pending(p))
    && (m.effect.Publish? ==> Pending(m.to) == {} && (p.CPublish? || p.RSwap?) && !m.to.CPublish?)
    && (p.CPublish? ==> m.to.CUnlock?)
    && (p.CUnlock? ==> m.to.Done?)
    && (p.RSwap? && cur == Some(p.c) ==> m.effect.Publish?)
    && (p.RSwap? && m.effect.Publish? ==> cur == Some(p.c))
    && (m.effect.OpenSession? ==> (p.CDial? || p.RDial?) && e == Opened(m.effect.x))
    && (m.effect.OpenAndClose? ==> (p.CDial? || p.RDial?) && e == ToolsFailed(m.effect.x))
  }

  predicate ReplyMove(p: PC, cur: Option<Sid>, m: Move) {
    && (Working(m.to).Some? ==>
          || Working(p) == Working(m.to)
          || (m.effect.WgAdd? && cur == Working(m.to))
          || (p.RRelease? && p.reply == Use(m.to.c)))
    && (Committed(m.to) ==>
      (Committed(p) && m.to.c == p.c && !m.effect.Publish?) || (p.RCompare? && p.cur == Some(p.c) && m.to.c == p.c))
    && (m.to.RCompare? ==> m.to.cur == cur && p.RLookup?)
    && (ReplyOf(m.to).Some? ==>
          || ReplyOf(p) == ReplyOf(m.to)
          || ReplyOf(m.to).value in {GiveUp(ManagerClosed), GiveUp(DialError)}
          || (p.RCompare? && p.cur.None?)
          || (p.RCompare? && p.cur.Some? && p.cur.value != p.c && ReplyOf(m.to).value == Use(p.cur.value))
          || (p.RSwap? && cur.None?)
          || (p.RSwap? && cur.Some? && cur.value != p.c && ReplyOf(m.to).value == Use(cur.value))
          || (p.RSwap? && m.effect == Publish(p.f) && ReplyOf(m.to).value == Use(p.f)))
  }

  // Moves as far as locks, the wait group and the phases of Close are concerned ...
  predicate SharedMove(j: Job, p: PC, e: Event, closed: bool, m: Move) {
    Fits(j, m.to) && LockMove(p, m) && ClosingMove(p, e, closed, m) && DrainMove(p, closed, m)
  }

  // ... and as far as connections and sessions are.
  predicate ConnMove(p: PC, e: Event, cur: Option<Sid>, m: Move) {
    SessionMove(p, e, cur, m) && ReplyMove(p, cur, m)
  }

  lemma ConnectLocks(j: Job, p: PC, e: Event, closed: bool, cur: Option<Sid>)
    requires j.Connect? && Fits(j, p)
    ensures Fits(j, ConnectMove(p, e, closed).to) && LockMove(p, ConnectMove(p, e, closed))
    ensures ReplyMove(p, cur, ConnectMove(p, e, closed))
  {
  }

  lemma ConnectPhases(j: Job, p: PC, e: Event, closed: bool)
    requires j.Connect? && Fits(j, p)
    ensures ClosingMove(p, e, closed, ConnectMove(p, e, closed)) && DrainMove(p, closed, ConnectMove(p, e, closed))
  {
  }

  lemma ConnectSessions(j: Job, p: PC, e: Event, closed: bool, cur: Option<Sid>)
    requires j.Connect? && Fits(j, p)
    ensures SessionMove(p, e, cur, ConnectMove(p, e, closed))
  {
  }

  lemma CallLocks(j: Job, p: PC, e: Event, closed: bool, cur: Option<Sid>)
    requires j.Call? && Fits(j, p) && !InReconnect(p)
    ensures Fits(j, CallMove(p, e, closed, cur).to) && LockMove(p, CallMove(p, e, closed, cur))
  {
  }

  lemma CallReplies(j: Job, p: PC, e: Event, closed: bool, cur: Option<Sid>)
    requires j.Call? && Fits(j, p) && !InReconnect(p)
    ensures ReplyMove(p, cur, CallMove(p, e, closed, cur))
  {
  }

  lemma CallPhases(j: Job, p: PC, e: Event, closed: bool, cur: Option<Sid>)
    requires j.Call? && Fits(j, p) && !InReconnect(p)
    ensures ClosingMove(p, e, closed, CallMove(p, e, closed, cur)) && DrainMove(p, closed, CallMove(p, e, closed, cur))
  {
  }

  lemma CallSessions(j: Job, p: PC, e: Event, closed: bool, cur: Option<Sid>)
    requires j.Call? && Fits(j, p) && !InReconnect(p)
    ensures SessionMove(p, e, cur, CallMove(p, e, closed, cur))
  {
  }

  lemma ReconnectLocks(j: Job, p: PC, e: Event, closed: bool, cur: Option<Sid>)
    requires j.Call? && InReconnect(p)
    ensures Fits(j, ReconnectMove(p, e, closed, cur).to) && LockMove(p, ReconnectMove(p, e, closed, cur))
    ensures ReplyMove(p, cur, ReconnectMove(p, e, closed, cur))
  {
  }

  lemma ReconnectPhases(j: Job, p: PC, e: Event, closed: bool, cur: Option<Sid>)
    requires j.Call? && InReconnect(p)
    ensures ClosingMove(p, e, closed, ReconnectMove(p, e, closed, cur))
        && DrainMove(p, closed, ReconnectMove(p, e, closed, cur))
  {
  }

  lemma ReconnectSessions(j: Job, p: PC, e: Event, closed: bool, cur: Option<Sid>)
    requires j.Call? && InReconnect(p)
    ensures SessionMove(p, e, cur, ReconnectMove(p, e, closed, cur))
  {
  }

  lemma CloseLocks(j: Job, p: PC, e: Event, closed: bool, cur: Option<Sid>)
    requires j.Close? && Fits(j, p)
    ensures Fits(j, CloseMove(p, e, closed).to) && LockMove(p, CloseMove(p, e, closed))
    ensures ReplyMove(p, cur, CloseMove(p, e, closed))
  {
  }

  lemma ClosePhases(j: Job, p: PC, e: Event, closed: bool)
    requires j.Close? && Fits(j, p)
    ensures ClosingMove(p, e, closed, CloseMove(p, e, closed)) && DrainMove(p, closed, CloseMove(p, e, closed))
  {
  }

  lemma CloseSessions(j: Job, p: PC, e: Event, closed: bool, cur: Option<Sid>)
    requires j.Close? && Fits(j, p)
    ensures SessionMove(p, e, cur, CloseMove(p, e, closed))
  {
  }

  ghost predicate GoodMove(s: State, t: Tid, e: Event, m: Move) {
    && Shape(s) && t in s.pc && Enabled(s, t, e)
    && SharedMove(s.jobs[t], s.pc[t], e, s.closed, m)
    && ConnMove(s.pc[t], e, Entry(s, NameOf(s.jobs[t])), m)
  }

  lemma AllMovesGood(s: State, t: Tid, e: Event)
    requires Shape(s) && Enabled(s, t, e)
    ensures GoodMove(s, t, e, MoveOf(s, t, e))
  {
    var j, p, cur := s.jobs[t], s.pc[t], Entry(s, NameOf(s.jobs[t]));
    match j {
      case Connect(_) =>
        ConnectLocks(j, p, e, s.closed, cur); ConnectPhases(j, p, e, s.closed); ConnectSessions(j, p, e, s.closed, cur);
      case Close =>
        CloseLocks(j, p, e, s.closed, cur); ClosePhases(j, p, e, s.closed); CloseSessions(j, p, e, s.closed, cur);
      case Call(_) =>
        if InReconnect(p) {
          ReconnectLocks(j, p, e, s.closed, cur); ReconnectPhases(j, p, e, s.closed, cur);
          ReconnectSessions(j, p, e, s.closed, cur);
        } else {
          CallLocks(j, p, e, s.closed, cur); CallReplies(j, p, e, s.closed, cur);
          CallPhases(j, p, e, s.closed, cur); CallSessions(j, p, e, s.closed, cur);
        }
    }
  }

  // ----- preservation -----

  lemma RegisteredStep(pc: map<Tid, PC>, t: Tid, p: PC)
    requires t in pc
    ensures |RegisteredThreads(pc[t := p])| ==
            |RegisteredThreads(pc)| - (if Registered(pc[t]) then 1 else 0) + (if Registered(p) then 1 else 0)
  {
    hide Registered;
    var rest := RegisteredThreads(pc) - {t};
    assert RegisteredThreads(pc) == if Registered(pc[t]) then rest + {t} else rest;
    assert RegisteredThreads(pc[t := p]) == if Registered(p) then rest + {t} else rest;
  }

  lemma ShapeKept(s: State, t: Tid, e: Event, m: Move)
    requires GoodMove(s, t, e, m)
    ensures Shape(After(s, t, m)) && After(s, t, m).jobs == s.jobs
  {
    hide Fits, LockMove, ClosingMove, DrainMove, ConnMove, Ready, Offered;
  }

  lemma LocksKept(s: State, t: Tid, e: Event, m: Move)
    requires GoodMove(s, t, e, m) && Locks(s)
    ensures Locks(After(s, t, m))
  {
    hide Fits, HoldsWrite, HoldsRead, InReconnect, Registered, ClosingMove, DrainMove, ConnMove;
  }

  lemma CountedKept(s: State, t: Tid, e: Event, m: Move)
    requires GoodMove(s, t, e, m) && Counted(s)
    ensures Counted(After(s, t, m))
  {
    hide Fits, HoldsWrite, HoldsRead, InReconnect, Registered, ClosingMove, DrainMove, ConnMove;
    RegisteredStep(s.pc, t, m.to);
  }

  lemma NoneRegistered(s: State)
    requires Counted(s) && s.wg == 0
    ensures forall u | u in s.pc :: !Registered(s.pc[u]) && !PastGate(s.pc[u])
  {
    assert forall u | u in s.pc :: u in RegisteredThreads(s.pc) <==> Registered(s.pc[u]);
  }

  lemma OneCloserKept(s: State, t: Tid, e: Event, m: Move)
    requires GoodMove(s, t, e, m) && OneCloser(s)
    ensures Shape(After(s, t, m)) && OneCloser(After(s, t, m))
  {
    assert s.pc[t].XFlip? ==> s.jobs[t].Close?;
    hide Fits, LockMove, DrainMove, ConnMove, PastGate, ServersAfter, ReadersAfter, ReconnectAfter, ClosesAfter;
    ShapeKept(s, t, e, m);
  }

  lemma SweptAll(s: State)
    requires s.swept <= s.servers.Keys
    ensures s.Live() == {} ==> s.swept == s.servers.Keys
  {
    assert s.servers.Keys == s.Live() + s.swept;
  }

  lemma SweepParts(s: State, t: Tid, m: Move)
    requires t in s.pc && t in s.jobs && !m.effect.Publish?
    ensures After(s, t, m).pc == s.pc[t := m.to]
    ensures After(s, t, m).closer == if m.effect.Flip? then Some(t) else s.closer
    ensures After(s, t, m).writer ==
            if m.effect.TakeWrite? then Some(t) else if m.effect.DropWrite? then None else s.writer
    ensures After(s, t, m).servers == if m.effect.ResetMap? then map[] else s.servers
    ensures After(s, t, m).swept ==
            if m.effect.SweepEntry? then s.swept + {m.effect.name} else if m.effect.ResetMap? then {} else s.swept
  {
  }

  // Close sweeps and empties the map with mu held, and is the only one to do so.
  lemma CloseHoldsMu(s: State, t: Tid, e: Event, m: Move)
    requires GoodMove(s, t, e, m) && Locks(s) && OneCloser(s)
    requires InClose(s.pc[t]) || s.pc[t].XFlip?
    ensures !m.effect.Publish? && !m.to.XFlip?
    ensures m.effect.Flip? <==> m.to.XWait?
    ensures m.effect.Flip? ==> s.closer == None && s.pc[t].XFlip?
    ensures m.to.XSweep? ==> s.pc[t].XLock? || s.pc[t].XSweep?
    ensures m.to.XLock? ==> s.pc[t].XWait?
    ensures InClose(s.pc[t]) ==> s.closer == Some(t)
    ensures s.pc[t].XFlip? ==> (m.to.XWait? || m.to.Done?) && !m.effect.DropWrite?
    ensures s.pc[t].XSweep? || s.pc[t].XReset? ==> s.writer == Some(t)
    ensures m.to.XSweep? || m.to.XReset? || s.pc[t].XReset? ==> !m.effect.DropWrite?
    ensures m.effect.TakeWrite? ==> s.pc[t].XLock?
    ensures m.effect.SweepEntry? ==> s.pc[t].XSweep? && m.to.XSweep? && m.effect.name in s.Live()
    ensures m.to.XReset? ==> s.pc[t].XSweep? && s.Live() == {} && !m.effect.SweepEntry?
    ensures m.to.XUnlock? <==> m.effect.ResetMap?
    ensures m.effect.ResetMap? ==> s.pc[t].XReset?
    ensures m.to.Done? ==> s.pc[t].XFlip? || s.pc[t].XUnlock?
    ensures m.to.XSweep? || m.to.XReset? || m.to.XUnlock? || m.to.XLock? || m.to.XWait? || m.to.Done?
  {
    assert s.jobs[t].Close? && Fits(s.jobs[t], m.to);
    assert HoldsWrite(s.pc[t]) <==> s.writer == Some(t);
    hide ConnMove, DrainMove, After;
  }

  lemma SweepingKeptByClose(s: State, t: Tid, e: Event, m: Move)
    requires GoodMove(s, t, e, m) && Locks(s) && OneCloser(s) && Sweeping(s)
    requires InClose(s.pc[t]) || s.pc[t].XFlip?
    ensures Sweeping(After(s, t, m))
  {
    hide After, SharedMove, ConnMove, Enabled, Locks, Fits;
    SweptAll(s);
    CloseHoldsMu(s, t, e, m);
    SweepParts(s, t, m);
  }

  // A thread that is not inside Close touches the map only by publishing, with mu held.
  lemma OthersLeaveSweepAlone(s: State, t: Tid, e: Event, m: Move)
    requires GoodMove(s, t, e, m) && Locks(s) && OneCloser(s) && Sweeping(s) && Gate(s)
    requires !(InClose(s.pc[t]) || s.pc[t].XFlip?)
    ensures !m.effect.Flip? && !m.effect.SweepEntry? && !m.effect.ResetMap? && !InClose(m.to)
    ensures m.effect.Publish? ==> s.writer == Some(t) && !WasReset(s)
    ensures m.effect.DropWrite? ==> s.writer == Some(t)
    ensures m.effect.TakeWrite? ==> s.writer == None
  {
    assert m.effect.Publish? ==> HoldsWrite(s.pc[t]) && (s.pc[t].RSwap? ==> PastGate(s.pc[t]));
  }

  lemma SweepingKeptByOthers(s: State, t: Tid, e: Event, m: Move)
    requires GoodMove(s, t, e, m) && Locks(s) && OneCloser(s) && Sweeping(s) && Gate(s)
    requires !(InClose(s.pc[t]) || s.pc[t].XFlip?)
    ensures Sweeping(After(s, t, m))
  {
    assert forall u | u in s.pc && s.pc[u].XReset? :: HoldsWrite(s.pc[u]);
    hide Fits, HoldsWrite, HoldsRead, InReconnect, Registered, PastGate, SharedMove, ConnMove, Enabled, Gate;
    OthersLeaveSweepAlone(s, t, e, m);
  }

  lemma SweepingKept(s: State, t: Tid, e: Event, m: Move)
    requires GoodMove(s, t, e, m) && Locks(s) && OneCloser(s) && Sweeping(s) && Gate(s)
    ensures Sweeping(After(s, t, m))
  {
    if InClose(s.pc[t]) || s.pc[t].XFlip? {
      SweepingKeptByClose(s, t, e, m);
    } else {
      SweepingKeptByOthers(s, t, e, m);
    }
  }

  lemma CloseWaits(s: State, t: Tid, e: Event, m: Move)
    requires GoodMove(s, t, e, m) && OneCloser(s)
    requires InClose(s.pc[t]) || s.pc[t].XFlip?
    ensures !PastGate(m.to) && !m.to.CPublish?
    ensures s.pc[t].XWait? ==> s.wg == 0
    ensures s.pc[t].XLock? ==> s.writer == None
  {
    assert s.jobs[t].Close? && Fits(s.jobs[t], m.to);
    hide ConnMove, LockMove, After;
  }

  lemma GateKeptByClose(s: State, t: Tid, e: Event, m: Move)
    requires GoodMove(s, t, e, m) && Locks(s) && Counted(s) && OneCloser(s) && Gate(s)
    requires InClose(s.pc[t]) || s.pc[t].XFlip?
    ensures Gate(After(s, t, m))
  {
    hide After, SharedMove, ConnMove, Enabled, Fits, HoldsRead, InReconnect, Registered, PastGate, Counted;
    CloseHoldsMu(s, t, e, m);
    CloseWaits(s, t, e, m);
    SweepParts(s, t, m);
    if s.pc[t].XWait? {
      NoneRegistered(s);
    }
    assert forall u | u in s.pc && s.pc[u].CPublish? :: HoldsWrite(s.pc[u]);
  }

  lemma GateKept(s: State, t: Tid, e: Event, m: Move)
    requires GoodMove(s, t, e, m) && Locks(s) && Counted(s) && OneCloser(s) && Gate(s)
    ensures Gate(After(s, t, m))
  {
    if InClose(s.pc[t]) || s.pc[t].XFlip? {
      GateKeptByClose(s, t, e, m);
    } else {
      hide Enabled, Fits, HoldsWrite, HoldsRead, InReconnect, Registered, PastGate, Locks, LockMove, DrainMove,
          ConnMove;
    }
  }

  lemma SinceKept(f: PC, p: PC, m: Move)
    requires Since(f, p) && !p.Done? && DrainMove(p, true, m)
    ensures Since(f, m.to)
  {
  }

  lemma AllReturned(s: State)
    requires Counted(s) && s.wg == 0 && s.closed && Drain(s)
    ensures forall t | t in s.pc && Registered(s.flip[t]) :: s.pc[t].Done?
  {
    NoneRegistered(s);
  }

  lemma DrainKept(s: State, t: Tid, e: Event, m: Move)
    requires GoodMove(s, t, e, m) && Counted(s) && OneCloser(s) && Drain(s)
    ensures Drain(After(s, t, m))
  {
    hide Fits, HoldsWrite, HoldsRead, InReconnect, Registered, PastGate, LockMove, ConnMove, Since, DrainMove;
    if s.closed {
      SinceKept(s.flip[t], s.pc[t], m);
      if s.wg == 0 {
        AllReturned(s);
      }
    } else {
      SinceFlip(s, s.pc[t], m.to);
    }
  }

  lemma SinceFlip(s: State, p: PC, q: PC)
    ensures forall t | t in s.pc :: Since(s.pc[t], s.pc[t])
    ensures p.XFlip? && q.XWait? ==> Since(p, q)
  {
  }

  lemma LinksAfter(s: State, t: Tid, m: Move, n: Name)
    requires t in s.pc && t in s.jobs
    ensures After(s, t, m).Links(n) ==
            if m.effect.Publish? && n == NameOf(s.jobs[t]) then s.Links(n) + [m.effect.x] else s.Links(n)
  {
  }

  lemma DistinctSnoc(links: seq<Sid>, x: Sid)
    requires Distinct(links) && x !in links
    ensures Distinct(links + [x])
  {
  }

  lemma LinkedKeptByPublish(s: State, t: Tid, e: Event, m: Move)
    requires GoodMove(s, t, e, m) && Held(s) && Linked(s) && m.effect.Publish?
    ensures Linked(After(s, t, m))
  {
    var s', x := After(s, t, m), m.effect.x;
    assert x in Owned(s.pc[t]) && x in Pending(s.pc[t]);
    assert forall u | u in s.pc :: Pending(s.pc[u]) <= Owned(s.pc[u]);
    hide Fits, HoldsWrite, HoldsRead, InReconnect, Registered, PastGate, Owned, Pending, SharedMove, ReplyMove, Enabled;
    forall n
      ensures Distinct(s'.Links(n))
      ensures forall y | InChain(s', n, y) :: InChain(s, n, y) || (y == x && n == NameOf(s.jobs[t]))
    {
      LinksAfter(s, t, m, n);
      assert !InChain(s, n, x);
      if n == NameOf(s.jobs[t]) {
        DistinctSnoc(s.Links(n), x);
      }
    }
    assert At(s, Hand(t), x);
    OneHand(s, t, x);
  }

  lemma OneHand(s: State, t: Tid, x: Sid)
    requires Held(s) && t in s.pc && x in Owned(s.pc[t])
    ensures forall u | u in s.pc && x in Owned(s.pc[u]) :: u == t
  {
    assert At(s, Hand(t), x);
    forall u | u in s.pc && x in Owned(s.pc[u])
      ensures u == t
    {
      assert At(s, Hand(u), x);
    }
  }

  lemma LinkedKept(s: State, t: Tid, e: Event, m: Move)
    requires GoodMove(s, t, e, m) && Held(s) && Linked(s)
    ensures Linked(After(s, t, m))
  {
    if m.effect.Publish? {
      LinkedKeptByPublish(s, t, e, m);
    } else {
      var s' := After(s, t, m);
      assert forall y | y in Pending(m.to) :: y in Pending(s.pc[t]) || y !in s.closes;
      hide Fits, HoldsWrite, HoldsRead, InReconnect, Registered, PastGate, Owned, Pending, SharedMove, ReplyMove,
           SessionMove, Enabled;
      assert forall n :: s'.Links(n) == s.Links(n);
      assert forall n, x :: InChain(s', n, x) <==> InChain(s, n, x);
    }
  }

  lemma PublishParts(s: State, t: Tid, m: Move)
    requires t in s.pc && t in s.jobs && m.effect.Publish?
    ensures After(s, t, m).servers == s.servers[NameOf(s.jobs[t]) := m.effect.x]
    ensures After(s, t, m).jobs == s.jobs && After(s, t, m).pc == s.pc[t := m.to]
  {
  }

  // An action that publishes nothing empties the map or leaves it alone, and brings nobody back
  // on the way to publishing.
  lemma NothingPublished(s: State, t: Tid, e: Event, m: Move)
    requires GoodMove(s, t, e, m) && OneCloser(s) && !m.effect.Publish?
    ensures After(s, t, m).jobs == s.jobs && After(s, t, m).pc == s.pc[t := m.to]
    ensures After(s, t, m).servers == s.servers || (After(s, t, m).servers == map[] && WasReset(After(s, t, m)))
    ensures WasReset(s) ==> WasReset(After(s, t, m))
    ensures s.jobs[t].Connect? && !m.to.CUnlock? && !m.to.Done? ==> Connecting(s, t)
  {
    hide LockMove, DrainMove, ReplyMove;
    assert s.pc[t].CUnlock? ==> m.to.Done?;
    assert !s.pc[t].Done?;
  }

  // Nothing brings the map back once Close has emptied it.
  lemma ResetStays(s: State, t: Tid, e: Event, m: Move)
    requires GoodMove(s, t, e, m) && OneCloser(s)
    ensures WasReset(s) ==> WasReset(After(s, t, m))
    ensures m.effect.ResetMap? ==> WasReset(After(s, t, m))
  {
    hide LockMove, DrainMove, ConnMove;
  }

  lemma ChainedKept(s: State, t: Tid, e: Event, m: Move)
    requires GoodMove(s, t, e, m) && OneCloser(s) && Chained(s)
    ensures Chained(After(s, t, m))
  {
    hide After, State.Links, WasReset, OneCloser, SharedMove, ConnMove, Fits, Enabled;
    ResetStays(s, t, e, m);
    if m.effect.Publish? {
      PublishParts(s, t, m);
    } else {
      NothingPublished(s, t, e, m);
    }
    forall n
      ensures |After(s, t, m).Links(n)| > 0 ==> |s.Links(n)| > 0 || (m.effect.Publish? && n == NameOf(s.jobs[t]))
    {
      LinksAfter(s, t, m, n);
    }
  }

  lemma LaterSnoc(links: seq<Sid>, x: Sid, y: Sid, z: Sid)
    ensures Later(links, x, y) ==> Later(links + [z], x, y)
    ensures x in links ==> Later(links + [z], x, z)
  {
    if Later(links, x, y) {
      var i, j :| 0 <= i < j < |links| && links[i] == x && links[j] == y;
      assert (links + [z])[i] == x && (links + [z])[j] == y;
    }
    if x in links {
      var i :| 0 <= i < |links| && links[i] == x;
      assert (links + [z])[i] == x && (links + [z])[|links|] == z;
    }
  }

  lemma LaterThanOldLink(links: seq<Sid>, x: Sid)
    requires x in links && x != links[|links| - 1]
    ensures Later(links, x, links[|links| - 1])
  {
    var i :| 0 <= i < |links| && links[i] == x;
  }

  ghost predicate ForwardStep(s: State, t: Tid, e: Event, m: Move) {
    GoodMove(s, t, e, m) && Locks(s) && OneCloser(s) && Gate(s) && LastLinks(s) && Chained(s) && Forward(s)
  }

  // What an action of t leaves of the facts about another thread u.
  lemma MovesOnOther(s: State, t: Tid, e: Event, m: Move, u: Tid)
    requires ForwardStep(s, t, e, m) && u in s.pc && u != t && s.jobs[u].Call?
    ensures MovesOn(After(s, t, m), s.jobs[u].name, s.pc[u])
  {
    var n, p, s' := s.jobs[u].name, s.pc[u], After(s, t, m);
    LinksAfter(s, t, m, n);
    if m.effect.Publish? && ReplyOf(p).Some? && ReplyOf(p).value.Use? {
      LaterSnoc(s.Links(n), p.c, ReplyOf(p).value.conn, m.effect.x);
    }
    assert p.RCompare? ==> HoldsRead(p);
    assert m.effect.Publish? ==> HoldsWrite(s.pc[t]);
    assert m.effect.ResetMap? ==> HoldsWrite(s.pc[t]);
    hide Fits, HoldsWrite, HoldsRead, InReconnect, Registered, PastGate, Owned, Pending, Working, ReplyOf, Committed,
         Enabled, LockMove, DrainMove, ConnMove;
  }

  // Past the gate of reconnectServer the map still shows the chain that the thread works on.
  lemma FindsTip(s: State, t: Tid)
    requires Shape(s) && Gate(s) && LastLinks(s) && Chained(s) && Forward(s)
    requires t in s.pc && s.jobs[t].Call? && PastGate(s.pc[t]) && Working(s.pc[t]).Some?
    ensures var links := s.Links(s.jobs[t].name);
            |links| > 0 && Entry(s, s.jobs[t].name) == Some(links[|links| - 1]) && Working(s.pc[t]).value in links
  {
    assert InChain(s, s.jobs[t].name, Working(s.pc[t]).value);
    assert !WasReset(s);
  }

  // ... and of the facts about itself.
  lemma MovesOnSelf(s: State, t: Tid, e: Event, m: Move)
    requires ForwardStep(s, t, e, m) && s.jobs[t].Call?
    ensures MovesOn(After(s, t, m), s.jobs[t].name, m.to)
  {
    var n, p, s' := s.jobs[t].name, s.pc[t], After(s, t, m);
    LinksAfter(s, t, m, n);
    if p.RSwap? || p.RLookup? || p.RCompare? {
      FindsTip(s, t);
    }
    if p.RSwap? {
      LaterSnoc(s.Links(n), p.c, p.c, p.f);
    }
    if (p.RSwap? && Entry(s, n) != Some(p.c)) || (p.RCompare? && p.cur != Some(p.c)) {
      LaterThanOldLink(s.Links(n), p.c);
    }
    hide SharedMove, Offered, Ready;
  }

  lemma ForwardKept(s: State, t: Tid, e: Event, m: Move)
    requires ForwardStep(s, t, e, m)
    ensures Shape(After(s, t, m)) && Forward(After(s, t, m))
  {
    ShapeKept(s, t, e, m);
    forall u | u in s.pc && s.jobs[u].Call?
      ensures MovesOn(After(s, t, m), s.jobs[u].name, After(s, t, m).pc[u])
    {
      if u == t {
        MovesOnSelf(s, t, e, m);
      } else {
        MovesOnOther(s, t, e, m, u);
      }
    }
    hide MovesOn, GoodMove, ForwardStep;
  }

  // Who holds session x after a move, in terms of who held it before.
  predicate Moved(s: State, t: Tid, m: Move, h: Place, x: Sid)
    requires t in s.pc && t in s.jobs
  {
    match m.effect
    case OpenSession(y) => At(s, h, x) || (h == Hand(t) && x == y)
    case CloseSession(y) => At(s, h, x) && !(h == Hand(t) && x == y)
    case Publish(y) =>
      if h == Slot(NameOf(s.jobs[t])) then x == y
      else if h == Hand(t) then s.pc[t].RSwap? && x == s.pc[t].c
      else At(s, h, x)
    case SweepEntry(n) => At(s, h, x) && h != Slot(n)
    case _ => At(s, h, x)
  }

  lemma AtAfter(s: State, t: Tid, e: Event, m: Move, h: Place, x: Sid)
    requires GoodMove(s, t, e, m) && Sweeping(s)
    requires m.effect.Publish? ==> s.swept == {}
    ensures At(After(s, t, m), h, x) <==> Moved(s, t, m, h, x)
  {
    hide Fits, Owned, Pending, LockMove, DrainMove, ReplyMove;
  }

  lemma NotSweeping(s: State, t: Tid)
    requires Locks(s) && Sweeping(s) && t in s.pc && (s.pc[t].CPublish? || s.pc[t].RSwap?)
    ensures s.swept == {}
  {
    assert HoldsWrite(s.pc[t]);
  }

  // Whoever publishes has the session in hand; a publishing reconnectServer takes the connection
  // that it replaces into its own hands.
  lemma SlotOfPublisher(s: State, t: Tid, e: Event, m: Move, x: Sid)
    requires GoodMove(s, t, e, m) && s.swept == {} && m.effect.Publish?
    ensures At(s, Hand(t), m.effect.x)
    ensures At(s, Hand(t), x) ==> x == m.effect.x
    ensures s.pc[t].RSwap? ==> (At(s, Slot(NameOf(s.jobs[t])), x) <==> x == s.pc[t].c)
  {
  }

  // A publishing ConnectServer finds its slot empty.
  lemma SlotEmpty(s: State, t: Tid, e: Event, m: Move, x: Sid)
    requires GoodMove(s, t, e, m) && LastLinks(s) && Unrivalled(s, NameOf(s.jobs[t])) && s.pc[t].CPublish?
    ensures !At(s, Slot(NameOf(s.jobs[t])), x)
  {
    assert Connecting(s, t);
  }

  // A session that an action closes was open and at hand; one that it opens is new.
  lemma OpenAfter(s: State, t: Tid, m: Move)
    requires t in s.pc && t in s.jobs
    requires m.effect.SweepEntry? ==> m.effect.name in s.servers && s.Open(s.servers[m.effect.name])
    requires m.effect.OpenSession? || m.effect.OpenAndClose? ==> m.effect.x !in s.closes
    requires m.effect.CloseSession? ==> s.Open(m.effect.x)
    ensures forall x :: After(s, t, m).Open(x) <==>
                        (m.effect == OpenSession(x) || (s.Open(x) && ClosedBy(s, m.effect) != Some(x)))
  {
  }

  lemma ClosedWasOpen(s: State, t: Tid, e: Event, m: Move)
    requires GoodMove(s, t, e, m) && Held(s)
    ensures m.effect.CloseSession? ==> At(s, Hand(t), m.effect.x) && s.Open(m.effect.x)
    ensures m.effect.SweepEntry? ==> m.effect.name in s.servers &&
                                     var x := s.servers[m.effect.name]; At(s, Slot(m.effect.name), x) && s.Open(x)
    ensures m.effect.OpenSession? || m.effect.OpenAndClose? ==> m.effect.x !in s.closes
    ensures forall x :: After(s, t, m).Open(x) <==>
                        (m.effect == OpenSession(x) || (s.Open(x) && ClosedBy(s, m.effect) != Some(x)))
  {
    assert m.effect.CloseSession? ==> At(s, Hand(t), m.effect.x);
    assert m.effect.SweepEntry? ==> m.effect.name in s.Live() && At(s, Slot(m.effect.name), s.servers[m.effect.name]);
    hide Fits, Owned, Pending, SharedMove, ReplyMove, After;
    OpenAfter(s, t, m);
  }

  ghost predicate HeldStep(s: State, t: Tid, e: Event, m: Move) {
    GoodMove(s, t, e, m) && Locks(s) && Sweeping(s) && Held(s)
  }

  lemma PlacesOpen(s: State, t: Tid, e: Event, m: Move, h: Place, x: Sid)
    requires HeldStep(s, t, e, m) && Moved(s, t, m, h, x)
    ensures After(s, t, m).Open(x)
  {
    ClosedWasOpen(s, t, e, m);
    if m.effect.Publish? {
      NotSweeping(s, t);
      SlotOfPublisher(s, t, e, m, x);
      assert At(s, Hand(t), m.effect.x);
    }
    hide At, Owned, Pending, Enabled, SharedMove, ConnMove, Locks, Shape;
  }

  lemma PlacesUnique(s: State, t: Tid, e: Event, m: Move, h: Place, k: Place, x: Sid)
    requires HeldStep(s, t, e, m) && Moved(s, t, m, h, x) && Moved(s, t, m, k, x)
    ensures h == k
  {
    ClosedWasOpen(s, t, e, m);
    if m.effect.Publish? {
      NotSweeping(s, t);
      SlotOfPublisher(s, t, e, m, x);
    }
    hide At, Owned, Pending, Enabled, SharedMove, ConnMove, Locks, Shape;
  }

  lemma HeldKept(s: State, t: Tid, e: Event, m: Move)
    requires HeldStep(s, t, e, m)
    ensures Held(After(s, t, m))
  {
    var s' := After(s, t, m);
    if m.effect.Publish? {
      NotSweeping(s, t);
    }
    ClosedWasOpen(s, t, e, m);
    forall h, x { AtAfter(s, t, e, m, h, x); }
    forall h, x | Moved(s, t, m, h, x) { PlacesOpen(s, t, e, m, h, x); }
    forall h, k, x | Moved(s, t, m, h, x) && Moved(s, t, m, k, x) ensures h == k { PlacesUnique(s, t, e, m, h, k, x); }
    hide At, Moved, Owned, Pending, Enabled, SharedMove, ConnMove, Locks, Sweeping, Shape;
  }

  lemma PlacesExist(s: State, t: Tid, e: Event, m: Move, x: Sid) returns (h: Place)
    requires HeldStep(s, t, e, m) && Ownership(s) && LastLinks(s) && NoRivals(s) && After(s, t, m).Open(x)
    ensures Moved(s, t, m, h, x)
  {
    ClosedWasOpen(s, t, e, m);
    if m.effect == OpenSession(x) {
      return Hand(t);
    }
    h :| At(s, h, x);
    if m.effect.Publish? {
      NotSweeping(s, t);
      SlotOfPublisher(s, t, e, m, x);
      if s.pc[t].CPublish? {
        SlotEmpty(s, t, e, m, x);
      }
      if x == m.effect.x {
        h := Slot(NameOf(s.jobs[t]));
      } else if h == Slot(NameOf(s.jobs[t])) {
        h := Hand(t);
      }
    }
    hide At, Owned, Pending, Enabled, SharedMove, Locks, LastLinks, Unrivalled, Shape;
  }

  lemma OwnershipKept(s: State, t: Tid, e: Event, m: Move)
    requires HeldStep(s, t, e, m) && Ownership(s) && LastLinks(s) && NoRivals(s)
    ensures Ownership(After(s, t, m))
  {
    var s' := After(s, t, m);
    if m.effect.Publish? {
      NotSweeping(s, t);
    }
    HeldKept(s, t, e, m);
    forall x | s'.Open(x)
      ensures exists h :: At(s', h, x)
    {
      var h := PlacesExist(s, t, e, m, x);
      AtAfter(s, t, e, m, h, x);
      assert At(s', h, x);
    }
    hide At, Moved, Owned, Pending, Enabled, SharedMove, ConnMove, Locks, Sweeping, LastLinks, NoRivals, Shape;
  }

  lemma LastLinksKept(s: State, t: Tid, e: Event, m: Move)
    requires GoodMove(s, t, e, m) && OneCloser(s) && LastLinks(s)
    ensures LastLinks(After(s, t, m))
  {
    hide After, State.Links, WasReset, OneCloser, SharedMove, ConnMove, Fits, Enabled;
    var s' := After(s, t, m);
    if m.effect.Publish? {
      PublishParts(s, t, m);
    } else {
      NothingPublished(s, t, e, m);
    }
    forall n | n in s'.servers
      ensures |s'.Links(n)| > 0 && s'.servers[n] == s'.Links(n)[|s'.Links(n)| - 1]
    {
      LinksAfter(s, t, m, n);
    }
  }

  // Every transition keeps what needs no hypothesis on names ...
  lemma StepKeepsSafe(s: State, t: Tid, e: Event)
    requires Safe(s) && Enabled(s, t, e)
    ensures Safe(Next(s, t, e))
  {
    AllMovesGood(s, t, e);
    var m := MoveOf(s, t, e);
    hide After, MoveOf, GoodMove, Locks, Counted, Held, OneCloser, Sweeping, Gate, Drain, Linked, LastLinks, Chained,
         Forward, Enabled;
    ShapeKept(s, t, e, m);
    LocksKept(s, t, e, m);
    CountedKept(s, t, e, m);
    HeldKept(s, t, e, m);
    OneCloserKept(s, t, e, m);
    SweepingKept(s, t, e, m);
    GateKept(s, t, e, m);
    DrainKept(s, t, e, m);
    LinkedKept(s, t, e, m);
    LastLinksKept(s, t, e, m);
    ChainedKept(s, t, e, m);
    ForwardKept(s, t, e, m);
  }

  // ----- names that are connected once -----

  ghost predicate RivalStep(s: State, t: Tid, e: Event, m: Move, n: Name) {
    ForwardStep(s, t, e, m) && OneConnect(s.jobs, n) && Unrivalled(s, n)
  }

  // Whoever publishes under the name is a ConnectServer that is the first to do so, or a
  // reconnectServer that replaces what is there.
  lemma Publisher(s: State, t: Tid, e: Event, m: Move, n: Name)
    requires RivalStep(s, t, e, m, n) && m.effect.Publish? && n == NameOf(s.jobs[t])
    ensures if s.jobs[t].Connect? then Connecting(s, t) && s.Links(n) == [] && m.to.CUnlock?
            else s.jobs[t] == Call(n) && s.pc[t].RSwap? && Entry(s, n) == Some(s.pc[t].c) && |s.Links(n)| > 0
    ensures !Committed(m.to)
  {
    if s.pc[t].RSwap? {
      FindsTip(s, t);
    }
  }

  // Two threads are not both about to replace the same connection.
  lemma OneReplacer(s: State, t: Tid, u: Tid)
    requires Locks(s) && t in s.pc && u in s.pc && t != u && Committed(s.pc[t])
    ensures Committed(s.pc[u]) ==> s.pc[t].c != s.pc[u].c
  {
  }

  // While t publishes under the name, nobody else is about to.
  lemma RivalsGone(s: State, t: Tid, e: Event, m: Move, n: Name, u: Tid)
    requires RivalStep(s, t, e, m, n) && m.effect.Publish? && n == NameOf(s.jobs[t]) && u in s.pc && u != t
    ensures s.jobs[u] == Connect(n) ==> !Connecting(s, u)
    ensures s.jobs[u] == Call(n) ==> !Committed(s.pc[u])
  {
    Publisher(s, t, e, m, n);
    assert Committed(s.pc[u]) ==> Working(s.pc[u]) == Some(s.pc[u].c);
    assert s.jobs[u] == Call(n) && Committed(s.pc[u]) ==> InChain(s, n, s.pc[u].c);
    if s.jobs[t].Call? {
      OneReplacer(s, t, u);
    }
    hide GoodMove, Locks, OneCloser, Gate, LastLinks, Chained, MovesOn, Fits;
  }

  lemma UnrivalledAfterPublish(s: State, t: Tid, e: Event, m: Move, n: Name)
    requires RivalStep(s, t, e, m, n) && m.effect.Publish? && n == NameOf(s.jobs[t])
    ensures Shape(After(s, t, m)) && Unrivalled(After(s, t, m), n)
  {
    ShapeKept(s, t, e, m);
    PublishParts(s, t, m);
    Publisher(s, t, e, m, n);
    hide After, State.Links, Locks, OneCloser, Gate, LastLinks, Chained, SharedMove, ConnMove, Fits, Enabled, Committed;
    forall u | u in s.pc && u != t
      ensures s.jobs[u] == Connect(n) ==> !Connecting(s, u)
      ensures s.jobs[u] == Call(n) ==> !Committed(s.pc[u])
    {
      RivalsGone(s, t, e, m, n, u);
    }
  }

  // Nobody is about to replace a connection when Close empties the map.
  lemma EntryStays(s: State, t: Tid, e: Event, m: Move, n: Name, u: Tid)
    requires RivalStep(s, t, e, m, n) && !(m.effect.Publish? && n == NameOf(s.jobs[t]))
    requires u in s.pc && Committed(s.pc[u])
    ensures Entry(After(s, t, m), n) == Entry(s, n)
  {
    assert PastGate(s.pc[u]);
    hide Fits, Committed, PastGate, LockMove, DrainMove, ConnMove, Locks, LastLinks, Chained, MovesOn, Connecting;
  }

  // What a thread that publishes nothing under the name may have become.
  lemma NoNewRival(s: State, t: Tid, e: Event, m: Move, n: Name)
    requires RivalStep(s, t, e, m, n) && !(m.effect.Publish? && n == NameOf(s.jobs[t]))
    ensures s.jobs[t] == Connect(n) && !m.to.CUnlock? && !m.to.Done? ==> Connecting(s, t)
    ensures s.jobs[t] == Call(n) && Committed(m.to) ==>
              m.to.c == s.pc[t].c && Entry(s, n) == Some(m.to.c) && (Committed(s.pc[t]) || s.pc[t].RCompare?)
    ensures s.pc[t].RCompare? ==> !m.effect.ResetMap?
  {
    hide After, Locks, OneCloser, Gate, LastLinks, Chained, LockMove, DrainMove, Working, ReplyOf;
  }

  lemma UnrivalledElsewhere(s: State, t: Tid, e: Event, m: Move, n: Name)
    requires RivalStep(s, t, e, m, n) && !(m.effect.Publish? && n == NameOf(s.jobs[t]))
    ensures Shape(After(s, t, m)) && Unrivalled(After(s, t, m), n)
  {
    var s' := After(s, t, m);
    ShapeKept(s, t, e, m);
    LinksAfter(s, t, m, n);
    NoNewRival(s, t, e, m, n);
    hide GoodMove, Locks, OneCloser, Gate, LastLinks, Chained, Forward, Committed, State.Links;
    forall u | u in s.pc && s.jobs[u] == Call(n) && Committed(s'.pc[u])
      ensures Entry(s', n) == Some(s'.pc[u].c)
    {
      if Committed(s.pc[u]) {
        EntryStays(s, t, e, m, n, u);
      }
    }
  }

  lemma UnrivalledKept(s: State, t: Tid, e: Event, m: Move, n: Name)
    requires RivalStep(s, t, e, m, n)
    ensures Shape(After(s, t, m)) && Unrivalled(After(s, t, m), n)
  {
    if m.effect.Publish? && n == NameOf(s.jobs[t]) {
      UnrivalledAfterPublish(s, t, e, m, n);
    } else {
      UnrivalledElsewhere(s, t, e, m, n);
    }
  }

  lemma StepKeepsUnrivalled(s: State, t: Tid, e: Event, n: Name)
    requires Safe(s) && Enabled(s, t, e) && OneConnect(s.jobs, n) && Unrivalled(s, n)
    ensures Shape(Next(s, t, e)) && Unrivalled(Next(s, t, e), n)
  {
    AllMovesGood(s, t, e);
    hide After, MoveOf, GoodMove, Locks, OneCloser, Gate, LastLinks, Chained, Forward, Enabled, Unrivalled, OneConnect;
    UnrivalledKept(s, t, e, MoveOf(s, t, e), n);
  }

  // ... and the whole invariant.
  lemma StepKeepsInv(s: State, t: Tid, e: Event)
    requires Inv(s) && Enabled(s, t, e)
    ensures Inv(Next(s, t, e))
  {
    StepKeepsSafe(s, t, e);
    AllMovesGood(s, t, e);
    var m := MoveOf(s, t, e);
    hide After, MoveOf, GoodMove, Locks, Counted, Ownership, OneCloser, Sweeping, Gate, Drain, Linked, LastLinks,
        Chained,
         Forward, Unrivalled, Enabled;
    ShapeKept(s, t, e, m);
    OwnershipKept(s, t, e, m);
    forall n
      ensures Unrivalled(Next(s, t, e), n)
    {
      assert OneConnect(s.jobs, n);
      StepKeepsUnrivalled(s, t, e, n);
    }
  }

  // A state in which nothing has happened yet.
  ghost predicate Untouched(s: State) {
    && s.servers == map[] && s.closes == map[] && s.chain == map[] && s.swept == {}
    && s.wg == 0 && !s.closed && s.closer == None
    && (forall t | t in s.pc :: !Registered(s.pc[t]) && Owned(s.pc[t]) == {} && Pending(s.pc[t]) == {})
    && (forall t | t in s.pc :: !s.pc[t].XReset?)
  }

  lemma InitParts(jobs: map<Tid, Job>)
    ensures var s := Init(jobs); Shape(s) && Locks(s) && OneCloser(s) && Untouched(s) && s.jobs == jobs
  {
  }

  lemma UntouchedCounted(s: State)
    requires Untouched(s)
    ensures Counted(s)
  {
    forall t
      ensures t !in RegisteredThreads(s.pc)
    {
    }
    assert RegisteredThreads(s.pc) == {};
  }

  lemma UntouchedSafe(s: State)
    requires Untouched(s)
    ensures Counted(s) && Held(s) && Sweeping(s) && Gate(s) && Drain(s) && Linked(s) && LastLinks(s) && Chained(s)
  {
    hide Registered, Owned, Pending, Counted;
    UntouchedCounted(s);
    assert forall n :: s.Links(n) == [];
  }

  lemma InitForward(jobs: map<Tid, Job>)
    ensures Shape(Init(jobs)) && Forward(Init(jobs)) && NoRivals(Init(jobs))
  {
    assert forall n :: Init(jobs).Links(n) == [];
  }

  lemma InitSafe(jobs: map<Tid, Job>)
    ensures Safe(Init(jobs)) && NoRivals(Init(jobs))
  {
    hide Init, Shape, Locks, OneCloser, Untouched, Counted, Held, Sweeping, Gate, Drain, Linked, LastLinks, Chained,
         Forward, NoRivals;
    InitParts(jobs);
    InitForward(jobs);
    UntouchedSafe(Init(jobs));
  }

  lemma NothingOpen(s: State)
    requires Untouched(s)
    ensures Ownership(s)
  {
    hide Held;
    UntouchedSafe(s);
  }

  lemma InitInv(jobs: map<Tid, Job>)
    requires DistinctNames(jobs)
    ensures Inv(Init(jobs))
  {
    hide Init, Untouched, Safe, NoRivals, Ownership, DistinctNames;
    InitParts(jobs);
    InitSafe(jobs);
    NothingOpen(Init(jobs));
  }
}
