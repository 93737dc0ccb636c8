/**
 The connection manager of mcp/manager.go as a protocol: any number of threads run
 ConnectServer, CallTool (with reconnectServer inside) and Close over one shared manager.
 One transition is one atomic action of the source: taking or releasing a lock, reading the
 closed flag, reading or writing the map, one remote operation, one Session.Close.
 Remote operations return, with any outcome; the outcome is part of the event.
 */
module McpProtocol {
  import opened Prelude

  type Tid = int      // a goroutine
  type Name = string  // a server name
  // A ServerConnection holds exactly one session for its whole life, so one number
  // stands for the session and for the identity of the connection that holds it.
  type Sid = int

  datatype Job = Connect(name: Name) | Call(name: Name) | Close

  // What a finished thread returned to its caller.
  datatype Result = Success | ManagerClosed | ServerNotFound | DialError | CallError

  // What reconnectServer hands back to CallTool.
  datatype Reply = Use(conn: Sid) | GiveUp(why: Result)

  datatype PC =
      // ConnectServer: the fresh connection travels with the thread
    | CDial | CLock(s: Sid) | CCheck(s: Sid) | CPublish(s: Sid) | CClose(s: Sid) | CUnlock(out: Result)
      // CallTool up to the first remote call
    | KCheck | KRLock | KCheck2 | KRefuse | KLookup | KMiss | KFound(c: Sid) | KCall(c: Sid)
      // reconnectServer on the stale connection c; f is the fresh one
    | RLockMu(c: Sid) | RCheck(c: Sid) | RRLock(c: Sid) | RLookup(c: Sid)
    | RCompare(c: Sid, cur: Option<Sid>) | RDial(c: Sid) | RLock(c: Sid, f: Sid)
    | RCheck2(c: Sid, f: Sid) | RSwap(c: Sid, f: Sid)
    | RUnlock(c: Sid, dead: Sid, reply: Reply) | RClose(c: Sid, dead: Sid, reply: Reply)
    | RRelease(c: Sid, reply: Reply)
      // CallTool after reconnectServer
    | KRetry(c: Sid) | KDone(out: Result)
      // Close
    | XFlip | XWait | XLock | XSweep | XReset | XUnlock
    | Done(result: Result)

  datatype Event =
    | Tick                 // an action without a choice
    | Opened(s: Sid)       // connectServer returned a connection on a new session
    | ToolsFailed(s: Sid)  // connectServer opened a session, could not list tools and closed it
    | DialFailed           // connectServer failed before a session existed
    | CallOk | CallLost | CallFailed  // a remote call: answered, session missing, other error
    | Sweep(name: Name)    // Close's loop over the map takes this entry next

  datatype State = State(
    jobs: map<Tid, Job>,
    pc: map<Tid, PC>,
    servers: map<Name, Sid>,
    closed: bool,
    wg: int,
    writer: Option<Tid>,         // who holds mu for writing
    readers: set<Tid>,           // who holds mu for reading
    reconnect: map<Sid, Tid>,    // who holds the reconnectMu of a connection
    // History, read by no transition's guard except through the loop of Close:
    closes: map<Sid, int>,       // every session ever opened, with its number of Close calls
    chain: map<Name, seq<Sid>>,  // the connections published under a name, in order
    swept: set<Name>,            // entries whose session Close's loop has closed already
    closer: Option<Tid>,         // the thread whose Swap flipped the closed flag
    flip: map<Tid, PC>           // where every thread was when that happened
  ) {
    function Links(n: Name): seq<Sid> {
      if n in chain then chain[n] else []
    }

    function Closes(x: Sid): int {
      if x in closes then closes[x] else 0
    }

    predicate Open(x: Sid) {
      x in closes && closes[x] == 0
    }

    // The entries of the map whose session has not been closed by Close's loop.
    function Live(): set<Name> {
      servers.Keys - swept
    }
  }

  // ----- what a program counter says about its thread -----

  predicate Fits(j: Job, p: PC) {
    match j
    case Connect(_) => p.CDial? || p.CLock? || p.CCheck? || p.CPublish? || p.CClose? || p.CUnlock? || p.Done?
    case Call(_) => !(p.CDial? || p.CLock? || p.CCheck? || p.CPublish? || p.CClose? || p.CUnlock? ||
                      p.XFlip? || p.XWait? || p.XLock? || p.XSweep? || p.XReset? || p.XUnlock?)
    case Close => p.XFlip? || p.XWait? || p.XLock? || p.XSweep? || p.XReset? || p.XUnlock? || p.Done?
  }

  predicate HoldsWrite(p: PC) {
    p.CCheck? || p.CPublish? || p.CClose? || p.CUnlock? || p.RCheck2? || p.RSwap? || p.RUnlock? ||
    p.XSweep? || p.XReset? || p.XUnlock?
  }

  predicate HoldsRead(p: PC) {
    p.KCheck2? || p.KRefuse? || p.KLookup? || p.KMiss? || p.KFound? || p.RLookup? || p.RCompare?
  }

  predicate AwaitsWrite(p: PC) {
    p.CLock? || p.RLock? || p.XLock?
  }

  predicate AwaitsRead(p: PC) {
    p.KRLock? || p.RRLock?
  }

  // Counted by the wait group: between wg.Add(1) and wg.Done().
  predicate Registered(p: PC) {
    p.KFound? || p.KCall? || p.RLockMu? || InReconnect(p) || p.KRetry? || p.KDone?
  }

  // Inside reconnectServer with the stale connection's reconnectMu held.
  predicate InReconnect(p: PC) {
    p.RCheck? || p.RRLock? || p.RLookup? || p.RCompare? || p.RDial? || p.RLock? || p.RCheck2? ||
    p.RSwap? || p.RUnlock? || p.RClose? || p.RRelease?
  }

  // The sessions this thread alone must still publish or close.
  function Owned(p: PC): set<Sid> {
    match p
    case CLock(s) => {s}
    case CCheck(s) => {s}
    case CPublish(s) => {s}
    case CClose(s) => {s}
    case RLock(_, f) => {f}
    case RCheck2(_, f) => {f}
    case RSwap(_, f) => {f}
    case RUnlock(_, dead, _) => {dead}
    case RClose(_, dead, _) => {dead}
    case _ => {}
  }

  // ----- transitions -----

  // What one action does to the memory the threads share. An action has at most one effect.
  datatype Effect =
    | Nothing
    | TakeWrite | DropWrite | TakeRead | DropRead
    | TakeMutex(conn: Sid) | DropMutex(conn: Sid)
    | WgAdd | WgDone
    | OpenSession(x: Sid) | OpenAndClose(x: Sid) | CloseSession(x: Sid)
    | Publish(x: Sid)     // m.servers[name] = x, under the thread's own server name
    | Flip                // closed.Swap(true) that returned false
    | SweepEntry(name: Name) | ResetMap

  datatype Move = Move(effect: Effect, to: PC)

  // connectServer: what it did to sessions.
  function Dialled(e: Event): Effect {
    match e
    case Opened(x) => OpenSession(x)
    case ToolsFailed(x) => OpenAndClose(x)
    case _ => Nothing
  }

  function ConnectMove(p: PC, e: Event, closed: bool): Move {
    match p
    case CDial => Move(Dialled(e), if e.Opened? then CLock(e.s) else Done(DialError))
    case CLock(x) => Move(TakeWrite, CCheck(x))
    case CCheck(x) => Move(Nothing, if closed then CClose(x) else CPublish(x))
    case CClose(x) => Move(CloseSession(x), CUnlock(ManagerClosed))
    case CPublish(x) => Move(Publish(x), CUnlock(Success))
    case CUnlock(out) => Move(DropWrite, Done(out))
    case _ => Move(Nothing, p)
  }

  // `cur` is the map's entry for the thread's server name.
  function CallMove(p: PC, e: Event, closed: bool, cur: Option<Sid>): Move {
    match p
    case KCheck => Move(Nothing, if closed then Done(ManagerClosed) else KRLock)
    case KRLock => Move(TakeRead, KCheck2)
    case KCheck2 => Move(Nothing, if closed then KRefuse else KLookup)
    case KRefuse => Move(DropRead, Done(ManagerClosed))
    case KLookup => if cur.Some? then Move(WgAdd, KFound(cur.value)) else Move(Nothing, KMiss)
    case KMiss => Move(DropRead, Done(ServerNotFound))
    case KFound(c) => Move(DropRead, KCall(c))
    case KCall(c) =>
      Move(Nothing, match e case CallOk => KDone(Success) case CallLost => RLockMu(c) case _ => KDone(CallError))
    case RLockMu(c) => Move(TakeMutex(c), RCheck(c))
    case KRetry(_) => Move(Nothing, if e.CallOk? then KDone(Success) else KDone(CallError))
    case KDone(out) => Move(WgDone, Done(out))
    case _ => Move(Nothing, p)
  }

  function ReconnectMove(p: PC, e: Event, closed: bool, cur: Option<Sid>): Move {
    match p
    case RCheck(c) => Move(Nothing, if closed then RRelease(c, GiveUp(ManagerClosed)) else RRLock(c))
    case RRLock(c) => Move(TakeRead, RLookup(c))
    case RLookup(c) => Move(Nothing, RCompare(c, cur))
    case RCompare(c, seen) =>
      Move(DropRead,
           if seen.None? then RRelease(c, GiveUp(ServerNotFound))
           else if seen.value != c then RRelease(c, Use(seen.value))
           else RDial(c))
    case RDial(c) => Move(Dialled(e), if e.Opened? then RLock(c, e.s) else RRelease(c, GiveUp(DialError)))
    case RLock(c, f) => Move(TakeWrite, RCheck2(c, f))
    case RCheck2(c, f) => Move(Nothing, if closed then RUnlock(c, f, GiveUp(ManagerClosed)) else RSwap(c, f))
    case RSwap(c, f) =>
      if cur.None? then Move(Nothing, RUnlock(c, f, GiveUp(ServerNotFound)))
      else if cur.value == c then Move(Publish(f), RUnlock(c, c, Use(f)))
      else Move(Nothing, RUnlock(c, f, Use(cur.value)))
    case RUnlock(c, dead, reply) => Move(DropWrite, RClose(c, dead, reply))
    case RClose(c, dead, reply) => Move(CloseSession(dead), RRelease(c, reply))
    case RRelease(c, reply) =>
      Move(DropMutex(c), match reply case Use(x) => KRetry(x) case GiveUp(why) => KDone(why))
    case _ => Move(Nothing, p)
  }

  function CloseMove(p: PC, e: Event, closed: bool): Move {
    match p
    case XFlip => if closed then Move(Nothing, Done(Success)) else Move(Flip, XWait)
    case XWait => Move(Nothing, XLock)
    case XLock => Move(TakeWrite, XSweep)
    case XSweep => if e.Sweep? then Move(SweepEntry(e.name), XSweep) else Move(Nothing, XReset)
    case XReset => Move(ResetMap, XUnlock)
    case XUnlock => Move(DropWrite, Done(Success))
    case _ => Move(Nothing, p)
  }

  function Decide(j: Job, p: PC, e: Event, closed: bool, cur: Option<Sid>): Move {
    match j
    case Connect(_) => ConnectMove(p, e, closed)
    case Call(_) => if InReconnect(p) then ReconnectMove(p, e, closed, cur) else CallMove(p, e, closed, cur)
    case Close => CloseMove(p, e, closed)
  }

  function Entry(s: State, n: Name): Option<Sid> {
    if n in s.servers then Some(s.servers[n]) else None
  }

  function NameOf(j: Job): Name {
    if j.Close? then "" else j.name
  }

  // The outcomes the environment may choose for the action a thread stands before.
  predicate Offered(p: PC, e: Event) {
    if p.CDial? || p.RDial? then e.Opened? || e.ToolsFailed? || e.DialFailed?
    else if p.KCall? || p.KRetry? then e.CallOk? || e.CallLost? || e.CallFailed?
    else e.Tick? || (p.XSweep? && e.Sweep?)
  }

  // Whether shared memory lets the thread act: locks, the wait group, fresh session numbers.
  predicate Ready(s: State, p: PC, e: Event) {
    if AwaitsWrite(p) then s.writer.None? && s.readers == {}
    else if AwaitsRead(p) then s.writer.None?
    else if p.RLockMu? then p.c !in s.reconnect
    else if p.XWait? then s.wg == 0
    else if p.XSweep? then if e.Sweep? then e.name in s.Live() else s.Live() == {}
    else if e.Opened? || e.ToolsFailed? then e.s !in s.closes
    else !p.Done?
  }

  predicate Enabled(s: State, t: Tid, e: Event) {
    t in s.pc && t in s.jobs && Offered(s.pc[t], e) && Ready(s, s.pc[t], e)
  }

  function MoveOf(s: State, t: Tid, e: Event): Move
    requires t in s.pc && t in s.jobs
  {
    Decide(s.jobs[t], s.pc[t], e, s.closed, Entry(s, NameOf(s.jobs[t])))
  }

  // The session numbers closed by this action of a thread under name n.
  function ClosedBy(s: State, effect: Effect): Option<Sid> {
    match effect
    case CloseSession(x) => Some(x)
    case OpenAndClose(x) => Some(x)
    case SweepEntry(m) => Entry(s, m)
    case _ => None
  }

  function ClosesAfter(s: State, effect: Effect): map<Sid, int> {
    var x := ClosedBy(s, effect);
    if effect.OpenSession? then s.closes[effect.x := 0]
    else if x.Some? then s.closes[x.value := s.Closes(x.value) + 1]
    else s.closes
  }

  function ReadersAfter(s: State, t: Tid, effect: Effect): set<Tid> {
    if effect.TakeRead? then s.readers + {t} else if effect.DropRead? then s.readers - {t} else s.readers
  }

  function ReconnectAfter(s: State, t: Tid, effect: Effect): map<Sid, Tid> {
    if effect.TakeMutex? then s.reconnect[effect.conn := t]
    else if effect.DropMutex? then s.reconnect - {effect.conn}
    else s.reconnect
  }

  function ServersAfter(s: State, n: Name, effect: Effect): map<Name, Sid> {
    if effect.Publish? then s.servers[n := effect.x] else if effect.ResetMap? then map[] else s.servers
  }

  // Shared memory and history after a move, variable by variable.
  function After(s: State, t: Tid, m: Move): State
    requires t in s.pc && t in s.jobs
  {
    var n, effect := NameOf(s.jobs[t]), m.effect;
    State(
      s.jobs,
      s.pc[t := m.to],
      ServersAfter(s, n, effect),
      s.closed || effect.Flip?,
      s.wg + (if effect.WgAdd? then 1 else if effect.WgDone? then -1 else 0),
      if effect.TakeWrite? then Some(t) else if effect.DropWrite? then None else s.writer,
      ReadersAfter(s, t, effect),
      ReconnectAfter(s, t, effect),
      ClosesAfter(s, effect),
      if effect.Publish? then s.chain[n := s.Links(n) + [effect.x]] else s.chain,
      if effect.SweepEntry? then s.swept + {effect.name} else if effect.ResetMap? then {} else s.swept,
      if effect.Flip? then Some(t) else s.closer,
      if effect.Flip? then s.pc else s.flip)
  }

  function Next(s: State, t: Tid, e: Event): State
    requires t in s.pc && t in s.jobs
  {
    After(s, t, MoveOf(s, t, e))
  }

  function Start(j: Job): PC {
    match j case Connect(_) => CDial case Call(_) => KCheck case Close => XFlip
  }

  function Init(jobs: map<Tid, Job>): State {
    State(jobs, map t | t in jobs :: Start(jobs[t]),
          map[], false, 0, None, {}, map[], map[], map[], {}, None, map[])
  }

  // ----- runs -----

  datatype Label = Label(t: Tid, e: Event)

  predicate Legal(s: State, run: seq<Label>)
    decreases |run|, 0
  {
    run == [] ||
    (Legal(s, run[..|run|-1]) && Enabled(Exec(s, run[..|run|-1]), run[|run|-1].t, run[|run|-1].e))
  }

  function Exec(s: State, run: seq<Label>): State
    requires Legal(s, run)
    decreases |run|, 1
  {
    if run == [] then s else Next(Exec(s, run[..|run|-1]), run[|run|-1].t, run[|run|-1].e)
  }

  // A thread is finished when its function has returned.
  predicate AllDone(s: State) {
    forall t | t in s.pc :: s.pc[t].Done?
  }

  // The precondition of the ownership results: no two ConnectServer calls share a name.
  predicate DistinctNames(jobs: map<Tid, Job>) {
    forall t, u | t in jobs && u in jobs && t != u && jobs[t].Connect? && jobs[u].Connect? ::
      jobs[t].name != jobs[u].name
  }
}
