/**
 When reconnectServer finds, with mu held for writing, that somebody else has replaced the stale
 connection: only if two ConnectServer calls share its server's name, and then it may.
 */
module McpRivals {
  import opened Prelude
  import opened McpProtocol
  import opened McpInvariants
  import opened McpTheorems

  lemma {:induction false} RunKeepsUnrivalled(jobs: map<Tid, Job>, run: seq<Label>, n: Name)
    requires OneConnect(jobs, n) && Legal(Init(jobs), run)
    ensures var s := Exec(Init(jobs), run); s.jobs == jobs && Shape(s) && Unrivalled(s, n)
    decreases |run|
  {
    RunKeepsSafe(jobs, run);
    hide Locks, Counted, Held, OneCloser, Sweeping, Gate, Drain, Linked, LastLinks, Chained, Forward;
    hide Shape, Unrivalled, OneConnect, Init, Enabled, Next;
    if run == [] {
      InitSafe(jobs);
    } else {
      var shorter := run[..|run|-1];
      RunKeepsUnrivalled(jobs, shorter, n);
      RunKeepsSafe(jobs, shorter);
      StepKeepsUnrivalled(Exec(Init(jobs), shorter), run[|run|-1].t, run[|run|-1].e, n);
    }
  }

  // Whenever t looks at the map with mu held for writing, its stale connection is still there.
  ghost predicate NeverOvertaken(jobs: map<Tid, Job>, t: Tid)
    requires t in jobs && jobs[t].Call?
  {
    forall run | Legal(Init(jobs), run) ::
      var s := Exec(Init(jobs), run); t in s.pc && s.pc[t].RSwap? ==> Entry(s, jobs[t].name) == Some(s.pc[t].c)
  }

  // ----- a run in which t is overtaken -----

  // The course of CallTool on connection c, whose session is lost, up to the fresh connection f.
  function CallCourse(p: PC, c: Sid, f: Sid): Move {
    match p
    case KCheck => Move(Nothing, KRLock)
    case KRLock => Move(TakeRead, KCheck2)
    case KCheck2 => Move(Nothing, KLookup)
    case KLookup => Move(WgAdd, KFound(c))
    case KFound(_) => Move(DropRead, KCall(c))
    case KCall(_) => Move(Nothing, RLockMu(c))
    case RLockMu(_) => Move(TakeMutex(c), RCheck(c))
    case RCheck(_) => Move(Nothing, RRLock(c))
    case RRLock(_) => Move(TakeRead, RLookup(c))
    case RLookup(_) => Move(Nothing, RCompare(c, Some(c)))
    case RCompare(_, _) => Move(DropRead, RDial(c))
    case _ => Move(OpenSession(f), RLock(c, f))
  }

  function CallPath(c: Sid): seq<PC> {
    [KCheck, KRLock, KCheck2, KLookup, KFound(c), KCall(c), RLockMu(c), RCheck(c), RRLock(c), RLookup(c),
     RCompare(c, Some(c)), RDial(c)]
  }

  function CallEvent(p: PC, f: Sid): Event {
    if p.KCall? then CallLost else if p.RDial? then Opened(f) else Tick
  }

  // A manager nobody is using, on which t is about to run CallTool on connection c.
  ghost predicate Idle(s: State, t: Tid, c: Sid, f: Sid) {
    && t in s.pc && t in s.jobs && s.jobs[t].Call? && s.pc[t] == KCheck
    && s.writer.None? && s.readers == {} && !s.closed && s.reconnect == map[] && f !in s.closes
    && s.jobs[t].name in s.servers && s.servers[s.jobs[t].name] == c
  }

  // s1 is s with t at p on this course.
  ghost predicate OnCall(s: State, s1: State, t: Tid, f: Sid, p: PC) {
    && s1.jobs == s.jobs && s1.pc == s.pc[t := p] && s1.writer.None? && !s1.closed && s1.servers == s.servers
    && s1.swept == s.swept
    && s1.readers == (if HoldsRead(p) then {t} else {})
    && (!InReconnect(p) ==> s1.reconnect == map[])
    && s1.closes == if p.RLock? then s.closes[f := 0] else s.closes
  }

  // What a place on the path asks of the shared memory.
  lemma PathAsks(c: Sid, f: Sid, p: PC)
    requires p in CallPath(c)
    ensures Offered(p, CallEvent(p, f)) && !AwaitsWrite(p) && !p.XWait? && !p.XSweep? && !p.Done?
    ensures AwaitsRead(p) ==> !HoldsRead(p)
    ensures p.RLockMu? ==> !InReconnect(p)
    ensures CallEvent(p, f).Opened? ==> p.RDial? && CallEvent(p, f).s == f
    ensures !CallEvent(p, f).ToolsFailed? && !p.RLock?
  {
  }

  lemma CallHopEnabled(s: State, s1: State, t: Tid, c: Sid, f: Sid, p: PC)
    requires Idle(s, t, c, f) && p in CallPath(c) && OnCall(s, s1, t, f, p)
    ensures Enabled(s1, t, CallEvent(p, f))
  {
    hide HoldsRead, AwaitsRead, AwaitsWrite, InReconnect, Offered, CallPath, CallEvent;
    PathAsks(c, f, p);
  }

  lemma PathDecides(n: Name, c: Sid, f: Sid, p: PC)
    requires p in CallPath(c)
    ensures Decide(Call(n), p, CallEvent(p, f), false, Some(c)) == CallCourse(p, c, f)
  {
  }

  lemma CallHopMove(s: State, s1: State, t: Tid, c: Sid, f: Sid, p: PC)
    requires Idle(s, t, c, f) && p in CallPath(c) && OnCall(s, s1, t, f, p)
    ensures t in s1.pc && t in s1.jobs && MoveOf(s1, t, CallEvent(p, f)) == CallCourse(p, c, f)
  {
    hide HoldsRead, InReconnect, CallPath, CallEvent, CallCourse, Decide;
    PathDecides(s.jobs[t].name, c, f, p);
  }

  // What a move on the course does to the locks.
  lemma CourseLocks(c: Sid, f: Sid, p: PC)
    requires p in CallPath(c)
    ensures var m := CallCourse(p, c, f);
            && HoldsRead(m.to) == (m.effect.TakeRead? || (HoldsRead(p) && !m.effect.DropRead?))
            && (m.effect.TakeRead? ==> !HoldsRead(p))
            && (InReconnect(m.to) <==> m.effect.TakeMutex? || InReconnect(p))
            && (m.effect.OpenSession? <==> m.to.RLock?) && (m.effect.OpenSession? ==> m.effect.x == f) && !p.RLock?
            && (m.effect.Nothing? || m.effect.TakeRead? || m.effect.DropRead? || m.effect.WgAdd? ||
                m.effect.TakeMutex? || m.effect.OpenSession?)
  {
  }

  lemma CallHop(s: State, s1: State, t: Tid, c: Sid, f: Sid, p: PC)
    requires Idle(s, t, c, f) && p in CallPath(c) && OnCall(s, s1, t, f, p)
    ensures Enabled(s1, t, CallEvent(p, f)) && OnCall(s, Next(s1, t, CallEvent(p, f)), t, f, CallCourse(p, c, f).to)
  {
    hide Enabled, MoveOf, CallCourse, CallPath, HoldsRead, InReconnect, CallEvent;
    CallHopEnabled(s, s1, t, c, f, p);
    CallHopMove(s, s1, t, c, f, p);
    CourseLocks(c, f, p);
  }

  // The next place on the path, and the end of it.
  lemma PathStep(c: Sid, f: Sid, k: nat)
    requires k < 12
    ensures |CallPath(c)| == 12 && CallPath(c)[k] in CallPath(c)
    ensures CallCourse(CallPath(c)[k], c, f).to == if k < 11 then CallPath(c)[k + 1] else RLock(c, f)
  {
  }

  lemma {:induction false} CallOn(s0: State, run: seq<Label>, s: State, t: Tid, c: Sid, f: Sid, k: nat)
    returns (longer: seq<Label>)
    requires Legal(s0, run) && Idle(s, t, c, f) && k <= 12 && |CallPath(c)| == 12
    requires OnCall(s, Exec(s0, run), t, f, if k < 12 then CallPath(c)[k] else RLock(c, f))
    ensures Legal(s0, longer) && OnCall(s, Exec(s0, longer), t, f, RLock(c, f))
    decreases 12 - k
  {
    hide Legal, Exec, OnCall, Enabled, Next, Idle, CallPath, CallCourse;
    if k == 12 {
      return run;
    }
    var p := CallPath(c)[k];
    PathStep(c, f, k);
    CallHop(s, Exec(s0, run), t, c, f, p);
    Extend(s0, run, t, CallEvent(p, f));
    longer := CallOn(s0, run + [Label(t, CallEvent(p, f))], s, t, c, f, k + 1);
  }

  // From its fresh connection to the look at the map, with nobody in the way.
  lemma ToSwap(s: State, t: Tid, c: Sid, f: Sid)
    requires t in s.pc && t in s.jobs && s.jobs[t].Call? && s.pc[t] == RLock(c, f)
    requires s.writer.None? && s.readers == {} && !s.closed
    ensures Enabled(s, t, Tick)
    ensures var s1 := Next(s, t, Tick);
            Enabled(s1, t, Tick) && var s2 := Next(s1, t, Tick);
            t in s2.pc && s2.pc[t] == RSwap(c, f) && s2.servers == s.servers
  {
  }

  lemma StartOfCall(s: State, t: Tid, c: Sid, f: Sid)
    requires Idle(s, t, c, f)
    ensures |CallPath(c)| == 12 && OnCall(s, s, t, f, CallPath(c)[0])
  {
    assert s.pc[t := KCheck] == s.pc;
  }

  // u connects; t calls, loses its session and dials a new one ...
  lemma CallAfterConnect(jobs: map<Tid, Job>, t: Tid, u: Tid) returns (run: seq<Label>)
    requires t in jobs && u in jobs && jobs[t].Call? && jobs[u] == Connect(jobs[t].name)
    ensures Legal(Init(jobs), run)
    ensures var s0, s := Init(jobs), Exec(Init(jobs), run);
            && s.jobs == jobs && t in s0.pc && u in s0.pc && s.pc == s0.pc[u := Done(Success)][t := RLock(0, 1)]
            && s.writer.None? && s.readers == {} && !s.closed && s.closes == map[0 := 0, 1 := 0]
  {
    var s0 := Init(jobs);
    assert s0.pc[t] == KCheck;
    StartsQuiet(jobs, u);
    EmptyRun(s0);
    hide Init, Legal, Exec, CallPath, Enabled, Next, Owned;
    var first := ConnectAlone(s0, [], u, 0);
    var s := Exec(s0, first);
    StartOfCall(s, t, 0, 1);
    run := CallOn(s0, first, s, t, 0, 1, 0);
  }

  lemma TwoSteps(s0: State, run: seq<Label>, t: Tid) returns (longer: seq<Label>)
    requires Legal(s0, run) && Enabled(Exec(s0, run), t, Tick)
    requires Enabled(Next(Exec(s0, run), t, Tick), t, Tick)
    ensures Legal(s0, longer) && Exec(s0, longer) == Next(Next(Exec(s0, run), t, Tick), t, Tick)
  {
    hide Enabled, Next, Exec, Legal;
    Extend(s0, run, t, Tick);
    Extend(s0, run + [Label(t, Tick)], t, Tick);
    longer := run + [Label(t, Tick)] + [Label(t, Tick)];
  }

  // ... v connects under the same name; then t gets mu.
  lemma Overtaken(jobs: map<Tid, Job>, t: Tid, u: Tid, v: Tid) returns (run: seq<Label>)
    requires t in jobs && u in jobs && v in jobs && u != v && jobs[t].Call?
    requires jobs[u] == Connect(jobs[t].name) && jobs[v] == Connect(jobs[t].name)
    ensures Legal(Init(jobs), run)
    ensures var s := Exec(Init(jobs), run);
            t in s.pc && s.pc[t] == RSwap(0, 1) && Entry(s, jobs[t].name) == Some(2)
  {
    var s0 := Init(jobs);
    StartsQuiet(jobs, v);
    hide Init, Legal, Exec, Enabled, Next, Owned;
    var first := CallAfterConnect(jobs, t, u);
    var second := ConnectAlone(s0, first, v, 2);
    ToSwap(Exec(s0, second), t, 0, 1);
    run := TwoSteps(s0, second, t);
  }

  // reconnectServer is never overtaken between its two looks at the map exactly when at most one
  // ConnectServer is called for its server's name.
  lemma NeverOvertakenIffOneConnect(jobs: map<Tid, Job>, t: Tid)
    requires t in jobs && jobs[t].Call?
    ensures NeverOvertaken(jobs, t) <==> OneConnect(jobs, jobs[t].name)
  {
    if OneConnect(jobs, jobs[t].name) {
      forall run | Legal(Init(jobs), run)
        ensures var s := Exec(Init(jobs), run);
                t in s.pc && s.pc[t].RSwap? ==> Entry(s, jobs[t].name) == Some(s.pc[t].c)
      {
        RunKeepsUnrivalled(jobs, run, jobs[t].name);
        hide Init, Exec, Legal;
      }
    } else {
      var u, v :| u in jobs && v in jobs && u != v && jobs[u] == Connect(jobs[t].name) && jobs[v] == jobs[u];
      var run := Overtaken(jobs, t, u, v);
      hide Init, Exec, Legal;
    }
  }
}
