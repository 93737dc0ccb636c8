/**
 What CallTool and ConnectServer return, told by what the servers answered them in the run.
 */
module McpAnswers {
  import opened Prelude
  import opened McpProtocol
  import opened McpInvariants
  import opened McpTheorems

  // ----- what a thread has been told -----

  // Its remote calls that were answered, lost their session or failed otherwise, and its failed dials.
  datatype Told = Told(ok: nat, lost: nat, failed: nat, undialled: bool)

  const NOTHING_YET := Told(0, 0, 0, false)

  function Hear(h: Told, e: Event): Told {
    match e
    case CallOk => Told(h.ok + 1, h.lost, h.failed, h.undialled)
    case CallLost => Told(h.ok, h.lost + 1, h.failed, h.undialled)
    case CallFailed => Told(h.ok, h.lost, h.failed + 1, h.undialled)
    case DialFailed => Told(h.ok, h.lost, h.failed, true)
    case ToolsFailed(_) => Told(h.ok, h.lost, h.failed, true)
    case _ => h
  }

  // connectServer has failed for t, before or after it had a session.
  ghost predicate Undialled(run: seq<Label>, t: Tid) {
    Label(t, DialFailed) in run || exists x :: Label(t, ToolsFailed(x)) in run
  }

  ghost function ToldIn(run: seq<Label>, t: Tid): Told {
    Told(multiset(run)[Label(t, CallOk)], multiset(run)[Label(t, CallLost)], multiset(run)[Label(t, CallFailed)],
         Undialled(run, t))
  }

  lemma ToldMore(run: seq<Label>, l: Label, t: Tid)
    ensures ToldIn(run + [l], t) == if l.t == t then Hear(ToldIn(run, t), l.e) else ToldIn(run, t)
  {
    assert multiset(run + [l]) == multiset(run) + multiset{l};
    assert forall m :: m in run + [l] <==> m in run || m == l;
    if l.e.ToolsFailed? && l.t == t {
      assert Label(t, ToolsFailed(l.e.s)) in run + [l];
    }
    assert Undialled(run, t) ==> Undialled(run + [l], t);
  }

  // ----- CallTool -----

  // What a returned CallTool was told.
  predicate Verdict(out: Result, h: Told, closed: bool) {
    && (out == Success <==> h.ok > 0)
    && (out == CallError <==> h.failed > 0 || h.lost >= 2)
    && (out == DialError <==> h.undialled)
    && (out == ManagerClosed ==> closed)
    && (out == ServerNotFound ==> h == NOTHING_YET)
    && h.lost <= 2 && (h.undialled ==> h.lost == 1)
  }

  // ... and one that stands at p.
  predicate Hears(p: PC, h: Told, closed: bool) {
    if p.KDone? then Verdict(p.out, h, closed) && p.out != ServerNotFound
    else if p.Done? then Verdict(p.result, h, closed)
    else if ReplyOf(p).Some? then
      match ReplyOf(p).value
      case Use(_) => h == Told(0, 1, 0, false)
      case GiveUp(why) =>
        (why == DialError && h == Told(0, 1, 0, true)) || (why == ManagerClosed && closed && h == Told(0, 1, 0, false))
    else if p.RLockMu? || InReconnect(p) || p.KRetry? then h == Told(0, 1, 0, false)
    else h == NOTHING_YET && (p.KRefuse? ==> closed)
  }

  lemma CallHears(n: Name, p: PC, e: Event, closed: bool, cur: Option<Sid>, h: Told)
    requires Fits(Call(n), p) && Offered(p, e) && !p.Done? && !InReconnect(p) && Hears(p, h, closed)
    ensures Hears(CallMove(p, e, closed, cur).to, Hear(h, e), closed)
  {
  }

  lemma ReconnectHears(n: Name, p: PC, e: Event, closed: bool, cur: Option<Sid>, h: Told)
    requires Fits(Call(n), p) && Offered(p, e) && InReconnect(p) && Hears(p, h, closed)
    requires (p.RCompare? ==> p.cur.Some?) && (p.RSwap? ==> cur.Some?)
    ensures Hears(ReconnectMove(p, e, closed, cur).to, Hear(h, e), closed)
  {
  }

  lemma ClosedStays(s: State, t: Tid, e: Event)
    requires Shape(s) && Enabled(s, t, e)
    ensures s.closed ==> Next(s, t, e).closed
    ensures s.jobs[t].Call? ==> Next(s, t, e).closed == s.closed
    ensures Next(s, t, e).pc == s.pc[t := MoveOf(s, t, e).to]
  {
  }

  lemma StepHears(s: State, u: Tid, e: Event, t: Tid, h: Told)
    requires Safe(s) && Enabled(s, u, e) && t in s.pc && s.jobs[t].Call? && Hears(s.pc[t], h, s.closed)
    ensures t in Next(s, u, e).pc
    ensures Hears(Next(s, u, e).pc[t], if u == t then Hear(h, e) else h, Next(s, u, e).closed)
  {
    ClosedStays(s, u, e);
    if u == t {
      var n, p, cur := s.jobs[t].name, s.pc[t], Entry(s, s.jobs[t].name);
      assert MovesOn(s, n, p);
      if InReconnect(p) {
        if p.RSwap? {
          FindsTip(s, t);
        }
        ReconnectHears(n, p, e, s.closed, cur, h);
      } else {
        CallHears(n, p, e, s.closed, cur, h);
      }
    }
    hide Locks, Counted, Held, OneCloser, Sweeping, Gate, Drain, Linked, LastLinks, Chained, Forward, Next, CallMove,
         ReconnectMove, Hear;
  }

  lemma {:induction false} RunHears(jobs: map<Tid, Job>, run: seq<Label>, t: Tid)
    requires Legal(Init(jobs), run) && t in jobs && jobs[t].Call?
    ensures var s := Exec(Init(jobs), run); t in s.pc && s.jobs == jobs && Hears(s.pc[t], ToldIn(run, t), s.closed)
    decreases |run|
  {
    hide Hears, Safe, Enabled, Next, ToldIn, Hear;
    if run == [] {
      StartsUntold(jobs, t);
    } else {
      var shorter, l := run[..|run|-1], run[|run|-1];
      assert run == shorter + [l];
      RunHears(jobs, shorter, t);
      RunKeepsSafe(jobs, shorter);
      RunKeepsSafe(jobs, run);
      StepHears(Exec(Init(jobs), shorter), l.t, l.e, t, ToldIn(shorter, t));
      ToldMore(shorter, l, t);
    }
  }

  lemma StartsUntold(jobs: map<Tid, Job>, t: Tid)
    requires t in jobs && jobs[t].Call?
    ensures Hears(Init(jobs).pc[t], ToldIn([], t), false)
  {
  }

  // ----- a server that is not there -----

  // t is about to look its server up, and there is none.
  predicate LooksInVain(s: State, t: Tid) {
    t in s.pc && t in s.jobs && s.jobs[t].Call? && s.pc[t].KLookup? && s.jobs[t].name !in s.servers
  }

  // ... when it takes the k-th action of the run.
  ghost predicate VainAt(jobs: map<Tid, Job>, run: seq<Label>, t: Tid, k: nat) {
    k < |run| && run[k].t == t && Legal(Init(jobs), run[..k]) && LooksInVain(Exec(Init(jobs), run[..k]), t)
  }

  ghost predicate LookedInVain(jobs: map<Tid, Job>, run: seq<Label>, t: Tid) {
    exists k: nat :: VainAt(jobs, run, t, k)
  }

  predicate Misses(p: PC) {
    p.KMiss? || p == Done(ServerNotFound)
  }

  lemma VainMore(jobs: map<Tid, Job>, run: seq<Label>, l: Label, t: Tid)
    requires Legal(Init(jobs), run)
    ensures LookedInVain(jobs, run + [l], t) <==>
            LookedInVain(jobs, run, t) || (l.t == t && LooksInVain(Exec(Init(jobs), run), t))
  {
    hide LooksInVain, Init, Legal, Exec;
    assert (run + [l])[..|run|] == run;
    forall k: nat | k < |run|
      ensures VainAt(jobs, run + [l], t, k) <==> VainAt(jobs, run, t, k)
    {
      assert (run + [l])[..k] == run[..k];
    }
    assert VainAt(jobs, run + [l], t, |run|) <==> l.t == t && LooksInVain(Exec(Init(jobs), run), t);
  }

  lemma MoveMisses(n: Name, p: PC, e: Event, closed: bool, cur: Option<Sid>, h: Told)
    requires Fits(Call(n), p) && Offered(p, e) && !p.Done? && Hears(p, h, closed)
    ensures Misses(Decide(Call(n), p, e, closed, cur).to) <==> Misses(p) || (p.KLookup? && cur.None?)
  {
    hide Verdict;
  }

  lemma StepMisses(s: State, u: Tid, e: Event, t: Tid, h: Told)
    requires Safe(s) && Enabled(s, u, e) && t in s.pc && s.jobs[t].Call? && Hears(s.pc[t], h, s.closed)
    ensures t in Next(s, u, e).pc
    ensures Misses(Next(s, u, e).pc[t]) <==> Misses(s.pc[t]) || (u == t && LooksInVain(s, t))
  {
    ClosedStays(s, u, e);
    if u == t {
      MoveMisses(s.jobs[t].name, s.pc[t], e, s.closed, Entry(s, s.jobs[t].name), h);
    }
    hide Locks, Counted, Held, OneCloser, Sweeping, Gate, Drain, Linked, LastLinks, Chained, Forward, Next, Hears,
         Decide, Misses, Fits;
  }

  lemma {:induction false} RunMisses(jobs: map<Tid, Job>, run: seq<Label>, t: Tid)
    requires Legal(Init(jobs), run) && t in jobs && jobs[t].Call?
    ensures var s := Exec(Init(jobs), run); t in s.pc && (Misses(s.pc[t]) <==> LookedInVain(jobs, run, t))
    decreases |run|
  {
    hide Hears, Safe, Enabled, Next, ToldIn, LookedInVain, LooksInVain, Misses;
    if run == [] {
      NoVainStart(jobs, t);
    } else {
      var shorter, l := run[..|run|-1], run[|run|-1];
      assert run == shorter + [l];
      RunMisses(jobs, shorter, t);
      RunHears(jobs, shorter, t);
      RunKeepsSafe(jobs, shorter);
      StepMisses(Exec(Init(jobs), shorter), l.t, l.e, t, ToldIn(shorter, t));
      VainMore(jobs, shorter, l, t);
    }
  }

  lemma NoVainStart(jobs: map<Tid, Job>, t: Tid)
    requires t in jobs && jobs[t].Call?
    ensures !Misses(Init(jobs).pc[t]) && !LookedInVain(jobs, [], t)
  {
  }

  // "Not found" is the answer exactly when there was no such server at the one lookup.
  lemma NotFoundIffMissing(jobs: map<Tid, Job>, run: seq<Label>, t: Tid)
    requires Legal(Init(jobs), run) && t in jobs && jobs[t].Call?
    ensures var s := Exec(Init(jobs), run);
            t in s.pc && (s.pc[t].Done? ==> (s.pc[t].result == ServerNotFound <==> LookedInVain(jobs, run, t)))
  {
    hide Init, Exec, Legal, LookedInVain;
    RunMisses(jobs, run, t);
  }

  // The result of a returned CallTool is one that the servers' answers account for.
  ghost predicate Accounted(out: Result, run: seq<Label>, t: Tid) {
    && (out == Success <==> Label(t, CallOk) in run)
    && (out == CallError <==> Label(t, CallFailed) in run || multiset(run)[Label(t, CallLost)] >= 2)
    && (out == DialError <==> Label(t, DialFailed) in run || exists x :: Label(t, ToolsFailed(x)) in run)
  }

  // What a CallTool that has returned was told: the result of the remote call exactly when one was
  // answered; its error exactly when one failed for another reason than a lost session, or the
  // session was lost twice; the error of connectServer exactly when that failed.
  lemma CallAnswers(jobs: map<Tid, Job>, run: seq<Label>, t: Tid)
    requires Legal(Init(jobs), run) && t in jobs && jobs[t].Call?
    ensures var s := Exec(Init(jobs), run); t in s.pc && (s.pc[t].Done? ==>
      var out := s.pc[t].result;
      && Accounted(out, run, t)
      && (out == ManagerClosed ==> s.closed)
      && (out == ServerNotFound ==>
            Label(t, CallOk) !in run && Label(t, CallLost) !in run && Label(t, CallFailed) !in run))
  {
    hide Init, Exec, Legal;
    RunHears(jobs, run, t);
    assert forall l :: l in run <==> multiset(run)[l] > 0;
  }

  // ----- the second remote call -----

  // Where a CallTool stands that made its first remote call on connection c.
  ghost predicate Onward(p: PC, c: Sid, links: seq<Sid>) {
    if p.KCall? || p.RLockMu? || InReconnect(p) then p.c == c
    else if p.KRetry? then Later(links, c, p.c)
    else p.KDone? || p.Done?
  }

  lemma OnwardOther(s: State, u: Tid, e: Event, t: Tid, c: Sid)
    requires Safe(s) && Enabled(s, u, e) && u != t && t in s.pc && s.jobs[t].Call?
    requires Onward(s.pc[t], c, s.Links(s.jobs[t].name))
    ensures t in Next(s, u, e).pc && Onward(Next(s, u, e).pc[t], c, Next(s, u, e).Links(s.jobs[t].name))
  {
    ClosedStays(s, u, e);
    LinksAfter(s, u, MoveOf(s, u, e), s.jobs[t].name);
    if s.pc[t].KRetry? && MoveOf(s, u, e).effect.Publish? {
      LaterSnoc(s.Links(s.jobs[t].name), c, s.pc[t].c, MoveOf(s, u, e).effect.x);
    }
    hide Locks, Counted, Held, OneCloser, Sweeping, Gate, Drain, Linked, LastLinks, Chained, Forward, MoveOf, After,
         State.Links, Later;
  }

  lemma OnwardMove(n: Name, p: PC, e: Event, closed: bool, cur: Option<Sid>, c: Sid, links: seq<Sid>)
    requires Fits(Call(n), p) && Onward(p, c, links)
    requires p.RRelease? && p.reply.Use? ==> Later(links, p.c, p.reply.conn)
    ensures Onward(Decide(Call(n), p, e, closed, cur).to, c, links)
  {
    hide Later;
  }

  lemma OnwardSelf(s: State, t: Tid, e: Event, c: Sid)
    requires Safe(s) && Enabled(s, t, e) && s.jobs[t].Call?
    requires Onward(s.pc[t], c, s.Links(s.jobs[t].name))
    ensures t in Next(s, t, e).pc && Onward(Next(s, t, e).pc[t], c, Next(s, t, e).Links(s.jobs[t].name))
  {
    var n, p, m := s.jobs[t].name, s.pc[t], MoveOf(s, t, e);
    ClosedStays(s, t, e);
    assert MovesOn(s, n, p);
    assert p.RRelease? ==> ReplyOf(p) == Some(p.reply);
    OnwardMove(n, p, e, s.closed, Entry(s, n), c, s.Links(n));
    LinksAfter(s, t, m, n);
    hide Locks, Counted, Held, OneCloser, Sweeping, Gate, Drain, Linked, LastLinks, Chained, Forward, After,
        State.Links,
         Later, Decide, Fits;
    if m.effect.Publish? && m.to.KRetry? {
      LaterSnoc(s.Links(n), c, m.to.c, m.effect.x);
    }
  }

  lemma {:induction false} StaysOnward(jobs: map<Tid, Job>, run: seq<Label>, i: nat, t: Tid, c: Sid)
    requires Legal(Init(jobs), run) && i <= |run| && t in jobs && jobs[t].Call? && Legal(Init(jobs), run[..i])
    requires var s := Exec(Init(jobs), run[..i]); t in s.pc && s.pc[t] == KCall(c)
    ensures var s := Exec(Init(jobs), run); t in s.pc && Onward(s.pc[t], c, s.Links(jobs[t].name))
    decreases |run|
  {
    hide Safe, Enabled, Next, Later;
    if i == |run| {
      assert run[..i] == run;
    } else {
      var shorter, l := run[..|run|-1], run[|run|-1];
      assert shorter[..i] == run[..i];
      StaysOnward(jobs, shorter, i, t, c);
      RunKeepsSafe(jobs, shorter);
      if l.t == t {
        OnwardSelf(Exec(Init(jobs), shorter), t, l.e, c);
      } else {
        OnwardOther(Exec(Init(jobs), shorter), l.t, l.e, t, c);
      }
    }
  }

  // The second remote call goes to a connection that was published after that of the first.
  lemma RetriesOnLaterLink(jobs: map<Tid, Job>, run: seq<Label>, i: nat, t: Tid)
    requires Legal(Init(jobs), run) && i <= |run| && t in jobs && jobs[t].Call? && Legal(Init(jobs), run[..i])
    requires var s := Exec(Init(jobs), run[..i]); t in s.pc && s.pc[t].KCall?
    requires var s := Exec(Init(jobs), run); t in s.pc && s.pc[t].KRetry?
    ensures var s := Exec(Init(jobs), run);
            Later(s.Links(jobs[t].name), Exec(Init(jobs), run[..i]).pc[t].c, s.pc[t].c)
  {
    hide Init, Exec, Legal, Later;
    StaysOnward(jobs, run, i, t, Exec(Init(jobs), run[..i]).pc[t].c);
  }

  // ----- ConnectServer -----

  ghost predicate NeverOpened(run: seq<Label>, t: Tid) {
    forall x :: Label(t, Opened(x)) !in run
  }

  // connectServer gave t a connection on session x.
  ghost predicate OpenedOnly(run: seq<Label>, t: Tid, x: Sid) {
    Label(t, Opened(x)) in run && forall y | Label(t, Opened(y)) in run :: y == x
  }

  // x was closed and never published.
  ghost predicate Discarded(s: State, n: Name, x: Sid) {
    x in s.closes && s.closes[x] == 1 && x !in s.Links(n)
  }

  // What a returned ConnectServer did with its session.
  ghost predicate Outcome(out: Result, s: State, n: Name, run: seq<Label>, t: Tid) {
    match out
    case Success => exists x :: OpenedOnly(run, t, x) && x in s.Links(n)
    case ManagerClosed => s.closed && exists x :: OpenedOnly(run, t, x) && Discarded(s, n, x)
    case DialError => NeverOpened(run, t)
    case _ => false
  }

  // ... and one on its way.
  ghost predicate Connects(p: PC, s: State, n: Name, run: seq<Label>, t: Tid) {
    if p.CDial? then NeverOpened(run, t)
    else if p.CLock? || p.CCheck? || p.CPublish? then OpenedOnly(run, t, p.s)
    else if p.CClose? then OpenedOnly(run, t, p.s) && s.closed
    else if p.CUnlock? then Outcome(p.out, s, n, run, t)
    else p.Done? && Outcome(p.result, s, n, run, t)
  }

  lemma OpenedMore(run: seq<Label>, l: Label, t: Tid)
    ensures !(l.t == t && l.e.Opened?) ==> (NeverOpened(run + [l], t) <==> NeverOpened(run, t)) &&
                                           forall x :: OpenedOnly(run + [l], t, x) <==> OpenedOnly(run, t, x)
    ensures l.t == t && l.e.Opened? && NeverOpened(run, t) ==> OpenedOnly(run + [l], t, l.e.s)
  {
    assert forall m :: m in run + [l] <==> m in run || m == l;
  }

  // A session that is closed is not one that somebody is about to publish.
  lemma PublishesOpen(s: State, u: Tid, e: Event)
    requires Safe(s) && Enabled(s, u, e) && MoveOf(s, u, e).effect.Publish?
    ensures s.Open(MoveOf(s, u, e).effect.x)
  {
    AllMovesGood(s, u, e);
    assert At(s, Hand(u), MoveOf(s, u, e).effect.x);
    hide MoveOf, Locks, Counted, OneCloser, Sweeping, Gate, Drain, Linked, LastLinks, Chained, Forward, Enabled, Fits,
         SharedMove, ReplyMove;
  }

  lemma ClosesGrow(s: State, u: Tid, e: Event, x: Sid)
    requires Safe(s) && Enabled(s, u, e) && x in s.closes
    ensures x in Next(s, u, e).closes && Next(s, u, e).closes[x] >= s.closes[x]
  {
    AllMovesGood(s, u, e);
    hide MoveOf, Locks, Counted, Held, OneCloser, Sweeping, Gate, Drain, Linked, LastLinks, Chained, Forward, Fits,
         SharedMove, ReplyMove, ServersAfter, ReadersAfter, ReconnectAfter;
  }

  // Discarded sessions stay so.
  lemma DiscardedStays(s: State, u: Tid, e: Event, n: Name, x: Sid)
    requires Safe(s) && Enabled(s, u, e) && Discarded(s, n, x)
    ensures Discarded(Next(s, u, e), n, x)
  {
    LinksAfter(s, u, MoveOf(s, u, e), n);
    StepKeepsSafe(s, u, e);
    ClosesGrow(s, u, e, x);
    if MoveOf(s, u, e).effect.Publish? {
      PublishesOpen(s, u, e);
    }
    hide MoveOf, Locks, Counted, OneCloser, Sweeping, Gate, Drain, Linked, LastLinks, Chained, Forward, Enabled, After,
         State.Links;
  }

  lemma OutcomeStays(s: State, u: Tid, e: Event, out: Result, n: Name, run: seq<Label>, l: Label, t: Tid)
    requires Safe(s) && Enabled(s, u, e) && Outcome(out, s, n, run, t) && !(l.t == t && l.e.Opened?)
    ensures Outcome(out, Next(s, u, e), n, run + [l], t)
  {
    ClosedStays(s, u, e);
    OpenedMore(run, l, t);
    ChainGrows(s, u, e, n);
    hide Safe, Enabled, Next, Discarded, State.Links, OpenedOnly, NeverOpened;
    if out.Success? {
      var x :| OpenedOnly(run, t, x) && x in s.Links(n);
      assert OpenedOnly(run + [l], t, x) && x in Next(s, u, e).Links(n);
    } else if out.ManagerClosed? {
      var x :| OpenedOnly(run, t, x) && Discarded(s, n, x);
      DiscardedStays(s, u, e, n, x);
      assert OpenedOnly(run + [l], t, x);
    }
  }

  lemma ConnectsOther(s: State, u: Tid, e: Event, t: Tid, run: seq<Label>)
    requires Safe(s) && Enabled(s, u, e) && u != t && t in s.pc && s.jobs[t].Connect?
    requires Connects(s.pc[t], s, s.jobs[t].name, run, t)
    ensures t in Next(s, u, e).pc
    ensures Connects(Next(s, u, e).pc[t], Next(s, u, e), s.jobs[t].name, run + [Label(u, e)], t)
  {
    ClosedStays(s, u, e);
    OpenedMore(run, Label(u, e), t);
    hide Locks, Counted, Held, OneCloser, Sweeping, Gate, Drain, Linked, LastLinks, Chained, Forward, Enabled, MoveOf,
         After, Outcome, OpenedOnly, NeverOpened;
    var p := s.pc[t];
    if p.CUnlock? {
      OutcomeStays(s, u, e, p.out, s.jobs[t].name, run, Label(u, e), t);
    } else if p.Done? {
      OutcomeStays(s, u, e, p.result, s.jobs[t].name, run, Label(u, e), t);
    }
  }

  // A session about to be closed has not been published.
  lemma ClosingDiscards(s: State, t: Tid, e: Event)
    requires Safe(s) && Enabled(s, t, e) && s.jobs[t].Connect? && s.pc[t].CClose?
    ensures Discarded(Next(s, t, e), s.jobs[t].name, s.pc[t].s)
  {
    var x, n := s.pc[t].s, s.jobs[t].name;
    assert x in Pending(s.pc[t]) && x in Owned(s.pc[t]);
    assert At(s, Hand(t), x);
    assert !InChain(s, n, x);
    LinksAfter(s, t, MoveOf(s, t, e), n);
    hide Locks, Counted, OneCloser, Sweeping, Gate, Drain, LastLinks, Chained, Forward, Enabled;
  }

  lemma ConnectSteps(s: State, t: Tid, e: Event)
    requires Shape(s) && Enabled(s, t, e) && s.jobs[t].Connect?
    ensures var p, to := s.pc[t], MoveOf(s, t, e).to;
            && (e.Opened? ==> p.CDial?)
            && (p.CDial? || p.CLock? || p.CCheck? || p.CPublish? || p.CClose? || p.CUnlock?)
            && to == if p.CDial? then if e.Opened? then CLock(e.s) else Done(DialError)
                     else if p.CLock? then CCheck(p.s)
                     else if p.CCheck? then if s.closed then CClose(p.s) else CPublish(p.s)
                     else if p.CPublish? then CUnlock(Success)
                     else if p.CClose? then CUnlock(ManagerClosed)
                     else Done(p.out)
  {
  }

  lemma ConnectsSelf(s: State, t: Tid, e: Event, run: seq<Label>)
    requires Safe(s) && Enabled(s, t, e) && s.jobs[t].Connect?
    requires Connects(s.pc[t], s, s.jobs[t].name, run, t)
    ensures t in Next(s, t, e).pc
    ensures Connects(Next(s, t, e).pc[t], Next(s, t, e), s.jobs[t].name, run + [Label(t, e)], t)
  {
    var n, p := s.jobs[t].name, s.pc[t];
    assert Shape(s);
    ClosedStays(s, t, e);
    ConnectSteps(s, t, e);
    OpenedMore(run, Label(t, e), t);
    hide Safe, Shape, Next, Outcome, OpenedOnly, NeverOpened, MoveOf, Enabled, Discarded;
    if p.CUnlock? {
      OutcomeStays(s, t, e, p.out, n, run, Label(t, e), t);
    } else if p.CClose? {
      ClosingDiscards(s, t, e);
      Closes(s, t, e, run, p.s);
    } else if p.CPublish? {
      Publishes(s, t, e, run, p.s);
    } else if p.CDial? && !e.Opened? {
      NotDialled(s, t, e, run);
    }
  }

  lemma Closes(s: State, t: Tid, e: Event, run: seq<Label>, x: Sid)
    requires s.closed && Shape(s) && Enabled(s, t, e) && s.jobs[t].Connect? && OpenedOnly(run + [Label(t, e)], t, x)
    requires Discarded(Next(s, t, e), s.jobs[t].name, x)
    ensures Outcome(ManagerClosed, Next(s, t, e), s.jobs[t].name, run + [Label(t, e)], t)
  {
    ClosedStays(s, t, e);
    hide Next, OpenedOnly, Discarded;
  }

  lemma Publishes(s: State, t: Tid, e: Event, run: seq<Label>, x: Sid)
    requires Shape(s) && Enabled(s, t, e) && s.jobs[t].Connect? && s.pc[t] == CPublish(x)
    requires OpenedOnly(run + [Label(t, e)], t, x)
    ensures Outcome(Success, Next(s, t, e), s.jobs[t].name, run + [Label(t, e)], t)
  {
    LinksAfter(s, t, MoveOf(s, t, e), s.jobs[t].name);
    hide OpenedOnly;
  }

  lemma NotDialled(s: State, t: Tid, e: Event, run: seq<Label>)
    requires Shape(s) && Enabled(s, t, e) && s.jobs[t].Connect? && NeverOpened(run + [Label(t, e)], t)
    ensures Outcome(DialError, Next(s, t, e), s.jobs[t].name, run + [Label(t, e)], t)
  {
  }

  lemma {:induction false} RunConnects(jobs: map<Tid, Job>, run: seq<Label>, t: Tid)
    requires Legal(Init(jobs), run) && t in jobs && jobs[t].Connect?
    ensures var s := Exec(Init(jobs), run); t in s.pc && s.jobs == jobs && Connects(s.pc[t], s, jobs[t].name, run, t)
    decreases |run|
  {
    hide Connects, Safe, Enabled, Next;
    if run == [] {
      StartsUnconnected(jobs, t);
    } else {
      var shorter, l := run[..|run|-1], run[|run|-1];
      assert run == shorter + [l] && l == Label(l.t, l.e);
      RunConnects(jobs, shorter, t);
      RunKeepsSafe(jobs, shorter);
      RunKeepsSafe(jobs, run);
      if l.t == t {
        ConnectsSelf(Exec(Init(jobs), shorter), t, l.e, shorter);
      } else {
        ConnectsOther(Exec(Init(jobs), shorter), l.t, l.e, t, shorter);
      }
    }
  }

  lemma StartsUnconnected(jobs: map<Tid, Job>, t: Tid)
    requires t in jobs && jobs[t].Connect?
    ensures t in Init(jobs).pc && Connects(Init(jobs).pc[t], Init(jobs), jobs[t].name, [], t)
  {
  }

  // A ConnectServer that has returned failed to connect exactly when it was given no session;
  // otherwise it succeeded exactly when the session was published under its name, and was turned
  // away by a closed manager exactly when the session was closed instead.
  lemma ConnectAnswers(jobs: map<Tid, Job>, run: seq<Label>, t: Tid, x: Sid)
    requires Legal(Init(jobs), run) && t in jobs && jobs[t].Connect?
    ensures var s := Exec(Init(jobs), run); t in s.pc && (s.pc[t].Done? ==>
      var out := s.pc[t].result;
      && (out == DialError <==> forall y :: Label(t, Opened(y)) !in run)
      && (Label(t, Opened(x)) in run ==>
            && (out == Success <==> x in s.Links(jobs[t].name))
            && (out == ManagerClosed <==> x in s.closes && s.closes[x] == 1 && x !in s.Links(jobs[t].name))
            && (out == ManagerClosed ==> s.closed)))
  {
    hide Init, Exec, Legal;
    RunConnects(jobs, run, t);
  }

  // ----- Close -----

  lemma StepCloses(s: State, u: Tid, e: Event, t: Tid)
    requires Shape(s) && OneCloser(s) && Enabled(s, u, e) && t in s.pc && s.jobs[t].Close?
    requires s.pc[t].XFlip? || (s.closed && (s.pc[t].Done? ==> s.pc[t].result == Success))
    ensures var s' := Next(s, u, e);
            t in s'.pc && (s'.pc[t].XFlip? || (s'.closed && (s'.pc[t].Done? ==> s'.pc[t].result == Success)))
  {
    ClosedStays(s, u, e);
  }

  // A Close that has returned has done so without complaint, and the manager is closed.
  lemma {:induction false} CloseAnswers(jobs: map<Tid, Job>, run: seq<Label>, t: Tid)
    requires Legal(Init(jobs), run) && t in jobs && jobs[t].Close?
    ensures var s := Exec(Init(jobs), run);
            t in s.pc && (s.pc[t].XFlip? || (s.closed && (s.pc[t].Done? ==> s.pc[t].result == Success)))
    decreases |run|
  {
    hide Enabled, Next, Locks, Counted, Held, OneCloser, Sweeping, Gate, Drain, Linked, LastLinks, Chained, Forward;
    if run != [] {
      var shorter, l := run[..|run|-1], run[|run|-1];
      CloseAnswers(jobs, shorter, t);
      RunKeepsSafe(jobs, shorter);
      StepCloses(Exec(Init(jobs), shorter), l.t, l.e, t);
    }
  }
}
