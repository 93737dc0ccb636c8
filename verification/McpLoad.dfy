/**
 LoadFromConfig: one ConnectServer thread for every enabled key of the configuration. Its
 verdict looks at the map only, so the map must show exactly the servers that connected.
 */
module McpLoad {
  import opened Prelude
  import opened McpProtocol
  import opened McpInvariants
  import opened McpTheorems

  // ConnectServer has published its session and will return, or has returned, without an error.
  predicate Connected(p: PC) {
    p == CUnlock(Success) || p == Done(Success)
  }

  predicate ConnectedAs(s: State, t: Tid, n: Name) {
    t in s.pc && t in s.jobs && s.jobs[t] == Connect(n) && Connected(s.pc[t])
  }

  // The map has an entry for a name exactly when a ConnectServer for it has succeeded.
  ghost predicate Shown(s: State) {
    forall n :: n in s.servers <==> exists t :: ConnectedAs(s, t, n)
  }

  // ... until Close empties it.
  ghost predicate ShownOrReset(s: State) {
    if WasReset(s) then s.servers == map[] else Shown(s)
  }

  // Only publishing makes a ConnectServer thread connected, and nothing undoes it.
  lemma ConnectedMove(p: PC, e: Event, closed: bool)
    requires Fits(Connect(""), p) && Offered(p, e) && !p.Done?
    ensures var m := ConnectMove(p, e, closed);
      && (Connected(m.to) <==> Connected(p) || m.effect.Publish?)
      && !m.effect.ResetMap? && (m.effect.Publish? ==> !Connected(p))
  {
  }

  lemma CallKeepsNames(p: PC, e: Event, closed: bool, cur: Option<Sid>)
    ensures !CallMove(p, e, closed, cur).effect.Publish? && !CallMove(p, e, closed, cur).effect.ResetMap?
    ensures ReconnectMove(p, e, closed, cur).effect.Publish? ==> cur.Some?
    ensures !ReconnectMove(p, e, closed, cur).effect.ResetMap?
  {
  }

  // What an action does to the set of connected threads, and to the names in the map.
  lemma OneConnects(s: State, t: Tid, e: Event)
    requires Shape(s) && Enabled(s, t, e) && Shown(s)
    ensures var m := MoveOf(s, t, e);
            s.jobs[t].Connect? ==> (Connected(m.to) <==> Connected(s.pc[t]) || m.effect.Publish?)
    ensures var m := MoveOf(s, t, e);
            !s.jobs[t].Connect? && m.effect.Publish? ==> s.jobs[t].Call? && s.jobs[t].name in s.servers
  {
    var j, p, cur := s.jobs[t], s.pc[t], Entry(s, NameOf(s.jobs[t]));
    if j.Connect? {
      ConnectedMove(p, e, s.closed);
    } else {
      CallKeepsNames(p, e, s.closed, cur);
    }
  }

  lemma MapParts(s: State, t: Tid, m: Move)
    requires t in s.pc && t in s.jobs && !m.effect.ResetMap?
    ensures After(s, t, m).jobs == s.jobs && After(s, t, m).pc == s.pc[t := m.to]
    ensures forall n :: n in After(s, t, m).servers <==> n in s.servers || (m.effect.Publish? && n == NameOf(s.jobs[t]))
  {
  }

  lemma ShownKept(s: State, t: Tid, e: Event)
    requires Shape(s) && Enabled(s, t, e) && Shown(s) && !MoveOf(s, t, e).effect.ResetMap?
    ensures Shown(Next(s, t, e))
  {
    OneConnects(s, t, e);
    var m, s' := MoveOf(s, t, e), Next(s, t, e);
    hide After, MoveOf, Enabled, Connected, Fits;
    MapParts(s, t, m);
    forall n
      ensures n in s'.servers <==> exists u :: ConnectedAs(s', u, n)
    {
      assert forall u | u != t :: ConnectedAs(s', u, n) == ConnectedAs(s, u, n);
      if n in s.servers {
        var u :| ConnectedAs(s, u, n);
        assert ConnectedAs(s', u, n);
      } else if n in s'.servers {
        assert ConnectedAs(s', t, n);
      } else {
        assert !ConnectedAs(s, t, n) && !ConnectedAs(s', t, n);
      }
    }
  }

  lemma ShownOrResetKept(s: State, t: Tid, e: Event)
    requires Safe(s) && Enabled(s, t, e) && Safe(Next(s, t, e)) && ShownOrReset(s)
    ensures ShownOrReset(Next(s, t, e))
  {
    AllMovesGood(s, t, e);
    ResetStays(s, t, e, MoveOf(s, t, e));
    hide MoveOf, Next, Enabled, Shown, GoodMove, WasReset, Shape, Locks, Counted, Held, OneCloser, Gate, Linked,
        LastLinks;
    if !WasReset(Next(s, t, e)) {
      ShownKept(s, t, e);
    }
  }

  // The map shows exactly the servers that connected, whatever calls and reconnects happen, until
  // Close empties it for good.
  lemma {:induction false} MapShowsConnected(jobs: map<Tid, Job>, run: seq<Label>)
    requires Legal(Init(jobs), run)
    ensures ShownOrReset(Exec(Init(jobs), run))
    decreases |run|
  {
    hide Safe, ShownOrReset, Init, Enabled, Next;
    if run == [] {
      InitShown(jobs);
    } else {
      var shorter := run[..|run|-1];
      MapShowsConnected(jobs, shorter);
      RunKeepsSafe(jobs, shorter);
      RunKeepsSafe(jobs, run);
      ShownOrResetKept(Exec(Init(jobs), shorter), run[|run|-1].t, run[|run|-1].e);
    }
  }

  lemma InitShown(jobs: map<Tid, Job>)
    ensures ShownOrReset(Init(jobs))
  {
  }

  // LoadFromConfig starts a ConnectServer thread for every enabled key of the configuration.
  predicate IsLoad(jobs: map<Tid, Job>, load: set<Tid>) {
    load <= jobs.Keys && forall t | t in load :: jobs[t].Connect?
  }

  // It waits until all of them have returned.
  predicate Returned(s: State, load: set<Tid>) {
    forall t | t in load :: t in s.pc && s.pc[t].Done?
  }

  predicate SomeFailed(s: State, load: set<Tid>) {
    exists t :: t in load && t in s.pc && s.pc[t] != Done(Success)
  }

  predicate AnyEnabled(load: set<Tid>) {
    exists t :: t in load
  }

  // Its answer is its threads' errors joined if servers were enabled and the map is then empty;
  // joined errors are an error exactly when there is one.
  predicate LoadFails(s: State, load: set<Tid>) {
    AnyEnabled(load) && s.servers == map[] && SomeFailed(s, load)
  }

  predicate NoneConnected(s: State) {
    forall t | t in s.pc && t in s.jobs && s.jobs[t].Connect? :: !Connected(s.pc[t])
  }

  // Without an earlier Close the map is empty exactly when no ConnectServer, of this load or of
  // anybody else, has succeeded.
  lemma EmptyIffNoneConnected(s: State)
    requires Shape(s) && ShownOrReset(s)
    ensures !WasReset(s) ==> (s.servers == map[] <==> NoneConnected(s))
  {
    hide WasReset, Connected, Fits;
    if !WasReset(s) {
      if s.servers != map[] {
        var n :| n in s.servers;
        var t :| ConnectedAs(s, t, n);
        assert t in s.pc && s.jobs[t].Connect? && Connected(s.pc[t]);
      } else {
        forall t | t in s.pc && s.jobs[t].Connect?
          ensures !Connected(s.pc[t])
        {
          var n := s.jobs[t].name;
          assert n !in s.servers;
          assert !ConnectedAs(s, t, n);
        }
      }
    }
  }

  // So a load fails exactly when one of its connects failed and either no connect of anybody has
  // succeeded or Close has emptied the map.
  lemma LoadVerdict(jobs: map<Tid, Job>, run: seq<Label>, load: set<Tid>)
    requires Legal(Init(jobs), run) && IsLoad(jobs, load) && Returned(Exec(Init(jobs), run), load)
    ensures var s := Exec(Init(jobs), run); LoadFails(s, load) <==>
        SomeFailed(s, load) && (WasReset(s) || NoneConnected(s))
  {
    MapShowsConnected(jobs, run);
    RunKeepsSafe(jobs, run);
    hide Init, WasReset, NoneConnected, Locks, Counted, Held, OneCloser, Sweeping, Gate, Linked, LastLinks, Shown,
        Shape;
    EmptyIffNoneConnected(Exec(Init(jobs), run));
  }

  // Nobody but the load connects to the manager, and nobody closes it.
  predicate OnlyLoad(jobs: map<Tid, Job>, load: set<Tid>) {
    IsLoad(jobs, load) && forall t | t in jobs && t !in load :: jobs[t].Call?
  }

  predicate AllFailed(s: State, load: set<Tid>) {
    forall t | t in load :: t in s.pc && s.pc[t] != Done(Success)
  }

  lemma AllFailedMeans(s: State, load: set<Tid>)
    requires Shape(s) && OnlyLoad(s.jobs, load) && Returned(s, load)
    ensures NoneConnected(s) <==> AllFailed(s, load)
    ensures AnyEnabled(load) && AllFailed(s, load) ==> SomeFailed(s, load)
  {
    hide Fits;
    forall t | t in load
      ensures t in s.pc && s.jobs[t].Connect? && (Connected(s.pc[t]) <==> s.pc[t] == Done(Success))
    {
      assert t in s.jobs;
    }
  }

  lemma ResetByClose(s: State)
    requires Shape(s) && OneCloser(s)
    ensures WasReset(s) ==> s.closer.Some? && s.closer.value in s.jobs && s.jobs[s.closer.value].Close?
  {
  }

  lemma OnlyLoadNotReset(s: State, load: set<Tid>)
    requires Shape(s) && OneCloser(s) && OnlyLoad(s.jobs, load)
    ensures !WasReset(s)
  {
    forall t | t in s.jobs
      ensures !s.jobs[t].Close?
    {
      assert t in load ==> s.jobs[t].Connect?;
    }
    ResetByClose(s);
  }

  // Then the load fails exactly when servers are enabled and every one of them failed.
  lemma LoadFailsIffAllFailed(jobs: map<Tid, Job>, run: seq<Label>, load: set<Tid>)
    requires Legal(Init(jobs), run) && OnlyLoad(jobs, load) && Returned(Exec(Init(jobs), run), load)
    ensures var s := Exec(Init(jobs), run); LoadFails(s, load) <==> AnyEnabled(load) && AllFailed(s, load)
  {
    LoadVerdict(jobs, run, load);
    RunKeepsSafe(jobs, run);
    var s := Exec(Init(jobs), run);
    hide Init, Exec, Legal, Shape, Locks, Counted, Held, OneCloser, Sweeping, Gate, Linked, LastLinks, WasReset;
    hide NoneConnected, AllFailed, SomeFailed, AnyEnabled, Returned, OnlyLoad;
    OnlyLoadNotReset(s, load);
    AllFailedMeans(s, load);
  }

  // A load whose threads are alone never leaks: its names are the keys of a map, so they differ.
  lemma LoadNeverLeaks(enabled: map<Tid, Name>)
    requires forall t, u | t in enabled && u in enabled && t != u :: enabled[t] != enabled[u]
    ensures LeakFree(map t | t in enabled :: Connect(enabled[t]))
  {
    LeakFreeIffNamesDistinct(map t | t in enabled :: Connect(enabled[t]));
  }
}
