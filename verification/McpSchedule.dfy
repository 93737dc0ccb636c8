/**
 Any schedule of the manager's methods is a run of the protocol, so what is proved about runs
 holds of the object itself.
 */
module McpSchedule {
  import opened Prelude
  import opened McpProtocol
  import opened McpInvariants
  import opened McpLiveness
  import opened McpManager
  import McpAnswers
  import McpTheorems

  lemma AtTheEnd(jobs: map<Tid, Job>, run: seq<Label>)
    requires Legal(Init(jobs), run)
    ensures var s := Exec(Init(jobs), run);
            && (forall x | x in s.closes :: s.closes[x] in {0, 1})
            && (DistinctNames(jobs) && s.closed && AllDone(s) ==>
                  s.servers == map[] && forall x | x in s.closes :: s.closes[x] == 1)
    ensures forall t | t in jobs :: StepsBy(run, t) <= MostActions(jobs, t)
    ensures var s := Exec(Init(jobs), run);
            forall t | t in jobs && jobs[t].Call? ::
              t in s.pc && (s.pc[t].Done? ==> McpAnswers.Accounted(s.pc[t].result, run, t))
  {
    hide Init, Exec, Legal, DistinctNames, StepsBy, MostActions, McpAnswers.Accounted;
    McpTheorems.NoSessionClosedTwice(jobs, run);
    forall t | t in jobs
      ensures StepsBy(run, t) <= MostActions(jobs, t)
    {
      EveryThreadFinishes(jobs, run, t);
    }
    forall t | t in jobs && jobs[t].Call?
      ensures var s := Exec(Init(jobs), run);
              t in s.pc && (s.pc[t].Done? ==> McpAnswers.Accounted(s.pc[t].result, run, t))
    {
      McpAnswers.CallAnswers(jobs, run, t);
    }
    if DistinctNames(jobs) && Exec(Init(jobs), run).closed && AllDone(Exec(Init(jobs), run)) {
      McpTheorems.NothingOpenAtTheEnd(jobs, run);
    }
  }

  method Execute(jobs: map<Tid, Job>, run: seq<Label>) returns (m: Manager)
    requires Legal(Init(jobs), run)
    ensures m.View() == Exec(Init(jobs), run)
    ensures forall t | t in jobs :: StepsBy(run, t) <= MostActions(jobs, t)
    ensures forall t | t in jobs && jobs[t].Call? ::
      t in m.pc && (m.pc[t].Done? ==> McpAnswers.Accounted(m.pc[t].result, run, t))
    ensures forall x | x in m.closes :: m.closes[x] in {0, 1}
    ensures DistinctNames(jobs) && m.closed && AllDone(m.View()) ==>
      m.servers == map[] && forall x | x in m.closes :: m.closes[x] == 1
  {
    m := new Manager(jobs);
    assert run[..0] == [];
    for i := 0 to |run|
      invariant Legal(Init(jobs), run[..i]) && m.View() == Exec(Init(jobs), run[..i]) && m.Valid()
      invariant fresh(m)
    {
      McpTheorems.PrefixLegal(Init(jobs), run, i);
      RunKeepsBasic(jobs, run[..i]);
      hide Init, Exec, Legal, Next, Enabled, Locks, Counted, OneCloser, Named, Safe;
      m.Act(run[i].t, run[i].e);
    }
    assert run[..|run|] == run;
    AtTheEnd(jobs, run);
  }
}
