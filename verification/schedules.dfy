/** Whole runs of the network: honest validators are handed events one at a time, each
    justified by the votes cast before it. Nothing else is assumed, and agreement follows. */
module Schedules {
  import opened Base
  import opened Certs
  import opened VotorSpec
  import opened VotorInv
  import opened VotorRuns
  import opened Quorums
  import opened Agreement

  // ---- what is justified stays justified ----

  /** The same validators have cast at least the same votes. */
  ghost predicate LaterThan(later: Network, net: Network) {
    && later.ei == net.ei && later.honest == net.honest && later.doubles == net.doubles && later.parents == net.parents
    && forall v, b :: v in net.honest && net.Has(v, b) ==> later.Has(v, b)
  }

  lemma QuorumsLast(net: Network, later: Network, b: BlockId, s: nat)
    requires LaterThan(later, net)
    ensures net.Notarized(b) ==> later.Notarized(b)
    ensures net.Certified(b) ==> later.Certified(b)
    ensures net.Skipped(s) ==> later.Skipped(s)
    ensures net.FastFinalized(b) ==> later.FastFinalized(b)
    ensures net.Finalized(s) ==> later.Finalized(s)
  {
  }

  lemma SupportLasts(net: Network, later: Network, b: BlockId)
    requires LaterThan(later, net) && net.Supported(b)
    ensures later.Supported(b)
  {
  }

  lemma AgainstLasts(net: Network, later: Network, s: nat, h: BlockHash)
    requires LaterThan(later, net) && net.Against(s, h)
    ensures later.Against(s, h)
  {
  }

  lemma JustifiedLasts(net: Network, later: Network, e: Event)
    requires LaterThan(later, net) && net.Justified(e)
    ensures later.Justified(e)
  {
    match e
    case CertCreated(c) =>
      if c.NotarCert? {
        QuorumsLast(net, later, BlockId(c.slot, c.hash), 0);
      }
    case ParentReady(s, p) =>
      forall t | p.slot < t < s
        ensures later.Skipped(t)
      {
        QuorumsLast(net, later, p, t);
      }
      QuorumsLast(net, later, p, 0);
    case SafeToNotar(b) =>
      SupportLasts(net, later, b);
      QuorumsLast(net, later, net.parents(b), 0);
    case SafeToSkip(s) =>
      forall h: BlockHash
        ensures later.Against(s, h)
      {
        AgainstLasts(net, later, s, h);
      }
    case _ =>
  }

  // ---- schedules ----

  /** Who is handed which event, in order. */
  type Schedule = seq<(nat, Event)>

  function EventsOf(sched: Schedule, v: nat): seq<Event> {
    if sched == [] then []
    else
      var last := |sched| - 1;
      EventsOf(sched[..last], v) + if sched[last].0 == v then [sched[last].1] else []
  }

  ghost predicate Possible(sched: Schedule, parents: Parents) {
    forall i :: 0 <= i < |sched| ==> ValidEvent(sched[i].1) && Truthful(sched[i].1, parents)
  }

  lemma {:induction false} EventsAdmissible(sched: Schedule, v: nat, parents: Parents)
    requires Possible(sched, parents)
    ensures Admissible(EventsOf(sched, v), parents)
  {
    if sched != [] {
      var last := |sched| - 1;
      assert forall i :: 0 <= i < last ==> sched[..last][i] == sched[i];
      EventsAdmissible(sched[..last], v, parents);
    }
  }

  /** The network after a schedule: every honest validator has run on its events. */
  ghost function After(w: World, sched: Schedule): Network
    requires Possible(sched, w.parents)
  {
    var runs := map v | v in w.honest :: EventsOf(sched, v);
    assert w.Runs(runs) by {
      forall v | v in w.honest
        ensures Admissible(runs[v], w.parents)
      {
        EventsAdmissible(sched, v, w.parents);
      }
    }
    NetworkOf(w, runs)
  }

  /** Every event was justified by the votes cast before it was handed over. */
  ghost predicate Feasible(w: World, sched: Schedule) {
    && Possible(sched, w.parents)
    && (sched == [] ||
        var last := |sched| - 1;
        Feasible(w, sched[..last]) && After(w, sched[..last]).Justified(sched[last].1))
  }

  lemma RunGrows(v: nat, events: seq<Event>, e: Event, parents: Parents)
    requires Admissible(events + [e], parents) && Admissible(events, parents)
    ensures KeepsCast(Run(v, events, parents), Run(v, events + [e], parents))
  {
    var more := events + [e];
    assert more[..|more| - 1] == events && more[|more| - 1] == e;
    assert ValidEvent(more[|events|]);
    StepCast(Run(v, events, parents), e);
  }

  lemma KeptVote(st: State, r: State, b: Ballot)
    requires KeepsCast(st, r) && b in st.cast
    ensures b in r.cast
  {
  }

  lemma VoterGrows(v: nat, sched: Schedule, parents: Parents)
    requires sched != [] && Possible(sched, parents) && Possible(sched[..|sched| - 1], parents)
    ensures Admissible(EventsOf(sched, v), parents) && Admissible(EventsOf(sched[..|sched| - 1], v), parents)
    ensures KeepsCast(Run(v, EventsOf(sched[..|sched| - 1], v), parents), Run(v, EventsOf(sched, v), parents))
  {
    hide Run, Admissible;
    EventsAdmissible(sched, v, parents);
    EventsAdmissible(sched[..|sched| - 1], v, parents);
    if sched[|sched| - 1].0 == v {
      RunGrows(v, EventsOf(sched[..|sched| - 1], v), sched[|sched| - 1].1, parents);
    } else {
      assert EventsOf(sched, v) == EventsOf(sched[..|sched| - 1], v);
    }
  }

  lemma AfterGrows(w: World, sched: Schedule)
    requires sched != [] && Possible(sched, w.parents) && Possible(sched[..|sched| - 1], w.parents)
    ensures LaterThan(After(w, sched), After(w, sched[..|sched| - 1]))
  {
    hide Run, Admissible, EventsOf, KeepsCast;
    var net, later := After(w, sched[..|sched| - 1]), After(w, sched);
    forall v, b | v in w.honest && net.Has(v, b)
      ensures later.Has(v, b)
    {
      VoterGrows(v, sched, w.parents);
      KeptVote(Run(v, EventsOf(sched[..|sched| - 1], v), w.parents), Run(v, EventsOf(sched, v), w.parents), b);
    }
  }

  /** Handing over one more justified event. */
  lemma HandOver(w: World, sched: Schedule, v: nat, e: Event)
    requires Feasible(w, sched) && ValidEvent(e) && Truthful(e, w.parents) && After(w, sched).Justified(e)
    ensures Feasible(w, sched + [(v, e)]) && LaterThan(After(w, sched + [(v, e)]), After(w, sched))
    ensures forall u :: EventsOf(sched + [(v, e)], u) == EventsOf(sched, u) + if u == v then [e] else []
  {
    var more := sched + [(v, e)];
    assert more[..|more| - 1] == sched && more[|more| - 1] == (v, e);
    AfterGrows(w, more);
  }

  lemma FeasibleIsPossible(w: World, sched: Schedule)
    requires Feasible(w, sched)
    ensures Possible(sched, w.parents)
  {
  }

  /** If events are justified when handed over, they are justified for good. */
  lemma {:induction false} FeasibleIsGrounded(w: World, sched: Schedule)
    requires Feasible(w, sched)
    ensures After(w, sched).Grounded()
  {
    var later := After(w, sched);
    if sched != [] {
      var last := |sched| - 1;
      var net := After(w, sched[..last]);
      FeasibleIsGrounded(w, sched[..last]);
      AfterGrows(w, sched);
      forall v, e | v in later.honest && later.Saw(v, e)
        ensures later.Justified(e)
      {
        if e != sched[last].1 || sched[last].0 != v {
          assert net.Saw(v, e);
        }
        JustifiedLasts(net, later, e);
      }
    }
  }

  lemma ScheduleIsSound(w: World, sched: Schedule)
    requires w.Assumed() && Feasible(w, sched)
    ensures After(w, sched).Sound() && After(w, sched).Grounded() && (w.Tolerable() ==> After(w, sched).Tolerable())
    ensures After(w, sched).ei == w.ei && After(w, sched).parents == w.parents
  {
    var runs := map v | v in w.honest :: EventsOf(sched, v);
    forall v | v in w.honest
      ensures Admissible(runs[v], w.parents)
    {
      EventsAdmissible(sched, v, w.parents);
    }
    RunsAreSound(w, runs);
    FeasibleIsGrounded(w, sched);
  }

  /** Agreement, end to end: whatever the schedule and whatever the others sign, the
      blocks of any two final certificates lie on one chain, as long as the others and
      the double voters stay below 20% in sum. */
  lemma SchedulesAgree(w: World, sched: Schedule, f: Cert, g: Cert) returns (a: BlockId, b: BlockId)
    requires w.Assumed() && w.Tolerable() && Feasible(w, sched)
    requires f.FinalCert? && Genuine(After(w, sched), f)
    requires g.FinalCert? && Genuine(After(w, sched), g)
    requires 0 < f.slot <= g.slot
    ensures a.slot == f.slot && b.slot == g.slot && Descends(w.parents, b, a)
  {
    var runs := map v | v in w.honest :: EventsOf(sched, v);
    forall v | v in w.honest
      ensures Admissible(runs[v], w.parents)
    {
      EventsAdmissible(sched, v, w.parents);
    }
    FeasibleIsGrounded(w, sched);
    a, b := RunsAgree(w, runs, f, g);
  }

  /** The same above a fast-finalized block: for every schedule, the block of any certificate at
      or above a fast-final one descends from its block, as long as few voted both ways there. */
  lemma FastSchedulesAgree(w: World, sched: Schedule, f: Cert, g: Cert) returns (b: BlockId)
    requires w.Assumed() && Feasible(w, sched) && FewMixed(After(w, sched), f.slot)
    requires f.FastFinalCert? && Genuine(After(w, sched), f)
    requires !g.SkipCert? && Genuine(After(w, sched), g)
    requires 0 < f.slot <= g.slot
    ensures b.slot == g.slot && Descends(w.parents, b, BlockId(f.slot, f.hash))
    ensures if g.FinalCert? then After(w, sched).Notarized(b) else b.hash == g.hash
  {
    var net := After(w, sched);
    ScheduleIsSound(w, sched);
    CertificateMeaning(net, f);
    CertificateMeaning(net, g);
    if g.FinalCert? {
      assert net.NotarsGrounded();
      var h := SlowFinalizationSeals(net, g.slot);
      b := BlockId(g.slot, h);
    } else {
      b := BlockId(g.slot, g.hash);
    }
    NamedIsCertified(net, b);
    FastFinalizedAgree(net, BlockId(f.slot, f.hash), b);
  }

  lemma NamedIsCertified(net: Network, b: BlockId)
    requires net.Notarized(b) || net.FastFinalized(b) || net.Endorsed(b)
    ensures net.Certified(b)
  {
    if net.Endorsed(b) {
      EndorsedIsCertified(net, b);
    } else {
      if net.FastFinalized(b) {
        StrongIsQuorum(net, b);
      }
      NotarizedIsCertified(net, b);
    }
  }
}
