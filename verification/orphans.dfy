/** A network whose certificates leave a block parked under a pruned one: everybody is honest and
    notarizes one chain, and a second block of slot 5 has the same parent. */
module Orphans {
  import opened Base
  import opened Epoch
  import opened Certs
  import opened VotorSpec
  import opened VotorInv
  import opened VotorRuns
  import opened Quorums
  import opened Agreement
  import opened Schedules
  import opened Rounds
  import opened Conflicts
  import opened MixedVotes

  const PARENT: BlockId := BlockId(4, 7)
  const CHILD: BlockId := BlockId(5, 8)
  const SIBLING: BlockId := BlockId(5, 9)
  const LATER: BlockId := BlockId(6, 10)

  /** Both blocks of slot 5 extend the block of slot 4. */
  function OrphanParents(): Parents {
    (b: BlockId) => if b.slot == 6 then SIBLING else if b.slot == 5 then PARENT else GenesisBlock()
  }

  ghost predicate ParentCert(c: Cert) {
    c.NotarCert? && c.slot == 4 && c.hash == PARENT.hash
  }

  /** Three blocks of a window arrive in order, then the first one is certified. */
  function ChainEvents(c: Cert): (q: seq<Event>)
    ensures |q| == 6 && q[0] == Fired(Timeout(1)) && q[..3] == OnTimeEvents()
  {
    OnTimeEvents() + [Block(5, SIBLING, PARENT), Block(6, LATER, SIBLING), CertCreated(c)]
  }

  ghost predicate ChainBallots(cast: seq<Ballot>, k: nat) {
    && (k >= 1 ==> FirstWindowSkipped(cast))
    && (k >= 5 ==> Notar(4, PARENT.hash) in cast && Notar(5, SIBLING.hash) in cast && Notar(6, LATER.hash) in cast)
    && (k == 6 ==> Final(4) in cast)
  }

  lemma ChainAdmissible(c: Cert, parents: Parents)
    requires parents == OrphanParents()
    ensures Admissible(ChainEvents(c), parents)
  {
  }

  /** Everybody notarizes the three blocks and finalizes the first. */
  lemma ChainRun(index: nat, e: seq<Event>, parents: Parents, c: Cert) returns (five: State, r: State)
    requires e == ChainEvents(c) && ParentCert(c) && Admissible(e, parents)
    ensures Admissible(e[..5], parents) && five == Run(index, e[..5], parents) && ChainBallots(five.cast, 5)
    ensures r == Run(index, e, parents) && ChainBallots(r.cast, 6)
  {
    hide Step, Run, Inv, NoPending, State.Tidy;
    PrefixStep(index, e, 3, parents);
    PrefixStep(index, e, 4, parents);
    PrefixStep(index, e, 5, parents);
    var three := OnTimeRun(index, e, parents);
    assert three.At(5) == FRESH && three.At(6) == FRESH;
    var four := BlockIsNotarized(three, SIBLING, PARENT);
    five := BlockIsNotarized(four, LATER, SIBLING);
    r := NotarCertArrives(five, c);
    assert e[..6] == e;
  }

  lemma ChainVotes(v: nat, e: seq<Event>, c: Cert, k: nat, parents: Parents)
    requires e == ChainEvents(c) && ParentCert(c) && k <= 6 && Admissible(e, parents)
    requires Admissible(Prefix(e, k), parents)
    ensures ChainBallots(Run(v, Prefix(e, k), parents).cast, k)
  {
    hide Run, Inv, Admissible, ChainEvents;
    if k >= 1 {
      var one := FirstWindowOver(v, e, parents);
      PrefixCasts(v, e, 1, k, parents);
    }
    if k >= 5 {
      var five, six := ChainRun(v, e, parents, c);
      assert e[..6] == e;
    }
  }

  ghost function ChainRuns(ei: EpochInfo, c: Cert): Runs {
    map v | v in ei.All() :: ChainEvents(c)
  }

  ghost predicate ChainNetwork(net: Network, k: nat) {
    && net.ei.WellFormed() && net.honest == net.ei.All()
    && forall v :: v in net.honest ==> v in net.cast && ChainBallots(net.cast[v], k)
  }

  lemma ChainAfter(ei: EpochInfo, c: Cert, k: nat) returns (net: Network)
    requires ei.WellFormed() && ParentCert(c) && k <= 6
    ensures var w, runs := HonestWorld(ei, OrphanParents()), ChainRuns(ei, c);
      w.Runs(runs) && w.Runs(UpTo(runs, k)) && net == NetworkOf(w, UpTo(runs, k))
    ensures net.ei == ei && ChainNetwork(net, k)
  {
    hide Run, Inv, Admissible, ChainEvents, Prefix, ChainBallots;
    var w, runs := HonestWorld(ei, OrphanParents()), ChainRuns(ei, c);
    ChainAdmissible(c, w.parents);
    PrefixAdmissible(w, runs, k);
    net := NetworkOf(w, UpTo(runs, k));
    forall v | v in net.honest
      ensures ChainBallots(net.cast[v], k)
    {
      ChainVotes(v, runs[v], c, k, w.parents);
    }
  }

  lemma ChainSkips(net: Network, k: nat, s: nat)
    requires ChainNetwork(net, k) && 1 <= s <= 3 && k >= 1
    ensures net.Skipped(s)
  {
    forall v | v in net.honest
      ensures net.Has(v, Skip(s))
    {
      assert ChainBallots(net.cast[v], k);
    }
    assert net.SkipOrFallbackBy(net.ei.All(), s);
  }

  lemma ChainNotarized(net: Network, k: nat)
    requires ChainNetwork(net, k) && k >= 5
    ensures net.Notarized(PARENT) && net.FastFinalized(SIBLING) && net.FastFinalized(LATER)
    ensures k == 6 ==> net.Finalized(4)
  {
    forall v | v in net.honest
      ensures net.Has(v, Notar(4, PARENT.hash)) && net.Has(v, Notar(5, SIBLING.hash))
      ensures net.Has(v, Notar(6, LATER.hash)) && (k == 6 ==> net.Has(v, Final(4)))
    {
      assert ChainBallots(net.cast[v], k);
    }
    AllNotarize(net, PARENT);
    AllNotarize(net, SIBLING);
    AllNotarize(net, LATER);
    assert k == 6 ==> net.FinalBy(net.ei.All(), 4);
  }

  lemma ChainJustified(ei: EpochInfo, c: Cert, k: nat)
    requires ei.WellFormed() && ParentCert(c) && k < 6
    ensures var w, runs := HonestWorld(ei, OrphanParents()), ChainRuns(ei, c);
      w.Runs(UpTo(runs, k)) && RoundJustified(w, runs, k)
  {
    hide NetworkOf, UpTo, ChainNetwork, Network.Skipped, Network.Notarized, World.Runs;
    var net := ChainAfter(ei, c, k);
    if k == 1 {
      ChainSkips(net, k, 1);
      ChainSkips(net, k, 2);
      ChainSkips(net, k, 3);
    } else if k == 5 {
      ChainNotarized(net, k);
    }
  }

  ghost function ChainSchedule(ei: EpochInfo, c: Cert): Schedule {
    Deal(ChainRuns(ei, c), 6, |ei.validators|)
  }

  /** In every epoch, with everybody honest and every event justified when handed over, slots 5
      and 6 are fast-finalized, and slot 4 is finalized with its block. */
  lemma ChainIsFinalized(ei: EpochInfo, c: Cert)
    requires ei.WellFormed() && ei.totalStake > 0 && ParentCert(c)
    ensures var w, sched := HonestWorld(ei, OrphanParents()), ChainSchedule(ei, c);
      w.Assumed() && w.Tolerable() && Feasible(w, sched) &&
      var net := After(w, sched);
      net.FastFinalized(SIBLING) && net.FastFinalized(LATER) && net.Notarized(PARENT) && net.Finalized(4)
  {
    hide After, Feasible, NetworkOf, UpTo, RoundJustified, Deal, ChainNetwork, ChainEvents, Network.Finalized,
         Network.Notarized, Network.FastFinalized;
    HonestIsAssumed(ei, OrphanParents());
    var w, runs := HonestWorld(ei, OrphanParents()), ChainRuns(ei, c);
    forall j | 0 <= j < 6
      ensures w.Runs(UpTo(runs, j)) && RoundJustified(w, runs, j)
    {
      ChainJustified(ei, c, j);
    }
    var net := ChainAfter(ei, c, 6);
    DealIsFeasible(w, runs, 6, |ei.validators|);
    FeasibleIsPossible(w, Deal(runs, 6, |ei.validators|));
    AfterDeal(w, runs, 6, |ei.validators|);
    ChainNotarized(net, 6);
  }
}
