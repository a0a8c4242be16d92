/** The agreement theorems for certificates as they appear on the wire and for
    networks made of actual runs of the voting process. */
module Agreement {
  import opened Base
  import opened Epoch
  import opened Certs
  import opened VotorSpec
  import opened VotorInv
  import opened Quorums

  // ---- certificates ----

  /** No honest signature was forged. */
  ghost predicate Authentic(net: Network, c: Cert)
    requires c.Shaped()
  {
    forall v, b :: v in net.honest && b in c.BallotsOf(v) ==> net.Has(v, b)
  }

  ghost predicate Genuine(net: Network, c: Cert) {
    c.Shaped() && Authentic(net, c) && c.CheckThreshold(net.ei)
  }

  /** A genuine certificate stands for the quorum its kind names. */
  lemma CertificateMeaning(net: Network, c: Cert)
    requires net.Sound() && Genuine(net, c)
    ensures match c
      case NotarCert(s, h, _, _) => net.Notarized(BlockId(s, h))
      case NotarFallbackCert(s, h, _, _, _) => net.Endorsed(BlockId(s, h))
      case SkipCert(s, _, _, _) => net.Skipped(s)
      case FastFinalCert(s, h, _, _) => net.FastFinalized(BlockId(s, h))
      case FinalCert(s, _, _) => net.Finalized(s)
  {
    var signers := c.Signers();
    ThresholdIsQuorum(c, net.ei);
    forall v | v in signers && v in net.honest
      ensures c.BallotsOf(v) != {}
      ensures forall b :: b in c.BallotsOf(v) ==> net.Has(v, b)
    {
    }
    match c
    case NotarCert(s, h, _, _) => assert net.NotarBy(signers, BlockId(s, h));
    case NotarFallbackCert(s, h, _, _, _) => assert net.NotarOrFallbackBy(signers, BlockId(s, h));
    case SkipCert(s, _, _, _) => assert net.SkipOrFallbackBy(signers, s);
    case FastFinalCert(s, h, _, _) => assert net.NotarBy(signers, BlockId(s, h));
    case FinalCert(s, _, _) => assert net.FinalBy(signers, s);
  }

  lemma StrongIsQuorum(net: Network, b: BlockId)
    requires net.FastFinalized(b)
    ensures net.Notarized(b)
  {
  }

  /** A final certificate leaves room for one hash in its slot, whoever votes twice: every
      genuine certificate there that names a block names that one, and none is a skip
      certificate. */
  lemma SlowFinalizationSafety(net: Network, f: Cert) returns (h: BlockHash)
    requires net.Sound() && net.NotarsGrounded()
    requires f.FinalCert? && f.slot > 0 && Genuine(net, f)
    ensures forall c :: Genuine(net, c) && c.slot == f.slot ==>
      !c.SkipCert? && (c.NotarCert? || c.NotarFallbackCert? || c.FastFinalCert? ==> c.hash == h)
  {
    CertificateMeaning(net, f);
    h := SlowFinalizationSeals(net, f.slot);
    forall c | Genuine(net, c) && c.slot == f.slot
      ensures !c.SkipCert? && (c.NotarCert? || c.NotarFallbackCert? || c.FastFinalCert? ==> c.hash == h)
    {
      CertificateMeaning(net, c);
      if c.FastFinalCert? {
        StrongIsQuorum(net, BlockId(c.slot, c.hash));
      }
      if c.NotarCert? || c.FastFinalCert? {
        NotarizedIsCertified(net, BlockId(c.slot, c.hash));
      }
    }
  }

  // ---- networks of runs ----

  /** The epoch, the honest validators, the validators that pools may count twice, and the
      parent every block hash fixes. */
  datatype World = World(ei: EpochInfo, honest: set<nat>, doubles: set<nat>, parents: Parents)
  {
    /** Honest validators of the epoch, with less than 20% of the stake outside them. */
    ghost predicate Assumed() {
      && ei.WellFormed() && ei.totalStake > 0 && honest <= ei.All()
      && !ei.IsWeakest(ei.StakeOf(ei.All() - honest))
    }

    /** The others and the double voters hold less than 20% in sum. */
    ghost predicate Tolerable() {
      !ei.IsWeakest(ei.StakeOf(ei.All() - honest) + ei.StakeOf(doubles))
    }

    /** Every honest validator is given possible events. */
    ghost predicate Runs(runs: map<nat, seq<Event>>) {
      honest <= runs.Keys && forall v :: v in honest ==> Admissible(runs[v], parents)
    }
  }

  ghost function NetworkOf(w: World, runs: map<nat, seq<Event>>): Network
    requires w.Runs(runs)
  {
    MakeNetwork(w.ei, w.honest, w.doubles, map v | v in w.honest :: Run(v, runs[v], w.parents).cast,
                map v | v in w.honest :: runs[v], w.parents)
  }

  /** Honest validators that run the voting process make a sound network, whatever
      events they are given and whatever the others sign. */
  lemma RunsAreSound(w: World, runs: map<nat, seq<Event>>)
    requires w.Assumed() && w.Runs(runs)
    ensures NetworkOf(w, runs).Sound() && NetworkOf(w, runs).Tolerable() == w.Tolerable()
  {
  }

  /** Two final certificates, for any runs of the honest validators: the blocks they
      finalize lie on one chain. */
  lemma RunsAgree(w: World, runs: map<nat, seq<Event>>, f: Cert, g: Cert) returns (a: BlockId, b: BlockId)
    requires w.Assumed() && w.Tolerable() && w.Runs(runs) && NetworkOf(w, runs).Grounded()
    requires f.FinalCert? && Genuine(NetworkOf(w, runs), f)
    requires g.FinalCert? && Genuine(NetworkOf(w, runs), g)
    requires 0 < f.slot <= g.slot
    ensures a.slot == f.slot && b.slot == g.slot && Descends(w.parents, b, a)
    ensures Locked(NetworkOf(w, runs), a) && Locked(NetworkOf(w, runs), b)
  {
    var net := NetworkOf(w, runs);
    RunsAreSound(w, runs);
    CertificateMeaning(net, f);
    CertificateMeaning(net, g);
    a, b := FinalizedAgree(net, f.slot, g.slot);
  }
}
