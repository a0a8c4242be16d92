/** What the events and certificates of a slot state stand for, in terms of the votes
    behind them, and where they fall short (crates/karstflow-alpenglow/src/slot_state.rs). */
module SlotMeaning {
  import opened Base
  import opened Epoch
  import opened AggSig
  import opened Certs
  import opened SlotSpec
  import opened SlotStates
  import opened Quorums

  // ---- certificates against their own threshold test ----

  lemma AggSigners(a: AggregateSignature, ei: EpochInfo, voters: set<nat>)
    requires AggOf(a, ei, voters) && |ei.validators| <= MAX_SIGNERS
    ensures a.Shaped() && forall v: nat :: a.IsSigner(v) <==> v in voters
  {
  }

  lemma MixedSigners(c: Cert, a: Option<AggregateSignature>, b: Option<AggregateSignature>, ei: EpochInfo, x: set<nat>,
                     y: set<nat>)
    requires |ei.validators| <= MAX_SIGNERS && OptionalAggOf(a, ei, x) && OptionalAggOf(b, ei, y)
    requires (c.SkipCert? && c.aggSkip == a && c.aggFallback == b) ||
      (c.NotarFallbackCert? && c.aggNotar == a && c.aggFallback == b)
    ensures c.Shaped() && c.Signers() == x + y
  {
    if x != {} {
      AggSigners(a.value, ei, x);
    }
    if y != {} {
      AggSigners(b.value, ei, y);
    }
  }

  /** A skip certificate built by the slot passes the threshold test. */
  lemma SkipCertMeets(c: Cert, ei: EpochInfo, slot: nat, votes: Votes, fallbacks: FallbackVotes, t: Totals)
    requires ei.WellFormed() && |ei.validators| <= MAX_SIGNERS
    requires Compatible(ei, votes, fallbacks) && Accounted(ei, votes, fallbacks, t)
    requires SkipCertOf(c, ei, slot, SkipVoters(votes), SkipFallbackVoters(votes))
    requires ei.IsQuorate(t.skip + t.skipFallback)
    ensures c.Shaped() && c.CheckThreshold(ei)
  {
    var x, y := SkipVoters(votes), SkipFallbackVoters(votes);
    MixedSigners(c, c.aggSkip, c.aggFallback, ei, x, y);
    Disjoint(ei, x, y);
    ThresholdIsQuorum(c, ei);
  }

  /** So does a final certificate. */
  lemma FinalCertMeets(c: Cert, ei: EpochInfo, slot: nat, votes: Votes, fallbacks: FallbackVotes, t: Totals)
    requires ei.WellFormed() && |ei.validators| <= MAX_SIGNERS
    requires Accounted(ei, votes, fallbacks, t)
    requires FinalCertOf(c, ei, slot, FinalVoters(votes)) && ei.IsQuorate(t.finalize)
    ensures c.Shaped() && c.CheckThreshold(ei)
  {
    AggSigners(c.agg, ei, FinalVoters(votes));
    assert c.Signers() == FinalVoters(votes);
    ThresholdIsQuorum(c, ei);
  }

  /** Notar and fast-final certificates omit the vote that triggered them: the stake they
      carry is the total before it, so they pass the threshold test exactly when that
      total already met it. */
  lemma NotarCertFallsShort(c: Cert, ei: EpochInfo, slot: nat, h: BlockHash, votes: Votes, fallbacks: FallbackVotes,
                            t: Totals, v: nat)
    requires ei.WellFormed() && |ei.validators| <= MAX_SIGNERS && v < |ei.validators|
    requires Accounted(ei, votes, fallbacks, t)
    requires NotarCertOf(c, ei, slot, h, NotarVoters(votes, h)) ||
      FastFinalCertOf(c, ei, slot, h, NotarVoters(votes, h))
    ensures c.Shaped()
    ensures ei.StakeOf(c.Signers()) + ei.validators[v].stake
         == StakeAt(Count(t, Notar(slot, h), ei.validators[v].stake).notar, h)
    ensures c.CheckThreshold(ei) <==>
      if c.FastFinalCert? then ei.IsStrong(StakeAt(t.notar, h)) else ei.IsQuorate(StakeAt(t.notar, h))
  {
    AggSigners(c.agg, ei, NotarVoters(votes, h));
    assert c.Signers() == NotarVoters(votes, h);
    assert StakeAt(t.notar, h) == ei.StakeOf(NotarVoters(votes, h));
    ThresholdIsQuorum(c, ei);
  }

  /** A fallback certificate also counts twice whoever voted both ways for the block: it
      passes exactly when the stake before the trigger, less the double votes, is a quorum. */
  lemma FallbackCertFallsShort(c: Cert, ei: EpochInfo, slot: nat, h: BlockHash, votes: Votes, fallbacks: FallbackVotes,
                               t: Totals)
    requires ei.WellFormed() && |ei.validators| <= MAX_SIGNERS
    requires Accounted(ei, votes, fallbacks, t)
    requires FallbackCertOf(c, ei, slot, h, NotarVoters(votes, h), FallbackVoters(fallbacks, h))
    ensures c.Shaped()
    ensures ei.StakeOf(c.Signers()) + DoubleStake(ei, votes, fallbacks, h) ==
      StakeAt(t.notar, h) + StakeAt(t.fallback, h)
    ensures c.CheckThreshold(ei) <==>
      ei.IsQuorate(StakeAt(t.notar, h) + StakeAt(t.fallback, h) - DoubleStake(ei, votes, fallbacks, h))
  {
    var x, y := NotarVoters(votes, h), FallbackVoters(fallbacks, h);
    MixedSigners(c, c.aggNotar, c.aggFallback, ei, x, y);
    assert StakeAt(t.notar, h) == ei.StakeOf(x) && StakeAt(t.fallback, h) == ei.StakeOf(y);
    InclusionExclusion(ei, x, y);
    ThresholdIsQuorum(c, ei);
  }

  /** Stake of the validators with a notar and a notar-fallback vote for the same block. */
  ghost function DoubleStake(ei: EpochInfo, votes: Votes, fallbacks: FallbackVotes, h: BlockHash): nat {
    ei.StakeOf(NotarVoters(votes, h) * FallbackVoters(fallbacks, h))
  }

  /** Validator 0 votes notar and notar-fallback for one block, then validator 1 votes
      notar-fallback: a certificate is due although two of five validators voted at all. */
  lemma DoubleVotesFallShort()
    ensures var ei := FiveEqual();
      var votes := Store(map[], 0, Notar(1, 7));
      var t := Count(Count(Count(NO_STAKE, Notar(1, 7), 1), NotarFallback(1, 7), 1), NotarFallback(1, 7), 1);
      && Accepts(map[], {}, 0, Notar(1, 7)) && Accepts(votes, {}, 0, NotarFallback(1, 7))
      && Accepts(votes, {(0, 7)}, 1, NotarFallback(1, 7))
      && FallbackDue(ei, t, NO_CERTS, 7)
      && !ei.IsQuorate(ei.StakeOf(NotarVoters(votes, 7) + FallbackVoters({(0, 7), (1, 7)}, 7)))
  {
    var ei := FiveEqual();
    var s := NotarVoters(Store(map[], 0, Notar(1, 7)), 7) + FallbackVoters({(0, 7), (1, 7)}, 7);
    assert s <= {0, 1};
    assert StakeUpTo(ei.validators, s, 0) == 0;
    assert StakeUpTo(ei.validators, s, 1) <= 1;
    assert StakeUpTo(ei.validators, s, 2) <= 2;
    assert StakeUpTo(ei.validators, s, 3) <= 2;
    assert StakeUpTo(ei.validators, s, 4) <= 2;
    assert StakeUpTo(ei.validators, s, 5) <= 2;
  }

  // ---- when a vote creates a certificate ----

  ghost predicate Creates(out: seq<Cert>, kind: Cert -> bool) {
    exists i :: 0 <= i < |out| && kind(out[i])
  }

  /** Which certificates come out with a vote, by the votes stored with it: 60% of the stake behind
      one kind of vote, 80% for a fast-final certificate, and none of that kind stored before. A
      fallback certificate counts notar and notar-fallback voters, each for itself. */
  lemma CertsWhen(out: seq<Cert>, ei: EpochInfo, b: Ballot, votes: Votes, fallbacks: FallbackVotes, t: Totals,
                  certs: SlotCerts, v: nat)
    requires ei.WellFormed() && Compatible(ei, votes, fallbacks) && Accounted(ei, votes, fallbacks, t)
    requires v < |ei.validators| && Accepts(votes, fallbacks, v, b)
    requires CertsAre(out, ei, b.slot, b, votes, Store(votes, v, b), fallbacks,
                      Count(t, b, ei.validators[v].stake), certs)
    ensures var after, more, total := Store(votes, v, b), StoreFallback(fallbacks, v, b), ei.totalStake;
      && (Creates(out, (c: Cert) => c.NotarCert?) <==>
            b.Notar? && certs.notar.None? && 5 * ei.StakeOf(NotarVoters(after, b.hash)) >= 3 * total)
      && (Creates(out, (c: Cert) => c.FastFinalCert?) <==>
            b.Notar? && certs.fastFinal.None? && 5 * ei.StakeOf(NotarVoters(after, b.hash)) >= 4 * total)
      && (Creates(out, (c: Cert) => c.NotarFallbackCert?) <==>
            && (b.Notar? || b.NotarFallback?) && !HasFallbackCert(certs, b.hash)
            && 5 * (ei.StakeOf(NotarVoters(after, b.hash)) + ei.StakeOf(FallbackVoters(more, b.hash))) >= 3 * total)
      && (Creates(out, (c: Cert) => c.SkipCert?) <==>
            && (b.Skip? || b.SkipFallback?) && certs.skip.None?
            && 5 * ei.StakeOf(SkipVoters(after) + SkipFallbackVoters(after)) >= 3 * total)
      && (Creates(out, (c: Cert) => c.FinalCert?) <==>
            b.Final? && certs.final.None? && 5 * ei.StakeOf(FinalVoters(after)) >= 3 * total)
  {
    var after, more := Store(votes, v, b), StoreFallback(fallbacks, v, b);
    var t' := Count(t, b, ei.validators[v].stake);
    CountKeepsAccounted(ei, votes, fallbacks, t, v, b);
    AcceptedStaysCompatible(ei, votes, fallbacks, v, b);
    Disjoint(ei, SkipVoters(after), SkipFallbackVoters(after));
    if b.Notar? || b.NotarFallback? {
      assert StakeAt(t'.notar, b.hash) == ei.StakeOf(NotarVoters(after, b.hash));
      assert StakeAt(t'.fallback, b.hash) == ei.StakeOf(FallbackVoters(more, b.hash));
    }
    KindsOut(out, ei, b, votes, after, fallbacks, t', certs);
  }

  /** The kinds among the certificates of a vote, by what is due. */
  lemma KindsOut(out: seq<Cert>, ei: EpochInfo, b: Ballot, before: Votes, after: Votes, fallbacks: FallbackVotes,
                 t: Totals, certs: SlotCerts)
    requires CertsAre(out, ei, b.slot, b, before, after, fallbacks, t, certs)
    ensures Creates(out, (c: Cert) => c.NotarCert?) <==> b.Notar? && NotarDue(ei, t, certs, b.hash)
    ensures Creates(out, (c: Cert) => c.FastFinalCert?) <==> b.Notar? && FastFinalDue(ei, t, certs, b.hash)
    ensures Creates(out, (c: Cert) => c.NotarFallbackCert?) <==>
      (b.Notar? || b.NotarFallback?) && FallbackDue(ei, t, certs, b.hash)
    ensures Creates(out, (c: Cert) => c.SkipCert?) <==> (b.Skip? || b.SkipFallback?) && SkipDue(ei, t, certs)
    ensures Creates(out, (c: Cert) => c.FinalCert?) <==> b.Final? && FinalDue(ei, t, certs)
  {
    hide AggOf, OptionalAggOf, NotarVoters, SkipVoters, FinalVoters, SkipFallbackVoters, FallbackVoters,
         EpochInfo.IsQuorate, EpochInfo.IsStrong;
    if b.Notar? {
      var f, n := One(FallbackDue(ei, t, certs, b.hash)), One(NotarDue(ei, t, certs, b.hash));
      assert FallbackDue(ei, t, certs, b.hash) ==> out[0].NotarFallbackCert?;
      assert NotarDue(ei, t, certs, b.hash) ==> out[f].NotarCert?;
      assert FastFinalDue(ei, t, certs, b.hash) ==> out[f + n].FastFinalCert?;
    } else {
      assert out != [] ==> |out| == 1 && out[0] == out[|out| - 1];
    }
  }

  // ---- safe to skip ----

  /** The validators that voted skip or notar, but not for this block. */
  ghost function VotersAgainst(votes: Votes, h: BlockHash): set<nat> {
    SkipVoters(votes) + (AllNotarVoters(votes) - NotarVoters(votes, h))
  }

  lemma AgainstStake(ei: EpochInfo, votes: Votes, fallbacks: FallbackVotes, t: Totals, h: BlockHash)
    requires ei.WellFormed() && Compatible(ei, votes, fallbacks) && Accounted(ei, votes, fallbacks, t)
    ensures StakeAt(t.notar, h) <= t.notarOrSkip
    ensures ei.StakeOf(VotersAgainst(votes, h)) == t.notarOrSkip - StakeAt(t.notar, h)
  {
    var all, mine, skip := AllNotarVoters(votes), NotarVoters(votes, h), SkipVoters(votes);
    assert StakeAt(t.notar, h) == ei.StakeOf(mine);
    Disjoint(ei, mine, all - mine);
    assert mine + (all - mine) == all;
    Disjoint(ei, skip, all - mine);
  }

  /** The single subtraction against the strongest block stands for all blocks: a slot is
      safe to skip iff we notarized and, for every block, 40% voted against it. */
  lemma SafeSkipMeaning(ei: EpochInfo, votes: Votes, fallbacks: FallbackVotes, t: Totals, own: nat)
    requires ei.WellFormed() && Compatible(ei, votes, fallbacks) && Accounted(ei, votes, fallbacks, t)
    ensures SafeSkip(ei, votes, t, own) <==>
      Of(votes, own).notar.Some? && forall h :: ei.IsWeak(ei.StakeOf(VotersAgainst(votes, h)))
  {
    TotalsBounded(ei, votes, fallbacks, t);
    forall h: BlockHash
      ensures ei.StakeOf(VotersAgainst(votes, h)) == t.notarOrSkip - StakeAt(t.notar, h) >= t.notarOrSkip - t.topNotar
    {
      AgainstStake(ei, votes, fallbacks, t, h);
      assert StakeAt(t.notar, h) <= t.topNotar;
    }
    var h: BlockHash :| t.topNotar == 0 || StakeAt(t.notar, h) == t.topNotar;
    assert ei.StakeOf(VotersAgainst(votes, h)) == t.notarOrSkip - StakeAt(t.notar, h);
    assert StakeAt(t.notar, h) == t.topNotar by {
      assert StakeAt(t.notar, h) <= t.topNotar;
    }
  }

  /** No safe slot is left unannounced. */
  ghost predicate SkipAnnounced(ei: EpochInfo, votes: Votes, t: Totals, own: nat, sent: bool) {
    SafeSkip(ei, votes, t, own) ==> sent
  }

  /** A vote keeps every safe slot announced, except that our own notar vote is not
      followed by a check: then 40% against the strongest block goes unannounced. */
  lemma SkipAnnouncedUnlessOwnNotar(ei: EpochInfo, votes: Votes, fallbacks: FallbackVotes, t: Totals, own: nat,
                                    sent: bool, v: nat, b: Ballot)
    requires ei.WellFormed() && Compatible(ei, votes, fallbacks) && Accounted(ei, votes, fallbacks, t)
    requires v < |ei.validators| && Accepts(votes, fallbacks, v, b) && SkipAnnounced(ei, votes, t, own, sent)
    ensures var votes', t' := Store(votes, v, b), Count(t, b, ei.validators[v].stake);
      && t'.topNotar <= t'.notarOrSkip
      && (SkipAnnounced(ei, votes', t', own, sent || SkipFires(ei, b, votes, votes', t', own))
          <==> !(b.Notar? && v == own && !sent && ei.IsWeak(t'.notarOrSkip - t'.topNotar)))
  {
    TopBelow(ei, votes, fallbacks, t, b, ei.validators[v].stake);
  }

  function FiveEqual(): EpochInfo {
    EpochInfo([ValidatorInfo(0, 1), ValidatorInfo(1, 1), ValidatorInfo(2, 1),
               ValidatorInfo(3, 1), ValidatorInfo(4, 1)], 5)
  }

  /** Five equal validators: two skip votes, then our own notar vote. */
  lemma OwnNotarGoesUnannounced()
    ensures var ei := FiveEqual();
      var votes: Votes := map[1 := NO_VOTES.(skip := true), 2 := NO_VOTES.(skip := true)];
      var t := Count(Count(NO_STAKE, Skip(1), 1), Skip(1), 1);
      && Accepts(votes, {}, 0, Notar(1, 7)) && SkipAnnounced(ei, votes, t, 0, false)
      && !SkipAnnounced(ei, Store(votes, 0, Notar(1, 7)), Count(t, Notar(1, 7), 1), 0,
                        SkipFires(ei, Notar(1, 7), votes, Store(votes, 0, Notar(1, 7)), Count(t, Notar(1, 7), 1), 0))
  {
  }

  // ---- what the network knows ----

  /** Every stored vote of an honest validator was cast by it. */
  ghost predicate Authored(net: Network, slot: nat, votes: Votes, fallbacks: FallbackVotes) {
    && (forall v, h :: v in net.honest && Of(votes, v).notar == Some(h) ==> net.Has(v, Notar(slot, h)))
    && (forall v :: v in net.honest && Of(votes, v).skip ==> net.Has(v, Skip(slot)))
    && (forall v :: v in net.honest && Of(votes, v).skipFallback ==> net.Has(v, SkipFallback(slot)))
    && (forall v :: v in net.honest && Of(votes, v).finalize ==> net.Has(v, Final(slot)))
    && (forall p :: p in fallbacks && p.0 in net.honest ==> net.Has(p.0, NotarFallback(slot, p.1)))
  }

  /** The running totals stand for quorums of the network; in the fallback total the double
      voters count twice. */
  lemma TotalsMeaning(net: Network, slot: nat, votes: Votes, fallbacks: FallbackVotes, t: Totals, h: BlockHash)
    requires Compatible(net.ei, votes, fallbacks) && Accounted(net.ei, votes, fallbacks, t)
    requires Authored(net, slot, votes, fallbacks)
    ensures net.ei.IsQuorate(StakeAt(t.notar, h)) ==> net.Notarized(BlockId(slot, h))
    ensures net.ei.IsStrong(StakeAt(t.notar, h)) ==> net.FastFinalized(BlockId(slot, h))
    ensures net.ei.IsQuorate(t.skip + t.skipFallback) ==> net.Skipped(slot)
    ensures net.ei.IsQuorate(t.finalize) ==> net.Finalized(slot)
    ensures NotarVoters(votes, h) * FallbackVoters(fallbacks, h) <= net.doubles ==>
      net.ei.IsQuorate(StakeAt(t.notar, h) + StakeAt(t.fallback, h)) ==> net.Certified(BlockId(slot, h))
  {
    var x, y := NotarVoters(votes, h), FallbackVoters(fallbacks, h);
    assert StakeAt(t.notar, h) == net.ei.StakeOf(x) && StakeAt(t.fallback, h) == net.ei.StakeOf(y);
    assert net.NotarBy(x, BlockId(slot, h)) && net.FallbackBy(y, BlockId(slot, h));
    var k, f := SkipVoters(votes), SkipFallbackVoters(votes);
    Disjoint(net.ei, k, f);
    assert net.SkipOrFallbackBy(k + f, slot);
    assert net.FinalBy(FinalVoters(votes), slot);
  }

  /** A block reported safe to notarize has the support the event claims. */
  lemma SafeNotarMeaning(net: Network, slot: nat, votes: Votes, fallbacks: FallbackVotes, t: Totals,
                         parents: map<BlockHash, ParentStatus>, own: nat, h: BlockHash)
    requires Compatible(net.ei, votes, fallbacks) && Accounted(net.ei, votes, fallbacks, t)
    requires Authored(net, slot, votes, fallbacks)
    ensures SafeNotar(net.ei, votes, t, parents, own, h) <==> SafeByVotes(net.ei, votes, parents, own, h)
    ensures SafeNotar(net.ei, votes, t, parents, own, h) ==> net.Supported(BlockId(slot, h))
  {
    SafeNotarIff(net.ei, votes, fallbacks, t, parents, own, h);
    if SafeNotar(net.ei, votes, t, parents, own, h) {
      var a, k := NotarVoters(votes, h), SkipVoters(votes);
      assert StakeAt(t.notar, h) == net.ei.StakeOf(a);
      assert net.NotarBy(a, BlockId(slot, h)) && net.SkipBy(k, slot) && a !! k;
    }
  }

  /** A slot reported safe to skip has 40% of the stake against each of its blocks. */
  lemma SafeSkipAgainst(net: Network, slot: nat, votes: Votes, fallbacks: FallbackVotes, t: Totals, own: nat,
                        h: BlockHash)
    requires net.ei.WellFormed() && Compatible(net.ei, votes, fallbacks) && Accounted(net.ei, votes, fallbacks, t)
    requires Authored(net, slot, votes, fallbacks) && SafeSkip(net.ei, votes, t, own)
    ensures net.Against(slot, h)
  {
    SafeSkipMeaning(net.ei, votes, fallbacks, t, own);
    var s := VotersAgainst(votes, h);
    forall v | v in s && v in net.honest
      ensures net.Has(v, Skip(slot)) || exists g :: g != h && net.Has(v, Notar(slot, g))
    {
      if v !in SkipVoters(votes) {
        assert net.Has(v, Notar(slot, votes[v].notar.value));
      }
    }
    assert net.AgainstBy(s, slot, h);
  }
}
