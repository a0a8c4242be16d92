/** What one slot's consensus state means: votes and the stake behind them, which votes
    exclude each other, and when a block is safe to notarize
    (crates/karstflow-alpenglow/src/slot_state.rs). */
module SlotSpec {
  import opened Base
  import opened Epoch
  import opened Certs

  datatype ParentStatus = Known | ParentCertified

  /** The votes of one validator in one slot, apart from its notar-fallback votes. */
  datatype ValidatorVotes = ValidatorVotes(notar: Option<BlockHash>, skip: bool, skipFallback: bool, finalize: bool)

  const NO_VOTES: ValidatorVotes := ValidatorVotes(None, false, false, false)

  type Votes = map<nat, ValidatorVotes>
  type FallbackVotes = set<(nat, BlockHash)>
  type Stakes = map<BlockHash, nat>

  function Of(votes: Votes, v: nat): ValidatorVotes {
    if v in votes then votes[v] else NO_VOTES
  }

  function StakeAt(stakes: Stakes, h: BlockHash): nat {
    if h in stakes then stakes[h] else 0
  }

  function NotarVoters(votes: Votes, h: BlockHash): set<nat> {
    set v | v in votes && votes[v].notar == Some(h)
  }

  function AllNotarVoters(votes: Votes): set<nat> {
    set v | v in votes && votes[v].notar.Some?
  }

  function SkipVoters(votes: Votes): set<nat> {
    set v | v in votes && votes[v].skip
  }

  function SkipFallbackVoters(votes: Votes): set<nat> {
    set v | v in votes && votes[v].skipFallback
  }

  function FinalVoters(votes: Votes): set<nat> {
    set v | v in votes && votes[v].finalize
  }

  function FallbackVoters(fallbacks: FallbackVotes, h: BlockHash): set<nat> {
    set p | p in fallbacks && p.1 == h :: p.0
  }

  // ---- which votes are accepted ----

  datatype Offence = NotarDifferentHash | SkipAndNotarize | SkipAndFinalize | NotarFallbackAndFinalize

  /** The offence a vote would be, given the votes so far. */
  function CheckOffence(votes: Votes, fallbacks: FallbackVotes, v: nat, b: Ballot): Option<Offence> {
    var own := Of(votes, v);
    match b
    case Notar(_, h) =>
      if own.skip then Some(SkipAndNotarize)
      else if own.notar.Some? && own.notar.value != h then Some(NotarDifferentHash)
      else None
    case NotarFallback(_, _) => if own.finalize then Some(NotarFallbackAndFinalize) else None
    case Skip(_) =>
      if own.finalize then Some(SkipAndFinalize)
      else if own.notar.Some? then Some(SkipAndNotarize)
      else None
    case SkipFallback(_) => if own.finalize then Some(SkipAndFinalize) else None
    case Final(_) =>
      if own.skip || own.skipFallback then Some(SkipAndFinalize)
      else if exists p :: p in fallbacks && p.0 == v then Some(NotarFallbackAndFinalize)
      else None
  }

  /** A benign duplicate. */
  predicate ShouldIgnore(votes: Votes, fallbacks: FallbackVotes, v: nat, b: Ballot) {
    var own := Of(votes, v);
    match b
    case Notar(_, _) => own.notar.Some?
    case NotarFallback(_, h) => (v, h) in fallbacks
    case Skip(_) => own.skip || own.skipFallback
    case SkipFallback(_) => own.skip || own.skipFallback
    case Final(_) => own.finalize
  }

  predicate Accepts(votes: Votes, fallbacks: FallbackVotes, v: nat, b: Ballot) {
    CheckOffence(votes, fallbacks, v, b).None? && !ShouldIgnore(votes, fallbacks, v, b)
  }

  function Store(votes: Votes, v: nat, b: Ballot): Votes {
    var own := Of(votes, v);
    match b
    case Notar(_, h) => votes[v := own.(notar := Some(h))]
    case NotarFallback(_, _) => votes
    case Skip(_) => votes[v := own.(skip := true)]
    case SkipFallback(_) => votes[v := own.(skipFallback := true)]
    case Final(_) => votes[v := own.(finalize := true)]
  }

  function StoreFallback(fallbacks: FallbackVotes, v: nat, b: Ballot): FallbackVotes {
    if b.NotarFallback? then fallbacks + {(v, b.hash)} else fallbacks
  }

  /** Votes by validators of the epoch, no two of which exclude each other. */
  ghost predicate Compatible(ei: EpochInfo, votes: Votes, fallbacks: FallbackVotes) {
    && (forall v :: v in votes ==> v < |ei.validators|)
    && (forall p :: p in fallbacks ==> p.0 < |ei.validators|)
    && (forall v :: v in votes && votes[v].skip ==> votes[v].notar.None? && !votes[v].skipFallback)
    && (forall v :: v in votes && votes[v].finalize ==> !votes[v].skip && !votes[v].skipFallback)
    && (forall p :: p in fallbacks ==> !Of(votes, p.0).finalize)
  }

  lemma AcceptedStaysCompatible(ei: EpochInfo, votes: Votes, fallbacks: FallbackVotes, v: nat, b: Ballot)
    requires Compatible(ei, votes, fallbacks) && v < |ei.validators| && Accepts(votes, fallbacks, v, b)
    ensures Compatible(ei, Store(votes, v, b), StoreFallback(fallbacks, v, b))
  {
  }

  /** Among votes that are no duplicates, the offences are exactly the votes that would
      exclude one already stored. */
  lemma OffenceIffIncompatible(ei: EpochInfo, votes: Votes, fallbacks: FallbackVotes, v: nat, b: Ballot)
    requires Compatible(ei, votes, fallbacks) && v < |ei.validators| && !ShouldIgnore(votes, fallbacks, v, b)
    ensures CheckOffence(votes, fallbacks, v, b).Some? <==>
      !Compatible(ei, Store(votes, v, b), StoreFallback(fallbacks, v, b))
  {
    var votes', fallbacks' := Store(votes, v, b), StoreFallback(fallbacks, v, b);
    match b
    case Notar(_, _) => assert v in votes';
    case NotarFallback(_, h) => assert (v, h) in fallbacks';
    case Skip(_) => assert v in votes';
    case SkipFallback(_) => assert v in votes';
    case Final(_) => assert v in votes';
  }

  /** The vote cannot stand beside a stored vote of its signer: notar beside skip or notar for
      another block, and final beside skip, skip-fallback or notar-fallback. */
  ghost predicate Excluded(votes: Votes, fallbacks: FallbackVotes, v: nat, b: Ballot) {
    var notar, skip := Of(votes, v).notar, Of(votes, v).skip;
    var other := exists h :: (v, h) in fallbacks;
    match b
    case Notar(_, h) => skip || (notar.Some? && notar != Some(h))
    case Skip(_) => notar.Some? || Of(votes, v).finalize
    case SkipFallback(_) => Of(votes, v).finalize
    case NotarFallback(_, _) => Of(votes, v).finalize
    case Final(_) => skip || Of(votes, v).skipFallback || other
  }

  /** The signer has cast this vote, or another skip vote where it is one. */
  ghost predicate Repeated(votes: Votes, fallbacks: FallbackVotes, v: nat, b: Ballot) {
    match b
    case Notar(_, h) => Of(votes, v).notar == Some(h)
    case NotarFallback(_, h) => (v, h) in fallbacks
    case Final(_) => Of(votes, v).finalize
    case _ => Of(votes, v).skip || Of(votes, v).skipFallback
  }

  /** A vote that excludes a stored one is an offence even where it repeats something, a second
      notar vote for another block always the offence of that name; what is left and repeats
      something is a duplicate. */
  lemma OffenceFirst(ei: EpochInfo, votes: Votes, fallbacks: FallbackVotes, v: nat, b: Ballot)
    requires Compatible(ei, votes, fallbacks)
    ensures CheckOffence(votes, fallbacks, v, b).Some? <==> Excluded(votes, fallbacks, v, b)
    ensures b.Notar? && Of(votes, v).notar.Some? && Of(votes, v).notar != Some(b.hash) ==>
      CheckOffence(votes, fallbacks, v, b) == Some(NotarDifferentHash)
    ensures !Excluded(votes, fallbacks, v, b) ==>
      (ShouldIgnore(votes, fallbacks, v, b) <==> Repeated(votes, fallbacks, v, b))
  {
    if b.Final? {
      assert (exists h :: (v, h) in fallbacks) <==> exists p :: p in fallbacks && p.0 == v by {
        if p :| p in fallbacks && p.0 == v {
          assert (v, p.1) in fallbacks;
        }
      }
    }
  }

  // ---- stake accounting ----

  /** The running totals of a slot. */
  datatype Totals = Totals(
    notar: Stakes,
    fallback: Stakes,
    skip: nat,
    skipFallback: nat,
    finalize: nat,
    notarOrSkip: nat,
    topNotar: nat)

  const NO_STAKE: Totals := Totals(map[], map[], 0, 0, 0, 0, 0)

  /** Every total is the stake of the validators whose vote of that kind is stored. */
  ghost predicate Accounted(ei: EpochInfo, votes: Votes, fallbacks: FallbackVotes, t: Totals) {
    && (forall h :: StakeAt(t.notar, h) == ei.StakeOf(NotarVoters(votes, h)))
    && (forall h :: StakeAt(t.fallback, h) == ei.StakeOf(FallbackVoters(fallbacks, h)))
    && t.skip == ei.StakeOf(SkipVoters(votes))
    && t.skipFallback == ei.StakeOf(SkipFallbackVoters(votes))
    && t.finalize == ei.StakeOf(FinalVoters(votes))
    && t.notarOrSkip == ei.StakeOf(AllNotarVoters(votes)) + t.skip
    && (forall h :: StakeAt(t.notar, h) <= t.topNotar)
    && (t.topNotar == 0 || exists h :: StakeAt(t.notar, h) == t.topNotar)
  }

  /** The totals after one more vote. */
  function Count(t: Totals, b: Ballot, stake: nat): Totals {
    match b
    case Notar(_, h) =>
      t.(notar := t.notar[h := StakeAt(t.notar, h) + stake],
         notarOrSkip := t.notarOrSkip + stake,
         topNotar := Max(t.topNotar, StakeAt(t.notar, h) + stake))
    case NotarFallback(_, h) => t.(fallback := t.fallback[h := StakeAt(t.fallback, h) + stake])
    case Skip(_) => t.(skip := t.skip + stake, notarOrSkip := t.notarOrSkip + stake)
    case SkipFallback(_) => t.(skipFallback := t.skipFallback + stake)
    case Final(_) => t.(finalize := t.finalize + stake)
  }

  lemma VoterSetsAfter(votes: Votes, fallbacks: FallbackVotes, v: nat, b: Ballot)
    requires Accepts(votes, fallbacks, v, b)
    ensures forall h ::
        NotarVoters(Store(votes, v, b), h) == NotarVoters(votes, h) + if b == Notar(b.slot, h) then {v} else {}
    ensures AllNotarVoters(Store(votes, v, b)) == AllNotarVoters(votes) + if b.Notar? then {v} else {}
    ensures SkipVoters(Store(votes, v, b)) == SkipVoters(votes) + if b.Skip? then {v} else {}
    ensures SkipFallbackVoters(Store(votes, v, b)) == SkipFallbackVoters(votes) + if b.SkipFallback? then {v} else {}
    ensures FinalVoters(Store(votes, v, b)) == FinalVoters(votes) + if b.Final? then {v} else {}
  {
  }

  lemma FallbackSetsAfter(votes: Votes, fallbacks: FallbackVotes, v: nat, b: Ballot)
    requires Accepts(votes, fallbacks, v, b)
    ensures forall h :: FallbackVoters(StoreFallback(fallbacks, v, b), h)
                     == FallbackVoters(fallbacks, h) + if b == NotarFallback(b.slot, h) then {v} else {}
  {
  }

  /** A voter joins a set: the set's stake grows by the voter's stake. */
  lemma Joins(ei: EpochInfo, before: set<nat>, after: set<nat>, v: nat, joins: bool)
    requires v < |ei.validators| && after == before + if joins then {v} else {}
    requires joins ==> v !in before
    ensures ei.StakeOf(after) == ei.StakeOf(before) + if joins then ei.validators[v].stake else 0
  {
    if joins {
      AddOne(ei, before, v);
    } else {
      assert after == before;
    }
  }

  lemma CountKeepsNotar(ei: EpochInfo, votes: Votes, fallbacks: FallbackVotes, t: Totals, v: nat, b: Ballot)
    requires Accounted(ei, votes, fallbacks, t) && v < |ei.validators| && Accepts(votes, fallbacks, v, b)
    ensures var t' := Count(t, b, ei.validators[v].stake);
      forall h :: StakeAt(t'.notar, h) == ei.StakeOf(NotarVoters(Store(votes, v, b), h))
  {
    VoterSetsAfter(votes, fallbacks, v, b);
    forall h
      ensures StakeAt(Count(t, b, ei.validators[v].stake).notar, h) == ei.StakeOf(NotarVoters(Store(votes, v, b), h))
    {
      Joins(ei, NotarVoters(votes, h), NotarVoters(Store(votes, v, b), h), v, b == Notar(b.slot, h));
    }
  }

  lemma CountKeepsFallback(ei: EpochInfo, votes: Votes, fallbacks: FallbackVotes, t: Totals, v: nat, b: Ballot)
    requires Accounted(ei, votes, fallbacks, t) && v < |ei.validators| && Accepts(votes, fallbacks, v, b)
    ensures var t' := Count(t, b, ei.validators[v].stake);
      forall h :: StakeAt(t'.fallback, h) == ei.StakeOf(FallbackVoters(StoreFallback(fallbacks, v, b), h))
  {
    FallbackSetsAfter(votes, fallbacks, v, b);
    forall h
      ensures StakeAt(Count(t, b, ei.validators[v].stake).fallback, h) ==
        ei.StakeOf(FallbackVoters(StoreFallback(fallbacks, v, b), h))
    {
      Joins(ei, FallbackVoters(fallbacks, h), FallbackVoters(StoreFallback(fallbacks, v, b), h), v,
            b == NotarFallback(b.slot, h));
    }
  }

  lemma CountKeepsTop(t: Totals, b: Ballot, stake: nat)
    requires forall h :: StakeAt(t.notar, h) <= t.topNotar
    requires t.topNotar == 0 || exists h :: StakeAt(t.notar, h) == t.topNotar
    ensures var t' := Count(t, b, stake);
      && (forall h :: StakeAt(t'.notar, h) <= t'.topNotar)
      && (t'.topNotar == 0 || exists h :: StakeAt(t'.notar, h) == t'.topNotar)
  {
    var t' := Count(t, b, stake);
    forall h: BlockHash
      ensures StakeAt(t'.notar, h) <= t'.topNotar
    {
      assert StakeAt(t'.notar, h) ==
        if b.Notar? && b.hash == h then StakeAt(t.notar, h) + stake else StakeAt(t.notar, h);
      assert StakeAt(t.notar, h) <= t.topNotar;
    }
    if b.Notar? && t'.topNotar == StakeAt(t.notar, b.hash) + stake {
      assert StakeAt(t'.notar, b.hash) == t'.topNotar;
    } else if t.topNotar > 0 {
      var h :| StakeAt(t.notar, h) == t.topNotar;
      assert StakeAt(t'.notar, h) == t'.topNotar;
    }
  }

  /** Counting an accepted vote keeps every total equal to the stake of its voters. */
  lemma CountKeepsAccounted(ei: EpochInfo, votes: Votes, fallbacks: FallbackVotes, t: Totals, v: nat, b: Ballot)
    requires Accounted(ei, votes, fallbacks, t) && v < |ei.validators| && Accepts(votes, fallbacks, v, b)
    ensures Accounted(ei, Store(votes, v, b), StoreFallback(fallbacks, v, b), Count(t, b, ei.validators[v].stake))
  {
    var votes' := Store(votes, v, b);
    VoterSetsAfter(votes, fallbacks, v, b);
    CountKeepsNotar(ei, votes, fallbacks, t, v, b);
    CountKeepsFallback(ei, votes, fallbacks, t, v, b);
    CountKeepsTop(t, b, ei.validators[v].stake);
    Joins(ei, SkipVoters(votes), SkipVoters(votes'), v, b.Skip?);
    Joins(ei, SkipFallbackVoters(votes), SkipFallbackVoters(votes'), v, b.SkipFallback?);
    Joins(ei, FinalVoters(votes), FinalVoters(votes'), v, b.Final?);
    Joins(ei, AllNotarVoters(votes), AllNotarVoters(votes'), v, b.Notar?);
  }

  lemma NothingAccounted(ei: EpochInfo)
    ensures Accounted(ei, map[], {}, NO_STAKE)
  {
    Empty(ei);
    var votes: Votes := map[];
    var fallbacks: FallbackVotes := {};
    forall h
      ensures NotarVoters(votes, h) == {} && FallbackVoters(fallbacks, h) == {}
    {
    }
    assert SkipVoters(votes) == {} && SkipFallbackVoters(votes) == {} &&
           FinalVoters(votes) == {} && AllNotarVoters(votes) == {};
  }

  /** No total leaves its range: the difference of the notar-or-skip and top totals does
      not underflow, and neither family of votes exceeds the total stake. */
  lemma TotalsBounded(ei: EpochInfo, votes: Votes, fallbacks: FallbackVotes, t: Totals)
    requires ei.WellFormed() && Compatible(ei, votes, fallbacks) && Accounted(ei, votes, fallbacks, t)
    ensures t.topNotar <= t.notarOrSkip <= ei.totalStake
    ensures t.finalize + t.skip + t.skipFallback <= ei.totalStake
    ensures forall h :: StakeAt(t.notar, h) <= ei.totalStake && StakeAt(t.fallback, h) <= ei.totalStake
  {
    var all, skip, sf, fin := AllNotarVoters(votes), SkipVoters(votes), SkipFallbackVoters(votes), FinalVoters(votes);
    Disjoint(ei, all, skip);
    AtMostTotal(ei, all + skip);
    Disjoint(ei, skip, sf);
    Disjoint(ei, fin, skip + sf);
    AtMostTotal(ei, fin + (skip + sf));
    forall h
      ensures StakeAt(t.notar, h) <= ei.StakeOf(all) && StakeAt(t.notar, h) <= ei.totalStake
      ensures StakeAt(t.fallback, h) <= ei.totalStake
    {
      Monotone(ei, NotarVoters(votes, h), all);
      AtMostTotal(ei, NotarVoters(votes, h));
      AtMostTotal(ei, FallbackVoters(fallbacks, h));
    }
  }

  /** Inside one slot, final votes and skip votes cannot both reach 60%. */
  lemma FinalExcludesSkip(ei: EpochInfo, votes: Votes, fallbacks: FallbackVotes, t: Totals)
    requires ei.WellFormed() && ei.totalStake > 0
    requires Compatible(ei, votes, fallbacks) && Accounted(ei, votes, fallbacks, t)
    ensures !(ei.IsQuorate(t.finalize) && ei.IsQuorate(t.skip + t.skipFallback))
  {
    TotalsBounded(ei, votes, fallbacks, t);
  }

  /** Inside one slot, at most one hash reaches 60% notar stake. */
  lemma OneNotarQuorum(ei: EpochInfo, votes: Votes, fallbacks: FallbackVotes, t: Totals, g: BlockHash, h: BlockHash)
    requires ei.WellFormed() && ei.totalStake > 0
    requires Compatible(ei, votes, fallbacks) && Accounted(ei, votes, fallbacks, t)
    requires ei.IsQuorate(StakeAt(t.notar, g)) && ei.IsQuorate(StakeAt(t.notar, h))
    ensures g == h
  {
    if g != h {
      Disjoint(ei, NotarVoters(votes, g), NotarVoters(votes, h));
      AtMostTotal(ei, NotarVoters(votes, g) + NotarVoters(votes, h));
      assert false;
    }
  }

  // ---- safe to notarize ----

  /** 20% notar stake, and either 40% of it or 60% together with the skip stake. */
  predicate Weakest(ei: EpochInfo, t: Totals, h: BlockHash) {
    ei.IsWeakest(StakeAt(t.notar, h))
  }

  predicate Enough(ei: EpochInfo, t: Totals, h: BlockHash) {
    ei.IsWeak(StakeAt(t.notar, h)) || ei.IsQuorate(StakeAt(t.notar, h) + t.skip)
  }

  predicate IsCertified(parents: map<BlockHash, ParentStatus>, h: BlockHash) {
    h in parents && parents[h] == ParentCertified
  }

  /** Our own first vote is a skip, or a notar for another block. */
  predicate VotedOther(votes: Votes, own: nat, h: BlockHash) {
    Of(votes, own).skip || (Of(votes, own).notar.Some? && Of(votes, own).notar.value != h)
  }

  predicate NotVoted(votes: Votes, own: nat) {
    !Of(votes, own).skip && Of(votes, own).notar.None?
  }

  /** The condition under which the slot owner may cast a notar-fallback vote. */
  predicate SafeNotar(ei: EpochInfo, votes: Votes, t: Totals, parents: map<BlockHash, ParentStatus>, own: nat,
                      h: BlockHash) {
    Weakest(ei, t, h) && Enough(ei, t, h) && IsCertified(parents, h) && VotedOther(votes, own, h)
  }

  // ---- the same from the votes alone ----

  /** At least 20% notar stake, and 40% of it or 60% together with the skip stake. */
  ghost predicate Supports(ei: EpochInfo, notar: nat, skip: nat) {
    5 * notar >= ei.totalStake && (5 * notar >= 2 * ei.totalStake || 5 * (notar + skip) >= 3 * ei.totalStake)
  }

  /** Enough stake, a certified parent, and an own first vote that is a skip or for another block. */
  ghost predicate SafeWith(ei: EpochInfo, notar: nat, skip: nat, votes: Votes, parents: map<BlockHash, ParentStatus>,
                           own: nat, h: BlockHash) {
    && Supports(ei, notar, skip)
    && h in parents && parents[h] == ParentCertified
    && own in votes && (votes[own].skip || (votes[own].notar.Some? && votes[own].notar != Some(h)))
  }

  /** The block is safe to notarize as far as the stored votes tell. */
  ghost predicate SafeByVotes(ei: EpochInfo, votes: Votes, parents: map<BlockHash, ParentStatus>, own: nat,
                              h: BlockHash) {
    SafeWith(ei, ei.StakeOf(NotarVoters(votes, h)), ei.StakeOf(SkipVoters(votes)), votes, parents, own, h)
  }

  /** The block has enough support by the stored votes, and has not been seen. */
  ghost predicate MissedByVotes(ei: EpochInfo, votes: Votes, parents: map<BlockHash, ParentStatus>, h: BlockHash) {
    Supports(ei, ei.StakeOf(NotarVoters(votes, h)), ei.StakeOf(SkipVoters(votes))) && h !in parents
  }

  /** The running totals decide safety as the stored votes do. */
  lemma SafeNotarIff(ei: EpochInfo, votes: Votes, fallbacks: FallbackVotes, t: Totals,
                     parents: map<BlockHash, ParentStatus>, own: nat, h: BlockHash)
    requires Accounted(ei, votes, fallbacks, t)
    ensures SafeNotar(ei, votes, t, parents, own, h) <==> SafeByVotes(ei, votes, parents, own, h)
  {
    assert StakeAt(t.notar, h) == ei.StakeOf(NotarVoters(votes, h));
  }

  /** What has to stay in the pending set: more skip stake or our own vote may make it safe. */
  predicate Waits(ei: EpochInfo, votes: Votes, t: Totals, parents: map<BlockHash, ParentStatus>,
                  own: nat, h: BlockHash) {
    && Weakest(ei, t, h)
    && (!Enough(ei, t, h) || (IsCertified(parents, h) && NotVoted(votes, own)))
  }

  /** The blocks reported safe are exactly the safe ones, and nothing that may become
      safe without a new check is missing from the pending set. */
  ghost predicate Reported(ei: EpochInfo, votes: Votes, t: Totals, parents: map<BlockHash, ParentStatus>, own: nat,
                           pending: set<BlockHash>, sent: set<BlockHash>) {
    forall h :: (h in sent <==> SafeNotar(ei, votes, t, parents, own, h))
             && (Waits(ei, votes, t, parents, own, h) ==> h in pending)
  }

  /** As `Reported`, except that pending blocks may be safe and not yet reported. */
  ghost predicate ReportedButPending(ei: EpochInfo, votes: Votes, t: Totals, parents: map<BlockHash, ParentStatus>,
                                     own: nat,
                                     pending: set<BlockHash>, sent: set<BlockHash>) {
    forall h ::
      && (h in sent ==> SafeNotar(ei, votes, t, parents, own, h))
      && (SafeNotar(ei, votes, t, parents, own, h) ==> h in sent || h in pending)
      && (Waits(ei, votes, t, parents, own, h) ==> h in pending)
  }

  /** The effect of checking one block. */
  function PendingAfter(ei: EpochInfo, votes: Votes, t: Totals, parents: map<BlockHash, ParentStatus>, own: nat,
                        pending: set<BlockHash>, h: BlockHash): set<BlockHash> {
    if SafeNotar(ei, votes, t, parents, own, h) then pending - {h}
    else if Waits(ei, votes, t, parents, own, h) then pending + {h}
    else pending
  }

  function SentAfter(ei: EpochInfo, votes: Votes, t: Totals, parents: map<BlockHash, ParentStatus>, own: nat,
                     sent: set<BlockHash>, h: BlockHash): set<BlockHash> {
    if SafeNotar(ei, votes, t, parents, own, h) then sent + {h} else sent
  }

  /** A skip vote leaves unreported safe blocks only in the pending set. */
  lemma SkipReported(ei: EpochInfo, votes: Votes, fallbacks: FallbackVotes, t: Totals, parents: map<BlockHash,
                     ParentStatus>, own: nat,
                     pending: set<BlockHash>, sent: set<BlockHash>, v: nat, s: nat, stake: nat)
    requires Reported(ei, votes, t, parents, own, pending, sent)
    requires Accepts(votes, fallbacks, v, Skip(s))
    ensures ReportedButPending(ei, Store(votes, v, Skip(s)), Count(t, Skip(s), stake), parents, own, pending, sent)
  {
  }

  /** Skip-fallback, notar-fallback and final votes change nothing that matters here. */
  lemma OtherReported(ei: EpochInfo, votes: Votes, t: Totals, parents: map<BlockHash, ParentStatus>, own: nat,
                      pending: set<BlockHash>, sent: set<BlockHash>, v: nat, b: Ballot, stake: nat)
    requires Reported(ei, votes, t, parents, own, pending, sent)
    requires b.SkipFallback? || b.NotarFallback? || b.Final?
    ensures Reported(ei, Store(votes, v, b), Count(t, b, stake), parents, own, pending, sent)
  {
  }

  /** After counting notar stake for one hash and checking that hash unless it was
      already reported, everything is reported under the votes stored so far. */
  lemma NotarCountedReported(ei: EpochInfo, votes: Votes, t: Totals, parents: map<BlockHash, ParentStatus>, own: nat,
                             pending: set<BlockHash>, sent: set<BlockHash>, s: nat, g: BlockHash, stake: nat)
    requires Reported(ei, votes, t, parents, own, pending, sent)
    requires !(Of(votes, own).skip && Of(votes, own).notar.Some?)
    ensures var t' := Count(t, Notar(s, g), stake);
      if g in sent then Reported(ei, votes, t', parents, own, pending, sent)
      else Reported(ei, votes, t', parents, own, PendingAfter(ei, votes, t', parents, own, pending, g),
                    SentAfter(ei, votes, t', parents, own, sent, g))
  {
  }

  /** Storing a counted notar vote changes what is safe only if it is our own, and then
      every newly safe block is pending. */
  lemma NotarStoredReported(ei: EpochInfo, votes: Votes, fallbacks: FallbackVotes, t: Totals, parents: map<BlockHash,
                            ParentStatus>, own: nat,
                            pending: set<BlockHash>, sent: set<BlockHash>, v: nat, s: nat, g: BlockHash)
    requires Reported(ei, votes, t, parents, own, pending, sent)
    requires Accepts(votes, fallbacks, v, Notar(s, g))
    ensures ReportedButPending(ei, Store(votes, v, Notar(s, g)), t, parents, own, pending, sent)
    ensures v != own ==> Reported(ei, Store(votes, v, Notar(s, g)), t, parents, own, pending, sent)
  {
  }

  /** Learning of a parent, and certifying it with a check of its child, keep the report exact. */
  lemma ParentKnownReported(ei: EpochInfo, votes: Votes, t: Totals, parents: map<BlockHash, ParentStatus>, own: nat,
                            pending: set<BlockHash>, sent: set<BlockHash>, g: BlockHash)
    requires Reported(ei, votes, t, parents, own, pending, sent) && g !in parents
    ensures Reported(ei, votes, t, parents[g := Known], own, pending, sent)
  {
  }

  lemma ParentCertifiedReported(ei: EpochInfo, votes: Votes, t: Totals, parents: map<BlockHash, ParentStatus>, own: nat,
                                pending: set<BlockHash>, sent: set<BlockHash>, g: BlockHash)
    requires Reported(ei, votes, t, parents, own, pending, sent)
    requires !(Of(votes, own).skip && Of(votes, own).notar.Some?)
    ensures var parents' := parents[g := ParentCertified];
      if g in sent then Reported(ei, votes, t, parents', own, pending, sent)
      else Reported(ei, votes, t, parents', own, PendingAfter(ei, votes, t, parents', own, pending, g),
                    SentAfter(ei, votes, t, parents', own, sent, g))
  {
  }
}
