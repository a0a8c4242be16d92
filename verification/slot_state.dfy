/** The consensus state of one slot as it runs: votes come in, totals grow, certificates
    and safe-to-notar / safe-to-skip events come out
    (crates/karstflow-alpenglow/src/slot_state.rs). */
module SlotStates {
  import opened Base
  import opened Epoch
  import opened AggSig
  import opened Certs
  import opened Sorted
  import opened SlotSpec

  datatype SlotEvent = SafeNotarEvent(block: BlockId) | SafeSkipEvent(slot: nat)

  datatype NotarCheck = IsSafe | MissingBlock | Awaiting

  /** What a call appends to the caller's buffer. */
  datatype Outputs = Outputs(certs: seq<Cert>, events: seq<SlotEvent>, repairs: seq<BlockId>)

  datatype SlotCerts = SlotCerts(
    notar: Option<Cert>,
    skip: Option<Cert>,
    fastFinal: Option<Cert>,
    final: Option<Cert>,
    fallbacks: seq<Cert>)

  const NO_CERTS: SlotCerts := SlotCerts(None, None, None, None, [])

  predicate HasFallbackCert(certs: SlotCerts, h: BlockHash) {
    exists c :: c in certs.fallbacks && c.NotarFallbackCert? && c.hash == h
  }

  /** A certificate of this kind, and for fallbacks of this hash, is stored. */
  predicate IsStored(certs: SlotCerts, c: Cert) {
    match c
    case NotarCert(_, _, _, _) => certs.notar.Some?
    case SkipCert(_, _, _, _) => certs.skip.Some?
    case FastFinalCert(_, _, _, _) => certs.fastFinal.Some?
    case FinalCert(_, _, _) => certs.final.Some?
    case NotarFallbackCert(_, h, _, _, _) => HasFallbackCert(certs, h)
  }

  function StoreCert(certs: SlotCerts, c: Cert): SlotCerts {
    match c
    case NotarCert(_, _, _, _) => certs.(notar := Some(c))
    case SkipCert(_, _, _, _) => certs.(skip := Some(c))
    case FastFinalCert(_, _, _, _) => certs.(fastFinal := Some(c))
    case FinalCert(_, _, _) => certs.(final := Some(c))
    case NotarFallbackCert(_, h, _, _, _) =>
      if HasFallbackCert(certs, h) then certs else certs.(fallbacks := certs.fallbacks + [c])
  }

  // ---- certificates carry exactly the stored voters ----

  ghost predicate AggOf(a: AggregateSignature, ei: EpochInfo, voters: set<nat>) {
    a.Valid() && a.nbits == |ei.validators| && a.Signers() == voters
  }

  ghost predicate OptionalAggOf(a: Option<AggregateSignature>, ei: EpochInfo, voters: set<nat>) {
    (a.Some? <==> voters != {}) && (a.Some? ==> AggOf(a.value, ei, voters))
  }

  ghost predicate NotarCertOf(c: Cert, ei: EpochInfo, slot: nat, h: BlockHash, voters: set<nat>) {
    c.NotarCert? && c.slot == slot && c.hash == h && AggOf(c.agg, ei, voters)
  }

  ghost predicate FastFinalCertOf(c: Cert, ei: EpochInfo, slot: nat, h: BlockHash, voters: set<nat>) {
    c.FastFinalCert? && c.slot == slot && c.hash == h && AggOf(c.agg, ei, voters)
  }

  ghost predicate FinalCertOf(c: Cert, ei: EpochInfo, slot: nat, voters: set<nat>) {
    c.FinalCert? && c.slot == slot && AggOf(c.agg, ei, voters)
  }

  ghost predicate FallbackCertOf(c: Cert, ei: EpochInfo, slot: nat, h: BlockHash, notar: set<nat>, fallback: set<nat>) {
    && c.NotarFallbackCert? && c.slot == slot && c.hash == h
    && OptionalAggOf(c.aggNotar, ei, notar) && OptionalAggOf(c.aggFallback, ei, fallback)
  }

  ghost predicate SkipCertOf(c: Cert, ei: EpochInfo, slot: nat, skip: set<nat>, fallback: set<nat>) {
    && c.SkipCert? && c.slot == slot
    && OptionalAggOf(c.aggSkip, ei, skip) && OptionalAggOf(c.aggFallback, ei, fallback)
  }

  function HashVotes(slot: nat, h: BlockHash, signers: seq<nat>): (q: seq<HashVote>)
    ensures |q| == |signers| && forall i :: 0 <= i < |q| ==> q[i] == HashVote(slot, h, signers[i])
  {
    seq(|signers|, i requires 0 <= i < |signers| => HashVote(slot, h, signers[i]))
  }

  function SlotVotes(slot: nat, signers: seq<nat>): (q: seq<SlotVote>)
    ensures |q| == |signers| && forall i :: 0 <= i < |q| ==> q[i] == SlotVote(slot, signers[i])
  {
    seq(|signers|, i requires 0 <= i < |signers| => SlotVote(slot, signers[i]))
  }

  /** A sorted list of voters of the epoch is a proper list of signers. */
  lemma EnumerateProper(voters: set<nat>, n: nat)
    requires n <= MAX_SIGNERS && forall v :: v in voters ==> v < n
    ensures ProperSigners(Enumerate(voters), n) && SetOf(Enumerate(voters)) == voters
    ensures Enumerate(voters) == [] <==> voters == {}
  {
    var q := Enumerate(voters);
    assert forall i :: 0 <= i < |q| ==> q[i] in q;
    if voters != {} {
      assert |q| > 0;
    }
  }

  method MakeNotar(ei: EpochInfo, slot: nat, h: BlockHash, voters: set<nat>) returns (c: Cert)
    requires |ei.validators| <= MAX_SIGNERS && voters != {} && forall v :: v in voters ==> v < |ei.validators|
    ensures NotarCertOf(c, ei, slot, h, voters)
  {
    hide AggregateSignature.Valid, AggregateSignature.Signers, Stake, JointStake, Enumerate, SetOf, ProperSigners,
         FirstMismatch, FirstSlotMismatch;
    EnumerateProper(voters, |ei.validators|);
    var list := HashVotes(slot, h, Enumerate(voters));
    assert HashSigners(list) == Enumerate(voters);
    var r := TryNewNotar(list, ei.validators);
    c := r.cert;
  }

  method MakeFastFinal(ei: EpochInfo, slot: nat, h: BlockHash, voters: set<nat>) returns (c: Cert)
    requires |ei.validators| <= MAX_SIGNERS && voters != {} && forall v :: v in voters ==> v < |ei.validators|
    ensures FastFinalCertOf(c, ei, slot, h, voters)
  {
    hide AggregateSignature.Valid, AggregateSignature.Signers, Stake, JointStake, Enumerate, SetOf, ProperSigners,
         FirstMismatch, FirstSlotMismatch;
    EnumerateProper(voters, |ei.validators|);
    var list := HashVotes(slot, h, Enumerate(voters));
    assert HashSigners(list) == Enumerate(voters);
    var r := TryNewFastFinal(list, ei.validators);
    c := r.cert;
  }

  method MakeFinal(ei: EpochInfo, slot: nat, voters: set<nat>) returns (c: Cert)
    requires |ei.validators| <= MAX_SIGNERS && voters != {} && forall v :: v in voters ==> v < |ei.validators|
    ensures FinalCertOf(c, ei, slot, voters)
  {
    hide AggregateSignature.Valid, AggregateSignature.Signers, Stake, JointStake, Enumerate, SetOf, ProperSigners,
         FirstMismatch, FirstSlotMismatch;
    EnumerateProper(voters, |ei.validators|);
    var list := SlotVotes(slot, Enumerate(voters));
    assert SlotSigners(list) == Enumerate(voters);
    var r := TryNewFinal(list, ei.validators);
    c := r.cert;
  }

  method MakeFallback(ei: EpochInfo, slot: nat, h: BlockHash, notar: set<nat>, fallback: set<nat>) returns (c: Cert)
    requires |ei.validators| <= MAX_SIGNERS && (notar != {} || fallback != {})
    requires (forall v :: v in notar ==> v < |ei.validators|) && (forall v :: v in fallback ==> v < |ei.validators|)
    ensures FallbackCertOf(c, ei, slot, h, notar, fallback)
  {
    hide AggregateSignature.Valid, AggregateSignature.Signers, Stake, JointStake, Enumerate, SetOf, ProperSigners,
         FirstMismatch, FirstSlotMismatch;
    EnumerateProper(notar, |ei.validators|);
    EnumerateProper(fallback, |ei.validators|);
    var list := HashVotes(slot, h, Enumerate(notar));
    var more := HashVotes(slot, h, Enumerate(fallback));
    assert HashSigners(list) == Enumerate(notar) && HashSigners(more) == Enumerate(fallback);
    var r := TryNewNotarFallback(list, more, ei.validators);
    c := r.cert;
  }

  method MakeSkip(ei: EpochInfo, slot: nat, skip: set<nat>, fallback: set<nat>) returns (c: Cert)
    requires |ei.validators| <= MAX_SIGNERS && (skip != {} || fallback != {})
    requires (forall v :: v in skip ==> v < |ei.validators|) && (forall v :: v in fallback ==> v < |ei.validators|)
    ensures SkipCertOf(c, ei, slot, skip, fallback)
  {
    hide AggregateSignature.Valid, AggregateSignature.Signers, Stake, JointStake, Enumerate, SetOf, ProperSigners,
         FirstMismatch, FirstSlotMismatch;
    EnumerateProper(skip, |ei.validators|);
    EnumerateProper(fallback, |ei.validators|);
    var list := SlotVotes(slot, Enumerate(skip));
    var more := SlotVotes(slot, Enumerate(fallback));
    assert SlotSigners(list) == Enumerate(skip) && SlotSigners(more) == Enumerate(fallback);
    var r := TryNewSkip(list, more, ei.validators);
    c := r.cert;
  }

  // ---- what a call reports ----

  /** The events of a list: safe-to-notar for the blocks of `news`, and safe-to-skip if it
      fired, each exactly once. */
  ghost predicate EventsAre(events: seq<SlotEvent>, slot: nat, news: set<BlockHash>, fired: bool) {
    && NoRepeats(events)
    && (forall e :: e in events <==>
          match e
          case SafeNotarEvent(b) => b.slot == slot && b.hash in news
          case SafeSkipEvent(s) => s == slot && fired)
  }

  lemma EventsAppend(a: seq<SlotEvent>, b: seq<SlotEvent>, slot: nat, m: set<BlockHash>, n: set<BlockHash>, f: bool,
                     g: bool)
    requires EventsAre(a, slot, m, f) && EventsAre(b, slot, n, g) && m !! n && !(f && g)
    ensures EventsAre(a + b, slot, m + n, f || g)
  {
    assert forall i :: 0 <= i < |a| ==> a[i] in a;
    assert forall i :: 0 <= i < |b| ==> b[i] in b;
    forall e
      ensures e in a + b <==> match e
        case SafeNotarEvent(x) => x.slot == slot && x.hash in m + n
        case SafeSkipEvent(s) => s == slot && (f || g)
    {
    }
  }

  /** Enough stake to be safe, and the block itself has not been seen. */
  predicate Missing(ei: EpochInfo, t: Totals, parents: map<BlockHash, ParentStatus>, h: BlockHash) {
    Weakest(ei, t, h) && Enough(ei, t, h) && h !in parents
  }

  ghost function Absent(ei: EpochInfo, t: Totals, parents: map<BlockHash, ParentStatus>, hs: set<BlockHash>):
    set<BlockHash> {
    set h | h in hs && Missing(ei, t, parents, h)
  }

  ghost predicate RepairsAre(repairs: seq<BlockId>, slot: nat, hs: set<BlockHash>) {
    forall b :: b in repairs <==> b.slot == slot && b.hash in hs
  }

  class SlotState {
    const slot: nat
    const own: nat
    var votes: Votes
    var fallbackVotes: FallbackVotes
    var totals: Totals
    var parents: map<BlockHash, ParentStatus>
    var pending: set<BlockHash>
    var sent: set<BlockHash>
    var sentSafeToSkip: bool
    var certs: SlotCerts

    constructor (slot: nat, own: nat)
      ensures this.slot == slot && this.own == own
      ensures votes == map[] && fallbackVotes == {} && totals == NO_STAKE && parents == map[]
      ensures pending == {} && sent == {} && !sentSafeToSkip && certs == NO_CERTS
    {
      this.slot := slot;
      this.own := own;
      votes := map[];
      fallbackVotes := {};
      totals := NO_STAKE;
      parents := map[];
      pending := {};
      sent := {};
      sentSafeToSkip := false;
      certs := NO_CERTS;
    }

    /** Votes are compatible, totals are the stake of their voters, and the blocks
        reported safe to notarize are exactly the safe ones. */
    ghost predicate Valid(ei: EpochInfo)
      reads this`votes, this`fallbackVotes, this`totals, this`parents, this`pending, this`sent
    {
      && Compatible(ei, votes, fallbackVotes)
      && Accounted(ei, votes, fallbackVotes, totals)
      && Reported(ei, votes, totals, parents, own, pending, sent)
    }

    /** Checks one block and updates the pending and reported sets. */
    method CheckSafeToNotar(h: BlockHash, ei: EpochInfo) returns (r: NotarCheck)
      modifies this`pending, this`sent
      ensures pending == PendingAfter(ei, votes, totals, parents, own, old(pending), h)
      ensures sent == SentAfter(ei, votes, totals, parents, own, old(sent), h)
      ensures r.IsSafe? <==> SafeNotar(ei, votes, totals, parents, own, h)
      ensures r.IsSafe? <==> SafeWith(ei, StakeAt(totals.notar, h), totals.skip, votes, parents, own, h)
      ensures r.MissingBlock? <==> Missing(ei, totals, parents, h)
    {
      var notarStake := StakeAt(totals.notar, h);
      if !ei.IsWeakest(notarStake) {
        return Awaiting;
      }
      if !ei.IsWeak(notarStake) && !ei.IsQuorate(notarStake + totals.skip) {
        pending := pending + {h};
        return Awaiting;
      }
      if h !in parents {
        return MissingBlock;
      }
      if parents[h].Known? {
        return Awaiting;
      }
      var mine := Of(votes, own);
      if mine.skip {
        pending := pending - {h};
        sent := sent + {h};
        return IsSafe;
      }
      if mine.notar.Some? {
        if mine.notar.value != h {
          pending := pending - {h};
          sent := sent + {h};
          return IsSafe;
        }
        return Awaiting;
      }
      pending := pending + {h};
      return Awaiting;
    }

    /** Rechecks every pending block that was not reported yet, in any order. */
    method ProcessPending(ei: EpochInfo) returns (events: seq<SlotEvent>, repairs: seq<BlockId>)
      requires ReportedButPending(ei, votes, totals, parents, own, pending, sent)
      modifies this`pending, this`sent
      ensures Reported(ei, votes, totals, parents, own, pending, sent)
      ensures old(sent) <= sent && EventsAre(events, slot, sent - old(sent), false)
      ensures RepairsAre(repairs, slot, Absent(ei, totals, parents, old(pending)))
      ensures forall h :: Missing(ei, totals, parents, h) ==> (h in pending <==> h in old(pending))
      ensures Accounted(ei, votes, fallbackVotes, totals) ==>
        forall h :: h in sent <==> SafeByVotes(ei, votes, parents, own, h)
    {
      events, repairs := [], [];
      SafeAsVoted(ei, votes, fallbackVotes, totals, parents, own);
      hide SafeByVotes, SafeWith;
      var todo := pending - sent;
      while todo != {}
        invariant forall h :: (h in sent ==> SafeNotar(ei, votes, totals, parents, own, h))
        invariant forall h :: SafeNotar(ei, votes, totals, parents, own, h) ==> h in sent || h in todo
        invariant forall h :: Waits(ei, votes, totals, parents, own, h) ==> h in pending
        invariant forall h :: h in todo ==> h !in sent
        invariant old(sent) <= sent && EventsAre(events, slot, sent - old(sent), false)
        invariant RepairsAre(repairs, slot, Absent(ei, totals, parents, old(pending) - todo))
        invariant forall h :: Missing(ei, totals, parents, h) ==> (h in pending <==> h in old(pending))
        decreases todo
      {
        var h :| h in todo;
        todo := todo - {h};
        var r := CheckSafeToNotar(h, ei);
        if r.IsSafe? {
          EventsAppend(events, [SafeNotarEvent(BlockId(slot, h))], slot, sent - old(sent) - {h}, {h}, false, false);
          assert sent - old(sent) == sent - old(sent) - {h} + {h};
          events := events + [SafeNotarEvent(BlockId(slot, h))];
        } else if r.MissingBlock? {
          repairs := repairs + [BlockId(slot, h)];
        }
      }
    }

    /** Fires safe-to-skip once: 40% voted against the strongest block, and we notarized. */
    method CheckSafeToSkip(ei: EpochInfo) returns (events: seq<SlotEvent>)
      requires totals.topNotar <= totals.notarOrSkip
      modifies this`sentSafeToSkip
      ensures sentSafeToSkip == (old(sentSafeToSkip) || SafeSkip(ei, votes, totals, own))
      ensures EventsAre(events, slot, {}, !old(sentSafeToSkip) && sentSafeToSkip)
    {
      events := [];
      if !sentSafeToSkip && ei.IsWeak(totals.notarOrSkip - totals.topNotar) && Of(votes, own).notar.Some? {
        events := [SafeSkipEvent(slot)];
        sentSafeToSkip := true;
      }
    }

    /** A fallback certificate for `h` from the stored votes, when it is due. */
    method DueFallback(h: BlockHash, ei: EpochInfo) returns (out: seq<Cert>)
      requires |ei.validators| <= MAX_SIGNERS && Compatible(ei, votes, fallbackVotes)
      requires VotersBehind(ei, votes, fallbackVotes, totals, h)
      ensures |out| == One(FallbackDue(ei, totals, certs, h))
      ensures out != [] ==> FallbackCertOf(out[0], ei, slot, h, NotarVoters(votes, h), FallbackVoters(fallbackVotes, h))
    {
      out := [];
      if ei.IsQuorate(StakeAt(totals.fallback, h) + StakeAt(totals.notar, h)) && !HasFallbackCert(certs, h) {
        var c := MakeFallback(ei, slot, h, NotarVoters(votes, h), FallbackVoters(fallbackVotes, h));
        out := [c];
      }
    }

    method DueNotar(h: BlockHash, ei: EpochInfo) returns (out: seq<Cert>)
      requires |ei.validators| <= MAX_SIGNERS && Compatible(ei, votes, fallbackVotes)
      requires VotersBehind(ei, votes, fallbackVotes, totals, h)
      ensures |out| == One(NotarDue(ei, totals, certs, h))
      ensures out != [] ==> NotarCertOf(out[0], ei, slot, h, NotarVoters(votes, h))
    {
      out := [];
      if ei.IsQuorate(StakeAt(totals.notar, h)) && certs.notar.None? {
        var c := MakeNotar(ei, slot, h, NotarVoters(votes, h));
        out := [c];
      }
    }

    method DueFastFinal(h: BlockHash, ei: EpochInfo) returns (out: seq<Cert>)
      requires |ei.validators| <= MAX_SIGNERS && Compatible(ei, votes, fallbackVotes)
      requires VotersBehind(ei, votes, fallbackVotes, totals, h)
      ensures |out| == One(FastFinalDue(ei, totals, certs, h))
      ensures out != [] ==> FastFinalCertOf(out[0], ei, slot, h, NotarVoters(votes, h))
    {
      out := [];
      if ei.IsStrong(StakeAt(totals.notar, h)) && certs.fastFinal.None? {
        var c := MakeFastFinal(ei, slot, h, NotarVoters(votes, h));
        out := [c];
      }
    }

    /** The certificates a notar total for `h` calls for, built from the stored votes. */
    method NotarCertificates(h: BlockHash, ei: EpochInfo) returns (out: seq<Cert>)
      requires |ei.validators| <= MAX_SIGNERS && Compatible(ei, votes, fallbackVotes)
      requires VotersBehind(ei, votes, fallbackVotes, totals, h)
      ensures NotarCertsAre(out, ei, slot, h, votes, fallbackVotes, totals, certs)
    {
      var a := DueFallback(h, ei);
      var b := DueNotar(h, ei);
      var c := DueFastFinal(h, ei);
      out := a + b + c;
      assert a != [] ==> out[0] == a[0];
      assert b != [] ==> out[|a|] == b[0];
      assert c != [] ==> out[|a| + |b|] == c[0];
    }

    /** Checks one block unless it was reported before. */
    method CheckUnlessSent(h: BlockHash, ei: EpochInfo) returns (events: seq<SlotEvent>, repairs: seq<BlockId>)
      modifies this`pending, this`sent
      ensures pending ==
        if h in old(sent) then old(pending) else PendingAfter(ei, votes, totals, parents, own, old(pending), h)
      ensures sent == if h in old(sent) then old(sent) else SentAfter(ei, votes, totals, parents, own, old(sent), h)
      ensures EventsAre(events, slot, sent - old(sent), false)
      ensures RepairsAre(repairs, slot, if h in old(sent) then {} else Absent(ei, totals, parents, {h}))
    {
      events, repairs := [], [];
      if h !in sent {
        var r := CheckSafeToNotar(h, ei);
        match r {
          case IsSafe => events := [SafeNotarEvent(BlockId(slot, h))];
          case MissingBlock => repairs := [BlockId(slot, h)];
          case Awaiting =>
        }
      }
    }

    /** Counts notar stake before the vote itself is stored. */
    method CountNotar(v: nat, h: BlockHash, ei: EpochInfo) returns (events: seq<SlotEvent>, repairs: seq<BlockId>)
      requires ei.WellFormed() && Valid(ei) && v < |ei.validators|
      modifies this`totals, this`pending, this`sent, this`sentSafeToSkip
      ensures totals == Count(old(totals), Notar(slot, h), ei.validators[v].stake)
      ensures Reported(ei, votes, totals, parents, own, pending, sent) && old(sent) <= sent
      ensures totals.topNotar <= totals.notarOrSkip
      ensures sentSafeToSkip == (old(sentSafeToSkip) || SafeSkip(ei, votes, totals, own))
      ensures EventsAre(events, slot, sent - old(sent), !old(sentSafeToSkip) && sentSafeToSkip)
      ensures RepairsAre(repairs, slot, Absent(ei, totals, parents, {h}))
      ensures SameAbsent(ei, totals, parents, Notar(slot, h), pending, old(pending))
    {
      assert h in sent ==> h in parents;
      hide EventsAre, Reported, Accounted, SafeSkip, Count, EpochInfo.WellFormed;
      TopBelow(ei, votes, fallbackVotes, totals, Notar(slot, h), ei.validators[v].stake);
      NotarCountedReported(ei, votes, totals, parents, own, pending, sent, slot, h, ei.validators[v].stake);
      totals := Count(totals, Notar(slot, h), ei.validators[v].stake);
      var checked, missing := CheckUnlessSent(h, ei);
      var more := CheckSafeToSkip(ei);
      EventsAppend(checked, more, slot, sent - old(sent), {}, false, !old(sentSafeToSkip) && sentSafeToSkip);
      assert sent - old(sent) + {} == sent - old(sent);
      events, repairs := checked + more, missing;
    }

    method DueSkip(ei: EpochInfo) returns (out: seq<Cert>)
      requires |ei.validators| <= MAX_SIGNERS && Compatible(ei, votes, fallbackVotes)
      requires SkipVoters(votes) != {} || SkipFallbackVoters(votes) != {}
      ensures |out| == One(SkipDue(ei, totals, certs))
      ensures out != [] ==> SkipCertOf(out[0], ei, slot, SkipVoters(votes), SkipFallbackVoters(votes))
    {
      out := [];
      if ei.IsQuorate(totals.skip + totals.skipFallback) && certs.skip.None? {
        var c := MakeSkip(ei, slot, SkipVoters(votes), SkipFallbackVoters(votes));
        out := [c];
      }
    }

    method DueFinal(ei: EpochInfo) returns (out: seq<Cert>)
      requires |ei.validators| <= MAX_SIGNERS && Compatible(ei, votes, fallbackVotes)
      requires FinalVoters(votes) != {}
      ensures |out| == One(FinalDue(ei, totals, certs))
      ensures out != [] ==> FinalCertOf(out[0], ei, slot, FinalVoters(votes))
    {
      out := [];
      if ei.IsQuorate(totals.finalize) && certs.final.None? {
        var c := MakeFinal(ei, slot, FinalVoters(votes));
        out := [c];
      }
    }

    /** Notar votes are counted, and their certificates built, before they are stored. */
    method AddNotar(v: nat, h: BlockHash, ei: EpochInfo) returns (o: Outputs)
      requires Fits(ei) && Valid(ei) && v < |ei.validators| && Accepts(votes, fallbackVotes, v, Notar(slot, h))
      modifies this`votes, this`totals, this`pending, this`sent, this`sentSafeToSkip
      ensures votes == Store(old(votes), v, Notar(slot, h))
      ensures totals == Count(old(totals), Notar(slot, h), ei.validators[v].stake)
      ensures NearlyValid(ei) && (v != own ==> Valid(ei)) && old(sent) <= sent
      ensures sentSafeToSkip == (old(sentSafeToSkip) || SkipFires(ei, Notar(slot, h), old(votes), votes, totals, own))
      ensures EventsAre(o.events, slot, sent - old(sent), !old(sentSafeToSkip) && sentSafeToSkip)
      ensures RepairsAre(o.repairs, slot, Absent(ei, totals, parents, {h}))
      ensures SameAbsent(ei, totals, parents, Notar(slot, h), pending, old(pending))
      ensures NotarCertsAre(o.certs, ei, slot, h, old(votes), fallbackVotes, totals, certs)
    {
      AcceptedStaysCompatible(ei, votes, fallbackVotes, v, Notar(slot, h));
      CountKeepsAccounted(ei, votes, fallbackVotes, totals, v, Notar(slot, h));
      CountedLeavesVoters(ei, votes, fallbackVotes, totals, v, slot, h);
      var events, repairs := CountNotar(v, h, ei);
      var made := NotarCertificates(h, ei);
      NotarStoredReported(ei, votes, fallbackVotes, totals, parents, own, pending, sent, v, slot, h);
      votes := Store(votes, v, Notar(slot, h));
      o := Outputs(made, events, repairs);
    }

    /** Notar-fallback votes are counted, and their certificate built, before they are stored. */
    method AddNotarFallback(v: nat, h: BlockHash, ei: EpochInfo) returns (o: Outputs)
      requires Fits(ei) && Valid(ei) && v < |ei.validators| && Accepts(votes, fallbackVotes, v, NotarFallback(slot, h))
      modifies this`fallbackVotes, this`totals
      ensures fallbackVotes == StoreFallback(old(fallbackVotes), v, NotarFallback(slot, h))
      ensures totals == Count(old(totals), NotarFallback(slot, h), ei.validators[v].stake)
      ensures Valid(ei) && o.events == [] && o.repairs == []
      ensures FallbackCertsAre(o.certs, ei, slot, h, votes, old(fallbackVotes), totals, certs)
    {
      AcceptedStaysCompatible(ei, votes, fallbackVotes, v, NotarFallback(slot, h));
      CountKeepsAccounted(ei, votes, fallbackVotes, totals, v, NotarFallback(slot, h));
      CountedLeavesVoters(ei, votes, fallbackVotes, totals, v, slot, h);
      OtherReported(ei, votes, totals, parents, own, pending, sent, v, NotarFallback(slot, h), ei.validators[v].stake);
      totals := Count(totals, NotarFallback(slot, h), ei.validators[v].stake);
      var made := DueFallback(h, ei);
      fallbackVotes := fallbackVotes + {(v, h)};
      o := Outputs(made, [], []);
    }

    /** Rechecks the pending blocks, then whether the slot is safe to skip. */
    method CountSkip(ei: EpochInfo) returns (events: seq<SlotEvent>, repairs: seq<BlockId>)
      requires NearlyValid(ei) && totals.topNotar <= totals.notarOrSkip
      modifies this`pending, this`sent, this`sentSafeToSkip
      ensures Valid(ei) && old(sent) <= sent
      ensures sentSafeToSkip == (old(sentSafeToSkip) || SafeSkip(ei, votes, totals, own))
      ensures EventsAre(events, slot, sent - old(sent), !old(sentSafeToSkip) && sentSafeToSkip)
      ensures RepairsAre(repairs, slot, Absent(ei, totals, parents, old(pending)))
      ensures forall h :: Missing(ei, totals, parents, h) ==> (h in pending <==> h in old(pending))
    {
      var freed, missing := ProcessPending(ei);
      var more := CheckSafeToSkip(ei);
      EventsAppend(freed, more, slot, sent - old(sent), {}, false, !old(sentSafeToSkip) && sentSafeToSkip);
      assert sent - old(sent) + {} == sent - old(sent);
      events, repairs := freed + more, missing;
    }

    /** Skip and skip-fallback votes are stored first; more skip stake may free pending blocks. */
    method AddSkip(v: nat, b: Ballot, ei: EpochInfo) returns (o: Outputs)
      requires Fits(ei) && Valid(ei) && v < |ei.validators| && Accepts(votes, fallbackVotes, v, b)
      requires b == Skip(slot) || b == SkipFallback(slot)
      modifies this`votes, this`totals, this`pending, this`sent, this`sentSafeToSkip
      ensures votes == Store(old(votes), v, b)
      ensures totals == Count(old(totals), b, ei.validators[v].stake)
      ensures Valid(ei) && old(sent) <= sent
      ensures sentSafeToSkip == (old(sentSafeToSkip) || SkipFires(ei, b, old(votes), votes, totals, own))
      ensures EventsAre(o.events, slot, sent - old(sent), !old(sentSafeToSkip) && sentSafeToSkip)
      ensures RepairsAre(o.repairs, slot, Absent(ei, totals, parents, old(pending)))
      ensures SameAbsent(ei, totals, parents, b, pending, old(pending))
      ensures SkipCertsAre(o.certs, ei, slot, votes, totals, certs)
    {
      SkipStaysReported(ei, votes, fallbackVotes, totals, parents, own, pending, sent, v, b);
      votes, totals := Store(votes, v, b), Count(totals, b, ei.validators[v].stake);
      var made := DueSkip(ei);
      var events, repairs := CountSkip(ei);
      o := Outputs(made, events, repairs);
    }

    method AddFinal(v: nat, ei: EpochInfo) returns (o: Outputs)
      requires Fits(ei) && Valid(ei) && v < |ei.validators| && Accepts(votes, fallbackVotes, v, Final(slot))
      modifies this`votes, this`totals
      ensures votes == Store(old(votes), v, Final(slot))
      ensures totals == Count(old(totals), Final(slot), ei.validators[v].stake)
      ensures Valid(ei) && o.events == [] && o.repairs == []
      ensures FinalCertsAre(o.certs, ei, slot, votes, totals, certs)
    {
      AcceptedStaysCompatible(ei, votes, fallbackVotes, v, Final(slot));
      CountKeepsAccounted(ei, votes, fallbackVotes, totals, v, Final(slot));
      OtherReported(ei, votes, totals, parents, own, pending, sent, v, Final(slot), ei.validators[v].stake);
      votes, totals := Store(votes, v, Final(slot)), Count(totals, Final(slot), ei.validators[v].stake);
      assert v in FinalVoters(votes);
      var made := DueFinal(ei);
      o := Outputs(made, [], []);
    }

    /** Counts and stores a vote according to its kind. */
    method CountVote(v: nat, b: Ballot, ei: EpochInfo) returns (o: Outputs)
      requires Fits(ei) && Valid(ei) && v < |ei.validators| && b.slot == slot && Accepts(votes, fallbackVotes, v, b)
      modifies this`votes, this`fallbackVotes, this`totals, this`pending, this`sent, this`sentSafeToSkip
      ensures NearlyValid(ei) && (v != own ==> Valid(ei))
      ensures votes == Store(old(votes), v, b) && fallbackVotes == StoreFallback(old(fallbackVotes), v, b)
      ensures totals == Count(old(totals), b, ei.validators[v].stake)
      ensures old(sent) <= sent
      ensures sentSafeToSkip == (old(sentSafeToSkip) || SkipFires(ei, b, old(votes), votes, totals, own))
      ensures EventsAre(o.events, slot, sent - old(sent), !old(sentSafeToSkip) && sentSafeToSkip)
      ensures RepairsAre(o.repairs, slot, Absent(ei, totals, parents, Rechecked(b, false, old(pending))))
      ensures SameAbsent(ei, totals, parents, b, pending, old(pending))
      ensures CertsAre(o.certs, ei, slot, b, old(votes), votes, old(fallbackVotes), totals, certs)
    {
      match b {
        case Notar(_, h) => o := AddNotar(v, h, ei);
        case NotarFallback(_, h) => o := AddNotarFallback(v, h, ei);
        case Skip(_) => o := AddSkip(v, b, ei);
        case SkipFallback(_) => o := AddSkip(v, b, ei);
        case Final(_) => o := AddFinal(v, ei);
      }
    }

    /** Adds an accepted vote: the totals and stored votes change as specified, exactly the
        newly safe blocks are reported, and exactly the certificates due are built. */
    method AddVote(v: nat, b: Ballot, ei: EpochInfo) returns (o: Outputs)
      requires Fits(ei) && Valid(ei) && v < |ei.validators| && b.slot == slot && Accepts(votes, fallbackVotes, v, b)
      modifies this`votes, this`fallbackVotes, this`totals, this`pending, this`sent, this`sentSafeToSkip
      ensures Valid(ei)
      ensures votes == Store(old(votes), v, b) && fallbackVotes == StoreFallback(old(fallbackVotes), v, b)
      ensures totals == Count(old(totals), b, ei.validators[v].stake)
      ensures old(sent) <= sent
      ensures sentSafeToSkip == (old(sentSafeToSkip) || SkipFires(ei, b, old(votes), votes, totals, own))
      ensures EventsAre(o.events, slot, sent - old(sent), !old(sentSafeToSkip) && sentSafeToSkip)
      ensures RepairsAre(o.repairs, slot, Absent(ei, totals, parents, Rechecked(b, v == own, old(pending))))
      ensures CertsAre(o.certs, ei, slot, b, old(votes), votes, old(fallbackVotes), totals, certs)
      ensures forall h :: h in sent <==> SafeByVotes(ei, votes, parents, own, h)
      ensures forall h :: BlockId(slot, h) in o.repairs <==>
        && MissedByVotes(ei, votes, parents, h)
        && (b == Notar(slot, h) || (h in old(pending) && (v == own || b.Skip? || b.SkipFallback?)))
    {
      o := CountVote(v, b, ei);
      if v == own {
        ghost var was, had, fired := sent, pending, !old(sentSafeToSkip) && sentSafeToSkip;
        var events, repairs := ProcessPending(ei);
        EventsAppend(o.events, events, slot, was - old(sent), sent - was, fired, false);
        assert (was - old(sent)) + (sent - was) == sent - old(sent);
        RepairsAppend(o.repairs, repairs, slot, ei, totals, parents, b, old(pending), had);
        o := Outputs(o.certs, o.events + events, o.repairs + repairs);
      }
      SafeAsVoted(ei, votes, fallbackVotes, totals, parents, own);
      AskedAsVoted(ei, votes, fallbackVotes, totals, parents, o.repairs, slot, b, v == own, old(pending));
    }

    /** Stores a certificate; a second fallback certificate for one hash is dropped. */
    method AddCert(c: Cert)
      modifies this`certs
      ensures certs == StoreCert(old(certs), c)
    {
      match c {
        case NotarCert(_, _, _, _) => certs := certs.(notar := Some(c));
        case NotarFallbackCert(_, h, _, _, _) =>
          if !HasFallbackCert(certs, h) {
            certs := certs.(fallbacks := certs.fallbacks + [c]);
          }
        case SkipCert(_, _, _, _) => certs := certs.(skip := Some(c));
        case FastFinalCert(_, _, _, _) => certs := certs.(fastFinal := Some(c));
        case FinalCert(_, _, _) => certs := certs.(final := Some(c));
      }
    }

    method NotifyParentKnown(h: BlockHash, ghost ei: EpochInfo)
      requires Valid(ei)
      modifies this`parents
      ensures Valid(ei) && parents == if h in old(parents) then old(parents) else old(parents)[h := Known]
      ensures forall g :: g in sent <==> SafeByVotes(ei, votes, parents, own, g)
    {
      SafeAsVoted(ei, votes, fallbackVotes, totals, if h in parents then parents else parents[h := Known], own);
      if h !in parents {
        ParentKnownReported(ei, votes, totals, parents, own, pending, sent, h);
        parents := parents[h := Known];
      }
    }

    /** Certifies the parent of a known block, which can make that one block safe. */
    method NotifyParentCertified(h: BlockHash, ei: EpochInfo) returns (event: Option<SlotEvent>)
      requires Valid(ei) && h in parents
      modifies this`parents, this`pending, this`sent
      ensures Valid(ei) && parents == old(parents)[h := ParentCertified] && old(sent) <= sent <= old(sent) + {h}
      ensures event == if h in sent && h !in old(sent) then Some(SafeNotarEvent(BlockId(slot, h))) else None
      ensures forall g :: g in sent <==> SafeByVotes(ei, votes, parents, own, g)
    {
      SafeAsVoted(ei, votes, fallbackVotes, totals, parents[h := ParentCertified], own);
      ParentCertifiedReported(ei, votes, totals, parents, own, pending, sent, h);
      parents := parents[h := ParentCertified];
      if h in sent {
        return None;
      }
      var r := CheckSafeToNotar(h, ei);
      event := if r.IsSafe? then Some(SafeNotarEvent(BlockId(slot, h))) else None;
    }

    /** As `Valid`, except that pending blocks may be safe and not yet reported. */
    ghost predicate NearlyValid(ei: EpochInfo)
      reads this
    {
      && Compatible(ei, votes, fallbackVotes)
      && Accounted(ei, votes, fallbackVotes, totals)
      && ReportedButPending(ei, votes, totals, parents, own, pending, sent)
    }
  }

  /** Reported blocks are safe by the votes, and the other way around. */
  lemma SafeAsVoted(ei: EpochInfo, votes: Votes, fallbacks: FallbackVotes, t: Totals,
                    parents: map<BlockHash, ParentStatus>, own: nat)
    ensures Accounted(ei, votes, fallbacks, t) ==>
      forall h :: SafeNotar(ei, votes, t, parents, own, h) <==> SafeByVotes(ei, votes, parents, own, h)
  {
    if Accounted(ei, votes, fallbacks, t) {
      forall h
        ensures SafeNotar(ei, votes, t, parents, own, h) <==> SafeByVotes(ei, votes, parents, own, h)
      {
        SafeNotarIff(ei, votes, fallbacks, t, parents, own, h);
      }
    }
  }

  /** The blocks asked for are those the votes support and nobody has seen. */
  lemma AskedAsVoted(ei: EpochInfo, votes: Votes, fallbacks: FallbackVotes, t: Totals,
                     parents: map<BlockHash, ParentStatus>, repairs: seq<BlockId>, slot: nat, b: Ballot, isOwn: bool,
                     pending: set<BlockHash>)
    requires Accounted(ei, votes, fallbacks, t) && b.slot == slot
    requires RepairsAre(repairs, slot, Absent(ei, t, parents, Rechecked(b, isOwn, pending)))
    ensures forall h :: BlockId(slot, h) in repairs <==>
      && MissedByVotes(ei, votes, parents, h)
      && (b == Notar(slot, h) || (h in pending && (isOwn || b.Skip? || b.SkipFallback?)))
  {
    forall h
      ensures Missing(ei, t, parents, h) <==> MissedByVotes(ei, votes, parents, h)
    {
      assert StakeAt(t.notar, h) == ei.StakeOf(NotarVoters(votes, h));
    }
  }

  /** The blocks a vote makes the slot look at again. */
  function Rechecked(b: Ballot, isOwn: bool, pending: set<BlockHash>): set<BlockHash> {
    (if b.Notar? then {b.hash} else {}) + (if isOwn || b.Skip? || b.SkipFallback? then pending else {})
  }

  /** Apart from the block voted for, the same missing blocks are pending. */
  ghost predicate SameAbsent(ei: EpochInfo, t: Totals, parents: map<BlockHash, ParentStatus>, b: Ballot,
                             pending: set<BlockHash>, pending': set<BlockHash>) {
    forall h :: Missing(ei, t, parents, h) && !(b.Notar? && b.hash == h) ==> (h in pending <==> h in pending')
  }

  lemma RepairsAppend(first: seq<BlockId>, second: seq<BlockId>, slot: nat, ei: EpochInfo, t: Totals,
                      parents: map<BlockHash, ParentStatus>,
                      b: Ballot, before: set<BlockHash>, after: set<BlockHash>)
    requires RepairsAre(first, slot, Absent(ei, t, parents, Rechecked(b, false, before)))
    requires RepairsAre(second, slot, Absent(ei, t, parents, after))
    requires SameAbsent(ei, t, parents, b, after, before)
    ensures RepairsAre(first + second, slot, Absent(ei, t, parents, Rechecked(b, true, before)))
  {
  }

  /** The certificates a vote calls for. Notar and fallback certificates carry the votes
      stored before it, skip and final certificates those stored with it. */
  ghost predicate CertsAre(out: seq<Cert>, ei: EpochInfo, slot: nat, b: Ballot,
                           before: Votes, after: Votes, fallbacks: FallbackVotes, t: Totals, certs: SlotCerts) {
    match b
    case Notar(_, h) => NotarCertsAre(out, ei, slot, h, before, fallbacks, t, certs)
    case NotarFallback(_, h) => FallbackCertsAre(out, ei, slot, h, before, fallbacks, t, certs)
    case Final(_) => FinalCertsAre(out, ei, slot, after, t, certs)
    case _ => SkipCertsAre(out, ei, slot, after, t, certs)
  }

  /** When a vote makes the slot safe to skip: a notar vote is judged by the votes stored
      before it, a skip vote by those stored with it; other votes are not judged. */
  predicate SkipFires(ei: EpochInfo, b: Ballot, before: Votes, after: Votes, t: Totals, own: nat) {
    match b
    case Notar(_, _) => SafeSkip(ei, before, t, own)
    case Skip(_) => SafeSkip(ei, after, t, own)
    case SkipFallback(_) => SafeSkip(ei, after, t, own)
    case _ => false
  }

  lemma SkipStaysReported(ei: EpochInfo, votes: Votes, fallbacks: FallbackVotes, t: Totals, parents: map<BlockHash,
                          ParentStatus>, own: nat,
                          pending: set<BlockHash>, sent: set<BlockHash>, v: nat, b: Ballot)
    requires ei.WellFormed() && Compatible(ei, votes, fallbacks) && Accounted(ei, votes, fallbacks, t)
    requires Reported(ei, votes, t, parents, own, pending, sent)
    requires v < |ei.validators| && Accepts(votes, fallbacks, v, b) && (b.Skip? || b.SkipFallback?)
    ensures var votes', t' := Store(votes, v, b), Count(t, b, ei.validators[v].stake);
      && Compatible(ei, votes', fallbacks) && Accounted(ei, votes', fallbacks, t') && t'.topNotar <= t'.notarOrSkip
      && ReportedButPending(ei, votes', t', parents, own, pending, sent)
      && (SkipVoters(votes') != {} || SkipFallbackVoters(votes') != {})
  {
    assert v in SkipVoters(Store(votes, v, b)) || v in SkipFallbackVoters(Store(votes, v, b));
    AcceptedStaysCompatible(ei, votes, fallbacks, v, b);
    CountKeepsAccounted(ei, votes, fallbacks, t, v, b);
    TopBelow(ei, votes, fallbacks, t, b, ei.validators[v].stake);
    if b.Skip? {
      SkipReported(ei, votes, fallbacks, t, parents, own, pending, sent, v, b.slot, ei.validators[v].stake);
    } else {
      OtherReported(ei, votes, t, parents, own, pending, sent, v, b, ei.validators[v].stake);
    }
  }

  ghost predicate FallbackCertsAre(out: seq<Cert>, ei: EpochInfo, slot: nat, h: BlockHash,
                                   votes: Votes, fallbacks: FallbackVotes, t: Totals, certs: SlotCerts) {
    && |out| == One(FallbackDue(ei, t, certs, h))
    && (out != [] ==> FallbackCertOf(out[0], ei, slot, h, NotarVoters(votes, h), FallbackVoters(fallbacks, h)))
  }

  ghost predicate SkipCertsAre(out: seq<Cert>, ei: EpochInfo, slot: nat, votes: Votes, t: Totals, certs: SlotCerts) {
    && |out| == One(SkipDue(ei, t, certs))
    && (out != [] ==> SkipCertOf(out[0], ei, slot, SkipVoters(votes), SkipFallbackVoters(votes)))
  }

  ghost predicate FinalCertsAre(out: seq<Cert>, ei: EpochInfo, slot: nat, votes: Votes, t: Totals, certs: SlotCerts) {
    && |out| == One(FinalDue(ei, t, certs))
    && (out != [] ==> FinalCertOf(out[0], ei, slot, FinalVoters(votes)))
  }

  predicate SkipDue(ei: EpochInfo, t: Totals, certs: SlotCerts) {
    ei.IsQuorate(t.skip + t.skipFallback) && certs.skip.None?
  }

  predicate FinalDue(ei: EpochInfo, t: Totals, certs: SlotCerts) {
    ei.IsQuorate(t.finalize) && certs.final.None?
  }

  /** The epoch is well formed and no single validator holds 60%: the source builds a
      certificate from the votes stored before the one that met the threshold, and
      asserts that there are some. */
  ghost predicate Fits(ei: EpochInfo) {
    && ei.WellFormed() && ei.totalStake > 0 && |ei.validators| <= MAX_SIGNERS
    && (forall v :: 0 <= v < |ei.validators| ==> !ei.IsQuorate(ei.validators[v].stake))
  }

  lemma CountedLeavesVoters(ei: EpochInfo, votes: Votes, fallbacks: FallbackVotes, t: Totals, v: nat, s: nat,
                            h: BlockHash)
    requires Fits(ei) && Accounted(ei, votes, fallbacks, t) && v < |ei.validators|
    ensures VotersBehind(ei, votes, fallbacks, Count(t, Notar(s, h), ei.validators[v].stake), h)
    ensures VotersBehind(ei, votes, fallbacks, Count(t, NotarFallback(s, h), ei.validators[v].stake), h)
  {
    Empty(ei);
    assert StakeAt(t.notar, h) == ei.StakeOf(NotarVoters(votes, h));
    assert StakeAt(t.fallback, h) == ei.StakeOf(FallbackVoters(fallbacks, h));
    assert !ei.IsQuorate(ei.validators[v].stake);
  }

  lemma TopBelow(ei: EpochInfo, votes: Votes, fallbacks: FallbackVotes, t: Totals, b: Ballot, stake: nat)
    requires ei.WellFormed() && Compatible(ei, votes, fallbacks) && Accounted(ei, votes, fallbacks, t)
    ensures t.topNotar <= t.notarOrSkip
    ensures Count(t, b, stake).topNotar <= Count(t, b, stake).notarOrSkip
  {
    TotalsBounded(ei, votes, fallbacks, t);
    if b.Notar? {
      assert StakeAt(t.notar, b.hash) <= t.topNotar;
    }
  }

  /** 40% of the stake voted skip or for another block than the strongest, and we notarized. */
  predicate SafeSkip(ei: EpochInfo, votes: Votes, t: Totals, own: nat) {
    t.topNotar <= t.notarOrSkip && ei.IsWeak(t.notarOrSkip - t.topNotar) && Of(votes, own).notar.Some?
  }

  /** A quorum counted so far leaves somebody in the stored votes. */
  ghost predicate VotersBehind(ei: EpochInfo, votes: Votes, fallbacks: FallbackVotes, t: Totals, h: BlockHash) {
    && (ei.IsQuorate(StakeAt(t.notar, h)) ==> NotarVoters(votes, h) != {})
    && (ei.IsQuorate(StakeAt(t.fallback, h) + StakeAt(t.notar, h)) ==>
          NotarVoters(votes, h) != {} || FallbackVoters(fallbacks, h) != {})
  }

  function One(b: bool): nat {
    if b then 1 else 0
  }

  predicate FallbackDue(ei: EpochInfo, t: Totals, certs: SlotCerts, h: BlockHash) {
    ei.IsQuorate(StakeAt(t.fallback, h) + StakeAt(t.notar, h)) && !HasFallbackCert(certs, h)
  }

  predicate NotarDue(ei: EpochInfo, t: Totals, certs: SlotCerts, h: BlockHash) {
    ei.IsQuorate(StakeAt(t.notar, h)) && certs.notar.None?
  }

  predicate FastFinalDue(ei: EpochInfo, t: Totals, certs: SlotCerts, h: BlockHash) {
    ei.IsStrong(StakeAt(t.notar, h)) && certs.fastFinal.None?
  }

  /** A fallback, a notar and a fast-final certificate, in this order, each exactly when
      its threshold is met and none is stored. */
  ghost predicate NotarCertsAre(out: seq<Cert>, ei: EpochInfo, slot: nat, h: BlockHash,
                                votes: Votes, fallbacks: FallbackVotes, t: Totals, certs: SlotCerts) {
    var f, n, ff := FallbackDue(ei, t, certs, h), NotarDue(ei, t, certs, h), FastFinalDue(ei, t, certs, h);
    && |out| == One(f) + One(n) + One(ff)
    && (f ==> FallbackCertOf(out[0], ei, slot, h, NotarVoters(votes, h), FallbackVoters(fallbacks, h)))
    && (n ==> NotarCertOf(out[One(f)], ei, slot, h, NotarVoters(votes, h)))
    && (ff ==> FastFinalCertOf(out[One(f) + One(n)], ei, slot, h, NotarVoters(votes, h)))
  }
}
