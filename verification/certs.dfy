/** The five vote kinds (crates/karstflow-alpenglow/src/vote.rs) and the five
    certificate kinds built from them (crates/karstflow-alpenglow/src/cert.rs).
    A vote is its content and its signer; signature bytes are not modelled. */
module Certs {
  import opened Base
  import opened Epoch
  import opened AggSig

  /** What a vote says, without who says it. */
  datatype Ballot =
    | Notar(slot: nat, hash: BlockHash)
    | NotarFallback(slot: nat, hash: BlockHash)
    | Skip(slot: nat)
    | SkipFallback(slot: nat)
    | Final(slot: nat)

  datatype Vote = Vote(signer: nat, ballot: Ballot)

  datatype Cert =
    | NotarCert(slot: nat, hash: BlockHash, agg: AggregateSignature, stake: nat)
    | NotarFallbackCert(slot: nat, hash: BlockHash, aggNotar: Option<AggregateSignature>,
                        aggFallback: Option<AggregateSignature>, stake: nat)
    | SkipCert(slot: nat, aggSkip: Option<AggregateSignature>,
               aggFallback: Option<AggregateSignature>, stake: nat)
    | FastFinalCert(slot: nat, hash: BlockHash, agg: AggregateSignature, stake: nat)
    | FinalCert(slot: nat, agg: AggregateSignature, stake: nat)
  {
    predicate Shaped() {
      match this
      case NotarCert(_, _, a, _) => a.Shaped()
      case FastFinalCert(_, _, a, _) => a.Shaped()
      case FinalCert(_, a, _) => a.Shaped()
      case NotarFallbackCert(_, _, a, b, _) => (a.Some? ==> a.value.Shaped()) && (b.Some? ==> b.value.Shaped())
      case SkipCert(_, a, b, _) => (a.Some? ==> a.value.Shaped()) && (b.Some? ==> b.value.Shaped())
    }

    /** Validator `v` signed; for the mixed kinds, in either aggregate. */
    predicate IsSigner(v: nat)
      requires Shaped()
    {
      match this
      case NotarCert(_, _, a, _) => a.IsSigner(v)
      case FastFinalCert(_, _, a, _) => a.IsSigner(v)
      case FinalCert(_, a, _) => a.IsSigner(v)
      case NotarFallbackCert(_, _, a, b, _) => (a.Some? && a.value.IsSigner(v)) || (b.Some? && b.value.IsSigner(v))
      case SkipCert(_, a, b, _) => (a.Some? && a.value.IsSigner(v)) || (b.Some? && b.value.IsSigner(v))
    }

    ghost function Signers(): set<nat>
      requires Shaped()
    {
      set v | 0 <= v < MAX_SIGNERS && IsSigner(v)
    }

    function SignedStakeUpTo(ei: EpochInfo, n: nat): nat
      requires Shaped() && n <= |ei.validators|
    {
      if n == 0 then 0
      else SignedStakeUpTo(ei, n - 1)
           + if IsSigner(ei.validators[n - 1].id) then ei.validators[n - 1].stake else 0
    }

    /** 80% for a fast-final certificate, 60% otherwise, each signer counted once. */
    predicate CheckThreshold(ei: EpochInfo)
      requires Shaped()
    {
      var stake := SignedStakeUpTo(ei, |ei.validators|);
      if FastFinalCert? then ei.IsStrong(stake) else ei.IsQuorate(stake)
    }

    /** The votes validator `v` must have cast for its signature to be here. */
    ghost function BallotsOf(v: nat): set<Ballot>
      requires Shaped()
    {
      match this
      case NotarCert(s, h, a, _) => if a.IsSigner(v) then {Notar(s, h)} else {}
      case FastFinalCert(s, h, a, _) => if a.IsSigner(v) then {Notar(s, h)} else {}
      case FinalCert(s, a, _) => if a.IsSigner(v) then {Final(s)} else {}
      case NotarFallbackCert(s, h, a, b, _) =>
        (if a.Some? && a.value.IsSigner(v) then {Notar(s, h)} else {})
        + (if b.Some? && b.value.IsSigner(v) then {NotarFallback(s, h)} else {})
      case SkipCert(s, a, b, _) =>
        (if a.Some? && a.value.IsSigner(v) then {Skip(s)} else {})
        + (if b.Some? && b.value.IsSigner(v) then {SkipFallback(s)} else {})
    }
  }

  lemma {:induction false} SignedStakeUpToIsStake(c: Cert, ei: EpochInfo, n: nat)
    requires c.Shaped() && n <= |ei.validators|
    requires forall i :: 0 <= i < |ei.validators| ==> ei.validators[i].id == i
    ensures c.SignedStakeUpTo(ei, n) == StakeUpTo(ei.validators, c.Signers(), n)
  {
    if n > 0 {
      SignedStakeUpToIsStake(c, ei, n - 1);
    }
  }

  /** The threshold test is a quorum test on the set of signers. */
  lemma ThresholdIsQuorum(c: Cert, ei: EpochInfo)
    requires c.Shaped() && ei.WellFormed()
    ensures c.CheckThreshold(ei) <==>
            if c.FastFinalCert? then ei.IsStrong(ei.StakeOf(c.Signers())) else ei.IsQuorate(ei.StakeOf(c.Signers()))
  {
    SignedStakeUpToIsStake(c, ei, |ei.validators|);
  }

  // ---- building certificates ----

  datatype HashVote = HashVote(slot: nat, hash: BlockHash, signer: nat)
  datatype SlotVote = SlotVote(slot: nat, signer: nat)

  datatype CertError = SlotMismatch | BlockHashMismatch
  datatype CertResult = Ok(cert: Cert) | Err(error: CertError)

  /** The signers of a vote list are in range and pairwise distinct. */
  ghost predicate ProperSigners(signers: seq<nat>, n: nat) {
    && n <= MAX_SIGNERS
    && (forall i :: 0 <= i < |signers| ==> signers[i] < n)
    && (forall i, j :: 0 <= i < j < |signers| ==> signers[i] != signers[j])
  }

  ghost function SetOf(signers: seq<nat>): set<nat> {
    set v | v in signers
  }

  function HashSigners(votes: seq<HashVote>): (q: seq<nat>)
    ensures |q| == |votes| && forall i :: 0 <= i < |q| ==> q[i] == votes[i].signer
  {
    seq(|votes|, i requires 0 <= i < |votes| => votes[i].signer)
  }

  function SlotSigners(votes: seq<SlotVote>): (q: seq<nat>)
    ensures |q| == |votes| && forall i :: 0 <= i < |q| ==> q[i] == votes[i].signer
  {
    seq(|votes|, i requires 0 <= i < |votes| => votes[i].signer)
  }

  method AddSignature(a: AggregateSignature, i: nat) returns (r: AggregateSignature)
    requires a.Valid() && i < a.nbits && i !in a.Signers()
    ensures r.Valid() && r.nbits == a.nbits && r.Signers() == a.Signers() + {i}
  {
    var noBytes: seq<Byte> := seq(SIG_SZ, i => 0);
    AddValid(a, i, noBytes);
    r := Add(a, i, noBytes);
  }

  lemma PrefixSet(signers: seq<nat>, k: nat)
    requires k < |signers|
    requires forall i, j :: 0 <= i < j < |signers| ==> signers[i] != signers[j]
    ensures SetOf(signers[..k + 1]) == SetOf(signers[..k]) + {signers[k]}
    ensures signers[k] !in SetOf(signers[..k])
  {
  }

  /** Aggregates the signers in list order. */
  method AggBuild(signers: seq<nat>, nbits: nat) returns (a: AggregateSignature)
    requires ProperSigners(signers, nbits)
    ensures a.Valid() && a.nbits == nbits && a.Signers() == SetOf(signers)
  {
    a := Init(nbits);
    InitValid(nbits);
    for k := 0 to |signers|
      invariant a.Valid() && a.nbits == nbits
      invariant a.Signers() == SetOf(signers[..k])
    {
      PrefixSet(signers, k);
      a := AddSignature(a, signers[k]);
    }
    assert signers[..|signers|] == signers;
  }

  /** First position whose slot or hash differs from the given ones, or the length. */
  ghost function FirstMismatch(votes: seq<HashVote>, slot: nat, hash: BlockHash): (i: nat)
    ensures i <= |votes|
    ensures forall j :: 0 <= j < i ==> votes[j].slot == slot && votes[j].hash == hash
    ensures i < |votes| ==> votes[i].slot != slot || votes[i].hash != hash
  {
    if votes == [] || votes[0].slot != slot || votes[0].hash != hash then 0
    else 1 + FirstMismatch(votes[1..], slot, hash)
  }

  /** Scans a list of hash votes; on success returns the saturated stake of its signers. */
  method ScanHashVotes(votes: seq<HashVote>, slot: nat, hash: BlockHash, start: nat, validators: seq<ValidatorInfo>)
    returns (stake: nat, error: Option<CertError>)
    requires ProperSigners(HashSigners(votes), |validators|)
    ensures error.None? <==> FirstMismatch(votes, slot, hash) == |votes|
    ensures error.Some? ==>
      var bad := votes[FirstMismatch(votes, slot, hash)];
      error.value == if bad.slot != slot then SlotMismatch else BlockHashMismatch
    ensures error.None? && start <= U64_MAX ==>
      stake == SaturatingAdd(start, StakeUpTo(validators, SetOf(HashSigners(votes)), |validators|))
  {
    stake := start;
    error := None;
    StakeUpToEmpty(validators, |validators|);
    ghost var signers := HashSigners(votes);
    assert SetOf(signers[..0]) == {};
    ghost var first := FirstMismatch(votes, slot, hash);
    for i := 0 to |votes|
      invariant first >= i
      invariant start <= U64_MAX ==>
        stake == SaturatingAdd(start, StakeUpTo(validators, SetOf(signers[..i]), |validators|))
    {
      var v := votes[i];
      if v.slot != slot {
        return stake, Some(SlotMismatch);
      }
      if v.hash != hash {
        return stake, Some(BlockHashMismatch);
      }
      stake := SaturatingAdd(stake, validators[v.signer].stake);
      ExtendSigners(validators, signers, i);
    }
    assert signers[..|signers|] == signers;
  }

  lemma ExtendSigners(validators: seq<ValidatorInfo>, signers: seq<nat>, i: nat)
    requires ProperSigners(signers, |validators|) && i < |signers|
    ensures StakeUpTo(validators, SetOf(signers[..i + 1]), |validators|)
         == StakeUpTo(validators, SetOf(signers[..i]), |validators|) + validators[signers[i]].stake
  {
    PrefixSet(signers, i);
    StakeUpToAdd(validators, SetOf(signers[..i]), signers[i], |validators|);
  }

  ghost function FirstSlotMismatch(votes: seq<SlotVote>, slot: nat): (i: nat)
    ensures i <= |votes|
    ensures forall j :: 0 <= j < i ==> votes[j].slot == slot
    ensures i < |votes| ==> votes[i].slot != slot
  {
    if votes == [] || votes[0].slot != slot then 0 else 1 + FirstSlotMismatch(votes[1..], slot)
  }

  method ScanSlotVotes(votes: seq<SlotVote>, slot: nat, start: nat, validators: seq<ValidatorInfo>)
    returns (stake: nat, error: Option<CertError>)
    requires ProperSigners(SlotSigners(votes), |validators|)
    ensures error.None? <==> FirstSlotMismatch(votes, slot) == |votes|
    ensures error.Some? ==> error.value == SlotMismatch
    ensures error.None? && start <= U64_MAX ==>
      stake == SaturatingAdd(start, StakeUpTo(validators, SetOf(SlotSigners(votes)), |validators|))
  {
    stake := start;
    error := None;
    StakeUpToEmpty(validators, |validators|);
    ghost var signers := SlotSigners(votes);
    assert SetOf(signers[..0]) == {};
    ghost var first := FirstSlotMismatch(votes, slot);
    for i := 0 to |votes|
      invariant first >= i
      invariant start <= U64_MAX ==>
        stake == SaturatingAdd(start, StakeUpTo(validators, SetOf(signers[..i]), |validators|))
    {
      var v := votes[i];
      if v.slot != slot {
        return stake, Some(SlotMismatch);
      }
      stake := SaturatingAdd(stake, validators[v.signer].stake);
      ExtendSigners(validators, signers, i);
    }
    assert signers[..|signers|] == signers;
  }

  ghost function Stake(validators: seq<ValidatorInfo>, signers: seq<nat>): nat {
    SaturatingAdd(0, StakeUpTo(validators, SetOf(signers), |validators|))
  }

  /** The stake of two lists; a validator on both counts twice. */
  ghost function JointStake(validators: seq<ValidatorInfo>, a: seq<nat>, b: seq<nat>): nat {
    Saturate(StakeUpTo(validators, SetOf(a), |validators|) + StakeUpTo(validators, SetOf(b), |validators|))
  }

  /** Aggregates notar votes; errors with the kind of the first vote that disagrees with the head. */
  method TryNewNotar(votes: seq<HashVote>, validators: seq<ValidatorInfo>) returns (r: CertResult)
    requires votes != []
    requires ProperSigners(HashSigners(votes), |validators|)
    ensures r.Ok? <==> FirstMismatch(votes, votes[0].slot, votes[0].hash) == |votes|
    ensures r.Ok? ==>
      && r.cert.NotarCert? && r.cert.agg.Valid() && r.cert.agg.nbits == |validators|
      && r.cert.slot == votes[0].slot && r.cert.hash == votes[0].hash
      && r.cert.agg.Signers() == SetOf(HashSigners(votes))
      && r.cert.stake == Stake(validators, HashSigners(votes))
    ensures r.Err? ==>
      var bad := votes[FirstMismatch(votes, votes[0].slot, votes[0].hash)];
      r.error == if bad.slot != votes[0].slot then SlotMismatch else BlockHashMismatch
  {
    var stake, error := ScanHashVotes(votes, votes[0].slot, votes[0].hash, 0, validators);
    if error.Some? {
      return Err(error.value);
    }
    var agg := AggBuild(HashSigners(votes), |validators|);
    return Ok(NotarCert(votes[0].slot, votes[0].hash, agg, stake));
  }

  /** A fast-final certificate has the shape of a notar certificate; only its threshold differs. */
  method TryNewFastFinal(votes: seq<HashVote>, validators: seq<ValidatorInfo>) returns (r: CertResult)
    requires votes != []
    requires ProperSigners(HashSigners(votes), |validators|)
    ensures r.Ok? <==> FirstMismatch(votes, votes[0].slot, votes[0].hash) == |votes|
    ensures r.Ok? ==>
      && r.cert.FastFinalCert? && r.cert.agg.Valid() && r.cert.agg.nbits == |validators|
      && r.cert.slot == votes[0].slot && r.cert.hash == votes[0].hash
      && r.cert.agg.Signers() == SetOf(HashSigners(votes))
      && r.cert.stake == Stake(validators, HashSigners(votes))
    ensures r.Err? ==>
      var bad := votes[FirstMismatch(votes, votes[0].slot, votes[0].hash)];
      r.error == if bad.slot != votes[0].slot then SlotMismatch else BlockHashMismatch
  {
    var n := TryNewNotar(votes, validators);
    if n.Err? {
      return n;
    }
    return Ok(FastFinalCert(n.cert.slot, n.cert.hash, n.cert.agg, n.cert.stake));
  }

  method TryNewFinal(votes: seq<SlotVote>, validators: seq<ValidatorInfo>) returns (r: CertResult)
    requires votes != []
    requires ProperSigners(SlotSigners(votes), |validators|)
    ensures r.Ok? <==> FirstSlotMismatch(votes, votes[0].slot) == |votes|
    ensures r.Err? ==> r.error == SlotMismatch
    ensures r.Ok? ==>
      && r.cert.FinalCert? && r.cert.agg.Valid() && r.cert.agg.nbits == |validators|
      && r.cert.slot == votes[0].slot
      && r.cert.agg.Signers() == SetOf(SlotSigners(votes))
      && r.cert.stake == Stake(validators, SlotSigners(votes))
  {
    var stake, error := ScanSlotVotes(votes, votes[0].slot, 0, validators);
    if error.Some? {
      return Err(error.value);
    }
    var agg := AggBuild(SlotSigners(votes), |validators|);
    return Ok(FinalCert(votes[0].slot, agg, stake));
  }

  ghost predicate OptionalAgg(a: Option<AggregateSignature>, signers: seq<nat>, nbits: nat) {
    && (a.Some? <==> signers != [])
    && (a.Some? ==> a.value.Valid() && a.value.nbits == nbits && a.value.Signers() == SetOf(signers))
  }

  method OptionalAggBuild(signers: seq<nat>, nbits: nat) returns (a: Option<AggregateSignature>)
    requires ProperSigners(signers, nbits)
    ensures OptionalAgg(a, signers, nbits)
  {
    if signers == [] {
      return None;
    }
    var agg := AggBuild(signers, nbits);
    return Some(agg);
  }

  /** Aggregates notar and notar-fallback votes; one validator may appear in both lists. */
  method TryNewNotarFallback(notar: seq<HashVote>, fallback: seq<HashVote>, validators: seq<ValidatorInfo>)
    returns (r: CertResult)
    requires notar != [] || fallback != []
    requires ProperSigners(HashSigners(notar), |validators|) && ProperSigners(HashSigners(fallback), |validators|)
    ensures var head := if notar != [] then notar[0] else fallback[0];
      && (r.Ok? <==>
            && FirstMismatch(notar, head.slot, head.hash) == |notar|
            && FirstMismatch(fallback, head.slot, head.hash) == |fallback|)
      && (r.Ok? ==>
            && r.cert.NotarFallbackCert? && r.cert.slot == head.slot && r.cert.hash == head.hash
            && OptionalAgg(r.cert.aggNotar, HashSigners(notar), |validators|)
            && OptionalAgg(r.cert.aggFallback, HashSigners(fallback), |validators|)
            && r.cert.stake == JointStake(validators, HashSigners(notar), HashSigners(fallback)))
      && (r.Err? ==>
            var list := if FirstMismatch(notar, head.slot, head.hash) < |notar| then notar else fallback;
            var bad := list[FirstMismatch(list, head.slot, head.hash)];
            r.error == if bad.slot != head.slot then SlotMismatch else BlockHashMismatch)
  {
    var head := if notar != [] then notar[0] else fallback[0];
    var stake, error := ScanHashVotes(notar, head.slot, head.hash, 0, validators);
    if error.Some? {
      return Err(error.value);
    }
    stake, error := ScanHashVotes(fallback, head.slot, head.hash, stake, validators);
    if error.Some? {
      return Err(error.value);
    }
    var a := OptionalAggBuild(HashSigners(notar), |validators|);
    var b := OptionalAggBuild(HashSigners(fallback), |validators|);
    return Ok(NotarFallbackCert(head.slot, head.hash, a, b, stake));
  }

  method TryNewSkip(skip: seq<SlotVote>, fallback: seq<SlotVote>, validators: seq<ValidatorInfo>)
    returns (r: CertResult)
    requires skip != [] || fallback != []
    requires ProperSigners(SlotSigners(skip), |validators|) && ProperSigners(SlotSigners(fallback), |validators|)
    ensures var slot := if skip != [] then skip[0].slot else fallback[0].slot;
      && (r.Ok? <==> FirstSlotMismatch(skip, slot) == |skip| && FirstSlotMismatch(fallback, slot) == |fallback|)
      && (r.Err? ==> r.error == SlotMismatch)
      && (r.Ok? ==>
            && r.cert.SkipCert? && r.cert.slot == slot
            && OptionalAgg(r.cert.aggSkip, SlotSigners(skip), |validators|)
            && OptionalAgg(r.cert.aggFallback, SlotSigners(fallback), |validators|)
            && r.cert.stake == JointStake(validators, SlotSigners(skip), SlotSigners(fallback)))
  {
    var slot := if skip != [] then skip[0].slot else fallback[0].slot;
    var stake, error := ScanSlotVotes(skip, slot, 0, validators);
    if error.Some? {
      return Err(error.value);
    }
    stake, error := ScanSlotVotes(fallback, slot, stake, validators);
    if error.Some? {
      return Err(error.value);
    }
    var a := OptionalAggBuild(SlotSigners(skip), |validators|);
    var b := OptionalAggBuild(SlotSigners(fallback), |validators|);
    return Ok(SkipCert(slot, a, b, stake));
  }
}
