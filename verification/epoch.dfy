/** The validator set of one epoch (crates/karstflow-alpenglow/src/epoch_info.rs)
    and the stake held by a set of validator indices. */
module Epoch {
  import opened Base

  datatype ValidatorInfo = ValidatorInfo(id: nat, stake: nat)

  datatype EpochInfo = EpochInfo(validators: seq<ValidatorInfo>, totalStake: nat) {

    /** What `NewEpochInfo` establishes when the stakes fit in 64 bits. */
    ghost predicate WellFormed() {
      && |validators| > 0
      && (forall i :: 0 <= i < |validators| ==> validators[i].id == i)
      && totalStake == StakeUpTo(validators, All(), |validators|)
    }

    ghost function All(): set<nat> {
      set i {:trigger validators[i]} | 0 <= i < |validators|
    }

    /** Stake of the validators whose index is in `s`, each counted once. */
    ghost function StakeOf(s: set<nat>): nat {
      StakeUpTo(validators, s, |validators|)
    }

    predicate IsWeakest(stake: nat) { IsWeakestQuorum(stake, totalStake) }
    predicate IsWeak(stake: nat) { IsWeakQuorum(stake, totalStake) }
    predicate IsQuorate(stake: nat) { IsQuorum(stake, totalStake) }
    predicate IsStrong(stake: nat) { IsStrongQuorum(stake, totalStake) }
  }

  /** Stake of the members of `s` among the first `n` validators. */
  ghost function StakeUpTo(validators: seq<ValidatorInfo>, s: set<nat>, n: nat): nat
    requires n <= |validators|
  {
    if n == 0 then 0
    else StakeUpTo(validators, s, n - 1) + if n - 1 in s then validators[n - 1].stake else 0
  }

  lemma {:induction false} StakeUpToInclusionExclusion(validators: seq<ValidatorInfo>, a: set<nat>, b: set<nat>, n: nat)
    requires n <= |validators|
    ensures StakeUpTo(validators, a + b, n) + StakeUpTo(validators, a * b, n)
         == StakeUpTo(validators, a, n) + StakeUpTo(validators, b, n)
  {
    if n > 0 {
      StakeUpToInclusionExclusion(validators, a, b, n - 1);
    }
  }

  lemma {:induction false} StakeUpToMonotone(validators: seq<ValidatorInfo>, a: set<nat>, b: set<nat>, n: nat)
    requires n <= |validators|
    requires forall i :: 0 <= i < n && i in a ==> i in b
    ensures StakeUpTo(validators, a, n) <= StakeUpTo(validators, b, n)
  {
    if n > 0 {
      StakeUpToMonotone(validators, a, b, n - 1);
    }
  }

  lemma {:induction false} StakeUpToAdd(validators: seq<ValidatorInfo>, s: set<nat>, v: nat, n: nat)
    requires n <= |validators|
    requires v !in s
    ensures StakeUpTo(validators, s + {v}, n)
         == StakeUpTo(validators, s, n) + if v < n then validators[v].stake else 0
  {
    if n > 0 {
      StakeUpToAdd(validators, s, v, n - 1);
    }
  }

  lemma {:induction false} StakeUpToEmpty(validators: seq<ValidatorInfo>, n: nat)
    requires n <= |validators|
    ensures StakeUpTo(validators, {}, n) == 0
  {
    if n > 0 {
      StakeUpToEmpty(validators, n - 1);
    }
  }

  /** Two sets of validators overlap by what their joint stake exceeds the union by. */
  lemma InclusionExclusion(ei: EpochInfo, a: set<nat>, b: set<nat>)
    ensures ei.StakeOf(a + b) + ei.StakeOf(a * b) == ei.StakeOf(a) + ei.StakeOf(b)
  {
    StakeUpToInclusionExclusion(ei.validators, a, b, |ei.validators|);
  }

  lemma Monotone(ei: EpochInfo, a: set<nat>, b: set<nat>)
    requires forall i :: i in a && i < |ei.validators| ==> i in b
    ensures ei.StakeOf(a) <= ei.StakeOf(b)
  {
    StakeUpToMonotone(ei.validators, a, b, |ei.validators|);
  }

  lemma AtMostTotal(ei: EpochInfo, s: set<nat>)
    requires ei.WellFormed()
    ensures ei.StakeOf(s) <= ei.totalStake
  {
    Monotone(ei, s, ei.All());
  }

  lemma AddOne(ei: EpochInfo, s: set<nat>, v: nat)
    requires v !in s && v < |ei.validators|
    ensures ei.StakeOf(s + {v}) == ei.StakeOf(s) + ei.validators[v].stake
  {
    StakeUpToAdd(ei.validators, s, v, |ei.validators|);
  }

  lemma Empty(ei: EpochInfo)
    ensures ei.StakeOf({}) == 0
  {
    StakeUpToEmpty(ei.validators, |ei.validators|);
  }

  lemma Disjoint(ei: EpochInfo, a: set<nat>, b: set<nat>)
    requires a !! b
    ensures ei.StakeOf(a + b) == ei.StakeOf(a) + ei.StakeOf(b)
  {
    InclusionExclusion(ei, a, b);
    assert a * b == {};
    Empty(ei);
  }

  /** Builds the epoch snapshot; the total saturates at 64 bits, and equals the
      stake of all validators as soon as that sum fits. */
  method NewEpochInfo(validators: seq<ValidatorInfo>) returns (ei: EpochInfo)
    requires |validators| > 0
    requires forall i :: 0 <= i < |validators| ==> validators[i].id == i
    ensures ei.validators == validators
    ensures ei.StakeOf(ei.All()) <= U64_MAX ==> ei.WellFormed()
    ensures ei.StakeOf(ei.All()) > U64_MAX ==> ei.totalStake == U64_MAX
  {
    var total := 0;
    ghost var all := EpochInfo(validators, 0).All();
    for i := 0 to |validators|
      invariant total == SaturatingAdd(0, StakeUpTo(validators, all, i))
    {
      total := SaturatingAdd(total, validators[i].stake);
    }
    ei := EpochInfo(validators, total);
    assert ei.All() == all;
  }
}
