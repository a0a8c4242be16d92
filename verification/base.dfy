/** Slots, block identities, leader windows and the quorum fractions
    (crates/karstflow-alpenglow/src/base.rs).

    Slots are unbounded naturals. A block hash is the 32-byte hash read as a
    big-endian integer, so the all-zero genesis hash is 0 and the byte order on
    hashes is the order on integers. */
module Base {

  datatype Option<+T> = None | Some(value: T)

  type BlockHash = nat

  const GENESIS_BLOCK_HASH: BlockHash := 0

  const SLOTS_PER_WINDOW: nat := 4
  const SLOTS_PER_EPOCH: nat := 18000

  const WEAKEST_QUORUM_NUMER: nat := 1
  const WEAK_QUORUM_NUMER: nat := 2
  const QUORUM_NUMER: nat := 3
  const STRONG_QUORUM_NUMER: nat := 4
  const QUORUM_DENOM: nat := 5

  datatype BlockId = BlockId(slot: nat, hash: BlockHash)

  function GenesisBlock(): BlockId {
    BlockId(0, GENESIS_BLOCK_HASH)
  }

  /** stake / total >= numer / denom, by cross multiplication. */
  predicate FractionIsMet(stake: nat, total: nat, numer: nat, denom: nat) {
    stake * denom >= total * numer
  }

  predicate IsWeakestQuorum(stake: nat, total: nat) {
    FractionIsMet(stake, total, WEAKEST_QUORUM_NUMER, QUORUM_DENOM)
  }

  predicate IsWeakQuorum(stake: nat, total: nat) {
    FractionIsMet(stake, total, WEAK_QUORUM_NUMER, QUORUM_DENOM)
  }

  predicate IsQuorum(stake: nat, total: nat) {
    FractionIsMet(stake, total, QUORUM_NUMER, QUORUM_DENOM)
  }

  predicate IsStrongQuorum(stake: nat, total: nat) {
    FractionIsMet(stake, total, STRONG_QUORUM_NUMER, QUORUM_DENOM)
  }

  function FirstSlotInWindow(slot: nat): nat {
    slot / SLOTS_PER_WINDOW * SLOTS_PER_WINDOW
  }

  function LastSlotInWindow(slot: nat): nat {
    FirstSlotInWindow(slot) + SLOTS_PER_WINDOW - 1
  }

  predicate IsStartOfWindow(slot: nat) {
    slot % SLOTS_PER_WINDOW == 0
  }

  function Max(a: nat, b: nat): nat {
    if a >= b then a else b
  }

  ghost predicate NoRepeats<T>(q: seq<T>) {
    forall i, j :: 0 <= i < j < |q| ==> q[i] != q[j]
  }

  lemma NoRepeatsJoin<T>(a: seq<T>, b: seq<T>)
    requires NoRepeats(a) && NoRepeats(b) && forall x :: x in a ==> x !in b
    ensures NoRepeats(a + b)
  {
    assert forall i :: 0 <= i < |a| ==> a[i] in a;
    assert forall i :: 0 <= i < |b| ==> b[i] in b;
  }

  // ---- 64-bit arithmetic ----

  const U64_MAX: nat := 0xFFFF_FFFF_FFFF_FFFF

  function Saturate(n: nat): nat {
    if n > U64_MAX then U64_MAX else n
  }

  function SaturatingAdd(a: nat, b: nat): nat {
    Saturate(a + b)
  }

  function WrappingAdd(a: nat, b: nat): nat {
    (a + b) % (U64_MAX + 1)
  }

  function WrappingSub(a: nat, b: nat): nat {
    (a - b) % (U64_MAX + 1)
  }

  function SaturatingSub(a: nat, b: nat): nat {
    if a < b then 0 else a - b
  }

  function Pow2(n: nat): (r: nat)
    ensures r > 0
  {
    if n == 0 then 1 else 2 * Pow2(n - 1)
  }
}
