/** Which slots make up which epoch: epochs of 1, 2, 4, ... slots during warmup, then of
    equal length (crates/karstflow-consensus/src/epoch_schedule.rs). The code's arithmetic
    saturates at 64 bits; `First` and `Length` are the unbounded values it stands for. */
module EpochSchedules {
  import opened Base

  datatype Schedule = Schedule(
    slotsPerEpoch: nat,
    leaderOffset: nat,
    warmup: bool,
    firstNormalEpoch: nat,
    firstNormalSlot: nat)
  {
    predicate IsNormalSlot(slot: nat) {
      !warmup || slot >= firstNormalSlot
    }

    predicate IsNormalEpoch(epoch: nat) {
      !warmup || epoch >= firstNormalEpoch
    }

    /** The normal epochs start where the warmup ends: after 1 + 2 + ... slots, or at once. */
    ghost predicate Consistent() {
      && 0 < slotsPerEpoch <= U64_MAX && firstNormalSlot <= U64_MAX
      && (if warmup then firstNormalEpoch <= 64 && firstNormalSlot == Pow2(firstNormalEpoch) - 1
          else firstNormalEpoch == 0 && firstNormalSlot == 0)
    }

    ghost function Length(epoch: nat): nat {
      if IsNormalEpoch(epoch) then slotsPerEpoch else Pow2(epoch)
    }

    ghost function First(epoch: nat): nat
      requires Consistent()
    {
      if IsNormalEpoch(epoch) then firstNormalSlot + (epoch - firstNormalEpoch) * slotsPerEpoch else Pow2(epoch) - 1
    }

    function SlotsInEpoch(epoch: nat): nat {
      if IsNormalEpoch(epoch) then slotsPerEpoch else Saturate(Pow2(if epoch < 63 then epoch else 63))
    }

    /** The slots of the epochs before, added up with saturation. */
    ghost function Sum(epoch: nat): nat {
      if epoch == 0 then 0 else SaturatingAdd(Sum(epoch - 1), SlotsInEpoch(epoch - 1))
    }

    method EpochSlow(slot: nat) returns (epoch: nat)
      requires slotsPerEpoch > 0 && slot < U64_MAX
      ensures Sum(epoch) <= slot < Sum(epoch + 1)
    {
      epoch := 0;
      var index := 0;
      while SaturatingAdd(index, SlotsInEpoch(epoch)) <= slot
        invariant index == Sum(epoch) && epoch <= index <= slot
        decreases slot - index
      {
        index := SaturatingAdd(index, SlotsInEpoch(epoch));
        epoch := SaturatingAdd(epoch, 1);
      }
    }

    method FirstSlotSlow(epoch: nat) returns (slot: nat)
      ensures slot == Sum(epoch)
    {
      slot := 0;
      for e := 0 to epoch
        invariant slot == Sum(e)
      {
        slot := SaturatingAdd(slot, SlotsInEpoch(e));
      }
    }

    /** The one epoch a slot is in. */
    method Epoch(slot: nat) returns (epoch: nat)
      requires Consistent() && slot <= U64_MAX
      ensures First(epoch) <= slot < First(epoch + 1)
    {
      if IsNormalSlot(slot) {
        var index := SaturatingSub(slot, firstNormalSlot);
        NormalEpoch(this, index);
        epoch := SaturatingAdd(firstNormalEpoch, index / slotsPerEpoch);
      } else {
        epoch := EpochSlow(slot);
        SlowEpoch(this, slot, epoch);
      }
    }

    method EpochAndIndex(slot: nat) returns (epoch: nat, index: nat)
      requires Consistent() && slot <= U64_MAX
      ensures slot == First(epoch) + index && index < SlotsInEpoch(epoch)
    {
      if IsNormalSlot(slot) {
        var normal := SaturatingSub(slot, firstNormalSlot);
        NormalEpoch(this, normal);
        epoch := SaturatingAdd(firstNormalEpoch, normal / slotsPerEpoch);
        index := normal % slotsPerEpoch;
      } else {
        epoch := EpochSlow(slot);
        SlowEpoch(this, slot, epoch);
        Adjacent(this, epoch);
        var first := FirstSlot(epoch);
        index := SaturatingSub(slot, first);
      }
    }

    method FirstSlot(epoch: nat) returns (slot: nat)
      requires Consistent()
      ensures slot == Saturate(First(epoch))
    {
      if IsNormalEpoch(epoch) {
        slot := SaturatingAdd(firstNormalSlot, Saturate(SaturatingSub(epoch, firstNormalEpoch) * slotsPerEpoch));
      } else {
        slot := FirstSlotSlow(epoch);
        SumIsClosedForm(this, epoch);
      }
    }

    /** The slot before the next epoch, as long as that one starts within 64 bits. */
    method LastSlot(epoch: nat) returns (slot: nat)
      requires Consistent() && epoch <= U64_MAX
      ensures First(epoch + 1) <= U64_MAX ==> slot == First(epoch) + Length(epoch) - 1
      ensures First(epoch + 1) > U64_MAX ==> slot == U64_MAX - 1
    {
      Adjacent(this, epoch);
      FirstAtLeast(this, epoch);
      var next := FirstSlot(SaturatingAdd(epoch, 1));
      slot := SaturatingSub(next, 1);
    }

    method LeaderScheduleEpoch(slot: nat) returns (epoch: nat)
      requires Consistent() && slot <= U64_MAX
      ensures First(epoch) <= SaturatingSub(slot, leaderOffset) < First(epoch + 1)
    {
      if slot < leaderOffset {
        FirstIsZero(this);
        return 0;
      }
      epoch := Epoch(SaturatingSub(slot, leaderOffset));
    }
  }

  // ---- warmup ----

  lemma {:induction false} Pow2Grows(m: nat, n: nat)
    requires m <= n
    ensures Pow2(m) <= Pow2(n) && n < Pow2(n)
    decreases n
  {
    if n > 0 {
      Pow2Grows(if m < n then m else n - 1, n - 1);
    }
  }

  /** During warmup nothing saturates. */
  lemma WarmupLength(c: Schedule, e: nat)
    requires c.Consistent() && !c.IsNormalEpoch(e)
    ensures c.SlotsInEpoch(e) == Pow2(e) && Pow2(e + 1) - 1 <= c.firstNormalSlot
  {
    Pow2Grows(e + 1, c.firstNormalEpoch);
  }

  lemma {:induction false} SumIsPower(c: Schedule, e: nat)
    requires c.Consistent() && c.warmup && e <= c.firstNormalEpoch
    ensures c.Sum(e) == Pow2(e) - 1
  {
    if e > 0 {
      SumIsPower(c, e - 1);
      WarmupLength(c, e - 1);
    }
  }

  /** The loops compute 2^e - 1 up to and including the first normal epoch, where they
      meet the direct formula. */
  lemma SumIsClosedForm(c: Schedule, e: nat)
    requires c.Consistent() && c.warmup && e <= c.firstNormalEpoch
    ensures c.Sum(e) == c.First(e)
    ensures e == c.firstNormalEpoch ==> c.Sum(e) == c.firstNormalSlot
  {
    SumIsPower(c, e);
    hide Pow2;
    assert 0 * c.slotsPerEpoch == 0;
  }

  /** The slow loop stops at the epoch of the slot. */
  lemma SlowEpoch(c: Schedule, slot: nat, e: nat)
    requires c.Consistent() && !c.IsNormalSlot(slot) && c.Sum(e) <= slot < c.Sum(e + 1)
    ensures !c.IsNormalEpoch(e) && c.First(e) <= slot < c.First(e + 1)
  {
    if c.IsNormalEpoch(e) {
      SumIsClosedForm(c, c.firstNormalEpoch);
      SumGrows(c, c.firstNormalEpoch, e);
    } else {
      SumIsClosedForm(c, e);
      SumIsClosedForm(c, e + 1);
    }
  }

  lemma {:induction false} SumGrows(c: Schedule, d: nat, e: nat)
    requires d <= e && c.Sum(d) <= U64_MAX
    ensures c.Sum(d) <= c.Sum(e)
  {
    if d < e {
      SumGrows(c, d, e - 1);
    }
  }

  // ---- the partition ----

  lemma FirstIsZero(c: Schedule)
    requires c.Consistent()
    ensures c.First(0) == 0 < c.First(1)
  {
  }

  /** Each epoch ends where the next begins, and the code's epoch lengths are the exact ones. */
  lemma Adjacent(c: Schedule, e: nat)
    requires c.Consistent()
    ensures c.First(e + 1) == c.First(e) + c.Length(e) && c.Length(e) > 0
    ensures c.SlotsInEpoch(e) == c.Length(e)
  {
    if c.IsNormalEpoch(e) {
      Distribute(e - c.firstNormalEpoch, c.slotsPerEpoch);
    } else {
      WarmupLength(c, e);
    }
  }

  lemma Distribute(k: nat, n: nat)
    ensures (k + 1) * n == k * n + n
  {
  }

  lemma {:induction false} FirstGrows(c: Schedule, d: nat, e: nat)
    requires c.Consistent() && d <= e
    ensures c.First(d) <= c.First(e)
  {
    if d < e {
      FirstGrows(c, d, e - 1);
      Adjacent(c, e - 1);
    }
  }

  lemma {:induction false} FirstAtLeast(c: Schedule, e: nat)
    requires c.Consistent()
    ensures e <= c.First(e)
  {
    if e > 0 {
      FirstAtLeast(c, e - 1);
      Adjacent(c, e - 1);
    }
  }

  /** A slot is in one epoch only. */
  lemma EpochUnique(c: Schedule, slot: nat, d: nat, e: nat)
    requires c.Consistent()
    requires c.First(d) <= slot < c.First(d + 1) && c.First(e) <= slot < c.First(e + 1)
    ensures d == e
  {
    if d < e {
      FirstGrows(c, d + 1, e);
    } else if e < d {
      FirstGrows(c, e + 1, d);
    }
  }

  /** Any slot of an epoch leads back to that epoch. */
  lemma EpochRoundTrip(c: Schedule, e: nat, index: nat, found: nat)
    requires c.Consistent() && index < c.Length(e)
    requires c.First(found) <= c.First(e) + index < c.First(found + 1)
    ensures found == e
  {
    Adjacent(c, e);
    EpochUnique(c, c.First(e) + index, found, e);
  }

  lemma AtLeast(q: nat, n: nat)
    requires n > 0
    ensures q <= q * n
  {
  }

  /** A normal epoch and a place in it. */
  lemma NormalSlot(c: Schedule, q: nat, r: nat)
    requires c.Consistent() && r < c.slotsPerEpoch && c.firstNormalSlot + q * c.slotsPerEpoch + r <= U64_MAX
    ensures var e := c.firstNormalEpoch + q;
      && e <= U64_MAX && c.IsNormalEpoch(e) && c.First(e) == c.firstNormalSlot + q * c.slotsPerEpoch
      && c.First(e + 1) == c.First(e) + c.slotsPerEpoch
  {
    Adjacent(c, c.firstNormalEpoch + q);
    Pow2Grows(0, c.firstNormalEpoch);
    AtLeast(q, c.slotsPerEpoch);
  }

  /** The direct formula finds the epoch of a normal slot, without saturating. */
  lemma NormalEpoch(c: Schedule, index: nat)
    requires c.Consistent() && c.firstNormalSlot + index <= U64_MAX
    ensures var e := c.firstNormalEpoch + index / c.slotsPerEpoch;
      && e <= U64_MAX && c.IsNormalEpoch(e) && c.First(e) <= c.firstNormalSlot + index < c.First(e + 1)
      && c.firstNormalSlot + index == c.First(e) + index % c.slotsPerEpoch
  {
    hide Schedule.First, Schedule.Consistent, Schedule.IsNormalEpoch;
    var n := c.slotsPerEpoch;
    assert n > 0 by {
      Positive(c);
    }
    assert index == index / n * n + index % n;
    NormalSlot(c, index / n, index % n);
  }

  lemma Positive(c: Schedule)
    requires c.Consistent()
    ensures c.slotsPerEpoch > 0
  {
  }
}
