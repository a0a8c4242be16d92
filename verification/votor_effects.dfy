/** What each event makes the voting process do, said without its handlers: which ballots are
    cast, which entries change and which timeouts are set
    (crates/karstflow-alpenglow/src/votor.rs). */
module VotorEffects {
  import opened Base
  import opened Certs
  import opened Sorted
  import opened VotorSpec
  import opened VotorInv
  import opened VotorRuns

  // ---- skipping a window ----

  /** Skip ballots for the slots without a first vote, in ascending order. */
  function Skips(st: State, from: nat, end: nat): seq<Ballot>
    requires from <= end
    decreases end - from
  {
    if from == end then []
    else (if st.At(from).voted then [] else [Skip(from)]) + Skips(st, from + 1, end)
  }

  lemma {:induction false} SkipsElements(st: State, from: nat, end: nat, b: Ballot)
    requires from <= end
    ensures b in Skips(st, from, end) <==> b.Skip? && from <= b.slot < end && !st.At(b.slot).voted
    decreases end - from
  {
    if from < end {
      SkipsElements(st, from + 1, end, b);
    }
  }

  lemma {:induction false} SkipsSame(st: State, u: State, from: nat, end: nat)
    requires from <= end && forall s :: from <= s < end ==> st.At(s).voted == u.At(s).voted
    ensures Skips(st, from, end) == Skips(u, from, end)
    decreases end - from
  {
    if from < end {
      SkipsSame(st, u, from + 1, end);
    }
  }

  lemma {:induction false} SkipRangeCasts(st: State, from: nat, end: nat)
    requires from <= end
    ensures SkipRange(st, from, end).cast == st.cast + Skips(st, from, end)
    ensures SkipRange(st, from, end).alarms == st.alarms
    decreases end - from
  {
    if from < end {
      var mid := SkipOne(st, from);
      SkipRangeCasts(mid, from + 1, end);
      assert forall s :: s != from ==> mid.At(s) == st.At(s);
      SkipsSame(st, mid, from + 1, end);
      var rest := Skips(st, from + 1, end);
      assert mid.cast == st.cast + if st.At(from).voted then [] else [Skip(from)];
      assert Skips(st, from, end) == (if st.At(from).voted then [] else [Skip(from)]) + rest;
    }
  }

  /** The window of a slot: every slot in it has a first vote, and those that had none are marked. */
  ghost predicate WindowSkipped(st: State, r: State, slot: nat) {
    forall s :: slot / 4 * 4 <= s < slot / 4 * 4 + 4 ==> r.At(s).voted && (!st.At(s).voted ==> r.At(s).badWindow)
  }

  lemma {:induction false} SkipRangeMarks(st: State, from: nat, end: nat, s: nat)
    requires from <= s < end
    ensures var r := SkipRange(st, from, end); r.At(s).voted && (!st.At(s).voted ==> r.At(s).badWindow)
    decreases end - from
  {
    if from < s {
      SkipRangeMarks(SkipOne(st, from), from + 1, end, s);
    } else {
      SkipRangeFrame(SkipOne(st, from), from + 1, end);
    }
  }

  lemma WindowCasts(st: State, slot: nat)
    requires slot >= st.FirstUnpruned()
    ensures var r, first := TrySkipWindow(st, slot), slot / 4 * 4;
      r.cast == st.cast + Skips(st, first, first + 4) && r.alarms == st.alarms && WindowSkipped(st, r, slot)
  {
    var first := slot / 4 * 4;
    SkipRangeCasts(st, first, first + 4);
    forall s | first <= s < first + 4
      ensures var r := TrySkipWindow(st, slot); r.At(s).voted && (!st.At(s).voted ==> r.At(s).badWindow)
    {
      SkipRangeMarks(st, first, first + 4, s);
    }
  }

  /** A timeout in a slot that is open and without a vote skips its window; a missing leader does
      so only if no shred came. Any other timeout changes nothing. */
  lemma TimeoutEffect(st: State, alarm: Alarm)
    requires st.Tidy()
    ensures var r, s := Step(st, Fired(alarm)), alarm.slot;
      if s > st.highest && !st.At(s).retired && !st.At(s).voted && (alarm.Timeout? || !st.At(s).receivedShred)
      then r.cast == st.cast + Skips(st, s / 4 * 4, s / 4 * 4 + 4) && r.alarms == st.alarms && WindowSkipped(st, r, s)
      else r == st
  {
    hide SkipRange;
    if alarm.slot > st.highest {
      WindowCasts(st, alarm.slot);
    }
  }

  /** An invalid block skips the window of an open slot, whether or not it has a vote. */
  lemma InvalidBlockEffect(st: State, s: nat)
    requires st.Tidy()
    ensures var r := Step(st, InvalidBlock(s));
      if s > st.highest && !st.At(s).retired
      then r.cast == st.cast + Skips(st, s / 4 * 4, s / 4 * 4 + 4) && r.alarms == st.alarms && WindowSkipped(st, r, s)
      else r == st
  {
    hide SkipRange;
    if s > st.highest {
      WindowCasts(st, s);
    }
  }

  /** A safe-to-notar or safe-to-skip event casts the fallback vote, skips the rest of the window
      and marks the slot, so that no final vote can follow. */
  lemma FallbackEffect(st: State, e: Event)
    requires st.Tidy() && (e.SafeToNotar? || e.SafeToSkip?)
    ensures var r := Step(st, e);
      var s := if e.SafeToNotar? then e.block.slot else e.slot;
      var b := if e.SafeToNotar? then NotarFallback(s, e.block.hash) else SkipFallback(s);
      if s >= st.highest / 4 * 4 && !st.At(s).retired
      then r.cast == st.cast + [b] + Skips(st, s / 4 * 4, s / 4 * 4 + 4) && r.alarms == st.alarms
        && WindowSkipped(st, r, s) && r.At(s).badWindow
      else r == st
  {
    hide Fallback, Skips, WindowSkipped;
    var s := if e.SafeToNotar? then e.block.slot else e.slot;
    if s >= st.highest / 4 * 4 && !st.At(s).retired {
      FallbackCasts(st, s, if e.SafeToNotar? then NotarFallback(s, e.block.hash) else SkipFallback(s));
    }
  }

  lemma FallbackCasts(st: State, s: nat, b: Ballot)
    requires s >= st.FirstUnpruned()
    ensures var r := Fallback(st, s, b);
      && r.cast == st.cast + [b] + Skips(st, s / 4 * 4, s / 4 * 4 + 4) && r.alarms == st.alarms
      && WindowSkipped(st, r, s) && r.At(s).badWindow
  {
    hide TrySkipWindow;
    var voted := st.Vote(b);
    assert forall x :: voted.At(x) == st.At(x);
    WindowCasts(voted, s);
    SkipsSame(st, voted, s / 4 * 4, s / 4 * 4 + 4);
    var skipped, r := TrySkipWindow(voted, s), Fallback(st, s, b);
    assert forall x :: x != s ==> r.At(x) == skipped.At(x);
    assert r.At(s) == skipped.At(s).(badWindow := true);
  }

  // ---- certificates ----

  /** The five timeouts of a window. */
  function WindowAlarms(s: nat): seq<Alarm> {
    [CrashedLeader(s), Timeout(s), Timeout(s + 1), Timeout(s + 2), Timeout(s + 3)]
  }

  lemma WindowIs(s: nat)
    requires IsStartOfWindow(s)
    ensures Window(s) == WindowAlarms(s)
  {
  }

  /** A notarization certificate is recorded, and leads to a final vote iff the block is the one
      voted for and the slot is unmarked. */
  lemma NotarCertEffect(st: State, c: Cert)
    requires st.Tidy() && c.NotarCert?
    ensures var r := Step(st, CertCreated(c));
      if c.slot < st.highest / 4 * 4 then r == st
      else
        var final := st.At(c.slot).votedNotar == Some(c.hash) && !st.At(c.slot).badWindow;
        && r.cast == st.cast + (if final then [Final(c.slot)] else [])
        && r.At(c.slot) == st.At(c.slot).(blockNotarized := Some(c.hash), retired := st.At(c.slot).retired || final)
        && r.alarms == st.alarms && forall s :: s != c.slot ==> r.At(s) == st.At(s)
  {
  }

  /** A final or fast-final certificate moves the highest final slot up, drops what lies below its
      window and sets the timeouts of the certificate's window. */
  lemma FinalCertEffect(st: State, c: Cert)
    requires st.Tidy() && (c.FinalCert? || c.FastFinalCert?)
    ensures var r := Step(st, CertCreated(c));
      if c.slot < st.highest / 4 * 4 then r == st
      else
        && r.highest == Max(st.highest, c.slot) && r.cast == st.cast
        && r.slots == (map s | s in st.slots && s >= r.highest / 4 * 4 :: st.slots[s])
        && r.alarms == st.alarms + WindowAlarms(c.slot / 4 * 4)
  {
    WindowIs(c.slot / 4 * 4);
  }

  /** Skip and fallback certificates are only passed on. */
  lemma OtherCertEffect(st: State, c: Cert)
    requires st.Tidy() && (c.SkipCert? || c.NotarFallbackCert?)
    ensures var r := Step(st, CertCreated(c));
      r == if c.slot < st.highest / 4 * 4 then st else st.(msgs := st.msgs + [CertMessage(c)])
  {
  }

  // ---- blocks and parents ----

  /** The block may be notarized: its parent is announced for the first slot of a window, or is the
      block voted for in the slot before. */
  ghost predicate ParentFits(st: State, s: nat, parent: BlockId) {
    if s % 4 == 0 then parent in st.At(s).parentsReady
    else parent.slot == s - 1 && st.At(s - 1).votedNotar == Some(parent.hash)
  }

  lemma PendingCast(st: State)
    requires st.Tidy()
    ensures st.cast <= CheckPending(st).cast && CheckPending(st).alarms == st.alarms
    ensures forall s :: CheckPending(st).At(s).parentsReady == st.At(s).parentsReady
  {
    PendingOfIsList(st);
    TryEachVotes(st, PendingOf(st.slots, Enumerate(st.slots.Keys)));
    TryEachCast(st, PendingOf(st.slots, Enumerate(st.slots.Keys)));
  }

  lemma {:induction false} TryEachCast(st: State, pending: seq<(nat, BlockId, BlockId)>)
    requires forall t :: t in pending ==> t.0 >= st.FirstUnpruned()
    ensures st.cast <= TryEach(st, pending).cast && TryEach(st, pending).alarms == st.alarms
    decreases |pending|
  {
    if pending != [] {
      var (slot, block, parent) := pending[0];
      assert pending[0] in pending;
      TryEachCast(TryNotar(st, slot, block, parent), pending[1..]);
    }
  }

  /** A block for an open slot without a vote is notarized at once if its parent fits, and is kept
      pending otherwise. */
  lemma BlockEffect(st: State, s: nat, block: BlockId, parent: BlockId)
    requires st.Tidy()
    ensures var r := Step(st, Block(s, block, parent));
      if s <= st.highest || st.At(s).retired || st.At(s).voted then r == st
      else if ParentFits(st, s, parent) then st.cast + [Notar(s, block.hash)] <= r.cast && r.alarms == st.alarms
      else r == st.Put(s, st.At(s).(pendingBlock := Some((block, parent))))
  {
    hide CheckPending;
    if s > st.highest && !st.At(s).retired && !st.At(s).voted && CanNotar(st, s, parent) {
      TidyAfterNotar(st, s, block, parent);
      PendingCast(TryNotar(st, s, block, parent));
    }
  }

  /** An announced parent is recorded and the timeouts of the window are set. */
  lemma ParentEffect(st: State, s: nat, parent: BlockId)
    requires st.Tidy() && IsStartOfWindow(s)
    ensures var r := Step(st, ParentReady(s, parent));
      if s < st.highest / 4 * 4 || st.At(s).retired then r == st
      else parent in r.At(s).parentsReady && st.cast <= r.cast && r.alarms == st.alarms + WindowAlarms(s)
  {
    hide CheckPending, Window;
    if s >= st.highest / 4 * 4 && !st.At(s).retired {
      var ready := AddReady(st, s, parent);
      WindowIs(s);
      PendingCast(ready);
      var checked := CheckPending(ready);
      assert parent in ready.At(s).parentsReady && checked.At(s).parentsReady == ready.At(s).parentsReady;
      assert SetTimeouts(checked, s).At(s) == checked.At(s);
    }
  }

  /** At the start the genesis block is voted for and closed, and the first window's timeouts are
      set. */
  lemma InitEffect(index: nat)
    ensures var st := Init(index);
      && st.index == index && st.highest == 0 && st.cast == [] && st.msgs == [] && st.alarms == WindowAlarms(0)
      && st.At(0).voted && st.At(0).retired && st.At(0).votedNotar == Some(0)
      && st.At(0).parentsReady == [BlockId(0, 0)]
      && forall s :: s > 0 ==> st.At(s) == FRESH
  {
    WindowIs(0);
  }

  /** A first shred is noted in an open slot. */
  lemma ShredEffect(st: State, s: nat)
    requires st.Tidy()
    ensures Step(st, FirstShred(s)) ==
      if s <= st.highest || st.At(s).retired then st else st.Put(s, st.At(s).(receivedShred := true))
  {
  }
}
