/** Two further facts about every run: a notar vote follows a skip vote only for the
    block that was pending when the skip was cast, and between events no pending
    block meets the conditions for a notar vote. */
module VotorRuns {
  import opened Base
  import opened Certs
  import opened Sorted
  import opened VotorSpec
  import opened VotorInv

  // ---- notar after skip ----

  /** Slot `s` was skipped while `p` was its pending block: only that block may still
      be notarized, and no other block can become pending. */
  ghost predicate AfterSkip(st: State, s: nat, p: Option<(BlockId, BlockId)>) {
    && (forall h :: Notar(s, h) in st.cast ==> p.Some? && p.value.0.hash == h)
    && (s >= st.FirstUnpruned() ==> st.At(s).voted && (st.At(s).pendingBlock.None? || st.At(s).pendingBlock == p))
  }

  lemma TryNotarAfterSkip(st: State, slot: nat, block: BlockId, parent: BlockId, s: nat, p: Option<(BlockId, BlockId)>)
    requires AfterSkip(st, s, p) && slot >= st.FirstUnpruned()
    requires slot == s ==> st.At(s).pendingBlock == Some((block, parent))
    ensures AfterSkip(TryNotar(st, slot, block, parent), s, p)
  {
  }

  lemma {:induction false} TryEachAfterSkip(st: State, pending: seq<(nat, BlockId, BlockId)>, s: nat,
                                            p: Option<(BlockId, BlockId)>)
    requires AfterSkip(st, s, p) && PendingList(st, pending)
    ensures AfterSkip(TryEach(st, pending), s, p)
    decreases |pending|
  {
    if pending != [] {
      var (slot, block, parent) := pending[0];
      assert pending[0] in pending;
      TryNotarAfterSkip(st, slot, block, parent, s, p);
      TryNotarFrame(st, slot, block, parent);
      PendingListTail(st, pending);
      TryEachAfterSkip(TryNotar(st, slot, block, parent), pending[1..], s, p);
    }
  }

  lemma CheckPendingAfterSkip(st: State, s: nat, p: Option<(BlockId, BlockId)>)
    requires st.Tidy() && AfterSkip(st, s, p)
    ensures AfterSkip(CheckPending(st), s, p)
  {
    PendingOfIsList(st);
    TryEachAfterSkip(st, PendingOf(st.slots, Enumerate(st.slots.Keys)), s, p);
  }

  lemma {:induction false} SkipRangeAfterSkip(st: State, from: nat, end: nat, s: nat, p: Option<(BlockId, BlockId)>)
    requires from <= end && AfterSkip(st, s, p)
    ensures AfterSkip(SkipRange(st, from, end), s, p)
    decreases end - from
  {
    if from < end {
      SkipRangeAfterSkip(SkipOne(st, from), from + 1, end, s, p);
    }
  }

  lemma FallbackAfterSkip(st: State, slot: nat, b: Ballot, s: nat, p: Option<(BlockId, BlockId)>)
    requires slot >= st.FirstUnpruned() && !b.Notar? && AfterSkip(st, s, p)
    ensures AfterSkip(Fallback(st, slot, b), s, p)
  {
    SkipRangeAfterSkip(st.Vote(b), FirstSlotInWindow(slot), LastSlotInWindow(slot) + 1, s, p);
    SkipRangeFrame(st.Vote(b), FirstSlotInWindow(slot), LastSlotInWindow(slot) + 1);
  }

  lemma HandleCertAfterSkip(st: State, cert: Cert, s: nat, p: Option<(BlockId, BlockId)>)
    requires cert.slot >= st.FirstUnpruned() && AfterSkip(st, s, p)
    ensures AfterSkip(HandleCert(st, cert), s, p)
  {
  }

  lemma OnBlockAfterSkip(st: State, slot: nat, block: BlockId, parent: BlockId, s: nat, p: Option<(BlockId, BlockId)>)
    requires st.Tidy() && slot >= st.FirstUnpruned() && AfterSkip(st, s, p)
    ensures AfterSkip(OnBlock(st, slot, block, parent), s, p)
  {
    if !st.At(slot).voted && CanNotar(st, slot, parent) {
      TryNotarAfterSkip(st, slot, block, parent, s, p);
      CheckPendingAfterSkip(TryNotar(st, slot, block, parent), s, p);
    }
  }

  lemma AlarmsAfterSkip(st: State, slot: nat, s: nat, p: Option<(BlockId, BlockId)>)
    requires IsStartOfWindow(slot) && AfterSkip(st, s, p)
    ensures AfterSkip(SetTimeouts(st, slot), s, p)
  {
  }

  lemma AddReadyAfterSkip(st: State, slot: nat, parent: BlockId, s: nat, p: Option<(BlockId, BlockId)>)
    requires st.Tidy() && slot >= st.FirstUnpruned() && AfterSkip(st, s, p)
    ensures AfterSkip(AddReady(st, slot, parent), s, p) && AddReady(st, slot, parent).Tidy()
  {
  }

  lemma ParentReadyAfterSkip(st: State, slot: nat, parent: BlockId, s: nat, p: Option<(BlockId, BlockId)>)
    requires st.Tidy() && slot >= st.FirstUnpruned() && IsStartOfWindow(slot) && AfterSkip(st, s, p)
    ensures AfterSkip(SetTimeouts(CheckPending(AddReady(st, slot, parent)), slot), s, p)
  {
    AddReadyAfterSkip(st, slot, parent, s, p);
    CheckPendingAfterSkip(AddReady(st, slot, parent), s, p);
    AlarmsAfterSkip(CheckPending(AddReady(st, slot, parent)), slot, s, p);
  }

  lemma TrySkipWindowAfterSkip(st: State, slot: nat, s: nat, p: Option<(BlockId, BlockId)>)
    requires slot >= st.FirstUnpruned() && AfterSkip(st, s, p)
    ensures AfterSkip(TrySkipWindow(st, slot), s, p)
  {
    SkipRangeAfterSkip(st, FirstSlotInWindow(slot), LastSlotInWindow(slot) + 1, s, p);
  }

  lemma StepAfterSkip(st: State, e: Event, s: nat, p: Option<(BlockId, BlockId)>)
    requires st.Tidy() && ValidEvent(e) && AfterSkip(st, s, p)
    ensures AfterSkip(Step(st, e), s, p)
  {
    if !Ignored(st, e) {
      match e
      case ParentReady(slot, parent) => ParentReadyAfterSkip(st, slot, parent, s, p);
      case SafeToNotar(b) => FallbackAfterSkip(st, b.slot, NotarFallback(b.slot, b.hash), s, p);
      case SafeToSkip(slot) => FallbackAfterSkip(st, slot, SkipFallback(slot), s, p);
      case CertCreated(cert) => HandleCertAfterSkip(st, cert, s, p);
      case Standstill(_) =>
      case FirstShred(_) =>
      case InvalidBlock(slot) => TrySkipWindowAfterSkip(st, slot, s, p);
      case Block(slot, block, parent) => OnBlockAfterSkip(st, slot, block, parent, s, p);
      case Fired(alarm) => TrySkipWindowAfterSkip(st, alarm.slot, s, p);
    }
  }

  lemma AtSkip(st: State, seen: seq<Event>, parents: Parents, s: nat)
    requires Inv(st, seen, parents) && Skip(s) in st.cast
    requires forall h :: Notar(s, h) !in st.cast
    ensures AfterSkip(st, s, st.At(s).pendingBlock)
  {
  }

  lemma RunStep(index: nat, events: seq<Event>, parents: Parents)
    requires events != [] && Admissible(events, parents)
    ensures var front := events[..|events| - 1];
      Run(index, events, parents) == Step(Run(index, front, parents), events[|events| - 1])
  {
  }

  /** In any run, a notar vote cast for a slot after its skip vote is for the block that
      was pending in the state in which the skip was already cast. */
  lemma {:induction false} NotarAfterSkip(index: nat, events: seq<Event>, k: nat, parents: Parents, s: nat)
    requires k <= |events| && Admissible(events, parents)
    requires Skip(s) in Run(index, events[..k], parents).cast
    requires forall h :: Notar(s, h) !in Run(index, events[..k], parents).cast
    ensures AfterSkip(Run(index, events, parents), s, Run(index, events[..k], parents).At(s).pendingBlock)
    decreases |events|
  {
    hide AfterSkip, Step, Discipline;
    if k == |events| {
      assert events[..k] == events;
      AtSkip(Run(index, events, parents), events, parents, s);
    } else {
      var front := events[..|events| - 1];
      assert front[..k] == events[..k];
      NotarAfterSkip(index, front, k, parents, s);
      var p := Run(index, events[..k], parents).At(s).pendingBlock;
      StepAfterSkip(Run(index, front, parents), events[|events| - 1], s, p);
      RunStep(index, events, parents);
    }
  }

  // ---- no vote is forgotten ----

  lemma {:induction false} SkipRangeVotes(st: State, s: nat, end: nat)
    requires s <= end
    ensures forall b :: b in st.cast ==> b in SkipRange(st, s, end).cast
    ensures forall x :: s <= x < end && !st.At(x).voted ==> Skip(x) in SkipRange(st, s, end).cast
    ensures forall x: nat :: !(s <= x < end) ==> SkipRange(st, s, end).At(x) == st.At(x)
    decreases end - s
  {
    if s < end {
      SkipRangeVotes(SkipOne(st, s), s + 1, end);
    }
  }

  /** A pass over pending blocks forgets no vote, and either votes for a listed block or
      leaves it pending. */
  lemma {:induction false} TryEachVotes(st: State, pending: seq<(nat, BlockId, BlockId)>)
    requires PendingList(st, pending)
    ensures forall b :: b in st.cast ==> b in TryEach(st, pending).cast
    ensures forall x :: TryEach(st, pending).At(x).parentsReady == st.At(x).parentsReady
    ensures forall x :: st.At(x).pendingBlock.Some? ==>
      || TryEach(st, pending).At(x).pendingBlock == st.At(x).pendingBlock
      || Notar(x, st.At(x).pendingBlock.value.0.hash) in TryEach(st, pending).cast
    decreases |pending|
  {
    if pending != [] {
      var (slot, block, parent) := pending[0];
      assert pending[0] in pending;
      TryNotarFrame(st, slot, block, parent);
      PendingListTail(st, pending);
      TryEachVotes(TryNotar(st, slot, block, parent), pending[1..]);
    }
  }

  ghost predicate KeepsCast(st: State, r: State) {
    forall b :: b in st.cast ==> b in r.cast
  }

  lemma CheckPendingCast(st: State)
    requires st.Tidy()
    ensures KeepsCast(st, CheckPending(st))
  {
    PendingOfIsList(st);
    TryEachVotes(st, PendingOf(st.slots, Enumerate(st.slots.Keys)));
  }

  lemma SkipWindowCast(st: State, slot: nat)
    requires slot >= st.FirstUnpruned()
    ensures KeepsCast(st, TrySkipWindow(st, slot))
  {
    SkipRangeVotes(st, FirstSlotInWindow(slot), LastSlotInWindow(slot) + 1);
  }

  lemma FallbackCast(st: State, slot: nat, b: Ballot)
    requires slot >= st.FirstUnpruned()
    ensures KeepsCast(st, Fallback(st, slot, b))
  {
    SkipWindowCast(st.Vote(b), slot);
  }

  lemma BlockCast(st: State, slot: nat, block: BlockId, parent: BlockId)
    requires st.Tidy() && slot >= st.FirstUnpruned()
    ensures KeepsCast(st, OnBlock(st, slot, block, parent))
  {
    if !st.At(slot).voted && CanNotar(st, slot, parent) {
      TidyAfterNotar(st, slot, block, parent);
      CheckPendingCast(TryNotar(st, slot, block, parent));
    }
  }

  lemma StepCast(st: State, e: Event)
    requires st.Tidy() && ValidEvent(e)
    ensures KeepsCast(st, Step(st, e))
  {
    if !Ignored(st, e) {
      match e
      case ParentReady(slot, parent) => CheckPendingCast(AddReady(st, slot, parent));
      case SafeToNotar(b) => FallbackCast(st, b.slot, NotarFallback(b.slot, b.hash));
      case SafeToSkip(slot) => FallbackCast(st, slot, SkipFallback(slot));
      case CertCreated(_) =>
      case Standstill(_) =>
      case FirstShred(_) =>
      case InvalidBlock(slot) => SkipWindowCast(st, slot);
      case Block(slot, block, parent) => BlockCast(st, slot, block, parent);
      case Fired(alarm) => SkipWindowCast(st, alarm.slot);
    }
  }

  /** Skipping adds skip votes for unvoted slots of the range only. */
  lemma {:induction false} SkipRangeOnly(st: State, from: nat, end: nat, b: Ballot)
    requires from <= end && b in SkipRange(st, from, end).cast
    ensures b in st.cast || (b.Skip? && from <= b.slot < end && !st.At(b.slot).voted)
    decreases end - from
  {
    if from < end {
      SkipRangeOnly(SkipOne(st, from), from + 1, end, b);
    }
  }

  lemma {:induction false} TryEachOnly(st: State, pending: seq<(nat, BlockId, BlockId)>, b: Ballot)
    requires PendingList(st, pending) && b in TryEach(st, pending).cast
    ensures b in st.cast || b.Notar? || b.Final?
    decreases |pending|
  {
    if pending != [] {
      var (slot, block, parent) := pending[0];
      assert pending[0] in pending;
      TryNotarFrame(st, slot, block, parent);
      PendingListTail(st, pending);
      TryEachOnly(TryNotar(st, slot, block, parent), pending[1..], b);
    }
  }

  lemma CheckPendingOnly(st: State, b: Ballot)
    requires st.Tidy() && b in CheckPending(st).cast
    ensures b in st.cast || b.Notar? || b.Final?
  {
    PendingOfIsList(st);
    TryEachOnly(st, PendingOf(st.slots, Enumerate(st.slots.Keys)), b);
  }

  /** The events that skip. */
  predicate Skips(e: Event) {
    e.SafeToNotar? || e.SafeToSkip? || e.InvalidBlock? || e.Fired?
  }

  /** Only skipping events cast skip votes, for unvoted slots, and those cast no notar vote. */
  lemma StepNews(st: State, e: Event, b: Ballot)
    requires st.Tidy() && ValidEvent(e) && b in Step(st, e).cast && b !in st.cast
    ensures b.Skip? ==> Skips(e) && b.slot >= st.FirstUnpruned() && !st.At(b.slot).voted
    ensures b.Notar? ==> !Skips(e)
  {
    hide SkipRange, CheckPending;
    match e
    case ParentReady(slot, parent) => CheckPendingOnly(AddReady(st, slot, parent), b);
    case SafeToNotar(x) => FallbackNews(st, x.slot, NotarFallback(x.slot, x.hash), b);
    case SafeToSkip(slot) => FallbackNews(st, slot, SkipFallback(slot), b);
    case InvalidBlock(slot) => SkipRangeOnly(st, FirstSlotInWindow(slot), LastSlotInWindow(slot) + 1, b);
    case Block(slot, block, parent) =>
      if CanNotar(st, slot, parent) {
        TidyAfterNotar(st, slot, block, parent);
        CheckPendingOnly(TryNotar(st, slot, block, parent), b);
      }
    case Fired(alarm) => SkipRangeOnly(st, FirstSlotInWindow(alarm.slot), LastSlotInWindow(alarm.slot) + 1, b);
    case _ =>
  }

  lemma FallbackNews(st: State, slot: nat, f: Ballot, b: Ballot)
    requires slot >= st.FirstUnpruned() && (f.NotarFallback? || f.SkipFallback?)
    requires b in Fallback(st, slot, f).cast && b !in st.cast
    ensures b == f || (b.Skip? && b.slot >= st.FirstUnpruned() && !st.At(b.slot).voted)
  {
    SkipRangeOnly(st.Vote(f), FirstSlotInWindow(slot), LastSlotInWindow(slot) + 1, b);
  }

  /** No single event casts both a skip and a notar vote for a slot, and none casts a skip vote
      for a slot that has a notar vote. */
  lemma OneKindPerEvent(st: State, e: Event, seen: seq<Event>, parents: Parents, s: nat, h: BlockHash)
    requires Inv(st, seen, parents) && ValidEvent(e)
    requires Skip(s) in Step(st, e).cast && Notar(s, h) in Step(st, e).cast
    ensures Skip(s) in st.cast
  {
    if Skip(s) !in st.cast {
      StepNews(st, e, Skip(s));
      if Notar(s, h) !in st.cast {
        StepNews(st, e, Notar(s, h));
      }
    }
  }

  /** Whenever a run casts both a skip and a notar vote for a slot, the skip came first, in an
      event of its own, and the notar vote is for the block that was pending then. */
  lemma {:induction false} MixedVotesInOrder(index: nat, events: seq<Event>, parents: Parents, s: nat, h: BlockHash)
    returns (k: nat)
    requires Admissible(events, parents)
    requires Skip(s) in Run(index, events, parents).cast && Notar(s, h) in Run(index, events, parents).cast
    ensures k < |events| && Skip(s) in Run(index, events[..k], parents).cast
    ensures forall g :: Notar(s, g) !in Run(index, events[..k], parents).cast
    ensures var p := Run(index, events[..k], parents).At(s).pendingBlock; p.Some? && p.value.0.hash == h
    decreases |events|
  {
    hide Step, AfterSkip;
    EmptyCast(index, events, parents);
    var last := |events| - 1;
    var front := events[..last];
    var before := Run(index, front, parents);
    RunStep(index, events, parents);
    OneKindPerEvent(before, events[last], front, parents, s, h);
    if g: BlockHash :| Notar(s, g) in before.cast {
      StepCast(before, events[last]);
      OneNotarPerSlot(Run(index, events, parents).cast, s, g, h);
      k := MixedVotesInOrder(index, front, parents, s, h);
      assert front[..k] == events[..k];
    } else {
      k := last;
      NotarAfterSkip(index, events, k, parents, s);
      PendingNamed(Run(index, events, parents), s, before.At(s).pendingBlock, h);
    }
  }

  lemma EmptyCast(index: nat, events: seq<Event>, parents: Parents)
    requires Admissible(events, parents)
    ensures events == [] ==> Run(index, events, parents).cast == []
  {
  }

  lemma PendingNamed(st: State, s: nat, p: Option<(BlockId, BlockId)>, h: BlockHash)
    requires AfterSkip(st, s, p) && Notar(s, h) in st.cast
    ensures p.Some? && p.value.0.hash == h
  {
  }

  lemma OneNotarPerSlot(cast: seq<Ballot>, s: nat, g: BlockHash, h: BlockHash)
    requires FirstVoteOnce(cast) && Notar(s, g) in cast && Notar(s, h) in cast
    ensures g == h
  {
  }

  // ---- quiescence ----

  /** No pending block meets the conditions for a notar vote. */
  ghost predicate Quiet(st: State) {
    forall s :: s in st.slots && st.slots[s].pendingBlock.Some? ==> !CanNotar(st, s, st.slots[s].pendingBlock.value.1)
  }

  ghost predicate Listed(pending: seq<(nat, BlockId, BlockId)>, s: nat) {
    exists t :: t in pending && t.0 == s
  }

  /** Every pending block is still to be tried, or blocked and below everything to be tried. */
  ghost predicate Covered(st: State, pending: seq<(nat, BlockId, BlockId)>) {
    forall s :: s in st.slots && st.slots[s].pendingBlock.Some? ==>
      || Listed(pending, s)
      || (!CanNotar(st, s, st.slots[s].pendingBlock.value.1) && forall t :: t in pending ==> s < t.0)
  }

  lemma CoveredTail(st: State, pending: seq<(nat, BlockId, BlockId)>)
    requires pending != [] && PendingList(st, pending) && Covered(st, pending)
    ensures pending[0] in pending
    ensures Covered(TryNotar(st, pending[0].0, pending[0].1, pending[0].2), pending[1..])
  {
    var (k, block, parent) := pending[0];
    assert pending[0] in pending;
    var r := TryNotar(st, k, block, parent);
    TryNotarFrame(st, k, block, parent);
    forall t | t in pending[1..]
      ensures t in pending && k < t.0
    {
      var i :| 0 <= i < |pending[1..]| && pending[1..][i] == t;
      assert pending[i + 1] == t;
    }
    forall s | s in r.slots && r.slots[s].pendingBlock.Some? && !Listed(pending[1..], s)
      ensures !CanNotar(r, s, r.slots[s].pendingBlock.value.1) && forall t :: t in pending[1..] ==> s < t.0
    {
      assert r.At(s).pendingBlock == st.At(s).pendingBlock;
      if s == k {
        assert !CanNotar(st, k, parent);
        assert r == st;
      } else {
        assert forall t :: t in pending ==> t == pending[0] || t in pending[1..];
        assert !Listed(pending, s);
        assert s < k;
      }
    }
  }

  lemma {:induction false} TryEachQuiet(st: State, pending: seq<(nat, BlockId, BlockId)>)
    requires PendingList(st, pending) && Covered(st, pending)
    ensures Quiet(TryEach(st, pending))
    decreases |pending|
  {
    if pending != [] {
      CoveredTail(st, pending);
      PendingListTail(st, pending);
      TryEachQuiet(TryNotar(st, pending[0].0, pending[0].1, pending[0].2), pending[1..]);
    }
  }

  /** One ascending pass over the pending blocks reaches the fixpoint. */
  lemma CheckPendingQuiet(st: State)
    requires st.Tidy()
    ensures Quiet(CheckPending(st))
  {
    PendingOfIsList(st);
    PendingOfElements(st.slots, Enumerate(st.slots.Keys));
    var pending := PendingOf(st.slots, Enumerate(st.slots.Keys));
    forall s | s in st.slots && st.slots[s].pendingBlock.Some?
      ensures Listed(pending, s)
    {
      assert (s, st.slots[s].pendingBlock.value.0, st.slots[s].pendingBlock.value.1) in pending;
    }
    TryEachQuiet(st, pending);
  }

  /** Steps that touch neither votes, parents nor pending blocks keep quiet states quiet. */
  lemma QuietCarries(st: State, r: State)
    requires Quiet(st)
    requires forall s :: s in r.slots ==>
      && r.At(s).pendingBlock == st.At(s).pendingBlock
      && r.At(s).parentsReady == st.At(s).parentsReady
      && r.At(s).votedNotar == st.At(s).votedNotar
    requires forall s :: s in r.slots && s != FirstSlotInWindow(s) ==> r.At(s - 1).votedNotar == st.At(s - 1).votedNotar
    ensures Quiet(r)
  {
  }

  lemma {:induction false} SkipRangeQuiet(st: State, s: nat, end: nat)
    requires s <= end && Quiet(st)
    ensures Quiet(SkipRange(st, s, end))
  {
    SkipRangeFrame(st, s, end);
    var r := SkipRange(st, s, end);
    forall x: nat
      ensures r.At(x).pendingBlock == st.At(x).pendingBlock
      ensures r.At(x).parentsReady == st.At(x).parentsReady
      ensures r.At(x).votedNotar == st.At(x).votedNotar
    {
      var a, b := r.At(x).(voted := true, badWindow := true), st.At(x).(voted := true, badWindow := true);
      assert a == b;
      assert a.pendingBlock == r.At(x).pendingBlock && b.pendingBlock == st.At(x).pendingBlock;
    }
    QuietCarries(st, r);
  }

  lemma FallbackQuiet(st: State, slot: nat, b: Ballot)
    requires slot >= st.FirstUnpruned() && Quiet(st)
    ensures Quiet(Fallback(st, slot, b))
  {
    QuietCarries(st, st.Vote(b));
    var skipped := TrySkipWindow(st.Vote(b), slot);
    SkipRangeQuiet(st.Vote(b), FirstSlotInWindow(slot), LastSlotInWindow(slot) + 1);
    QuietCarries(skipped, Fallback(st, slot, b));
  }

  lemma HandleCertQuiet(st: State, cert: Cert)
    requires cert.slot >= st.FirstUnpruned() && Quiet(st)
    ensures Quiet(HandleCert(st, cert))
  {
    var r := HandleCert(st, cert);
    if cert.FinalCert? || cert.FastFinalCert? {
      PruneQuiet(st, SetTimeouts(st, FirstSlotInWindow(cert.slot)).(highest := Max(st.highest, cert.slot)));
      QuietCarries(Prune(SetTimeouts(st, FirstSlotInWindow(cert.slot)).(highest := Max(st.highest, cert.slot))), r);
    } else {
      hide Quiet;
      QuietCarries(st, r);
    }
  }

  lemma PruneQuiet(st: State, raised: State)
    requires Quiet(st) && raised.slots == st.slots
    ensures Quiet(Prune(raised))
  {
    var r := Prune(raised);
    forall s | s in r.slots && s != FirstSlotInWindow(s)
      ensures r.At(s - 1).votedNotar == st.At(s - 1).votedNotar
    {
      assert s - 1 >= r.FirstUnpruned();
    }
    QuietCarries(st, r);
  }

  lemma OnBlockQuiet(st: State, slot: nat, block: BlockId, parent: BlockId)
    requires st.Tidy() && slot >= st.FirstUnpruned() && Quiet(st)
    ensures Quiet(OnBlock(st, slot, block, parent))
  {
    if !st.At(slot).voted {
      if CanNotar(st, slot, parent) {
        TidyAfterNotar(st, slot, block, parent);
        CheckPendingQuiet(TryNotar(st, slot, block, parent));
      } else {
        var r := OnBlock(st, slot, block, parent);
        forall s | s in r.slots && r.slots[s].pendingBlock.Some?
          ensures !CanNotar(r, s, r.slots[s].pendingBlock.value.1)
        {
          assert CanNotar(r, s, r.slots[s].pendingBlock.value.1) == CanNotar(st, s, r.slots[s].pendingBlock.value.1);
        }
      }
    }
  }

  /** Every step ends in a quiet state. */
  lemma StepQuiet(st: State, e: Event)
    requires st.Tidy() && ValidEvent(e) && Quiet(st)
    ensures Quiet(Step(st, e))
  {
    hide Quiet, HandleCert, OnBlock, Fallback, CheckPending, SkipRange, CanNotar;
    if !Ignored(st, e) {
      match e
      case ParentReady(slot, parent) =>
        CheckPendingQuiet(AddReady(st, slot, parent));
        QuietCarries(CheckPending(AddReady(st, slot, parent)), Step(st, e));
      case SafeToNotar(b) => FallbackQuiet(st, b.slot, NotarFallback(b.slot, b.hash));
      case SafeToSkip(slot) => FallbackQuiet(st, slot, SkipFallback(slot));
      case CertCreated(cert) => HandleCertQuiet(st, cert);
      case Standstill(_) => QuietCarries(st, Step(st, e));
      case FirstShred(_) => QuietCarries(st, Step(st, e));
      case InvalidBlock(slot) => SkipRangeQuiet(st, FirstSlotInWindow(slot), LastSlotInWindow(slot) + 1);
      case Block(slot, block, parent) => OnBlockQuiet(st, slot, block, parent);
      case Fired(alarm) => SkipRangeQuiet(st, FirstSlotInWindow(alarm.slot), LastSlotInWindow(alarm.slot) + 1);
    }
  }

  /** Between the events of any run no pending block could be notarized. */
  lemma {:induction false} Quiescence(index: nat, events: seq<Event>, parents: Parents)
    requires Admissible(events, parents)
    ensures Quiet(Run(index, events, parents))
    decreases |events|
  {
    if events != [] {
      var front := events[..|events| - 1];
      Quiescence(index, front, parents);
      StepQuiet(Run(index, front, parents), events[|events| - 1]);
    }
  }
}
