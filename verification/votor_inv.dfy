/** What every run of the voting process keeps: which votes exclude each other,
    what a cast vote says about the events seen, and that a pass over the pending
    blocks reaches its fixpoint. */
module VotorInv {
  import opened Base
  import opened Certs
  import opened Sorted
  import opened VotorSpec

  /** The parent named by every block, fixed by its hash. */
  type Parents = BlockId -> BlockId

  /** A block event names the block's real parent. */
  ghost predicate Truthful(e: Event, parents: Parents) {
    e.Block? ==> e.parent == parents(BlockId(e.slot, e.block.hash))
  }

  /** A notarization certificate for the block was delivered. */
  ghost predicate NotarSeen(seen: seq<Event>, slot: nat, hash: BlockHash) {
    exists e :: e in seen && e.CertCreated? && e.cert.NotarCert? && e.cert.slot == slot && e.cert.hash == hash
  }

  // ---- the discipline on the history of cast votes ----

  /** A slot voted final gets no skip and no fallback vote, before or after. */
  ghost predicate FinalExclusive(cast: seq<Ballot>) {
    && (forall s: nat :: Final(s) in cast ==> Skip(s) !in cast && SkipFallback(s) !in cast)
    && (forall s: nat, h: BlockHash :: Final(s) in cast ==> NotarFallback(s, h) !in cast)
  }

  /** At most one notar and one skip per slot, and no skip after a notar. */
  ghost predicate FirstVoteOnce(cast: seq<Ballot>) {
    && (forall i, j :: 0 <= i < j < |cast| && cast[i].Notar? && cast[j].Notar? ==> cast[i].slot != cast[j].slot)
    && (forall i, j :: 0 <= i < j < |cast| && cast[i].Skip? && cast[j].Skip? ==> cast[i].slot != cast[j].slot)
    && (forall i, j :: 0 <= i < j < |cast| && cast[i].Notar? && cast[j].Skip? ==> cast[i].slot != cast[j].slot)
  }

  /** A notar vote extends the block notarized one slot earlier, or, at the start of
      a window, a parent that was announced ready. */
  ghost predicate ExtendsOwnVote(cast: seq<Ballot>, seen: seq<Event>, parents: Parents, s: nat, h: BlockHash) {
    var p := parents(BlockId(s, h));
    && s > 0
    && if IsStartOfWindow(s) then ParentReady(s, p) in seen
       else p.slot == s - 1 && (Notar(s - 1, p.hash) in cast || p == GenesisBlock())
  }

  ghost predicate NotarizedOwn(cast: seq<Ballot>, seen: seq<Event>, s: nat) {
    exists h :: Notar(s, h) in cast && NotarSeen(seen, s, h)
  }

  /** Every cast vote is backed by an event of the run or by an earlier vote. */
  ghost predicate Backed(b: Ballot, cast: seq<Ballot>, seen: seq<Event>, parents: Parents) {
    match b
    case Notar(s, h) => ExtendsOwnVote(cast, seen, parents, s, h)
    case NotarFallback(s, h) => SafeToNotar(BlockId(s, h)) in seen
    case SkipFallback(s) => SafeToSkip(s) in seen
    case Final(s) => s > 0 ==> NotarizedOwn(cast, seen, s)
    case Skip(_) => true
  }

  ghost predicate AllBacked(cast: seq<Ballot>, seen: seq<Event>, parents: Parents) {
    forall b :: b in cast ==> Backed(b, cast, seen, parents)
  }

  ghost predicate Discipline(cast: seq<Ballot>, seen: seq<Event>, parents: Parents) {
    FinalExclusive(cast) && FirstVoteOnce(cast) && AllBacked(cast, seen, parents)
  }

  // ---- the state invariant ----

  ghost predicate EntryOk(s: nat, e: SlotEntry, cast: seq<Ballot>, seen: seq<Event>, parents: Parents) {
    && (e.votedNotar.Some? ==>
          && e.voted && e.pendingBlock.None?
          && (Notar(s, e.votedNotar.value) in cast || (s == 0 && e.votedNotar.value == GENESIS_BLOCK_HASH)))
    && (e.retired ==> e.voted && !e.badWindow)
    && (e.pendingBlock.Some? ==> s > 0 && e.pendingBlock.value.1 == parents(BlockId(s, e.pendingBlock.value.0.hash)))
    && (e.blockNotarized.Some? && s > 0 ==> NotarSeen(seen, s, e.blockNotarized.value))
    && (s > 0 ==> forall p :: p in e.parentsReady ==> ParentReady(s, p) in seen)
    && (s == 0 ==> e.voted)
  }

  /** What a cast vote leaves behind in an entry that was not pruned. */
  ghost predicate Recorded(b: Ballot, e: SlotEntry) {
    match b
    case Notar(_, h) => e.votedNotar == Some(h)
    case Skip(_) => e.voted && e.badWindow
    case Final(_) => e.retired
    case NotarFallback(_, _) => e.badWindow
    case SkipFallback(_) => e.badWindow
  }

  ghost predicate Inv(st: State, seen: seq<Event>, parents: Parents) {
    && st.Tidy()
    && (0 in st.slots || st.FirstUnpruned() > 0)
    && (forall s :: s in st.slots ==> EntryOk(s, st.slots[s], st.cast, seen, parents))
    && (forall b :: b in st.cast && b.slot >= st.FirstUnpruned() ==>
          b.slot in st.slots && Recorded(b, st.slots[b.slot]))
    && Discipline(st.cast, seen, parents)
  }

  // ---- growth of the history ----

  lemma AllBackedGrows(cast: seq<Ballot>, seen: seq<Event>, b: Ballot, parents: Parents)
    requires AllBacked(cast, seen, parents)
    requires Backed(b, cast + [b], seen, parents)
    ensures AllBacked(cast + [b], seen, parents)
  {
  }

  lemma InvSeenGrows(st: State, seen: seq<Event>, e: Event, parents: Parents)
    requires Inv(st, seen, parents)
    ensures Inv(st, seen + [e], parents)
  {
  }

  // ---- single updates ----

  /** Replacing one entry keeps the invariant when the new entry is sound and still
      records the votes of its slot. */
  lemma PutKeeps(st: State, s: nat, e: SlotEntry, seen: seq<Event>, parents: Parents)
    requires Inv(st, seen, parents)
    requires s >= st.FirstUnpruned()
    requires EntryOk(s, e, st.cast, seen, parents)
    requires forall b :: b in st.cast && b.slot == s ==> Recorded(b, e)
    ensures Inv(st.Put(s, e), seen, parents)
  {
  }

  /** Casting one vote and updating its slot's entry keeps the invariant when the
      vote is backed, excluded by no earlier vote, and recorded in the entry. */
  lemma CastKeeps(st: State, b: Ballot, e: SlotEntry, seen: seq<Event>, parents: Parents)
    requires Inv(st, seen, parents)
    requires b.slot >= st.FirstUnpruned()
    requires EntryOk(b.slot, e, st.cast + [b], seen, parents)
    requires Recorded(b, e)
    requires forall x :: x in st.cast && x.slot == b.slot ==> Recorded(x, e)
    requires Backed(b, st.cast + [b], seen, parents)
    requires FinalExclusive(st.cast + [b]) && FirstVoteOnce(st.cast + [b])
    ensures Inv(st.Vote(b).Put(b.slot, e), seen, parents)
  {
    AllBackedGrows(st.cast, seen, b, parents);
    var r := st.Vote(b).Put(b.slot, e);
    forall s | s in r.slots
      ensures EntryOk(s, r.slots[s], r.cast, seen, parents)
    {
      if s != b.slot {
        assert EntryOk(s, st.slots[s], st.cast, seen, parents);
      }
    }
  }

  lemma OnceAfter(cast: seq<Ballot>, b: Ballot)
    requires FirstVoteOnce(cast)
    requires b.Notar? ==> forall h :: Notar(b.slot, h) !in cast
    requires b.Skip? ==> Skip(b.slot) !in cast && forall h :: Notar(b.slot, h) !in cast
    ensures FirstVoteOnce(cast + [b])
  {
  }

  // ---- the operations ----

  lemma TryFinalKeeps(st: State, slot: nat, hash: BlockHash, seen: seq<Event>, parents: Parents)
    requires Inv(st, seen, parents) && slot >= st.FirstUnpruned()
    ensures Inv(TryFinal(st, slot, hash), seen, parents)
  {
    var e := st.At(slot);
    if e.blockNotarized == Some(hash) && e.votedNotar == Some(hash) && !e.badWindow {
      OnceAfter(st.cast, Final(slot));
      var b := Final(slot);
      if slot > 0 {
        assert Notar(slot, hash) in st.cast + [b] && NotarSeen(seen, slot, hash);
      }
      CastKeeps(st, b, e.(retired := true), seen, parents);
    }
  }

  lemma CastNotarKeeps(st: State, slot: nat, block: BlockId, parent: BlockId, seen: seq<Event>, parents: Parents)
    requires Inv(st, seen, parents) && slot >= st.FirstUnpruned()
    requires CanNotar(st, slot, parent) && slot > 0
    requires parent == parents(BlockId(slot, block.hash))
    requires st.At(slot).votedNotar.None?
    ensures Inv(CastNotar(st, slot, block), seen, parents)
  {
    var b := Notar(slot, block.hash);
    forall h: BlockHash
      ensures Notar(slot, h) !in st.cast
    {
    }
    OnceAfter(st.cast, b);
    CastKeeps(st, b, st.At(slot).(voted := true, votedNotar := Some(block.hash), pendingBlock := None), seen, parents);
  }

  lemma TryNotarKeeps(st: State, slot: nat, block: BlockId, parent: BlockId, seen: seq<Event>, parents: Parents)
    requires Inv(st, seen, parents) && slot >= st.FirstUnpruned() && slot > 0
    requires parent == parents(BlockId(slot, block.hash))
    requires st.At(slot).votedNotar.None?
    ensures Inv(TryNotar(st, slot, block, parent), seen, parents)
  {
    if CanNotar(st, slot, parent) {
      CastNotarKeeps(st, slot, block, parent, seen, parents);
      TryFinalKeeps(CastNotar(st, slot, block), slot, block.hash, seen, parents);
    }
  }

  lemma SkipOneKeeps(st: State, s: nat, seen: seq<Event>, parents: Parents)
    requires Inv(st, seen, parents) && s >= st.FirstUnpruned()
    ensures Inv(SkipOne(st, s), seen, parents)
  {
    var e := st.At(s);
    if !e.voted {
      var b := Skip(s);
      assert Skip(s) !in st.cast && Final(s) !in st.cast;
      forall h: BlockHash
        ensures Notar(s, h) !in st.cast
      {
      }
      OnceAfter(st.cast, b);
      CastKeeps(st, b, e.(voted := true, badWindow := true), seen, parents);
    }
  }

  lemma {:induction false} SkipRangeKeeps(st: State, s: nat, end: nat, seen: seq<Event>, parents: Parents)
    requires Inv(st, seen, parents) && st.FirstUnpruned() <= s <= end
    ensures Inv(SkipRange(st, s, end), seen, parents)
    decreases end - s
  {
    if s < end {
      SkipOneKeeps(st, s, seen, parents);
      SkipRangeKeeps(SkipOne(st, s), s + 1, end, seen, parents);
    }
  }

  /** The triples are the pending blocks of distinct, ascending, unpruned slots. */
  ghost predicate PendingList(st: State, pending: seq<(nat, BlockId, BlockId)>) {
    && (forall t :: t in pending ==> t.0 >= st.FirstUnpruned() && st.At(t.0).pendingBlock == Some((t.1, t.2)))
    && (forall i, j :: 0 <= i < j < |pending| ==> pending[i].0 < pending[j].0)
  }

  lemma TryNotarFrame(st: State, slot: nat, block: BlockId, parent: BlockId)
    requires slot >= st.FirstUnpruned()
    ensures var r := TryNotar(st, slot, block, parent);
      && r.highest == st.highest && r.index == st.index
      && (forall s :: s != slot ==> r.At(s) == st.At(s))
      && r.At(slot).parentsReady == st.At(slot).parentsReady
      && (CanNotar(st, slot, parent) ==> r.At(slot).pendingBlock.None? && r.At(slot).votedNotar == Some(block.hash))
  {
  }

  lemma PendingListTail(st: State, pending: seq<(nat, BlockId, BlockId)>)
    requires pending != [] && PendingList(st, pending)
    ensures PendingList(TryNotar(st, pending[0].0, pending[0].1, pending[0].2), pending[1..])
  {
  }

  lemma {:induction false} TryEachKeeps(st: State, pending: seq<(nat, BlockId, BlockId)>, seen: seq<Event>,
                                        parents: Parents)
    requires Inv(st, seen, parents) && PendingList(st, pending)
    ensures Inv(TryEach(st, pending), seen, parents)
    ensures TryEach(st, pending).highest == st.highest
    decreases |pending|
  {
    if pending != [] {
      var (slot, block, parent) := pending[0];
      assert pending[0] in pending;
      assert EntryOk(slot, st.slots[slot], st.cast, seen, parents);
      TryNotarKeeps(st, slot, block, parent, seen, parents);
      TryNotarFrame(st, slot, block, parent);
      PendingListTail(st, pending);
      TryEachKeeps(TryNotar(st, slot, block, parent), pending[1..], seen, parents);
    }
  }

  lemma PendingOfIsList(st: State)
    requires st.Tidy()
    ensures PendingList(st, PendingOf(st.slots, Enumerate(st.slots.Keys)))
  {
    PendingOfElements(st.slots, Enumerate(st.slots.Keys));
    PendingOfAscending(st.slots, Enumerate(st.slots.Keys));
  }

  lemma CheckPendingKeeps(st: State, seen: seq<Event>, parents: Parents)
    requires Inv(st, seen, parents)
    ensures Inv(CheckPending(st), seen, parents)
    ensures CheckPending(st).highest == st.highest
  {
    PendingOfIsList(st);
    TryEachKeeps(st, PendingOf(st.slots, Enumerate(st.slots.Keys)), seen, parents);
  }

  lemma {:induction false} SkipRangeFrame(st: State, s: nat, end: nat)
    requires s <= end
    ensures SkipRange(st, s, end).highest == st.highest
    ensures forall x ::
        SkipRange(st, s, end).At(x).(voted := true, badWindow := true) == st.At(x).(voted := true, badWindow := true)
    ensures forall x :: st.At(x).badWindow ==> SkipRange(st, s, end).At(x).badWindow
    ensures forall x :: st.At(x).voted ==> SkipRange(st, s, end).At(x) == st.At(x)
    ensures forall x :: s <= x < end ==> SkipRange(st, s, end).At(x).voted
    decreases end - s
  {
    if s < end {
      SkipRangeFrame(SkipOne(st, s), s + 1, end);
    }
  }

  lemma TrySkipWindowKeeps(st: State, slot: nat, seen: seq<Event>, parents: Parents)
    requires Inv(st, seen, parents) && slot >= st.FirstUnpruned()
    ensures Inv(TrySkipWindow(st, slot), seen, parents)
  {
    SkipRangeKeeps(st, FirstSlotInWindow(slot), LastSlotInWindow(slot) + 1, seen, parents);
  }

  /** Both fallback votes: the vote, the skips of the unvoted rest of the window, the mark. */
  lemma FallbackKeeps(st: State, slot: nat, b: Ballot, seen: seq<Event>, parents: Parents)
    requires Inv(st, seen, parents) && slot >= st.FirstUnpruned() && !st.At(slot).retired
    requires b.slot == slot && (b.NotarFallback? || b.SkipFallback?)
    requires Backed(b, st.cast + [b], seen, parents)
    ensures Inv(Fallback(st, slot, b), seen, parents)
  {
    // The mark is set after the skips in the source; setting it first as well gives the same result.
    var e := st.At(slot).(badWindow := true);
    var marked := st.Vote(b).Put(slot, e);
    assert Final(slot) !in st.cast;
    OnceAfter(st.cast, b);
    CastKeeps(st, b, e, seen, parents);
    TrySkipWindowKeeps(marked, slot, seen, parents);
    MarkFirst(st.Vote(b), slot);
  }

  /** The window mark of one slot commutes with skipping its window. */
  lemma MarkFirst(st: State, slot: nat)
    requires slot >= st.FirstUnpruned()
    ensures var early := st.Put(slot, st.At(slot).(badWindow := true));
      var late := TrySkipWindow(st, slot);
      TrySkipWindow(early, slot) == late.Put(slot, late.At(slot).(badWindow := true))
  {
    MarkFirstRange(st, slot, FirstSlotInWindow(slot), LastSlotInWindow(slot) + 1);
  }

  lemma {:induction false} MarkFirstRange(st: State, slot: nat, s: nat, end: nat)
    requires s <= end
    ensures var early := st.Put(slot, st.At(slot).(badWindow := true));
      var late := SkipRange(st, s, end);
      SkipRange(early, s, end) == late.Put(slot, late.At(slot).(badWindow := true))
    decreases end - s
  {
    if s < end {
      var early := st.Put(slot, st.At(slot).(badWindow := true));
      var one := SkipOne(st, s);
      assert SkipOne(early, s).slots == one.Put(slot, one.At(slot).(badWindow := true)).slots;
      assert SkipOne(early, s) == one.Put(slot, one.At(slot).(badWindow := true));
      MarkFirstRange(one, slot, s + 1, end);
    }
  }

  lemma NotarCertKeeps(st: State, cert: Cert, seen: seq<Event>, parents: Parents)
    requires Inv(st, seen, parents) && cert.slot >= st.FirstUnpruned()
    requires cert.NotarCert? && CertCreated(cert) in seen
    ensures Inv(HandleCert(st, cert), seen, parents)
  {
    var e := st.At(cert.slot).(blockNotarized := Some(cert.hash));
    assert NotarSeen(seen, cert.slot, cert.hash);
    PutKeeps(st, cert.slot, e, seen, parents);
    TryFinalKeeps(st.Put(cert.slot, e), cert.slot, cert.hash, seen, parents);
  }

  lemma FinalCertKeeps(st: State, cert: Cert, seen: seq<Event>, parents: Parents)
    requires Inv(st, seen, parents) && cert.slot >= st.FirstUnpruned()
    requires cert.FinalCert? || cert.FastFinalCert?
    ensures Inv(HandleCert(st, cert), seen, parents)
  {
    var raised := SetTimeouts(st, FirstSlotInWindow(cert.slot)).(highest := Max(st.highest, cert.slot));
    assert raised.FirstUnpruned() >= st.FirstUnpruned();
    var r := Prune(raised);
    forall b | b in r.cast && b.slot >= r.FirstUnpruned()
      ensures b.slot in r.slots && Recorded(b, r.slots[b.slot])
    {
      assert b in st.cast && b.slot >= st.FirstUnpruned();
    }
  }

  lemma OnBlockKeeps(st: State, slot: nat, block: BlockId, parent: BlockId, seen: seq<Event>, parents: Parents)
    requires Inv(st, seen, parents) && slot >= st.FirstUnpruned() && slot > 0
    requires parent == parents(BlockId(slot, block.hash))
    ensures Inv(OnBlock(st, slot, block, parent), seen, parents)
  {
    if st.At(slot).voted {
    } else if CanNotar(st, slot, parent) {
      TryNotarKeeps(st, slot, block, parent, seen, parents);
      CheckPendingKeeps(TryNotar(st, slot, block, parent), seen, parents);
    } else {
      PutKeeps(st, slot, st.At(slot).(pendingBlock := Some((block, parent))), seen, parents);
    }
  }

  lemma ParentReadyKeeps(st: State, slot: nat, parent: BlockId, seen: seq<Event>, parents: Parents)
    requires Inv(st, seen, parents) && slot >= st.FirstUnpruned()
    requires IsStartOfWindow(slot) && ParentReady(slot, parent) in seen
    ensures Inv(SetTimeouts(CheckPending(AddReady(st, slot, parent)), slot), seen, parents)
  {
    var ready := AddReady(st, slot, parent);
    PutKeeps(st, slot, ready.At(slot), seen, parents);
    CheckPendingKeeps(ready, seen, parents);
  }

  /** Every step keeps the invariant. */
  lemma StepKeeps(st: State, e: Event, seen: seq<Event>, parents: Parents)
    requires Inv(st, seen, parents)
    requires ValidEvent(e) && Truthful(e, parents)
    ensures Inv(Step(st, e), seen + [e], parents)
  {
    var seen' := seen + [e];
    InvSeenGrows(st, seen, e, parents);
    if !Ignored(st, e) {
      match e
      case ParentReady(slot, parent) => ParentReadyKeeps(st, slot, parent, seen', parents);
      case SafeToNotar(b) => FallbackKeeps(st, b.slot, NotarFallback(b.slot, b.hash), seen', parents);
      case SafeToSkip(slot) => FallbackKeeps(st, slot, SkipFallback(slot), seen', parents);
      case CertCreated(cert) =>
        if cert.NotarCert? {
          NotarCertKeeps(st, cert, seen', parents);
        } else if cert.FinalCert? || cert.FastFinalCert? {
          FinalCertKeeps(st, cert, seen', parents);
        }
      case Standstill(_) =>
      case FirstShred(slot) => PutKeeps(st, slot, st.At(slot).(receivedShred := true), seen', parents);
      case InvalidBlock(slot) => TrySkipWindowKeeps(st, slot, seen', parents);
      case Block(slot, block, parent) => OnBlockKeeps(st, slot, block, parent, seen', parents);
      case Fired(alarm) =>
        if OnAlarm(st, alarm) != st {
          TrySkipWindowKeeps(st, alarm.slot, seen', parents);
        }
    }
  }

  // ---- runs ----

  /** Every event a run may contain, given the real parents of blocks. */
  ghost predicate Admissible(events: seq<Event>, parents: Parents) {
    forall i :: 0 <= i < |events| ==> ValidEvent(events[i]) && Truthful(events[i], parents)
  }

  /** The state after a sequence of events. */
  ghost function Run(index: nat, events: seq<Event>, parents: Parents): (st: State)
    requires Admissible(events, parents)
    ensures Inv(st, events, parents)
    decreases |events|
  {
    if events == [] then
      Init(index)
    else
      var front := events[..|events| - 1];
      var last := events[|events| - 1];
      var before := Run(index, front, parents);
      StepKeeps(before, last, front, parents);
      assert front + [last] == events;
      Step(before, last)
  }
}
