/** The voting decision process as a function of its state and the next event
    (crates/karstflow-alpenglow/src/votor.rs). The class `Votor` in votor.dfy is
    proved to compute these functions; the lemmas of votor_inv.dfy are about them.

    Asserts of the source are preconditions here, so that a step is defined only
    where no assert fires. */
module VotorSpec {
  import opened Base
  import opened Certs
  import opened Sorted

  /** What the process keeps for one slot. `pendingBlock` is a block and its parent. */
  datatype SlotEntry = SlotEntry(
    voted: bool,
    votedNotar: Option<BlockHash>,
    badWindow: bool,
    blockNotarized: Option<BlockHash>,
    parentsReady: seq<BlockId>,
    receivedShred: bool,
    pendingBlock: Option<(BlockId, BlockId)>,
    retired: bool)

  const FRESH: SlotEntry := SlotEntry(false, None, false, None, [], false, None, false)

  datatype Message = VoteMessage(vote: Vote) | CertMessage(cert: Cert)

  datatype Alarm = Timeout(slot: nat) | CrashedLeader(slot: nat)

  /** Pool events, blockstore events and fired timeouts. */
  datatype Event =
    | ParentReady(slot: nat, parent: BlockId)
    | SafeToNotar(block: BlockId)
    | SafeToSkip(slot: nat)
    | CertCreated(cert: Cert)
    | Standstill(bundle: seq<Message>)
    | FirstShred(slot: nat)
    | InvalidBlock(slot: nat)
    | Block(slot: nat, block: BlockId, parent: BlockId)
    | Fired(alarm: Alarm)

  /** `cast` is the history of the process's own votes in emission order; it leaves
      out the votes of re-broadcast standstill bundles. `msgs` and `alarms` are the
      output buffers. */
  datatype State = State(
    index: nat,
    slots: map<nat, SlotEntry>,
    highest: nat,
    cast: seq<Ballot>,
    msgs: seq<Message>,
    alarms: seq<Alarm>)
  {
    function At(slot: nat): SlotEntry {
      if slot in slots then slots[slot] else FRESH
    }

    function FirstUnpruned(): nat {
      FirstSlotInWindow(highest)
    }

    function Put(slot: nat, e: SlotEntry): State {
      this.(slots := slots[slot := e])
    }

    function Vote(b: Ballot): State {
      this.(cast := cast + [b], msgs := msgs + [VoteMessage(Certs.Vote(index, b))])
    }

    /** Nothing is kept below the window of the highest final certificate. */
    ghost predicate Tidy() {
      forall s :: s in slots ==> FirstUnpruned() <= s
    }
  }

  function Window(slot: nat): seq<Alarm>
    requires IsStartOfWindow(slot)
  {
    [CrashedLeader(slot)] + seq(SLOTS_PER_WINDOW, i requires 0 <= i => Timeout(slot + i))
  }

  function SetTimeouts(st: State, slot: nat): State
    requires IsStartOfWindow(slot)
  {
    st.(alarms := st.alarms + Window(slot))
  }

  function Init(index: nat): State {
    var genesis := FRESH.(voted := true,
                          votedNotar := Some(GENESIS_BLOCK_HASH),
                          blockNotarized := Some(GENESIS_BLOCK_HASH),
                          parentsReady := [GenesisBlock()],
                          retired := true);
    SetTimeouts(State(index, map[0 := genesis], 0, [], [], []), 0)
  }

  function TryFinal(st: State, slot: nat, hash: BlockHash): (r: State)
    requires slot >= st.FirstUnpruned()
  {
    var e := st.At(slot);
    if e.blockNotarized == Some(hash) && e.votedNotar == Some(hash) && !e.badWindow
    then st.Vote(Final(slot)).Put(slot, e.(retired := true))
    else st
  }

  /** The condition under which a block for `slot` with this parent is notarized. */
  predicate CanNotar(st: State, slot: nat, parent: BlockId) {
    if slot == FirstSlotInWindow(slot) then parent in st.At(slot).parentsReady
    else parent.slot == slot - 1 && st.At(parent.slot).votedNotar == Some(parent.hash)
  }

  function CastNotar(st: State, slot: nat, block: BlockId): State {
    st.Vote(Notar(slot, block.hash))
      .Put(slot, st.At(slot).(voted := true, votedNotar := Some(block.hash), pendingBlock := None))
  }

  function TryNotar(st: State, slot: nat, block: BlockId, parent: BlockId): State
    requires slot >= st.FirstUnpruned()
  {
    if CanNotar(st, slot, parent) then TryFinal(CastNotar(st, slot, block), slot, block.hash) else st
  }

  function SkipOne(st: State, s: nat): State {
    var e := st.At(s);
    if e.voted then st else st.Put(s, e.(voted := true, badWindow := true)).Vote(Skip(s))
  }

  function SkipRange(st: State, s: nat, end: nat): State
    requires s <= end
    decreases end - s
  {
    if s == end then st else SkipRange(SkipOne(st, s), s + 1, end)
  }

  function TrySkipWindow(st: State, slot: nat): State
    requires slot >= st.FirstUnpruned()
  {
    SkipRange(st, FirstSlotInWindow(slot), LastSlotInWindow(slot) + 1)
  }

  /** The pending blocks of the given slots, in that order. */
  function PendingOf(slots: map<nat, SlotEntry>, keys: seq<nat>): (q: seq<(nat, BlockId, BlockId)>)
    requires forall k :: k in keys ==> k in slots
  {
    if keys == [] then [] else
      var rest := PendingOf(slots, keys[1..]);
      match slots[keys[0]].pendingBlock
      case None => rest
      case Some(p) => [(keys[0], p.0, p.1)] + rest
  }

  lemma {:induction false} PendingOfElements(slots: map<nat, SlotEntry>, keys: seq<nat>)
    requires forall k :: k in keys ==> k in slots
    ensures var q := PendingOf(slots, keys);
      && (forall t :: t in q ==> t.0 in slots && slots[t.0].pendingBlock == Some((t.1, t.2)) && t.0 in keys)
      && (forall k :: k in keys && slots[k].pendingBlock.Some? ==>
            (k, slots[k].pendingBlock.value.0, slots[k].pendingBlock.value.1) in q)
  {
    if keys != [] {
      PendingOfElements(slots, keys[1..]);
      assert keys == [keys[0]] + keys[1..];
    }
  }

  lemma {:induction false} PendingOfAscending(slots: map<nat, SlotEntry>, keys: seq<nat>)
    requires forall k :: k in keys ==> k in slots
    requires Ascending(keys)
    ensures var q := PendingOf(slots, keys); forall i, j :: 0 <= i < j < |q| ==> q[i].0 < q[j].0
  {
    if keys != [] {
      var rest := PendingOf(slots, keys[1..]);
      PendingOfAscending(slots, keys[1..]);
      PendingOfElements(slots, keys[1..]);
      assert forall i :: 0 <= i < |rest| ==> rest[i] in rest;
    }
  }

  function TryEach(st: State, pending: seq<(nat, BlockId, BlockId)>): State
    requires forall t :: t in pending ==> t.0 >= st.FirstUnpruned()
    decreases |pending|
  {
    if pending == [] then st else
      var (slot, block, parent) := pending[0];
      TryEach(TryNotar(st, slot, block, parent), pending[1..])
  }

  /** One pass over the pending blocks in ascending slot order. */
  function CheckPending(st: State): State
    requires st.Tidy()
  {
    PendingOfElements(st.slots, Enumerate(st.slots.Keys));
    TryEach(st, PendingOf(st.slots, Enumerate(st.slots.Keys)))
  }

  function Prune(st: State): (r: State)
    ensures r.Tidy()
  {
    st.(slots := map s | s in st.slots && st.FirstUnpruned() <= s :: st.slots[s])
  }

  function HandleCert(st: State, cert: Cert): State
    requires cert.slot >= st.FirstUnpruned()
  {
    var after := match cert
      case NotarCert(slot, hash, _, _) =>
        TryFinal(st.Put(slot, st.At(slot).(blockNotarized := Some(hash))), slot, hash)
      case FinalCert(slot, _, _) =>
        Prune(SetTimeouts(st, FirstSlotInWindow(slot)).(highest := Max(st.highest, slot)))
      case FastFinalCert(slot, _, _, _) =>
        Prune(SetTimeouts(st, FirstSlotInWindow(slot)).(highest := Max(st.highest, slot)))
      case _ => st;
    after.(msgs := after.msgs + [CertMessage(cert)])
  }

  function Fallback(st: State, slot: nat, b: Ballot): State
    requires slot >= st.FirstUnpruned()
  {
    var skipped := TrySkipWindow(st.Vote(b), slot);
    skipped.Put(slot, skipped.At(slot).(badWindow := true))
  }

  /** Events for slots that were pruned, finalized or retired are dropped. */
  predicate Ignored(st: State, e: Event) {
    match e
    case Standstill(_) => false
    case CertCreated(c) => c.slot < st.FirstUnpruned()
    case ParentReady(slot, _) => slot < st.FirstUnpruned() || st.At(slot).retired
    case SafeToNotar(b) => b.slot < st.FirstUnpruned() || st.At(b.slot).retired
    case SafeToSkip(slot) => slot < st.FirstUnpruned() || st.At(slot).retired
    case FirstShred(slot) => slot <= st.highest || st.At(slot).retired
    case InvalidBlock(slot) => slot <= st.highest || st.At(slot).retired
    case Block(slot, _, _) => slot <= st.highest || st.At(slot).retired
    case Fired(alarm) => alarm.slot <= st.highest || st.At(alarm.slot).retired
  }

  /** The one demand on the environment: parents are announced for window starts. */
  predicate ValidEvent(e: Event) {
    e.ParentReady? ==> IsStartOfWindow(e.slot)
  }

  function AddReady(st: State, slot: nat, parent: BlockId): (r: State) {
    var entry := st.At(slot);
    st.Put(slot, if parent in entry.parentsReady then entry
                 else entry.(parentsReady := entry.parentsReady + [parent]))
  }

  function OnBlock(st: State, slot: nat, block: BlockId, parent: BlockId): State
    requires st.Tidy() && slot >= st.FirstUnpruned()
  {
    if st.At(slot).voted then st
    else if CanNotar(st, slot, parent) then
      TidyAfterNotar(st, slot, block, parent);
      CheckPending(TryNotar(st, slot, block, parent))
    else st.Put(slot, st.At(slot).(pendingBlock := Some((block, parent))))
  }

  lemma TidyAfterNotar(st: State, slot: nat, block: BlockId, parent: BlockId)
    requires st.Tidy() && slot >= st.FirstUnpruned()
    ensures TryNotar(st, slot, block, parent).Tidy()
  {
  }

  function OnAlarm(st: State, alarm: Alarm): State
    requires alarm.slot >= st.FirstUnpruned()
  {
    var e := st.At(alarm.slot);
    if e.voted || (alarm.CrashedLeader? && e.receivedShred) then st
    else TrySkipWindow(st, alarm.slot)
  }

  function Step(st: State, e: Event): State
    requires st.Tidy() && ValidEvent(e)
  {
    if Ignored(st, e) then st else
      match e
      case ParentReady(slot, parent) => SetTimeouts(CheckPending(AddReady(st, slot, parent)), slot)
      case SafeToNotar(b) => Fallback(st, b.slot, NotarFallback(b.slot, b.hash))
      case SafeToSkip(slot) => Fallback(st, slot, SkipFallback(slot))
      case CertCreated(cert) => HandleCert(st, cert)
      case Standstill(bundle) => st.(msgs := st.msgs + bundle)
      case FirstShred(slot) => st.Put(slot, st.At(slot).(receivedShred := true))
      case InvalidBlock(slot) => TrySkipWindow(st, slot)
      case Block(slot, block, parent) => OnBlock(st, slot, block, parent)
      case Fired(alarm) => OnAlarm(st, alarm)
  }

  // ---- every step leaves a tidy state, so the handlers can be called again ----

  lemma {:induction false} TryEachTidy(st: State, pending: seq<(nat, BlockId, BlockId)>)
    requires st.Tidy()
    requires forall t :: t in pending ==> t.0 >= st.FirstUnpruned()
    ensures TryEach(st, pending).Tidy()
    decreases |pending|
  {
    if pending != [] {
      var (slot, block, parent) := pending[0];
      assert pending[0] in pending;
      TidyAfterNotar(st, slot, block, parent);
      TryEachTidy(TryNotar(st, slot, block, parent), pending[1..]);
    }
  }

  lemma CheckPendingTidy(st: State)
    requires st.Tidy()
    ensures CheckPending(st).Tidy()
  {
    PendingOfElements(st.slots, Enumerate(st.slots.Keys));
    TryEachTidy(st, PendingOf(st.slots, Enumerate(st.slots.Keys)));
  }

  lemma {:induction false} SkipRangeTidy(st: State, s: nat, end: nat)
    requires st.Tidy() && st.FirstUnpruned() <= s <= end
    ensures SkipRange(st, s, end).Tidy() && SkipRange(st, s, end).highest == st.highest
    decreases end - s
  {
    if s < end {
      SkipRangeTidy(SkipOne(st, s), s + 1, end);
    }
  }

  lemma TrySkipWindowTidy(st: State, slot: nat)
    requires st.Tidy() && slot >= st.FirstUnpruned()
    ensures TrySkipWindow(st, slot).Tidy() && TrySkipWindow(st, slot).highest == st.highest
  {
    SkipRangeTidy(st, FirstSlotInWindow(slot), LastSlotInWindow(slot) + 1);
  }

  lemma StepTidy(st: State, e: Event)
    requires st.Tidy() && ValidEvent(e)
    ensures Step(st, e).Tidy()
  {
    if !Ignored(st, e) {
      match e
      case ParentReady(slot, parent) => CheckPendingTidy(AddReady(st, slot, parent));
      case SafeToNotar(b) => TrySkipWindowTidy(st.Vote(NotarFallback(b.slot, b.hash)), b.slot);
      case SafeToSkip(slot) => TrySkipWindowTidy(st.Vote(SkipFallback(slot)), slot);
      case CertCreated(cert) =>
      case Standstill(_) =>
      case FirstShred(_) =>
      case InvalidBlock(slot) => TrySkipWindowTidy(st, slot);
      case Block(slot, block, parent) =>
        if !st.At(slot).voted && CanNotar(st, slot, parent) {
          TidyAfterNotar(st, slot, block, parent);
          CheckPendingTidy(TryNotar(st, slot, block, parent));
        }
      case Fired(alarm) => TrySkipWindowTidy(st, alarm.slot);
    }
  }
}
