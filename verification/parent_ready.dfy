/** Which blocks are valid parents at the start of a leader window, kept incrementally
    (crates/karstflow-alpenglow/src/parent_ready_tracker.rs and parent_ready_state.rs).

    A block is a valid parent for a window start when it is notarized-fallback and every
    slot strictly in between is skip-certified. The tracker's ready lists are proved to
    hold exactly these blocks after any sequence of marks, finalizations and prunes. */
module ParentReadiness {
  import opened Base

  /** Per-slot state. */
  datatype SlotMarks = SlotMarks(skip: bool, fallbacks: seq<BlockHash>, ready: seq<BlockId>)

  const UNMARKED: SlotMarks := SlotMarks(false, [], [])

  datatype ReadyPair = ReadyPair(slot: nat, parent: BlockId)

  function At(states: map<nat, SlotMarks>, s: nat): SlotMarks {
    if s in states then states[s] else UNMARKED
  }

  /** The relation the tracker maintains, over the history of accepted marks. */
  ghost predicate Connected(marked: set<BlockId>, skipped: set<nat>, b: BlockId, s: nat) {
    b in marked && b.slot < s && forall t :: b.slot < t < s ==> t in skipped
  }

  /** Every slot strictly between is skip-certified. */
  ghost predicate Reach(states: map<nat, SlotMarks>, from: nat, to: nat) {
    forall t :: from < t < to ==> At(states, t).skip
  }

  /** The marks of slots at or above the root are those of the history. */
  ghost predicate MarksMatch(root: nat, states: map<nat, SlotMarks>, marked: set<BlockId>, skipped: set<nat>) {
    && (forall s :: s >= root ==> (At(states, s).skip <==> s in skipped))
    && (forall s, h :: s >= root ==> (h in At(states, s).fallbacks <==> BlockId(s, h) in marked))
  }

  ghost predicate Distinct(states: map<nat, SlotMarks>) {
    forall s: nat :: NoRepeats(At(states, s).ready) && NoRepeats(At(states, s).fallbacks)
  }

  /** Whatever is listed as ready really is, also for blocks below the root. */
  ghost predicate ReadySound(states: map<nat, SlotMarks>, marked: set<BlockId>, skipped: set<nat>) {
    forall s: nat, b :: b in At(states, s).ready ==> IsStartOfWindow(s) && Connected(marked, skipped, b, s)
  }

  ghost predicate ReadyComplete(root: nat, states: map<nat, SlotMarks>, marked: set<BlockId>, skipped: set<nat>) {
    forall s: nat, b: BlockId ::
      s >= root && IsStartOfWindow(s) && b.slot >= root && Connected(marked, skipped, b, s) ==>
      b in At(states, s).ready
  }

  ghost predicate AllSkipped(skipped: set<nat>, from: nat, to: nat) {
    forall t :: from <= t < to ==> t in skipped
  }

  /** A ready list is handed on over skipped slots, also what it holds from below the root. */
  ghost predicate ReadyClosed(root: nat, states: map<nat, SlotMarks>, skipped: set<nat>) {
    forall s: nat, t: nat, b ::
      root <= s < t && IsStartOfWindow(t) && b in At(states, s).ready && AllSkipped(skipped, s, t) ==>
      b in At(states, t).ready
  }

  ghost predicate Exact(root: nat, states: map<nat, SlotMarks>, marked: set<BlockId>, skipped: set<nat>) {
    && MarksMatch(root, states, marked, skipped)
    && Distinct(states)
    && ReadySound(states, marked, skipped)
    && ReadyComplete(root, states, marked, skipped)
    && ReadyClosed(root, states, skipped)
  }

  /** The pairs added by connecting `ids` forward from a slot. */
  ghost predicate ForwardPair(states: map<nat, SlotMarks>, from: nat, ids: seq<BlockId>, s: nat, b: BlockId) {
    s > from && IsStartOfWindow(s) && Reach(states, from, s) && b in ids
  }

  /** The new states extend exactly the ready lists of the reached window starts. */
  ghost predicate ConnectedForward(before: map<nat, SlotMarks>, after: map<nat, SlotMarks>, from: nat,
                                   ids: seq<BlockId>) {
    forall s: nat :: At(after, s) ==
      if s > from && IsStartOfWindow(s) && Reach(before, from, s)
      then At(before, s).(ready := At(before, s).ready + ids) else At(before, s)
  }

  /** The window starts strictly between have been extended so far. */
  ghost predicate ReadyUpTo(before: map<nat, SlotMarks>, after: map<nat, SlotMarks>, from: nat, end: nat,
                            ids: seq<BlockId>) {
    forall s: nat :: At(after, s) ==
      if from < s < end && IsStartOfWindow(s)
      then At(before, s).(ready := At(before, s).ready + ids) else At(before, s)
  }

  /** The pairs that are ready afterwards and were not before; nothing ready is lost. */
  ghost predicate NewPairs(before: map<nat, SlotMarks>, after: map<nat, SlotMarks>, out: seq<ReadyPair>) {
    && NoRepeats(out)
    && (forall p :: p in out <==> p.parent in At(after, p.slot).ready && p.parent !in At(before, p.slot).ready)
    && (forall s: nat :: At(before, s).ready <= At(after, s).ready)
    && (forall i :: 0 <= i < |out| && FirstOfSlot(out, i) ==> IsNext(before, after, out[i]))
  }

  /** No earlier pair has the same slot. */
  ghost predicate FirstOfSlot(out: seq<ReadyPair>, i: nat)
    requires i < |out|
  {
    forall j :: 0 <= j < i ==> out[j].slot != out[i].slot
  }

  /** The pair names the first parent appended to its slot's ready list. */
  ghost predicate IsNext(before: map<nat, SlotMarks>, after: map<nat, SlotMarks>, p: ReadyPair) {
    var was, now := At(before, p.slot).ready, At(after, p.slot).ready;
    |was| < |now| && p.parent == now[|was|]
  }

  /** The first parent appended to the ready list of the highest slot that got any, and none
      only when no list grew. */
  ghost predicate BestNew(before: map<nat, SlotMarks>, after: map<nat, SlotMarks>, best: Option<ReadyPair>) {
    && (forall s: nat :: At(before, s).ready <= At(after, s).ready)
    && (best.Some? ==> IsNext(before, after, best.value))
    && (forall s: nat :: At(after, s).ready != At(before, s).ready ==> best.Some? && s <= best.value.slot)
  }

  lemma BestStep(before: map<nat, SlotMarks>, mid: map<nat, SlotMarks>, after: map<nat, SlotMarks>,
                 best: Option<ReadyPair>, pairs: seq<ReadyPair>, better: Option<ReadyPair>)
    requires BestNew(before, mid, best) && NewPairs(mid, after, pairs)
    requires better == best || exists i :: 0 <= i < |pairs| && better == Some(pairs[i]) && FirstOfSlot(pairs, i)
    requires better != best ==> best.None? || best.value.slot < better.value.slot
    requires forall p :: p in pairs ==> better.Some? && p.slot <= better.value.slot
    requires forall s: nat :: NoRepeats(At(after, s).ready)
    ensures BestNew(before, after, better)
  {
    if better != best {
      var i :| 0 <= i < |pairs| && better == Some(pairs[i]) && FirstOfSlot(pairs, i);
      assert IsNext(mid, after, pairs[i]);
      assert At(mid, pairs[i].slot).ready == At(before, pairs[i].slot).ready;
    }
    forall s: nat | At(after, s).ready != At(before, s).ready
      ensures better.Some? && s <= better.value.slot
    {
      if At(after, s).ready != At(mid, s).ready {
        NextIsNew(mid, after, pairs, s);
      }
    }
  }

  lemma BestIsReady(before: map<nat, SlotMarks>, after: map<nat, SlotMarks>, best: Option<ReadyPair>)
    requires BestNew(before, after, best) && best.Some?
    ensures best.value.parent in At(after, best.value.slot).ready
  {
  }

  ghost predicate NewlyReady(before: map<nat, SlotMarks>, after: map<nat, SlotMarks>, s: nat, b: BlockId) {
    b in At(after, s).ready && b !in At(before, s).ready
  }

  /** The block is on a ready list from which only skipped slots lead to `s`. */
  ghost predicate HandedOn(root: nat, states: map<nat, SlotMarks>, skipped: set<nat>, b: BlockId, s: nat) {
    exists from: nat :: root <= from <= s && b in At(states, from).ready && AllSkipped(skipped, from, s)
  }

  /** What will become ready once the given blocks and slots are marked: blocks connected by the
      marks, and blocks from below the root that are handed on. */
  ghost predicate BecomesReady(root: nat, states: map<nat, SlotMarks>, marked: set<BlockId>, skipped: set<nat>, s: nat,
                               b: BlockId) {
    && s >= root && IsStartOfWindow(s) && b !in At(states, s).ready
    && (if b.slot >= root then Connected(marked, skipped, b, s) else HandedOn(root, states, skipped, b, s))
  }

  ghost predicate AtMostOneBecomesReady(root: nat, states: map<nat, SlotMarks>, marked: set<BlockId>,
                                        skipped: set<nat>) {
    forall s: nat, b: BlockId, t: nat, c: BlockId ::
      BecomesReady(root, states, marked, skipped, s, b) && BecomesReady(root, states, marked, skipped, t, c) ==>
      s == t && b == c
  }

  /** Among the pairs that become ready one with the highest slot, or none iff there are none. */
  ghost predicate BestReady(root: nat, states: map<nat, SlotMarks>, marked: set<BlockId>, skipped: set<nat>,
                            best: Option<ReadyPair>) {
    && (best.Some? ==> BecomesReady(root, states, marked, skipped, best.value.slot, best.value.parent))
    && (forall s: nat, b: BlockId :: BecomesReady(root, states, marked, skipped, s, b) ==>
          best.Some? && s <= best.value.slot)
  }

  /** Nothing changed below the root, and what is listed from below it was handed on. */
  ghost predicate OnlyHandedOn(root: nat, before: map<nat, SlotMarks>, after: map<nat, SlotMarks>, skipped: set<nat>) {
    && (forall s: nat :: s < root ==> At(after, s).ready == At(before, s).ready)
    && (forall s: nat, b: BlockId :: s >= root && b.slot < root && b in At(after, s).ready ==>
          HandedOn(root, before, skipped, b, s))
  }

  lemma SameIsHandedOn(root: nat, before: map<nat, SlotMarks>, after: map<nat, SlotMarks>, skipped: set<nat>)
    requires forall s: nat, b: BlockId :: b.slot < root ==> (b in At(after, s).ready <==> b in At(before, s).ready)
    requires forall s: nat :: s < root ==> At(after, s).ready == At(before, s).ready
    ensures OnlyHandedOn(root, before, after, skipped)
  {
    forall s: nat, b: BlockId | s >= root && b.slot < root && b in At(after, s).ready
      ensures HandedOn(root, before, skipped, b, s)
    {
      assert AllSkipped(skipped, s, s);
    }
  }

  lemma HandedOnTwice(root: nat, before: map<nat, SlotMarks>, mid: map<nat, SlotMarks>, after: map<nat, SlotMarks>,
                      skipped: set<nat>, skipped': set<nat>)
    requires OnlyHandedOn(root, before, mid, skipped) && OnlyHandedOn(root, mid, after, skipped') && skipped <= skipped'
    ensures OnlyHandedOn(root, before, after, skipped')
  {
    forall s: nat, b: BlockId | s >= root && b.slot < root && b in At(after, s).ready
      ensures HandedOn(root, before, skipped', b, s)
    {
      var t: nat :| root <= t <= s && b in At(mid, t).ready && AllSkipped(skipped', t, s);
      assert HandedOn(root, before, skipped, b, t);
      var u: nat :| root <= u <= t && b in At(before, u).ready && AllSkipped(skipped, u, t);
      assert AllSkipped(skipped', u, s);
    }
  }

  /** What becomes ready is determined by the lists before and the marks. */
  lemma BecomesReadyIff(root: nat, before: map<nat, SlotMarks>, after: map<nat, SlotMarks>, marked: set<BlockId>,
                        skipped: set<nat>, s: nat, b: BlockId)
    requires Exact(root, after, marked, skipped) && OnlyHandedOn(root, before, after, skipped)
    requires forall t: nat :: At(before, t).ready <= At(after, t).ready
    ensures NewlyReady(before, after, s, b) <==> BecomesReady(root, before, marked, skipped, s, b)
  {
    if BecomesReady(root, before, marked, skipped, s, b) && b.slot < root {
      var t: nat :| root <= t <= s && b in At(before, t).ready && AllSkipped(skipped, t, s);
      assert b in At(after, t).ready;
    }
  }

  /** The one returned pair is all that is new iff at most one pair becomes ready, which the
      tracker before the call and the new marks decide. */
  lemma BestIsAllIff(root: nat, before: map<nat, SlotMarks>, after: map<nat, SlotMarks>, marked: set<BlockId>,
                     skipped: set<nat>, best: Option<ReadyPair>)
    requires Exact(root, after, marked, skipped) && OnlyHandedOn(root, before, after, skipped)
    requires BestNew(before, after, best)
    ensures (forall s: nat, b: BlockId :: NewlyReady(before, after, s, b) ==> best == Some(ReadyPair(s, b)))
       <==> AtMostOneBecomesReady(root, before, marked, skipped)
  {
    hide BecomesReady, Exact, OnlyHandedOn;
    forall s: nat, b: BlockId
      ensures NewlyReady(before, after, s, b) <==> BecomesReady(root, before, marked, skipped, s, b)
    {
      BecomesReadyIff(root, before, after, marked, skipped, s, b);
    }
    if best.Some? {
      BestIsNew(root, before, after, marked, skipped, best);
      assert BecomesReady(root, before, marked, skipped, best.value.slot, best.value.parent);
    }
  }

  lemma BestNewIsReady(root: nat, before: map<nat, SlotMarks>, after: map<nat, SlotMarks>, marked: set<BlockId>,
                       skipped: set<nat>, best: Option<ReadyPair>)
    requires Exact(root, after, marked, skipped) && BestNew(before, after, best)
    requires forall s: nat, b: BlockId ::
        NewlyReady(before, after, s, b) <==> BecomesReady(root, before, marked, skipped, s, b)
    ensures BestReady(root, before, marked, skipped, best)
  {
    hide BecomesReady, Exact;
    if best.Some? {
      BestIsNew(root, before, after, marked, skipped, best);
    }
    forall s: nat, b: BlockId | BecomesReady(root, before, marked, skipped, s, b)
      ensures best.Some? && s <= best.value.slot
    {
      assert NewlyReady(before, after, s, b);
      assert At(after, s).ready != At(before, s).ready;
    }
  }

  lemma BestIsNew(root: nat, before: map<nat, SlotMarks>, after: map<nat, SlotMarks>, marked: set<BlockId>,
                  skipped: set<nat>, best: Option<ReadyPair>)
    requires Exact(root, after, marked, skipped) && BestNew(before, after, best) && best.Some?
    ensures NewlyReady(before, after, best.value.slot, best.value.parent)
  {
    var p := best.value;
    var was, now := At(before, p.slot).ready, At(after, p.slot).ready;
    assert NoRepeats(now);
    assert forall k :: 0 <= k < |was| ==> was[k] == now[k];
  }

  lemma NextIsNew(before: map<nat, SlotMarks>, after: map<nat, SlotMarks>, pairs: seq<ReadyPair>, s: nat)
    requires NewPairs(before, after, pairs) && NoRepeats(At(after, s).ready)
    requires At(after, s).ready != At(before, s).ready
    ensures exists p :: p in pairs && p.slot == s
  {
    var was, now := At(before, s).ready, At(after, s).ready;
    assert |was| < |now|;
    assert forall k :: 0 <= k < |was| ==> was[k] == now[k];
    assert now[|was|] !in was;
    assert ReadyPair(s, now[|was|]) in pairs;
  }

  /** Every group of pairs starts with the first of the given parents. */
  ghost predicate StartsWith(out: seq<ReadyPair>, ids: seq<BlockId>) {
    forall i :: 0 <= i < |out| && FirstOfSlot(out, i) ==> |ids| > 0 && out[i].parent == ids[0]
  }

  lemma StartsWithJoin(out: seq<ReadyPair>, s: nat, ids: seq<BlockId>)
    requires StartsWith(out, ids) && forall p :: p in out ==> p.slot < s
    ensures StartsWith(out + PairsAt(s, ids), ids)
  {
    var q := out + PairsAt(s, ids);
    forall i | |out| < i < |q|
      ensures !FirstOfSlot(q, i)
    {
      assert q[|out|].slot == q[i].slot;
    }
    forall i | 0 <= i < |q| && FirstOfSlot(q, i)
      ensures |ids| > 0 && q[i].parent == ids[0]
    {
      if i < |out| {
        assert forall j :: 0 <= j < i ==> q[j] == out[j];
        assert FirstOfSlot(out, i);
      }
    }
  }

  /** What a forward pass appends, it returns. */
  lemma ForwardIsNew(start: map<nat, SlotMarks>, before: map<nat, SlotMarks>, after: map<nat, SlotMarks>, from: nat,
                     ids: seq<BlockId>, out: seq<ReadyPair>)
    requires forall s: nat :: At(before, s).ready == At(start, s).ready
    requires ConnectedForward(before, after, from, ids) && NoRepeats(out) && StartsWith(out, ids)
    requires forall s: nat, b :: b in ids && s > from ==> b !in At(before, s).ready
    requires forall p :: p in out <==> ForwardPair(before, from, ids, p.slot, p.parent)
    ensures NewPairs(start, after, out)
  {
    forall i | 0 <= i < |out| && FirstOfSlot(out, i)
      ensures IsNext(start, after, out[i])
    {
      assert out[i] in out;
    }
  }

  // ---- the marks keep the relation exact ----

  /** Reaching a slot above the root means the slots in between are in the skip history. */
  lemma ReachIsSkipped(root: nat, states: map<nat, SlotMarks>, marked: set<BlockId>, skipped: set<nat>, from: nat,
                       to: nat)
    requires MarksMatch(root, states, marked, skipped) && from >= root
    ensures Reach(states, from, to) <==> forall t :: from < t < to ==> t in skipped
  {
  }

  ghost function NoteFallback(states: map<nat, SlotMarks>, b: BlockId): map<nat, SlotMarks> {
    states[b.slot := At(states, b.slot).(fallbacks := At(states, b.slot).fallbacks + [b.hash])]
  }

  /** How one ready list changes when a block is marked. */
  lemma MarkedReady(root: nat, before: map<nat, SlotMarks>, after: map<nat, SlotMarks>,
                    marked: set<BlockId>, skipped: set<nat>, b: BlockId, s: nat)
    requires MarksMatch(root, before, marked, skipped) && b.slot >= root
    requires ConnectedForward(NoteFallback(before, b), after, b.slot, [b])
    ensures At(after, s).ready == At(before, s).ready
              + if IsStartOfWindow(s) && Connected(marked + {b}, skipped, b, s) then [b] else []
  {
    ReachIsSkipped(root, before, marked, skipped, b.slot, s);
    assert forall t: nat :: At(NoteFallback(before, b), t).skip == At(before, t).skip;
    assert Reach(NoteFallback(before, b), b.slot, s) <==> Reach(before, b.slot, s);
  }

  lemma MarkKeepsExact(root: nat, before: map<nat, SlotMarks>, after: map<nat, SlotMarks>,
                       marked: set<BlockId>, skipped: set<nat>, b: BlockId)
    requires Exact(root, before, marked, skipped) && b.slot >= root && b !in marked
    requires ConnectedForward(NoteFallback(before, b), after, b.slot, [b])
    ensures Exact(root, after, marked + {b}, skipped)
  {
    forall s: nat
      ensures At(after, s).ready == At(before, s).ready
                + if IsStartOfWindow(s) && Connected(marked + {b}, skipped, b, s) then [b] else []
      ensures b !in At(before, s).ready
    {
      MarkedReady(root, before, after, marked, skipped, b, s);
    }
    forall c, s | c != b
      ensures Connected(marked + {b}, skipped, c, s) <==> Connected(marked, skipped, c, s)
    {
    }
    MarkKeepsMarks(root, before, after, marked, skipped, b);
    MarkKeepsClosed(root, before, after, marked + {b}, skipped, b);
  }

  lemma MarkKeepsClosed(root: nat, before: map<nat, SlotMarks>, after: map<nat, SlotMarks>,
                        marked: set<BlockId>, skipped: set<nat>, b: BlockId)
    requires ReadyClosed(root, before, skipped)
    requires forall s: nat ::
        At(after, s).ready ==
          At(before, s).ready + if IsStartOfWindow(s) && Connected(marked, skipped, b, s) then [b] else []
    ensures ReadyClosed(root, after, skipped)
  {
    forall s: nat, t: nat, c |
        root <= s < t && IsStartOfWindow(t) && c in At(after, s).ready && AllSkipped(skipped, s, t)
      ensures c in At(after, t).ready
    {
      if c !in At(before, s).ready {
        assert Connected(marked, skipped, b, s);
        assert Connected(marked, skipped, b, t);
      }
    }
  }

  lemma MarkKeepsMarks(root: nat, before: map<nat, SlotMarks>, after: map<nat, SlotMarks>,
                       marked: set<BlockId>, skipped: set<nat>, b: BlockId)
    requires MarksMatch(root, before, marked, skipped) && Distinct(before) && b.slot >= root && b !in marked
    requires ConnectedForward(NoteFallback(before, b), after, b.slot, [b])
    ensures MarksMatch(root, after, marked + {b}, skipped)
    ensures forall s: nat :: NoRepeats(At(after, s).fallbacks)
  {
    forall s: nat
      ensures At(after, s).skip == At(before, s).skip
      ensures At(after, s).fallbacks == At(before, s).fallbacks + if s == b.slot then [b.hash] else []
    {
    }
  }

  lemma MarkHandsNothingOn(root: nat, before: map<nat, SlotMarks>, after: map<nat, SlotMarks>, skipped: set<nat>,
                           b: BlockId)
    requires b.slot >= root && ConnectedForward(NoteFallback(before, b), after, b.slot, [b])
    ensures OnlyHandedOn(root, before, after, skipped)
  {
    SameIsHandedOn(root, before, after, skipped);
  }

  /** The parents a newly skipped slot can pass on: blocks connected to it. */
  ghost predicate Potential(root: nat, ids: seq<BlockId>, marked: set<BlockId>, skipped: set<nat>, m: nat) {
    && NoRepeats(ids)
    && (forall b :: b in ids ==> Connected(marked, skipped, b, m))
    && (forall b: BlockId :: b.slot >= root && Connected(marked, skipped, b, m) ==> b in ids)
  }

  /** It also passes on the parents of its own window's start, from below the root none else. */
  ghost predicate PassesWindow(root: nat, states: map<nat, SlotMarks>, ids: seq<BlockId>, skipped: set<nat>, m: nat) {
    var first := FirstSlotInWindow(m);
    && (forall b :: root <= first && b in At(states, first).ready && AllSkipped(skipped, first, m) ==> b in ids)
    && (forall b: BlockId :: b in ids && b.slot < root ==>
          root <= first && b in At(states, first).ready && AllSkipped(skipped, first, m))
  }

  /** The lists stay closed when a slot is skipped. */
  lemma SkipKeepsClosed(root: nat, before: map<nat, SlotMarks>, noted: map<nat, SlotMarks>, after: map<nat, SlotMarks>,
                        marked: set<BlockId>, skipped: set<nat>, m: nat, ids: seq<BlockId>)
    requires Exact(root, before, marked, skipped) && m >= root && m !in skipped
    requires forall s :: At(noted, s) == if s == m then At(before, m).(skip := true) else At(before, s)
    requires PassesWindow(root, before, ids, skipped, m) && ConnectedForward(noted, after, m, ids)
    ensures ReadyClosed(root, after, skipped + {m})
  {
    forall s: nat, t: nat, c |
      root <= s < t && IsStartOfWindow(t) && c in At(after, s).ready && AllSkipped(skipped + {m}, s, t)
      ensures c in At(after, t).ready
    {
      if c in At(before, s).ready {
        if s <= m < t {
          HandedToWindow(root, before, marked, skipped, m, ids, s, c);
          assert Reach(noted, m, t);
        } else {
          assert AllSkipped(skipped, s, t);
        }
      } else {
        assert c in ids && Reach(noted, m, s) && s > m;
        assert Reach(noted, m, t);
      }
    }
  }

  lemma HandedToWindow(root: nat, before: map<nat, SlotMarks>, marked: set<BlockId>, skipped: set<nat>, m: nat,
                       ids: seq<BlockId>, s: nat, c: BlockId)
    requires Exact(root, before, marked, skipped) && PassesWindow(root, before, ids, skipped, m)
    requires root <= s <= m && c in At(before, s).ready && forall t :: s <= t < m ==> t in skipped
    ensures c in ids
  {
    var first := FirstSlotInWindow(m);
    assert IsStartOfWindow(s) && s <= first;
    assert AllSkipped(skipped, s, first) && AllSkipped(skipped, first, m);
  }

  /** What a skipped slot adds from below the root was handed on. */
  lemma SkipHandsOn(root: nat, before: map<nat, SlotMarks>, noted: map<nat, SlotMarks>, after: map<nat, SlotMarks>,
                    marked: set<BlockId>, skipped: set<nat>, m: nat, ids: seq<BlockId>)
    requires Exact(root, before, marked, skipped) && m >= root
    requires forall s :: At(noted, s) == if s == m then At(before, m).(skip := true) else At(before, s)
    requires PassesWindow(root, before, ids, skipped, m) && ConnectedForward(noted, after, m, ids)
    ensures OnlyHandedOn(root, before, after, skipped + {m})
  {
    var first := FirstSlotInWindow(m);
    forall s: nat, b: BlockId | s >= root && b.slot < root && b in At(after, s).ready
      ensures HandedOn(root, before, skipped + {m}, b, s)
    {
      if b in At(before, s).ready {
        assert AllSkipped(skipped + {m}, s, s);
      } else {
        assert b in ids && Reach(noted, m, s) && s > m;
        assert AllSkipped(skipped + {m}, first, s);
      }
    }
  }

  lemma SkipKeepsExact(root: nat, before: map<nat, SlotMarks>, noted: map<nat, SlotMarks>, after: map<nat, SlotMarks>,
                       marked: set<BlockId>, skipped: set<nat>, m: nat, ids: seq<BlockId>)
    requires Exact(root, before, marked, skipped) && m >= root && m !in skipped
    requires forall s :: At(noted, s) == if s == m then At(before, m).(skip := true) else At(before, s)
    requires Potential(root, ids, marked, skipped, m) && PassesWindow(root, before, ids, skipped, m)
    requires ConnectedForward(noted, after, m, ids)
    ensures Exact(root, after, marked, skipped + {m})
  {
    var skipped' := skipped + {m};
    SkipKeepsClosed(root, before, noted, after, marked, skipped, m, ids);
    hide ReadyClosed, PassesWindow;
    forall s, c | c in At(after, s).ready
      ensures IsStartOfWindow(s) && Connected(marked, skipped', c, s)
    {
      if c !in At(before, s).ready {
        assert c in ids && Reach(noted, m, s);
        assert forall t :: m < t < s ==> At(noted, t).skip;
      } else {
        assert Connected(marked, skipped, c, s);
      }
    }
    forall s
      ensures NoRepeats(At(after, s).ready)
    {
      SkipNoRepeats(before, marked, skipped, root, m, ids, s);
    }
    forall s, c: BlockId | s >= root && IsStartOfWindow(s) && c.slot >= root && Connected(marked, skipped', c, s)
      ensures c in At(after, s).ready
    {
      if c.slot < m < s {
        assert Connected(marked, skipped, c, m);
        assert Reach(noted, m, s);
      } else {
        assert Connected(marked, skipped, c, s);
      }
    }
  }

  /** No potential parent is already ready beyond a slot that was not skipped before. */
  lemma SkipNoRepeats(before: map<nat, SlotMarks>, marked: set<BlockId>, skipped: set<nat>, root: nat, m: nat,
                      ids: seq<BlockId>, s: nat)
    requires Exact(root, before, marked, skipped) && m !in skipped
    requires Potential(root, ids, marked, skipped, m)
    ensures NoRepeats(At(before, s).ready)
    ensures s > m ==> NoRepeats(At(before, s).ready + ids)
    ensures s > m ==> forall c :: c in ids ==> c !in At(before, s).ready
  {
    if s > m {
      forall c | c in ids
        ensures c !in At(before, s).ready
      {
        assert c in At(before, s).ready ==> Connected(marked, skipped, c, s);
      }
      var q := At(before, s).ready;
      assert forall i :: 0 <= i < |q| ==> q[i] in q;
      assert forall i :: 0 <= i < |ids| ==> ids[i] in ids;
    }
  }

  lemma PruneKeepsExact(root: nat, states: map<nat, SlotMarks>, marked: set<BlockId>, skipped: set<nat>, root': nat,
                        states': map<nat, SlotMarks>)
    requires Exact(root, states, marked, skipped) && root' >= root
    requires states' == map s | s in states && s >= root' :: states[s]
    ensures Exact(root', states', marked, skipped)
  {
  }

  // ---- gathering the parents a skipped slot passes on ----

  /** What walking back from slot `m` through its window finds: fallback blocks reached
      over skipped slots, and the ready parents of the window if all of it is skipped. */
  ghost predicate Found(root: nat, states: map<nat, SlotMarks>, m: nat, b: BlockId) {
    var first := FirstSlotInWindow(m);
    || (Max(first, root) <= b.slot < m && b.hash in At(states, b.slot).fallbacks && Reach(states, b.slot, m))
    || (root <= first && b in At(states, first).ready && forall t :: first <= t < m ==> At(states, t).skip)
  }

  lemma FoundIsPotential(root: nat, before: map<nat, SlotMarks>, noted: map<nat, SlotMarks>,
                         marked: set<BlockId>, skipped: set<nat>, m: nat, ids: seq<BlockId>)
    requires Exact(root, before, marked, skipped) && m >= root
    requires forall s: nat :: At(noted, s) == if s == m then At(before, m).(skip := true) else At(before, s)
    requires NoRepeats(ids) && forall b :: b in ids <==> Found(root, noted, m, b)
    ensures Potential(root, ids, marked, skipped, m) && PassesWindow(root, before, ids, skipped, m)
  {
    var first := FirstSlotInWindow(m);
    assert root <= first ==> (AllSkipped(skipped, first, m) <==> forall t :: first <= t < m ==> At(noted, t).skip);
  }

  function BlocksOf(s: nat, hashes: seq<BlockHash>): (q: seq<BlockId>)
    ensures |q| == |hashes| && forall i :: 0 <= i < |q| ==> q[i] == BlockId(s, hashes[i])
  {
    seq(|hashes|, i requires 0 <= i < |hashes| => BlockId(s, hashes[i]))
  }

  ghost function Above(slots: set<nat>, s: nat): set<nat> {
    set t | t in slots && t >= s
  }

  lemma AboveShrinks(slots: set<nat>, s: nat)
    requires s in slots
    ensures Above(slots, s + 1) < Above(slots, s)
  {
    assert s in Above(slots, s);
  }

  lemma GenesisExact(states: map<nat, SlotMarks>)
    requires states == map[0 := UNMARKED.(fallbacks := [GENESIS_BLOCK_HASH])]
    ensures Exact(0, states, {GenesisBlock()}, {})
  {
    var skipped: set<nat> := {};
    forall s: nat, b
      ensures !(IsStartOfWindow(s) && Connected({GenesisBlock()}, skipped, b, s))
    {
      assert 1 !in skipped;
    }
  }

  /** The fallback blocks strictly between a slot and `m`. */
  ghost predicate FoundAbove(states: map<nat, SlotMarks>, s: nat, m: nat, b: BlockId) {
    s < b.slot < m && b.hash in At(states, b.slot).fallbacks
  }

  lemma BlocksOfElements(s: nat, hashes: seq<BlockHash>)
    requires NoRepeats(hashes)
    ensures NoRepeats(BlocksOf(s, hashes))
    ensures forall b :: b in BlocksOf(s, hashes) <==> b.slot == s && b.hash in hashes
  {
  }

  class ParentReadyTracker {
    var root: nat
    var states: map<nat, SlotMarks>

    /** The history: every block and slot whose mark was accepted. */
    ghost var marked: set<BlockId>
    ghost var skipped: set<nat>

    ghost predicate Valid()
      reads this
    {
      Exact(root, states, marked, skipped)
    }

    /** The genesis block is the only notarized-fallback block. */
    constructor Genesis()
      ensures Valid() && root == 0 && marked == {GenesisBlock()} && skipped == {}
    {
      root := 0;
      states := map[0 := UNMARKED.(fallbacks := [GENESIS_BLOCK_HASH])];
      marked := {GenesisBlock()};
      skipped := {};
      new;
      GenesisExact(states);
    }

    /** Creates the state of a slot on first use. */
    method Touch(s: nat) returns (m: SlotMarks)
      modifies this`states
      ensures m == At(states, s) && states == old(states)[s := m]
      ensures forall t: nat :: At(states, t) == old(At(states, t))
    {
      if s !in states {
        states := states[s := UNMARKED];
      }
      return states[s];
    }

    /** Adds parents to one ready list; the source asserts that none is there already. */
    method AddToReady(s: nat, ids: seq<BlockId>) returns (out: seq<ReadyPair>)
      requires NoRepeats(ids) && forall b :: b in ids ==> b !in At(states, s).ready
      modifies this`states
      ensures forall t: nat ::
          At(states, t) == if t == s then old(At(states, s)).(ready := old(At(states, s)).ready + ids)
            else old(At(states, t))
      ensures out == PairsAt(s, ids)
    {
      out := [];
      assert old(At(states, s)).(ready := old(At(states, s)).ready + ids[..0]) == old(At(states, s));
      for i := 0 to |ids|
        invariant forall t: nat ::
            At(states, t) == if t == s then old(At(states, s)).(ready := old(At(states, s)).ready + ids[..i])
              else old(At(states, t))
        invariant out == PairsAt(s, ids)[..i]
      {
        var e := Touch(s);
        assert ids[i] !in e.ready;
        states := states[s := e.(ready := e.ready + [ids[i]])];
        out := out + [ReadyPair(s, ids[i])];
        assert ids[..i + 1] == ids[..i] + [ids[i]];
      }
      assert ids[..|ids|] == ids;
    }

    /** Walks forward over skip-certified slots, making the blocks ready at every window
        start on the way and at the first slot that is not skipped. */
    method ConnectForward(from: nat, ids: seq<BlockId>) returns (out: seq<ReadyPair>)
      requires NoRepeats(ids)
      requires forall s: nat, b :: b in ids && s > from ==> b !in At(states, s).ready
      modifies this`states
      ensures ConnectedForward(old(states), states, from, ids)
      ensures NoRepeats(out) && forall p :: p in out <==> ForwardPair(old(states), from, ids, p.slot, p.parent)
      ensures StartsWith(out, ids)
    {
      out := [];
      var s := from + 1;
      ghost var before := states;
      ghost var certified := set t | t in before && before[t].skip;
      while true
        invariant s > from && Reach(before, from, s)
        invariant ReadyUpTo(before, states, from, s, ids)
        invariant NoRepeats(out) && StartsWith(out, ids)
        invariant forall p :: p in out <==> from < p.slot < s && IsStartOfWindow(p.slot) && p.parent in ids
        decreases Above(certified, s)
      {
        if IsStartOfWindow(s) {
          var pairs := AddToReady(s, ids);
          PairsAtElements(s, ids);
          NoRepeatsJoin(out, pairs);
          StartsWithJoin(out, s, ids);
          out := out + pairs;
        }
        var e := Touch(s);
        if !e.skip {
          break;
        }
        assert s in before && before[s].skip;
        AboveShrinks(certified, s);
        s := s + 1;
      }
      assert forall t: nat :: t > s ==> !Reach(before, from, t);
      assert forall t: nat :: from < t <= s ==> Reach(before, from, t);
    }

    /** Marks a block notarized-fallback; returns exactly the pairs that became ready. */
    method MarkNotarFallback(b: BlockId) returns (out: seq<ReadyPair>)
      requires Valid()
      modifies this`states, this`marked
      ensures Valid()
      ensures marked == old(marked) + if b.slot >= root then {b} else {}
      ensures NewPairs(old(states), states, out) && OnlyHandedOn(root, old(states), states, skipped)
    {
      out := [];
      SameIsHandedOn(root, states, states, skipped);
      if b.slot < root {
        return;
      }
      var e := Touch(b.slot);
      if b.hash in e.fallbacks {
        assert BlockId(b.slot, b.hash) == b;
        SameIsHandedOn(root, old(states), states, skipped);
        return;
      }
      states := states[b.slot := e.(fallbacks := e.fallbacks + [b.hash])];
      assert states == NoteFallback(old(states), b);
      assert BlockId(b.slot, b.hash) == b;
      assert forall s: nat :: At(states, s).ready == At(old(states), s).ready;
      ghost var noted := states;
      hide NewPairs, StartsWith, OnlyHandedOn, ReadyClosed;
      out := ConnectForward(b.slot, [b]);
      ForwardIsNew(old(states), noted, states, b.slot, [b], out);
      MarkKeepsExact(root, old(states), states, old(marked), skipped, b);
      MarkHandsNothingOn(root, old(states), states, skipped, b);
      marked := marked + {b};
    }

    /** Marks a slot skipped; returns exactly the pairs that became ready. */
    method MarkSkipped(m: nat) returns (out: seq<ReadyPair>)
      requires Valid()
      modifies this`states, this`skipped
      ensures Valid()
      ensures skipped == old(skipped) + if m >= root then {m} else {}
      ensures NewPairs(old(states), states, out) && OnlyHandedOn(root, old(states), states, skipped)
    {
      out := [];
      SameIsHandedOn(root, states, states, skipped);
      if m < root {
        return;
      }
      var e := Touch(m);
      if e.skip {
        SameIsHandedOn(root, old(states), states, skipped);
        return;
      }
      states := states[m := e.(skip := true)];
      ghost var noted := states;
      assert forall s: nat ::
        At(noted, s).ready == At(old(states), s).ready && At(noted, s).fallbacks == At(old(states), s).fallbacks;
      var ids := GatherParents(m);
      FoundIsPotential(root, old(states), noted, marked, skipped, m, ids);
      forall s: nat
        ensures s > m ==> forall c :: c in ids ==> c !in At(states, s).ready
      {
        SkipNoRepeats(old(states), marked, skipped, root, m, ids, s);
      }
      ghost var gathered := states;
      hide NewPairs, StartsWith, Found, OnlyHandedOn, PassesWindow, ReadyClosed;
      out := ConnectForward(m, ids);
      ForwardIsNew(old(states), gathered, states, m, ids, out);
      SkipKeepsExact(root, old(states), gathered, states, marked, skipped, m, ids);
      SkipHandsOn(root, old(states), gathered, states, marked, skipped, m, ids);
      skipped := skipped + {m};
    }

    /** Walks back through the window of a freshly skipped slot and collects the parents
        it can pass on. */
    method GatherParents(m: nat) returns (ids: seq<BlockId>)
      requires Distinct(states) && m >= root && At(states, m).skip
      requires forall s: nat, b :: b in At(states, s).ready ==> IsStartOfWindow(s) && b.slot < s
      modifies this`states
      ensures forall t: nat :: At(states, t) == old(At(states, t))
      ensures NoRepeats(ids) && forall b :: b in ids <==> Found(root, old(states), m, b)
    {
      ids := [];
      assert NoRepeats(ids);
      hide NoRepeats;
      var first := FirstSlotInWindow(m);
      var s := m;
      while true
        invariant s <= m && (first <= s || s + 1 == first) && (root <= s || s + 1 == root)
        invariant forall t: nat :: At(states, t) == old(At(states, t))
        invariant forall t :: s < t <= m ==> At(states, t).skip
        invariant NoRepeats(ids)
        invariant first <= s && root <= s ==> forall b :: b in ids <==> FoundAbove(states, s, m, b)
        invariant s < first || s < root ==> forall b :: b in ids <==> Found(root, states, m, b)
        decreases s
      {
        if first <= s && s >= root {
          var e := Touch(s);
          if s != m {
            BlocksOfElements(s, e.fallbacks);
            NoRepeatsJoin(ids, BlocksOf(s, e.fallbacks));
            ids := ids + BlocksOf(s, e.fallbacks);
          }
          if !e.skip {
            break;
          }
          NoRepeatsJoin(ids, e.ready);
          ids := ids + e.ready;
        }
        if s == 0 || s < first || s < root {
          break;
        }
        s := s - 1;
      }
    }

    /** Marks blocks in order, keeping the best of the pairs that are new since `before`. */
    method MarkBlocks(blocks: seq<BlockId>, start: Option<ReadyPair>, ghost before: map<nat, SlotMarks>)
      returns (best: Option<ReadyPair>)
      requires Valid() && BestNew(before, states, start) && OnlyHandedOn(root, before, states, skipped)
      modifies this`states, this`marked
      ensures Valid() && BestNew(before, states, best) && OnlyHandedOn(root, before, states, skipped)
      ensures marked == old(marked) + AtOrAbove(root, blocks)
    {
      hide OnlyHandedOn, BestNew, NewPairs;
      best := start;
      for i := 0 to |blocks|
        invariant Valid() && BestNew(before, states, best) && OnlyHandedOn(root, before, states, skipped)
        invariant marked == old(marked) + AtOrAbove(root, blocks[..i])
      {
        ghost var mid, had := states, skipped;
        var pairs := MarkNotarFallback(blocks[i]);
        var better := Better(best, pairs);
        BestStep(before, mid, states, best, pairs, better);
        HandedOnTwice(root, before, mid, states, had, skipped);
        best := better;
        assert blocks[..i + 1] == blocks[..i] + [blocks[i]];
      }
      assert blocks[..|blocks|] == blocks;
    }

    method MarkGaps(gaps: seq<nat>, start: Option<ReadyPair>, ghost before: map<nat, SlotMarks>)
      returns (best: Option<ReadyPair>)
      requires Valid() && BestNew(before, states, start) && OnlyHandedOn(root, before, states, skipped)
      modifies this`states, this`skipped
      ensures Valid() && BestNew(before, states, best) && OnlyHandedOn(root, before, states, skipped)
      ensures skipped == old(skipped) + SlotsAtOrAbove(root, gaps)
    {
      hide OnlyHandedOn, BestNew, NewPairs;
      best := start;
      for i := 0 to |gaps|
        invariant Valid() && BestNew(before, states, best) && OnlyHandedOn(root, before, states, skipped)
        invariant skipped == old(skipped) + SlotsAtOrAbove(root, gaps[..i])
      {
        ghost var mid, had := states, skipped;
        var pairs := MarkSkipped(gaps[i]);
        var better := Better(best, pairs);
        BestStep(before, mid, states, best, pairs, better);
        HandedOnTwice(root, before, mid, states, had, skipped);
        best := better;
        assert gaps[..i + 1] == gaps[..i] + [gaps[i]];
      }
      assert gaps[..|gaps|] == gaps;
    }

    /** A finalization will make at most one parent ready. */
    ghost predicate OneParentAtMost(finalized: Option<BlockId>, ancestors: seq<BlockId>, gaps: seq<nat>)
      reads this
    {
      var blocks := (if finalized.Some? then [finalized.value] else []) + ancestors;
      AtMostOneBecomesReady(root, states, marked + AtOrAbove(root, blocks), skipped + SlotsAtOrAbove(root, gaps))
    }

    /** Marks the finalized and implicitly finalized blocks and the implicitly skipped
        slots; returns at most one of the new pairs: of the highest slot, the first parent
        appended to its ready list. */
    method HandleFinalization(finalized: Option<BlockId>, ancestors: seq<BlockId>, gaps: seq<nat>)
      returns (best: Option<ReadyPair>)
      requires Valid()
      modifies this`states, this`marked, this`skipped
      ensures Valid() && BestNew(old(states), states, best)
      ensures marked == old(marked) + AtOrAbove(root, (if finalized.Some? then [finalized.value] else []) + ancestors)
      ensures skipped == old(skipped) + SlotsAtOrAbove(root, gaps)
      ensures forall s: nat, b: BlockId ::
          NewlyReady(old(states), states, s, b) <==> BecomesReady(root, old(states), marked, skipped, s, b)
      ensures (forall s: nat, b: BlockId :: NewlyReady(old(states), states, s, b) ==> best == Some(ReadyPair(s, b)))
         <==> old(OneParentAtMost(finalized, ancestors, gaps))
      ensures BestReady(root, old(states), marked, skipped, best)
    {
      hide NewlyReady, BecomesReady, AtMostOneBecomesReady, OnlyHandedOn, BestReady;
      SameIsHandedOn(root, states, states, skipped);
      best := MarkBlocks((if finalized.Some? then [finalized.value] else []) + ancestors, None, states);
      best := MarkGaps(gaps, best, old(states));
      forall s: nat, b: BlockId
        ensures NewlyReady(old(states), states, s, b) <==> BecomesReady(root, old(states), marked, skipped, s, b)
      {
        BecomesReadyIff(root, old(states), states, marked, skipped, s, b);
      }
      BestIsAllIff(root, old(states), states, marked, skipped, best);
      BestNewIsReady(root, old(states), states, marked, skipped, best);
    }

    /** The valid parents of a slot. */
    function ParentsReady(slot: nat): seq<BlockId>
      reads this
    {
      At(states, slot).ready
    }

    /** A smallest valid parent by slot and hash, if there is one. */
    method WaitForParentReady(slot: nat) returns (r: Option<BlockId>)
      modifies this`states
      ensures forall t: nat :: At(states, t) == old(At(states, t))
      ensures r.None? <==> ParentsReady(slot) == []
      ensures r.Some? ==> r.value in ParentsReady(slot)
      ensures r.Some? ==> forall b :: b in ParentsReady(slot) ==>
        r.value.slot < b.slot || (r.value.slot == b.slot && r.value.hash <= b.hash)
    {
      var e := Touch(slot);
      r := None;
      for i := 0 to |e.ready|
        invariant r.None? <==> i == 0
        invariant r.Some? ==> r.value in e.ready
        invariant forall k :: 0 <= k < i ==>
          r.value.slot < e.ready[k].slot || (r.value.slot == e.ready[k].slot && r.value.hash <= e.ready[k].hash)
      {
        var b := e.ready[i];
        if r.None? || b.slot < r.value.slot || (b.slot == r.value.slot && b.hash < r.value.hash) {
          r := Some(b);
        }
      }
    }

    /** Drops the slots below a root that does not move back. */
    method Prune(newRoot: nat)
      requires Valid() && newRoot >= root
      modifies this`root, this`states
      ensures Valid() && root == newRoot
      ensures forall s: nat :: s >= newRoot ==> At(states, s) == old(At(states, s))
      ensures forall s: nat :: s < newRoot ==> At(states, s) == UNMARKED
    {
      root := newRoot;
      states := map s | s in states && s >= newRoot :: states[s];
      PruneKeepsExact(old(root), old(states), marked, skipped, root, states);
    }
  }

  /** A finalized block at the end of a window and an ancestor at the end of another: both are
      new parents, and only the later one is returned. */
  method TwoReadyOneReturned() returns (best: Option<ReadyPair>, tracker: ParentReadyTracker)
    ensures best == Some(ReadyPair(8, BlockId(7, 1)))
    ensures BlockId(3, 1) in tracker.ParentsReady(4) && BlockId(7, 1) in tracker.ParentsReady(8)
  {
    hide BecomesReady, AtMostOneBecomesReady, NewlyReady, ReadyClosed, HandedOn, BestReady;
    tracker := new ParentReadyTracker.Genesis();
    ghost var before := tracker.states;
    best := tracker.HandleFinalization(Some(BlockId(7, 1)), [BlockId(3, 1)], []);
    assert tracker.marked == {GenesisBlock(), BlockId(7, 1), BlockId(3, 1)};
    assert Connected(tracker.marked, tracker.skipped, BlockId(3, 1), 4);
    assert Connected(tracker.marked, tracker.skipped, BlockId(7, 1), 8);
    BestIsReady(before, tracker.states, best);
  }

  ghost function AtOrAbove(root: nat, blocks: seq<BlockId>): set<BlockId> {
    set b | b in blocks && b.slot >= root
  }

  ghost function SlotsAtOrAbove(root: nat, slots: seq<nat>): set<nat> {
    set s | s in slots && s >= root
  }

  /** Keeps the given pair unless a later one has a higher slot. */
  method Better(best: Option<ReadyPair>, pairs: seq<ReadyPair>) returns (r: Option<ReadyPair>)
    ensures r == best || exists i :: 0 <= i < |pairs| && r == Some(pairs[i]) && FirstOfSlot(pairs, i)
    ensures r != best ==> best.None? || best.value.slot < r.value.slot
    ensures forall p :: p in pairs ==> r.Some? && p.slot <= r.value.slot
  {
    r := best;
    for i := 0 to |pairs|
      invariant r == best || exists k :: 0 <= k < i && r == Some(pairs[k]) && FirstOfSlot(pairs, k)
      invariant r != best ==> r.Some? && (best.None? || best.value.slot < r.value.slot)
      invariant forall k :: 0 <= k < i ==> r.Some? && pairs[k].slot <= r.value.slot
    {
      if r.None? || pairs[i].slot > r.value.slot {
        assert FirstOfSlot(pairs, i);
        r := Some(pairs[i]);
      }
    }
  }

  function PairsAt(s: nat, ids: seq<BlockId>): (q: seq<ReadyPair>)
    ensures |q| == |ids| && forall i :: 0 <= i < |q| ==> q[i] == ReadyPair(s, ids[i])
  {
    seq(|ids|, i requires 0 <= i < |ids| => ReadyPair(s, ids[i]))
  }

  lemma PairsAtElements(s: nat, ids: seq<BlockId>)
    requires NoRepeats(ids)
    ensures NoRepeats(PairsAt(s, ids))
    ensures forall p :: p in PairsAt(s, ids) <==> p.slot == s && p.parent in ids
  {
  }
}
