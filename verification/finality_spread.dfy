/** Finality misses nothing: which operation makes a block final, that its known ancestors become
    final with it, and in which orders the same is announced
    (crates/karstflow-alpenglow/src/finality_tracker.rs). */
module FinalitySpread {
  import opened Base
  import opened Finality

  // ---- which operation makes a block final ----

  /** The tracker holds the block for finalized, directly or as an ancestor. */
  ghost predicate IsFinal(t: Tracker, b: BlockId) {
    && b.slot in t.status
    && (t.status[b.slot] == Entry(Finalized, b.hash) || t.status[b.slot] == Entry(ImplicitlyFinalized, b.hash))
  }

  /** The operation makes the block final: a fast-final mark, the second of a notarization and a
      final mark, in either order; not for slots below the watermark, and not again. */
  ghost predicate MakesFinal(t: Tracker, op: Op, b: BlockId) {
    b.slot >= t.first &&
    match op
    case TellFast(c) => c == b && !IsFinal(t, b)
    case TellNotar(c) => c == b && b.slot in t.status && t.status[b.slot].status == FinalPendingNotar
    case TellFinal(s) => b.slot == s && s in t.status && t.status[s] == Entry(Notarized, b.hash)
    case TellParent(_, _) => false
  }

  /** A block is announced as finalized iff the operation makes it final, and the highest finalized
      slot follows these blocks. */
  lemma FinalizedIff(t: Tracker, op: Op, b: BlockId)
    requires Apply(t, op).Done? && DescendingEdges(t.parents)
    ensures Apply(t, op).event.finalized == Some(b) <==> MakesFinal(t, op, b)
    ensures Apply(t, op).tracker.highest ==
      match Apply(t, op).event.finalized
      case None => t.highest
      case Some(c) => Max(t.highest, c.slot)
  {
    hide Walk;
    match op
    case TellParent(c, p) =>
      if c.slot >= t.first && c.slot > p.slot && c !in t.parents && HoldsFinal(t, c) {
        WalkKeepsHead(t.(parents := t.parents[c := p]), c.slot, p, NOTHING);
      }
    case TellFast(c) =>
      if c.slot >= t.first {
        FinalizeHead(SetStatus(t, c.slot, Finalized, c.hash), c);
      }
    case TellNotar(c) => FinalizeHead(SetStatus(t, c.slot, Finalized, c.hash), c);
    case TellFinal(s) =>
      if s in t.status {
        FinalizeHead(SetStatus(t, s, Finalized, t.status[s].hash), BlockId(s, t.status[s].hash));
      }
  }

  ghost predicate DescendingEdges(parents: map<BlockId, BlockId>) {
    forall b :: b in parents ==> parents[b].slot < b.slot
  }

  lemma FinalizeHead(t: Tracker, b: BlockId)
    ensures Finalize(t, b).Done? ==>
      Finalize(t, b).event.finalized == Some(b) && Finalize(t, b).tracker.highest == Max(t.highest, b.slot)
  {
    if b in t.parents {
      WalkKeepsHead(t.(highest := Max(t.highest, b.slot)), b.slot, t.parents[b], NOTHING.(finalized := Some(b)));
    }
  }

  /** The walk over the ancestors leaves the finalized block and the highest slot alone. */
  lemma {:induction false} WalkKeepsHead(t: Tracker, source: nat, cur: BlockId, ev: FinEvent)
    ensures var o := Walk(t, source, cur, ev);
      o.Done? ==>
        && o.event.finalized == ev.finalized && o.tracker.highest == t.highest && o.tracker.first == t.first
        && o.tracker.parents == t.parents
    decreases cur.slot, 1
  {
    if t.first <= cur.slot < source {
      var stop := FirstSkipped(t.status, cur.slot + 1, source);
      ClimbKeepsHead(t.(status := SkipTo(t.status, cur.slot + 1, stop)), cur,
                     ev.(gaps := ev.gaps + Range(cur.slot + 1, stop)));
    }
  }

  lemma {:induction false} ClimbKeepsHead(t: Tracker, cur: BlockId, ev: FinEvent)
    ensures var o := Climb(t, cur, ev);
      o.Done? ==>
        && o.event.finalized == ev.finalized && o.tracker.highest == t.highest && o.tracker.first == t.first
        && o.tracker.parents == t.parents
    decreases cur.slot, 0
  {
    if cur in t.parents && cur.slot > t.parents[cur].slot {
      WalkKeepsHead(SetStatus(t, cur.slot, ImplicitlyFinalized, cur.hash), cur.slot, t.parents[cur],
                    ev.(ancestors := ev.ancestors + [cur]));
    }
  }

  // ---- finality spreads to everything known ----

  /** The tracker after the operation knows this parent of the block. */
  ghost function EdgesAfter(t: Tracker, op: Op): map<BlockId, BlockId> {
    if op.TellParent? && op.block.slot >= t.first && op.block !in t.parents then t.parents[op.block := op.parent]
    else t.parents
  }

  /** The operation makes the block final, or tells the parent of a final block for the first time. */
  ghost predicate Spreads(t: Tracker, op: Op, b: BlockId) {
    || MakesFinal(t, op, b)
    || (op.TellParent? && op.block == b && b.slot >= t.first && b !in t.parents && IsFinal(t, b))
  }

  /** What has to be announced with a block that is final: all its known ancestors, up to where
      something is final already, and every slot leapt over on the way to them. */
  ghost predicate SpreadFrom(t: Tracker, edges: map<BlockId, BlockId>, b: BlockId, ev: FinEvent) {
    if b in edges
    then IsAncestry(t.(parents := edges), b.slot, edges[b], ev.ancestors) && CoversGaps(b.slot, ev.ancestors, ev.gaps)
    else ev.ancestors == [] && ev.gaps == []
  }

  /** The event of a completed operation, without the functions that compute it. */
  ghost predicate SpreadsExactly(t: Tracker, op: Op, ev: FinEvent) {
    && (forall b :: ev.finalized == Some(b) <==> MakesFinal(t, op, b))
    && (forall b :: Spreads(t, op, b) ==> SpreadFrom(t, EdgesAfter(t, op), b, ev))
    && ((forall b :: !Spreads(t, op, b)) ==> ev == NOTHING)
  }

  lemma WalkSpreads(t: Tracker, u: Tracker, b: BlockId, ev: FinEvent)
    requires DescendingEdges(u.parents) && b in u.parents && ev.ancestors == [] && ev.gaps == []
    requires u.first == t.first && u.parents == t.parents
    requires forall s :: s < b.slot ==>
      (s in u.status <==> s in t.status) && (s in t.status ==> u.status[s] == t.status[s])
    ensures var o := Walk(u, b.slot, u.parents[b], ev); o.Done? ==> SpreadFrom(t, t.parents, b, o.event)
  {
    WalkIsAncestry(u, b.slot, u.parents[b], ev);
    WalkSkipsGaps(u, b.slot, u.parents[b], ev);
    var o := Walk(u, b.slot, u.parents[b], ev);
    if o.Done? {
      assert o.event.ancestors[0..] == o.event.ancestors;
      AncestryBelow(t, u, b.slot, u.parents[b], o.event.ancestors);
      assert t.(parents := t.parents) == t;
    }
  }

  lemma FinalizeSpreads(t: Tracker, b: BlockId)
    requires DescendingEdges(t.parents)
    ensures var o := Finalize(SetStatus(t, b.slot, Finalized, b.hash), b);
      o.Done? ==> SpreadFrom(t, t.parents, b, o.event)
  {
    hide Walk, IsAncestry, CoversGaps;
    var u := SetStatus(t, b.slot, Finalized, b.hash).(highest := Max(t.highest, b.slot));
    if b in t.parents {
      WalkSpreads(t, u, b, NOTHING.(finalized := Some(b)));
    }
  }

  lemma ParentSpreads(t: Tracker, b: BlockId, p: BlockId)
    requires DescendingEdges(t.parents) && b.slot > p.slot && b !in t.parents
    ensures var u := t.(parents := t.parents[b := p]);
      var o := Pruned(Walk(u, b.slot, p, NOTHING));
      o.Done? ==> SpreadFrom(t, t.parents[b := p], b, o.event)
  {
    hide Walk, IsAncestry, CoversGaps;
    var u := t.(parents := t.parents[b := p]);
    WalkSpreads(u, u, b, NOTHING);
    assert u.(parents := u.parents) == t.(parents := u.parents);
  }

  /** Every completed operation announces the block it makes final, if any, and with every block
      that is or becomes final all its known ancestors; nothing else. */
  lemma StepSpreads(t: Tracker, op: Op)
    requires Apply(t, op).Done? && DescendingEdges(t.parents)
    ensures SpreadsExactly(t, op, Apply(t, op).event)
  {
    forall b
      ensures Apply(t, op).event.finalized == Some(b) <==> MakesFinal(t, op, b)
    {
      FinalizedIff(t, op, b);
    }
    forall b | Spreads(t, op, b)
      ensures SpreadFrom(t, EdgesAfter(t, op), b, Apply(t, op).event)
    {
      OneSpreads(t, op, b);
    }
    if forall b :: !Spreads(t, op, b) {
      NothingSpreads(t, op);
    }
  }

  lemma OneSpreads(t: Tracker, op: Op, b: BlockId)
    requires Apply(t, op).Done? && DescendingEdges(t.parents) && Spreads(t, op, b)
    ensures SpreadFrom(t, EdgesAfter(t, op), b, Apply(t, op).event)
  {
    hide Walk, SpreadFrom, Finalize, Prune;
    if op.TellParent? {
      ParentSpreads(t, op.block, op.parent);
    } else {
      FinalizeSpreads(t, b);
    }
  }

  lemma NothingSpreads(t: Tracker, op: Op)
    requires Apply(t, op).Done? && forall b :: !Spreads(t, op, b)
    ensures Apply(t, op).event == NOTHING
  {
    hide Walk, Finalize, Prune;
    match op
    case TellParent(b, _) => assert !Spreads(t, op, b);
    case TellFast(b) => assert !Spreads(t, op, b);
    case TellNotar(b) => assert !Spreads(t, op, b);
    case TellFinal(s) =>
      if s in t.status {
        assert !Spreads(t, op, BlockId(s, t.status[s].hash));
      }
  }

  // ---- what is announced is recorded ----

  ghost predicate SameEntry(t: Tracker, u: Tracker, s: nat) {
    (s in t.status <==> s in u.status) && (s in t.status ==> u.status[s] == t.status[s])
  }

  /** What a walk below a slot adds is recorded, and nothing from that slot on changes. */
  ghost predicate Recorded(t: Tracker, source: nat, ev: FinEvent, o: Outcome) {
    o.Done? ==>
      && ev.ancestors <= o.event.ancestors && ev.gaps <= o.event.gaps
      && (forall s :: s >= source ==> SameEntry(t, o.tracker, s))
      && (forall i :: |ev.ancestors| <= i < |o.event.ancestors| ==>
            o.event.ancestors[i].slot < source && IsFinal(o.tracker, o.event.ancestors[i]))
      && (forall i :: |ev.gaps| <= i < |o.event.gaps| ==>
            o.event.gaps[i] < source && IsSkipped(o.tracker.status, o.event.gaps[i]))
  }

  lemma {:induction false} WalkRecords(t: Tracker, source: nat, cur: BlockId, ev: FinEvent)
    ensures Recorded(t, source, ev, Walk(t, source, cur, ev))
    decreases cur.slot, 1
  {
    if t.first <= cur.slot < source {
      var stop := FirstSkipped(t.status, cur.slot + 1, source);
      var gap := Range(cur.slot + 1, stop);
      SkipToContents(t.status, cur.slot + 1, stop);
      var t1 := t.(status := SkipTo(t.status, cur.slot + 1, stop));
      var ev1 := ev.(gaps := ev.gaps + gap);
      assert forall i :: |ev.gaps| <= i < |ev1.gaps| ==> ev1.gaps[i] == gap[i - |ev.gaps|];
      ClimbRecords(t1, cur, ev1);
      var o := Walk(t, source, cur, ev);
      if o.Done? && stop == source && Settle(t.status, cur).Fresh? {
        LeapRecorded(t, t1, source, cur, ev, ev1, o);
      }
    }
  }

  /** A leap before a recorded climb. */
  lemma LeapRecorded(t: Tracker, t1: Tracker, source: nat, cur: BlockId, ev: FinEvent, ev1: FinEvent, o: Outcome)
    requires cur.slot < source && Recorded(t1, cur.slot + 1, ev1, o)
    requires ev1.ancestors == ev.ancestors && ev.gaps <= ev1.gaps
    requires forall s :: s >= source ==> SameEntry(t, t1, s)
    requires forall i :: |ev.gaps| <= i < |ev1.gaps| ==>
      cur.slot < ev1.gaps[i] < source && IsSkipped(t1.status, ev1.gaps[i])
    ensures Recorded(t, source, ev, o)
  {
    if o.Done? {
      forall i | |ev.gaps| <= i < |o.event.gaps|
        ensures o.event.gaps[i] < source && IsSkipped(o.tracker.status, o.event.gaps[i])
      {
        if i < |ev1.gaps| {
          assert o.event.gaps[i] == ev1.gaps[i];
          assert SameEntry(t1, o.tracker, ev1.gaps[i]);
        }
      }
      forall s | s >= source
        ensures SameEntry(t, o.tracker, s)
      {
        assert SameEntry(t, t1, s) && SameEntry(t1, o.tracker, s);
      }
    }
  }

  lemma {:induction false} ClimbRecords(t: Tracker, cur: BlockId, ev: FinEvent)
    ensures Recorded(t, cur.slot + 1, ev, Climb(t, cur, ev))
    decreases cur.slot, 0
  {
    var t1 := SetStatus(t, cur.slot, ImplicitlyFinalized, cur.hash);
    var ev1 := ev.(ancestors := ev.ancestors + [cur]);
    if cur in t.parents && cur.slot > t.parents[cur].slot {
      WalkRecords(t1, cur.slot, t.parents[cur], ev1);
      var o := Climb(t, cur, ev);
      if o.Done? {
        assert o.event.ancestors[|ev.ancestors|] == ev1.ancestors[|ev.ancestors|] == cur;
        assert SameEntry(t1, o.tracker, cur.slot);
        forall s | s >= cur.slot + 1
          ensures SameEntry(t, o.tracker, s)
        {
          assert SameEntry(t, t1, s) && SameEntry(t1, o.tracker, s);
        }
      }
    }
  }

  /** Whatever an operation announces is recorded, or lies below the new watermark. */
  ghost predicate Kept(u: Tracker, ev: FinEvent) {
    && (ev.finalized.Some? && ev.finalized.value.slot >= u.first ==> IsFinal(u, ev.finalized.value))
    && (forall a :: a in ev.ancestors && a.slot >= u.first ==> IsFinal(u, a))
    && (forall s :: s in ev.gaps && s >= u.first ==> IsSkipped(u.status, s))
  }

  lemma PrunedKeeps(t: Tracker, b: BlockId, ev: FinEvent, o: Outcome)
    requires o.Done? && ev.ancestors == [] && ev.gaps == [] && Recorded(t, b.slot, ev, o)
    requires o.event.finalized.None? || (o.event.finalized == Some(b) && IsFinal(t, b))
    ensures Kept(Prune(o.tracker), o.event)
  {
    var u, event := o.tracker, o.event;
    assert SameEntry(t, u, b.slot);
    forall a | a in event.ancestors
      ensures IsFinal(u, a)
    {
      var i :| 0 <= i < |event.ancestors| && event.ancestors[i] == a;
    }
    forall s | s in event.gaps
      ensures IsSkipped(u.status, s)
    {
      var i :| 0 <= i < |event.gaps| && event.gaps[i] == s;
    }
  }

  lemma FinalizeRecords(t: Tracker, b: BlockId)
    requires IsFinal(t, b)
    ensures Finalize(t, b).Done? ==> Kept(Finalize(t, b).tracker, Finalize(t, b).event)
  {
    hide Walk, Kept, Prune;
    var u, ev := t.(highest := Max(t.highest, b.slot)), NOTHING.(finalized := Some(b));
    var o := if b in t.parents then Walk(u, b.slot, t.parents[b], ev) else Done(u, ev);
    if b in t.parents {
      WalkRecords(u, b.slot, t.parents[b], ev);
      WalkKeepsHead(u, b.slot, t.parents[b], ev);
    }
    if o.Done? {
      PrunedKeeps(u, b, ev, o);
    }
  }

  lemma StepRecords(t: Tracker, op: Op)
    requires Apply(t, op).Done?
    ensures Kept(Apply(t, op).tracker, Apply(t, op).event)
  {
    hide Walk, Finalize, Prune;
    match op
    case TellParent(b, p) =>
      var u := t.(parents := t.parents[b := p]);
      if b.slot >= t.first && b !in t.parents && HoldsFinal(t, b) {
        WalkRecords(u, b.slot, p, NOTHING);
        WalkKeepsHead(u, b.slot, p, NOTHING);
        PrunedKeeps(u, b, NOTHING, Walk(u, b.slot, p, NOTHING));
      }
    case TellFast(b) => FinalizeRecords(SetStatus(t, b.slot, Finalized, b.hash), b);
    case TellNotar(b) => FinalizeRecords(SetStatus(t, b.slot, Finalized, b.hash), b);
    case TellFinal(s) =>
      if s in t.status {
        FinalizeRecords(SetStatus(t, s, Finalized, t.status[s].hash), BlockId(s, t.status[s].hash));
      }
  }

  // ---- what makes the tracker forget ----

  /** A walk keeps every final block final. */
  lemma {:induction false} WalkKeepsFinal(t: Tracker, source: nat, cur: BlockId, ev: FinEvent, b: BlockId)
    requires IsFinal(t, b)
    ensures var o := Walk(t, source, cur, ev); o.Done? ==> IsFinal(o.tracker, b)
    decreases cur.slot, 1
  {
    if t.first <= cur.slot < source {
      var stop := FirstSkipped(t.status, cur.slot + 1, source);
      SkipToContents(t.status, cur.slot + 1, stop);
      assert Resists(t.status, b.slot);
      if Walk(t, source, cur, ev).Done? && stop == source && Settle(t.status, cur).Fresh? {
        ClimbKeepsFinal(t.(status := SkipTo(t.status, cur.slot + 1, stop)), cur,
                        ev.(gaps := ev.gaps + Range(cur.slot + 1, stop)), b);
      }
    }
  }

  lemma {:induction false} ClimbKeepsFinal(t: Tracker, cur: BlockId, ev: FinEvent, b: BlockId)
    requires IsFinal(t, b) && cur.slot != b.slot
    ensures var o := Climb(t, cur, ev); o.Done? ==> IsFinal(o.tracker, b)
    decreases cur.slot, 0
  {
    if cur in t.parents && cur.slot > t.parents[cur].slot {
      WalkKeepsFinal(SetStatus(t, cur.slot, ImplicitlyFinalized, cur.hash), cur.slot, t.parents[cur],
                     ev.(ancestors := ev.ancestors + [cur]), b);
    }
  }

  lemma FinalizeKeepsFinal(t: Tracker, c: BlockId, b: BlockId)
    requires IsFinal(t, b)
    ensures var o := Finalize(t, c); o.Done? && b.slot >= o.tracker.first ==> IsFinal(o.tracker, b)
  {
    if c in t.parents {
      WalkKeepsFinal(t.(highest := Max(t.highest, c.slot)), c.slot, t.parents[c], NOTHING.(finalized := Some(c)), b);
    }
  }

  /** A final block above the watermark stays final, except that a notarization or final mark for
      its slot that comes afterwards overwrites it: then the tracker no longer holds it for final,
      and a parent told later spreads nothing. */
  lemma FinalUnlessMarkedAgain(t: Tracker, op: Op, b: BlockId)
    requires IsFinal(t, b) && b.slot >= t.first && Apply(t, op).Done? && b.slot >= Apply(t, op).tracker.first
    ensures IsFinal(Apply(t, op).tracker, b) <==>
      !(op.TellNotar? && op.block.slot == b.slot) && !(op.TellFinal? && op.slot == b.slot)
  {
    match op
    case TellParent(c, p) =>
      if c.slot >= t.first && c !in t.parents && HoldsFinal(t, c) {
        WalkKeepsFinal(t.(parents := t.parents[c := p]), c.slot, p, NOTHING, b);
      }
    case TellFast(c) =>
      if Settle(t.status, c).Fresh? && c.slot >= t.first {
        FinalizeKeepsFinal(SetStatus(t, c.slot, Finalized, c.hash), c, b);
      }
    case TellNotar(c) =>
      if c.slot in t.status && t.status[c.slot].status.FinalPendingNotar? {
        FinalizeKeepsFinal(SetStatus(t, c.slot, Finalized, c.hash), c, b);
      }
    case TellFinal(s) =>
      if s in t.status && t.status[s].status.Notarized? {
        FinalizeKeepsFinal(SetStatus(t, s, Finalized, t.status[s].hash), BlockId(s, t.status[s].hash), b);
      }
  }

  /** A block is fast-finalized, its slot gets a final certificate, and then its parent is told:
      nothing is announced, although with the last two exchanged the parent is. */
  lemma LateMarkStopsSpreading()
    ensures var b, p := BlockId(5, 9), BlockId(4, 7);
      var fast := Apply(Genesis(), TellFast(b));
      && fast.Done? && fast.event.finalized == Some(b)
      && var marked := Apply(fast.tracker, TellFinal(5));
      && marked.Done? && Apply(marked.tracker, TellParent(b, p)) ==
           Done(marked.tracker.(parents := map[b := p]), NOTHING)
      && var told := Apply(fast.tracker, TellParent(b, p));
      told.Done? && told.event.ancestors == [p]
  {
    var b, p := BlockId(5, 9), BlockId(4, 7);
    var t1 := SetStatus(Genesis(), 5, Finalized, 9).(highest := 5);
    assert Watermark(t1.status, 0) == 0;
    assert Prune(t1) == t1;
    assert Apply(Genesis(), TellFast(b)) == Done(t1, NOTHING.(finalized := Some(b)));
    var t2 := SetStatus(t1, 5, FinalPendingNotar, GENESIS_BLOCK_HASH);
    assert Apply(t1, TellFinal(5)) == Done(t2, NOTHING);
    var t3 := t1.(parents := map[b := p]);
    assert FirstSkipped(t3.status, 5, 5) == 5;
    assert Walk(t3, 5, p, NOTHING).Done? && Walk(t3, 5, p, NOTHING).event.ancestors == [p];
  }

  // ---- orders ----

  /** A notarization and a final mark finalize the block in either order, with the same result as
      a fast-final mark. */
  lemma MarksCommute(t: Tracker, b: BlockId)
    requires b.slot >= t.first && b.slot !in t.status
    ensures var notar, final := Apply(t, TellNotar(b)), Apply(t, TellFinal(b.slot));
      && notar.Done? && notar.event == NOTHING && final.Done? && final.event == NOTHING
      && Apply(notar.tracker, TellFinal(b.slot)) == Apply(final.tracker, TellNotar(b)) == Apply(t, TellFast(b))
  {
    var u := SetStatus(t, b.slot, Finalized, b.hash);
    assert t.status[b.slot := Entry(Notarized, b.hash)][b.slot := Entry(Finalized, b.hash)] == u.status;
    assert t.status[b.slot := Entry(FinalPendingNotar, GENESIS_BLOCK_HASH)][b.slot := Entry(Finalized, b.hash)]
        == u.status;
  }

  /** The walk does not look at the event it extends. */
  lemma {:induction false} WalkAnyHead(t: Tracker, source: nat, cur: BlockId, ev: FinEvent, head: Option<BlockId>)
    ensures var o := Walk(t, source, cur, ev);
      Walk(t, source, cur, ev.(finalized := head)) ==
        if o.Halt? then Halt else Done(o.tracker, o.event.(finalized := head))
    decreases cur.slot, 1
  {
    if t.first <= cur.slot < source {
      var stop := FirstSkipped(t.status, cur.slot + 1, source);
      ClimbAnyHead(t.(status := SkipTo(t.status, cur.slot + 1, stop)), cur,
                   ev.(gaps := ev.gaps + Range(cur.slot + 1, stop)), head);
    }
  }

  lemma {:induction false} ClimbAnyHead(t: Tracker, cur: BlockId, ev: FinEvent, head: Option<BlockId>)
    ensures var o := Climb(t, cur, ev);
      Climb(t, cur, ev.(finalized := head)) ==
        if o.Halt? then Halt else Done(o.tracker, o.event.(finalized := head))
    decreases cur.slot, 0
  {
    if cur in t.parents && cur.slot > t.parents[cur].slot {
      WalkAnyHead(SetStatus(t, cur.slot, ImplicitlyFinalized, cur.hash), cur.slot, t.parents[cur],
                  ev.(ancestors := ev.ancestors + [cur]), head);
    }
  }

  /** The watermark cannot move, and nothing is kept below it. */
  ghost predicate AtRest(t: Tracker) {
    && !IsDecided(t.status, t.first + 1)
    && (forall s :: s in t.status ==> s >= t.first) && (forall b :: b in t.parents ==> b.slot >= t.first)
  }

  lemma PruneRests(t: Tracker)
    ensures AtRest(Prune(t))
  {
  }

  lemma StepRests(t: Tracker, op: Op)
    requires AtRest(t) && Apply(t, op).Done?
    ensures AtRest(Apply(t, op).tracker)
  {
    hide Walk, Prune;
    match op
    case TellParent(b, p) =>
      var o := Walk(t.(parents := t.parents[b := p]), b.slot, p, NOTHING);
      if o.Done? {
        PruneRests(o.tracker);
      }
    case TellFast(b) => FinalizeRests(SetStatus(t, b.slot, Finalized, b.hash), b);
    case TellNotar(b) => FinalizeRests(SetStatus(t, b.slot, Finalized, b.hash), b);
    case TellFinal(s) =>
      if s in t.status {
        FinalizeRests(SetStatus(t, s, Finalized, t.status[s].hash), BlockId(s, t.status[s].hash));
      }
  }

  lemma FinalizeRests(t: Tracker, b: BlockId)
    ensures Finalize(t, b).Done? ==> AtRest(Finalize(t, b).tracker)
  {
    hide Walk, Prune;
    var u, ev := t.(highest := Max(t.highest, b.slot)), NOTHING.(finalized := Some(b));
    var o := if b in t.parents then Walk(u, b.slot, t.parents[b], ev) else Done(u, ev);
    if o.Done? {
      PruneRests(o.tracker);
    }
  }

  /** Every run leaves the tracker at rest. */
  lemma {:induction false} RunRests(ops: seq<Op>)
    requires Run(ops).Some?
    ensures AtRest(Run(ops).value.0)
  {
    if ops != [] {
      var last := |ops| - 1;
      RunRests(ops[..last]);
      StepRests(Run(ops[..last]).value.0, ops[last]);
    }
  }

  lemma RestsAgain(t: Tracker, b: BlockId)
    requires AtRest(t) && b.slot >= t.first && b.slot != t.first + 1
    ensures var u := SetStatus(t, b.slot, Finalized, b.hash).(highest := Max(t.highest, b.slot)); Prune(u) == u
  {
    var u := SetStatus(t, b.slot, Finalized, b.hash).(highest := Max(t.highest, b.slot));
    assert Watermark(u.status, u.first) == u.first;
  }

  /** Away from the watermark it makes no difference whether a block is fast-finalized before or
      after its parent is told: the tracker ends the same, and the same is announced. */
  lemma EitherOrder(t: Tracker, b: BlockId, p: BlockId)
    requires AtRest(t) && b.slot >= t.first && b.slot != t.first + 1 && p.slot < b.slot && b !in t.parents
    requires Settle(t.status, b).Fresh?
    ensures var fast, told := Apply(t, TellFast(b)), Apply(t, TellParent(b, p));
      && fast.Done? && fast.event == NOTHING.(finalized := Some(b)) && told.Done? && told.event == NOTHING
      && var late := Apply(fast.tracker, TellParent(b, p));
      Apply(told.tracker, TellFast(b)) ==
        if late.Halt? then Halt else Done(late.tracker, late.event.(finalized := Some(b)))
  {
    hide Walk, Prune;
    var u := SetStatus(t, b.slot, Finalized, b.hash).(highest := Max(t.highest, b.slot));
    RestsAgain(t, b);
    assert Apply(t, TellFast(b)) == Done(u, NOTHING.(finalized := Some(b)));
    assert Apply(t, TellParent(b, p)) == Done(t.(parents := t.parents[b := p]), NOTHING);
    WalkAnyHead(u.(parents := t.parents[b := p]), b.slot, p, NOTHING, Some(b));
  }

  /** Next to the watermark: the block finalized first closes the slot, and its parent told later
      is not announced any more. */
  lemma LateAtWatermark(t: Tracker, b: BlockId, p: BlockId)
    requires AtRest(t) && b.slot == t.first + 1 && p.slot < b.slot && b !in t.parents && Settle(t.status, b).Fresh?
    ensures var fast := Apply(t, TellFast(b));
      && fast.Done? && var late := Apply(fast.tracker, TellParent(b, p));
      late.Done? && late.event == NOTHING
  {
    var u := SetStatus(t, b.slot, Finalized, b.hash).(highest := Max(t.highest, b.slot));
    assert IsDecided(u.status, u.first + 1);
    assert Prune(u).first >= b.slot > p.slot;
  }

  lemma EarlyAtWatermark(t: Tracker, b: BlockId, p: BlockId)
    requires AtRest(t) && b.slot == t.first + 1 && p.slot < b.slot && b !in t.parents && Settle(t.status, b).Fresh?
    requires DescendingEdges(t.parents)
    ensures var both := Apply(t.(parents := t.parents[b := p]), TellFast(b));
      both.Done? ==>
        both.event.gaps == [] && both.event.ancestors == if p.slot == t.first && !IsFinal(t, p) then [p] else []
  {
    var u := SetStatus(t, b.slot, Finalized, b.hash).(highest := Max(t.highest, b.slot), parents := t.parents[b := p]);
    var ev := NOTHING.(finalized := Some(b));
    var v := t.(parents := t.parents[b := p]);
    assert SetStatus(v, b.slot, Finalized, b.hash).(highest := Max(v.highest, b.slot)) == u;
    assert MarkFastFinalized(v, b) == Pruned(Walk(u, b.slot, p, ev));
    if p.slot == t.first {
      hide Walk, Prune;
      WalkToRoot(u, p, ev);
    }
  }

  /** A walk to the slot of the watermark itself. */
  lemma WalkToRoot(t: Tracker, p: BlockId, ev: FinEvent)
    requires p.slot == t.first && (p in t.parents ==> t.parents[p].slot < p.slot)
    ensures var o := Walk(t, p.slot + 1, p, ev);
      o.Done? ==>
        o.event.gaps == ev.gaps && o.event.ancestors == ev.ancestors + if Settle(t.status, p).Fresh? then [p] else []
  {
    assert FirstSkipped(t.status, p.slot + 1, p.slot + 1) == p.slot + 1;
    assert ev.gaps + Range(p.slot + 1, p.slot + 1) == ev.gaps;
    assert SkipTo(t.status, p.slot + 1, p.slot + 1) == t.status;
    if p in t.parents {
      var t1, ev1 := SetStatus(t, p.slot, ImplicitlyFinalized, p.hash), ev.(ancestors := ev.ancestors + [p]);
      assert Walk(t1, p.slot, t.parents[p], ev1) == Done(t1, ev1);
    }
  }

  /** Exactly when the order matters to what is announced: when the block lies next to the
      watermark and its parent on it, without being final. */
  lemma OrderMattersIff(t: Tracker, b: BlockId, p: BlockId)
    requires AtRest(t) && DescendingEdges(t.parents) && b.slot >= t.first && p.slot < b.slot && b !in t.parents
    requires Settle(t.status, b).Fresh?
    requires Apply(t, TellFast(b)).Done? && Apply(t, TellParent(b, p)).Done?
    ensures var late := Apply(Apply(t, TellFast(b)).tracker, TellParent(b, p));
      var early := Apply(Apply(t, TellParent(b, p)).tracker, TellFast(b));
      late.Done? && early.Done? ==>
        ((late.event.ancestors == early.event.ancestors && late.event.gaps == early.event.gaps) <==>
         !(b.slot == t.first + 1 && p.slot == t.first && !IsFinal(t, p)))
  {
    hide Walk, Prune, Watermark;
    if b.slot == t.first + 1 {
      LateAtWatermark(t, b, p);
      EarlyAtWatermark(t, b, p);
      assert Apply(t, TellParent(b, p)) == Done(t.(parents := t.parents[b := p]), NOTHING);
    } else {
      EitherOrder(t, b, p);
    }
  }

  /** Genesis itself is such a parent. */
  lemma GenesisDependsOnOrder()
    ensures var t, b := Genesis(), BlockId(1, 5);
      && AtRest(t) && Apply(t, TellFast(b)).Done? && Apply(t, TellParent(b, GenesisBlock())).Done?
      && var late := Apply(Apply(t, TellFast(b)).tracker, TellParent(b, GenesisBlock()));
      && var early := Apply(Apply(t, TellParent(b, GenesisBlock())).tracker, TellFast(b));
      && late.Done? && late.event.ancestors == [] && early.Done? && early.event.ancestors == [GenesisBlock()]
  {
    hide Prune;
    var t, b, p := Genesis(), BlockId(1, 5), GenesisBlock();
    LateAtWatermark(t, b, p);
    EarlyAtWatermark(t, b, p);
    var u := SetStatus(t, 1, Finalized, 5).(highest := 1, parents := map[b := p]);
    assert FirstSkipped(u.status, 1, 1) == 1;
    assert Walk(u, 1, p, NOTHING.(finalized := Some(b))).Done?;
  }
}
