/** The finality tracker as it runs, proved to do what `Finality.Apply` says
    (crates/karstflow-alpenglow/src/finality_tracker.rs). */
module FinalityImpl {
  import opened Base
  import opened Finality
  import opened FinalitySpread

  datatype LeapResult = LeapHalt | LeapStop | LeapDone

  class FinalityTracker {
    var status: map<nat, Entry>
    var parents: map<BlockId, BlockId>
    var highest: nat
    var first: nat
    ghost var told: History

    constructor ()
      ensures Valid() && Value() == Genesis() && told == NoHistory()
    {
      status := map[0 := Entry(Notarized, GENESIS_BLOCK_HASH)];
      parents := map[];
      highest := 0;
      first := 0;
      told := NoHistory();
    }

    ghost function Value(): Tracker
      reads this
    {
      Tracker(status, parents, highest, first)
    }

    /** The announcements so far are sound for what the tracker was told. */
    ghost predicate Valid()
      reads this
    {
      Working(Value(), told) && PlainSkips(status)
    }

    /** Marks the slots of a gap skipped until one already is. */
    method LeapOver(from: nat, end: nat) returns (r: LeapResult, gaps: seq<nat>)
      requires from <= end && PlainSkips(status)
      modifies this`status
      ensures r.LeapHalt? <==> exists s :: from <= s < FirstSkipped(old(status), from, end) && Resists(old(status), s)
      ensures !r.LeapHalt? ==>
        var stop := FirstSkipped(old(status), from, end);
        && (r.LeapDone? <==> stop == end)
        && status == SkipTo(old(status), from, stop) && gaps == Range(from, stop) && PlainSkips(status)
    {
      var slot := from;
      gaps := [];
      while slot != end
        invariant from <= slot <= end
        invariant status == SkipTo(old(status), from, slot) && gaps == Range(from, slot) && PlainSkips(status)
        invariant FirstSkipped(old(status), from, end) == FirstSkipped(old(status), slot, end)
        invariant forall s :: from <= s < slot ==> !Resists(old(status), s)
        decreases end - slot
      {
        SkipToContents(old(status), from, slot);
        var was := if slot in status then Some(status[slot]) else None;
        status := status[slot := SKIPPED];
        if was.Some? && was.value.status.ImplicitlySkipped? {
          assert status == SkipTo(old(status), from, slot);
          return LeapStop, gaps;
        }
        if was.Some? && !was.value.status.Notarized? {
          assert Resists(old(status), slot);
          return LeapHalt, gaps;
        }
        gaps := gaps + [slot];
        slot := slot + 1;
      }
      r := LeapDone;
    }

    /** Spreads finality from a block in slot `start` to its parent and on. */
    method HandleImplicitlyFinalized(start: nat, parent: BlockId, ev0: FinEvent) returns (r: Option<FinEvent>)
      requires PlainSkips(status)
      modifies this`status
      ensures r.None? <==> Walk(old(Value()), start, parent, ev0).Halt?
      ensures r.Some? ==> Done(Value(), r.value) == Walk(old(Value()), start, parent, ev0) && PlainSkips(status)
    {
      hide FirstSkipped, SkipTo, Range;
      var source: nat, cur, ev := start, parent, ev0;
      while true
        invariant PlainSkips(status)
        invariant Walk(old(Value()), start, parent, ev0) == Walk(Value(), source, cur, ev)
        decreases cur.slot
      {
        if source <= cur.slot {
          return None;
        }
        if cur.slot < first {
          return Some(ev);
        }
        ghost var before := Value();
        var leap, gaps := LeapOver(cur.slot + 1, source);
        if leap.LeapHalt? {
          return None;
        }
        SkipToContents(before.status, cur.slot + 1, FirstSkipped(before.status, cur.slot + 1, source));
        ev := ev.(gaps := ev.gaps + gaps);
        if leap.LeapStop? {
          return Some(ev);
        }
        if cur.slot in status {
          var was := status[cur.slot];
          match was.status {
            case Finalized => return if was.hash == cur.hash then Some(ev) else None;
            case ImplicitlyFinalized => return if was.hash == cur.hash then Some(ev) else None;
            case Notarized =>
              if was.hash != cur.hash {
                return None;
              }
            case FinalPendingNotar =>
            case ImplicitlySkipped => return None;
          }
        }
        status := status[cur.slot := Entry(ImplicitlyFinalized, cur.hash)];
        ev := ev.(ancestors := ev.ancestors + [cur]);
        if cur !in parents {
          return Some(ev);
        }
        if cur.slot <= parents[cur].slot {
          return None;
        }
        source, cur := cur.slot, parents[cur];
      }
    }

    /** Moves the watermark over the decided run that follows it. */
    method PruneDecided()
      requires PlainSkips(status)
      modifies this`status, this`parents, this`first
      ensures Value() == Prune(old(Value())) && PlainSkips(status)
    {
      var next := first + 1;
      while next in status && status[next].status.Decided()
        invariant next == first + 1 && status == old(status) && parents == old(parents)
        invariant Watermark(status, first) == Watermark(status, old(first))
        decreases KeysAbove(status, first)
      {
        assert next in KeysAbove(status, first) && next !in KeysAbove(status, next);
        first := next;
        next := next + 1;
      }
      assert first == Watermark(old(status), old(first));
      status := map s | s in status && s >= first :: status[s];
      parents := map b | b in parents && b.slot >= first :: parents[b];
    }

    method HandleFinalizedBlock(b: BlockId) returns (r: Option<FinEvent>)
      requires PlainSkips(status)
      modifies this`status, this`parents, this`highest, this`first
      ensures r.None? <==> Finalize(old(Value()), b).Halt?
      ensures r.Some? ==> Done(Value(), r.value) == Finalize(old(Value()), b) && PlainSkips(status)
    {
      r := Some(NOTHING.(finalized := Some(b)));
      highest := Max(highest, b.slot);
      if b in parents {
        r := HandleImplicitlyFinalized(b.slot, parents[b], r.value);
        if r.None? {
          return;
        }
      }
      PruneDecided();
    }

    method DoParent(b: BlockId, p: BlockId) returns (r: Option<FinEvent>)
      requires PlainSkips(status)
      modifies this`status, this`parents, this`first
      ensures r.None? <==> AddParent(old(Value()), b, p).Halt?
      ensures r.Some? ==> Done(Value(), r.value) == AddParent(old(Value()), b, p) && PlainSkips(status)
    {
      if b.slot <= p.slot {
        return None;
      }
      if b.slot < first {
        return Some(NOTHING);
      }
      if b in parents {
        return if parents[b] == p then Some(NOTHING) else None;
      }
      parents := parents[b := p];
      r := Some(NOTHING);
      if b.slot in status && (status[b.slot].status.Finalized? || status[b.slot].status.ImplicitlyFinalized?)
         && status[b.slot].hash == b.hash {
        r := HandleImplicitlyFinalized(b.slot, p, NOTHING);
        if r.Some? {
          PruneDecided();
        }
      }
    }

    method DoFastFinalized(b: BlockId) returns (r: Option<FinEvent>)
      requires PlainSkips(status)
      modifies this`status, this`parents, this`highest, this`first
      ensures r.None? <==> MarkFastFinalized(old(Value()), b).Halt?
      ensures r.Some? ==> Done(Value(), r.value) == MarkFastFinalized(old(Value()), b) && PlainSkips(status)
    {
      if b.slot < first {
        return Some(NOTHING);
      }
      var was := if b.slot in status then Some(status[b.slot]) else None;
      status := status[b.slot := Entry(Finalized, b.hash)];
      if was.Some? {
        match was.value.status {
          case Finalized => return if was.value.hash == b.hash then Some(NOTHING) else None;
          case ImplicitlyFinalized => return if was.value.hash == b.hash then Some(NOTHING) else None;
          case Notarized =>
            if was.value.hash != b.hash {
              return None;
            }
          case FinalPendingNotar =>
          case ImplicitlySkipped => return None;
        }
      }
      r := HandleFinalizedBlock(b);
    }

    method DoNotarized(b: BlockId) returns (r: Option<FinEvent>)
      requires PlainSkips(status)
      modifies this`status, this`parents, this`highest, this`first
      ensures r.None? <==> MarkNotarized(old(Value()), b).Halt?
      ensures r.Some? ==> Done(Value(), r.value) == MarkNotarized(old(Value()), b) && PlainSkips(status)
    {
      r := Some(NOTHING);
      if b.slot < first {
        return;
      }
      var was := if b.slot in status then Some(status[b.slot]) else None;
      status := status[b.slot := Entry(Notarized, b.hash)];
      if was.None? {
        return;
      }
      match was.value.status {
        case FinalPendingNotar =>
          status := status[b.slot := Entry(Finalized, b.hash)];
          assert status == old(status)[b.slot := Entry(Finalized, b.hash)];
          r := HandleFinalizedBlock(b);
        case ImplicitlySkipped =>
        case _ => r := if was.value.hash == b.hash then Some(NOTHING) else None;
      }
    }

    method DoFinalized(s: nat) returns (r: Option<FinEvent>)
      requires PlainSkips(status)
      modifies this`status, this`parents, this`highest, this`first
      ensures r.None? <==> MarkFinalized(old(Value()), s).Halt?
      ensures r.Some? ==> Done(Value(), r.value) == MarkFinalized(old(Value()), s) && PlainSkips(status)
    {
      r := Some(NOTHING);
      if s < first {
        return;
      }
      var was := if s in status then Some(status[s]) else None;
      status := status[s := Entry(FinalPendingNotar, GENESIS_BLOCK_HASH)];
      if was.None? {
        return;
      }
      match was.value.status {
        case Notarized =>
          status := status[s := Entry(Finalized, was.value.hash)];
          assert status == old(status)[s := Entry(Finalized, was.value.hash)];
          r := HandleFinalizedBlock(BlockId(s, was.value.hash));
        case ImplicitlySkipped => r := None;
        case _ =>
      }
    }

    /** One operation: it panics exactly when specified, and otherwise keeps every
        announcement grounded and both watermarks growing. */
    method Perform(op: Op) returns (r: Option<FinEvent>)
      requires Valid()
      modifies this
      ensures r.None? <==> Apply(old(Value()), op).Halt?
      ensures r.Some? ==>
        && Valid() && Done(Value(), r.value) == Apply(old(Value()), op)
        && told == Announce(Note(old(told), op), r.value)
        && old(first) <= first <= highest && old(highest) <= highest
      ensures r.Some? ==> SpreadsExactly(old(Value()), op, r.value) && Kept(Value(), r.value)
    {
      hide SpreadsExactly, Kept;
      StepKeeps(Value(), told, op);
      if Apply(Value(), op).Done? {
        EdgesDescend(Value(), told);
        StepSpreads(Value(), op);
        StepRecords(Value(), op);
      }
      match op {
        case TellParent(b, p) => r := DoParent(b, p);
        case TellFast(b) => r := DoFastFinalized(b);
        case TellNotar(b) => r := DoNotarized(b);
        case TellFinal(s) => r := DoFinalized(s);
      }
      if r.Some? {
        told := Announce(Note(told, op), r.value);
      }
    }
  }

  lemma EdgesDescend(t: Tracker, h: History)
    requires Working(t, h)
    ensures DescendingEdges(t.parents)
  {
  }

  /** A skipped slot carries the genesis hash. */
  ghost predicate PlainSkips(status: map<nat, Entry>) {
    forall s :: s in status && status[s].status.ImplicitlySkipped? ==> status[s] == SKIPPED
  }
}
