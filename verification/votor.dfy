/** The voting process as it runs: an object with a map of slot entries, whose
    handlers append to an output buffer (crates/karstflow-alpenglow/src/votor.rs).
    Every handler is proved to compute the function of the same step in `VotorSpec`,
    so the facts proved there about all runs hold of this object. */
module VotorImpl {
  import opened Base
  import opened Certs
  import opened Sorted
  import opened VotorSpec
  import opened VotorOutput

  class VotorOut {
    var msgs: seq<Message>
    var alarms: seq<Alarm>

    constructor ()
      ensures msgs == [] && alarms == []
    {
      msgs, alarms := [], [];
    }
  }

  class Votor {
    const validatorIndex: nat
    var slots: map<nat, SlotEntry>
    var highestFinalCertSlot: nat
    ghost var cast: seq<Ballot>

    /** The state of this object together with the buffer its handlers append to. */
    ghost function Snapshot(out: VotorOut): State
      reads this, out
    {
      State(validatorIndex, slots, highestFinalCertSlot, cast, out.msgs, out.alarms)
    }

    constructor (index: nat, out: VotorOut)
      requires out.msgs == [] && out.alarms == []
      modifies out
      ensures Snapshot(out) == Init(index)
      ensures Snapshot(out).Tidy()
    {
      validatorIndex := index;
      slots := map[0 := FRESH.(voted := true,
                               votedNotar := Some(GENESIS_BLOCK_HASH),
                               blockNotarized := Some(GENESIS_BLOCK_HASH),
                               parentsReady := [GenesisBlock()],
                               retired := true)];
      highestFinalCertSlot := 0;
      cast := [];
      new;
      DoSetTimeouts(0, out);
    }

    function SlotState(slot: nat): SlotEntry
      reads this
    {
      if slot in slots then slots[slot] else FRESH
    }

    function FirstUnprunedSlot(): nat
      reads this
    {
      FirstSlotInWindow(highestFinalCertSlot)
    }

    method Broadcast(b: Ballot, out: VotorOut)
      modifies this`cast, out`msgs
      ensures Snapshot(out) == old(Snapshot(out)).Vote(b)
      ensures out.msgs == old(out.msgs) + [VoteMessage(Certs.Vote(validatorIndex, b))] && cast == old(cast) + [b]
    {
      out.msgs := out.msgs + [VoteMessage(Certs.Vote(validatorIndex, b))];
      cast := cast + [b];
    }

    method DoSetTimeouts(slot: nat, out: VotorOut)
      requires IsStartOfWindow(slot)
      modifies out`alarms
      ensures Snapshot(out) == SetTimeouts(old(Snapshot(out)), slot)
    {
      ghost var before := out.alarms;
      out.alarms := out.alarms + [CrashedLeader(slot)];
      for s := slot to LastSlotInWindow(slot) + 1
        invariant out.alarms == before + Window(slot)[..1 + s - slot]
      {
        out.alarms := out.alarms + [Timeout(s)];
      }
    }

    method DoTryFinal(slot: nat, hash: BlockHash, out: VotorOut)
      requires slot >= FirstUnprunedSlot()
      modifies this`slots, this`cast, out`msgs
      ensures Snapshot(out) == TryFinal(old(Snapshot(out)), slot, hash)
      ensures Sends(old(Snapshot(out)), Snapshot(out), [])
      ensures old(out.msgs) <= out.msgs
    {
      TryFinalSends(Snapshot(out), slot, hash);
      var e := SlotState(slot);
      if e.blockNotarized == Some(hash) && e.votedNotar == Some(hash) && !e.badWindow {
        Broadcast(Final(slot), out);
        slots := slots[slot := e.(retired := true)];
      }
    }

    method DoTryNotar(slot: nat, block: BlockId, parent: BlockId, out: VotorOut) returns (voted: bool)
      requires slot >= FirstUnprunedSlot()
      modifies this`slots, this`cast, out`msgs
      ensures voted == CanNotar(old(Snapshot(out)), slot, parent)
      ensures Snapshot(out) == TryNotar(old(Snapshot(out)), slot, block, parent)
      ensures voted ==>
        old(out.msgs) + [VoteMessage(Certs.Vote(validatorIndex, Notar(slot, block.hash)))] <= out.msgs
      ensures Sends(old(Snapshot(out)), Snapshot(out), [])
    {
      TryNotarSends(Snapshot(out), slot, block, parent);
      if slot == FirstSlotInWindow(slot) {
        if parent !in SlotState(slot).parentsReady {
          return false;
        }
      } else {
        if parent.slot != slot - 1 {
          return false;
        }
        if SlotState(parent.slot).votedNotar != Some(parent.hash) {
          return false;
        }
      }
      var e := SlotState(slot);
      Broadcast(Notar(slot, block.hash), out);
      slots := slots[slot := e.(voted := true, votedNotar := Some(block.hash), pendingBlock := None)];
      DoTryFinal(slot, block.hash, out);
      return true;
    }

    method DoTrySkipWindow(slot: nat, out: VotorOut)
      requires slot >= FirstUnprunedSlot()
      modifies this`slots, this`cast, out`msgs
      ensures Snapshot(out) == TrySkipWindow(old(Snapshot(out)), slot)
      ensures Sends(old(Snapshot(out)), Snapshot(out), [])
    {
      SkipRangeSends(Snapshot(out), FirstSlotInWindow(slot), LastSlotInWindow(slot) + 1);
      var last := LastSlotInWindow(slot);
      for s := FirstSlotInWindow(slot) to last + 1
        invariant SkipRange(Snapshot(out), s, last + 1) == TrySkipWindow(old(Snapshot(out)), slot)
      {
        var e := SlotState(s);
        if !e.voted {
          slots := slots[s := e.(voted := true, badWindow := true)];
          Broadcast(Skip(s), out);
        }
      }
    }

    /** The pending blocks in ascending slot order. */
    method CollectPending() returns (pending: seq<(nat, BlockId, BlockId)>)
      ensures pending == PendingOf(slots, Enumerate(slots.Keys))
    {
      pending := CollectFrom(Enumerate(slots.Keys));
    }

    method CollectFrom(keys: seq<nat>) returns (pending: seq<(nat, BlockId, BlockId)>)
      requires forall k :: k in keys ==> k in slots
      ensures pending == PendingOf(slots, keys)
    {
      pending := [];
      for i := 0 to |keys|
        invariant pending + PendingOf(slots, keys[i..]) == PendingOf(slots, keys)
      {
        assert keys[i..][1..] == keys[i + 1..];
        var p := slots[keys[i]].pendingBlock;
        if p.Some? {
          pending := pending + [(keys[i], p.value.0, p.value.1)];
        }
      }
      assert keys[|keys|..] == [];
    }

    method DoCheckPending(out: VotorOut)
      requires Snapshot(out).Tidy()
      modifies this`slots, this`cast, out`msgs
      ensures Snapshot(out) == CheckPending(old(Snapshot(out)))
      ensures Sends(old(Snapshot(out)), Snapshot(out), [])
    {
      CheckPendingSends(Snapshot(out));
      var pending := CollectPending();
      PendingOfElements(slots, Enumerate(slots.Keys));
      DoTryEach(pending, out);
    }

    /** Tries each listed block in turn. */
    method DoTryEach(pending: seq<(nat, BlockId, BlockId)>, out: VotorOut)
      requires forall t :: t in pending ==> t.0 >= Snapshot(out).FirstUnpruned()
      modifies this`slots, this`cast, out`msgs
      ensures Snapshot(out) == TryEach(old(Snapshot(out)), pending)
    {
      for i := 0 to |pending|
        invariant forall t :: t in pending[i..] ==> t.0 >= Snapshot(out).FirstUnpruned()
        invariant TryEach(Snapshot(out), pending[i..]) == TryEach(old(Snapshot(out)), pending)
      {
        assert pending[i..][1..] == pending[i + 1..];
        assert pending[i..][0] == pending[i];
        var _ := DoTryNotar(pending[i].0, pending[i].1, pending[i].2, out);
      }
      assert pending[|pending|..] == [];
    }

    method DoPrune(out: VotorOut)
      modifies this`slots
      ensures Snapshot(out) == Prune(old(Snapshot(out)))
    {
      var cutoff := FirstUnprunedSlot();
      slots := map s | s in slots && cutoff <= s :: slots[s];
    }

    method HandleCertCreated(cert: Cert, out: VotorOut)
      requires cert.slot >= FirstUnprunedSlot()
      modifies this, out
      ensures Snapshot(out) == HandleCert(old(Snapshot(out)), cert)
    {
      match cert {
        case NotarCert(slot, hash, _, _) =>
          slots := slots[slot := SlotState(slot).(blockNotarized := Some(hash))];
          DoTryFinal(slot, hash, out);
        case FinalCert(slot, _, _) =>
          DoSetTimeouts(FirstSlotInWindow(slot), out);
          highestFinalCertSlot := Max(highestFinalCertSlot, slot);
          DoPrune(out);
        case FastFinalCert(slot, _, _, _) =>
          DoSetTimeouts(FirstSlotInWindow(slot), out);
          highestFinalCertSlot := Max(highestFinalCertSlot, slot);
          DoPrune(out);
        case _ =>
      }
      out.msgs := out.msgs + [CertMessage(cert)];
    }

    method CastFallback(slot: nat, b: Ballot, out: VotorOut)
      requires slot >= FirstUnprunedSlot()
      modifies this`slots, this`cast, out`msgs
      ensures Snapshot(out) == Fallback(old(Snapshot(out)), slot, b)
    {
      Broadcast(b, out);
      DoTrySkipWindow(slot, out);
      slots := slots[slot := SlotState(slot).(badWindow := true)];
    }

    /** Handles a pool event; the source asserts that parents are announced for window starts. */
    method HandlePoolEvent(e: Event, out: VotorOut)
      requires e.ParentReady? || e.SafeToNotar? || e.SafeToSkip? || e.CertCreated? || e.Standstill?
      requires Snapshot(out).Tidy() && ValidEvent(e)
      modifies this, out
      ensures Snapshot(out) == Step(old(Snapshot(out)), e) && Snapshot(out).Tidy()
      ensures old(out.msgs) <= out.msgs && old(cast) <= cast
      ensures if e.Standstill? then out.msgs == old(out.msgs) + e.bundle && cast == old(cast)
              else VotesIn(out.msgs[|old(out.msgs)|..]) == Signed(validatorIndex, cast[|old(cast)|..])
      ensures !e.Standstill? ==>
        CertsIn(out.msgs[|old(out.msgs)|..]) ==
          if e.CertCreated? && e.cert.slot >= old(highestFinalCertSlot) / 4 * 4 then [e.cert] else []
    {
      hide CheckPending, HandleCert, Fallback, SkipRange, PendingOf, TryEach, CanNotar, OnBlock, VotesIn, CertsIn;
      StepTidy(Snapshot(out), e);
      if !e.Standstill? {
        StepSends(Snapshot(out), e);
      }
      if Ignored(State(validatorIndex, slots, highestFinalCertSlot, [], [], []), e) {
        return;
      }
      match e {
        case ParentReady(slot, parent) =>
          var entry := SlotState(slot);
          slots := slots[slot := if parent in entry.parentsReady then entry
                                 else entry.(parentsReady := entry.parentsReady + [parent])];
          DoCheckPending(out);
          DoSetTimeouts(slot, out);
        case SafeToNotar(b) => CastFallback(b.slot, NotarFallback(b.slot, b.hash), out);
        case SafeToSkip(slot) => CastFallback(slot, SkipFallback(slot), out);
        case CertCreated(cert) => HandleCertCreated(cert, out);
        case Standstill(bundle) => out.msgs := out.msgs + bundle;
      }
    }

    method HandleBlockstoreEvent(e: Event, out: VotorOut)
      requires e.FirstShred? || e.InvalidBlock? || e.Block?
      requires Snapshot(out).Tidy()
      modifies this, out
      ensures Snapshot(out) == Step(old(Snapshot(out)), e) && Snapshot(out).Tidy()
      ensures old(out.msgs) <= out.msgs && old(cast) <= cast
      ensures VotesIn(out.msgs[|old(out.msgs)|..]) == Signed(validatorIndex, cast[|old(cast)|..])
      ensures CertsIn(out.msgs[|old(out.msgs)|..]) == []
    {
      hide CheckPending, HandleCert, Fallback, SkipRange, PendingOf, TryEach, VotesIn, CertsIn;
      StepTidy(Snapshot(out), e);
      StepSends(Snapshot(out), e);
      if e.slot <= highestFinalCertSlot || SlotState(e.slot).retired {
        return;
      }
      match e {
        case FirstShred(slot) => slots := slots[slot := SlotState(slot).(receivedShred := true)];
        case InvalidBlock(slot) => DoTrySkipWindow(slot, out);
        case Block(slot, block, parent) =>
          if SlotState(slot).voted {
            return;
          }
          ghost var before := Snapshot(out);
          var voted := DoTryNotar(slot, block, parent, out);
          if voted {
            TidyAfterNotar(before, slot, block, parent);
            DoCheckPending(out);
          } else {
            slots := slots[slot := SlotState(slot).(pendingBlock := Some((block, parent)))];
          }
      }
    }

    method HandleTimeoutEvent(alarm: Alarm, out: VotorOut)
      requires Snapshot(out).Tidy()
      modifies this, out
      ensures Snapshot(out) == Step(old(Snapshot(out)), Fired(alarm)) && Snapshot(out).Tidy()
      ensures old(out.msgs) <= out.msgs && old(cast) <= cast
      ensures VotesIn(out.msgs[|old(out.msgs)|..]) == Signed(validatorIndex, cast[|old(cast)|..])
      ensures CertsIn(out.msgs[|old(out.msgs)|..]) == []
    {
      hide SkipRange, VotesIn, CertsIn;
      StepTidy(Snapshot(out), Fired(alarm));
      StepSends(Snapshot(out), Fired(alarm));
      var slot := alarm.slot;
      if slot <= highestFinalCertSlot || SlotState(slot).retired {
        return;
      }
      match alarm {
        case Timeout(_) =>
          if !SlotState(slot).voted {
            DoTrySkipWindow(slot, out);
          }
        case CrashedLeader(_) =>
          if !SlotState(slot).receivedShred && !SlotState(slot).voted {
            DoTrySkipWindow(slot, out);
          }
      }
    }
  }
}
