/** A validator: a pool whose events are fed straight into the voting process, as the pool's
    interface intends (crates/karstflow-alpenglow/src/pool.rs). Validators share nothing but
    the votes they cast; the ghost schedule records who was handed which event. */
module Validators {
  import opened Base
  import opened Epoch
  import opened Certs
  import opened SlotStates
  import opened VotorSpec
  import opened VotorInv
  import opened VotorRuns
  import opened VotorImpl
  import opened Quorums
  import opened Agreement
  import opened Schedules
  import opened PoolSpec
  import opened PoolCore
  import opened PoolReady
  import opened PoolImpl
  import Finality
  import opened ParentReadiness

  function Tagged(v: nat, events: seq<Event>): Schedule {
    seq(|events|, i requires 0 <= i < |events| => (v, events[i]))
  }

  class Validator {
    const me: nat
    const pool: Pool
    const votor: Votor
    const out: VotorOut

    /** The voting process is where the schedule leads, and the pool holds only what is true. */
    ghost predicate InStep(w: World, sched: Schedule)
      reads this, pool, pool.slotStates.Values, pool.finality, pool.parentReady, votor, out
    {
      && w.Assumed() && Fits(w.ei) && me in w.honest && pool.ei == w.ei
      && Feasible(w, sched) && Possible(sched, w.parents) && Admissible(EventsOf(sched, me), w.parents)
      && pool.Valid() && pool.Settled() && pool.Knows(After(w, sched)) && Parked(pool.Core())
      && votor.Snapshot(out) == Run(me, EventsOf(sched, me), w.parents)
    }

    constructor (me: nat, ghost w: World, ei: EpochInfo)
      requires w.Assumed() && Fits(ei) && me in w.honest && w.ei == ei
      ensures InStep(w, []) && fresh(pool) && fresh(votor) && fresh(out)
    {
      hide Pool.Valid, Pool.Settled, Pool.Knows, Run, Init, Possible, Admissible, EventsOf, Feasible, After,
           World.Assumed, Fits;
      StartFacts(w, me);
      this.me := me;
      var buffer := new VotorOut();
      out := buffer;
      votor := new Votor(me, buffer);
      pool := new Pool(ei, me, After(w, []));
    }

    /** Feeds one event to the voting process. */
    method Feed(e: Event, ghost w: World, ghost sched: Schedule)
      requires InStep(w, sched) && ValidEvent(e)
      requires (e.ParentReady? || e.SafeToNotar? || e.SafeToSkip? || e.CertCreated?)
      requires After(w, sched).Justified(e)
      modifies votor, out
      ensures InStep(w, sched + [(me, e)]) && LaterThan(After(w, sched + [(me, e)]), After(w, sched))
    {
      hide Pool.Valid, Pool.Settled, Pool.Knows, Run, Step, Network.Justified, LaterThan, Possible, Admissible,
           EventsOf, Feasible, World.Assumed, After, Inv, ValidEvent;
      ghost var sched' := sched + [(me, e)];
      FeedFacts(w, sched, me, e);
      pool.KnowsLasts(After(w, sched), After(w, sched'));
      votor.HandlePoolEvent(e, out);
    }

    /** Feeds the events of a pool call, in order. */
    method Deliver(events: seq<Event>, ghost w: World, ghost sched: Schedule)
      requires InStep(w, sched) && Deliverable(events) && AllJustified(After(w, sched), events)
      modifies votor, out
      ensures InStep(w, sched + Tagged(me, events))
    {
      hide Pool.Valid, Pool.Settled, Pool.Knows, Run, Step, Network.Justified, LaterThan, Possible, Admissible,
           EventsOf, Feasible, World.Assumed, After, Inv, ValidEvent;
      ghost var now := sched;
      LaterChain(After(w, sched), After(w, sched), After(w, sched));
      assert sched + Tagged(me, events[..0]) == sched;
      for i := 0 to |events|
        invariant InStep(w, now) && now == sched + Tagged(me, events[..i])
        invariant LaterThan(After(w, now), After(w, sched))
      {
        assert events[i] in events;
        JustifiedLasts(After(w, sched), After(w, now), events[i]);
        ghost var next := now + [(me, events[i])];
        Feed(events[i], w, now);
        LaterChain(After(w, sched), After(w, now), After(w, next));
        TaggedMore(me, events, i, sched);
        now := next;
      }
      assert events[..|events|] == events;
    }

    /** A vote arrives: it goes to the pool, and what the pool reports to the voting process.
        An honest signer's vote must have been cast, and who votes twice for a block must be
        one of the double voters; they may be all validators. */
    method ReceiveVote(v: nat, b: Ballot, signed: bool, ghost w: World, ghost sched: Schedule)
      returns (ok: bool, events: seq<Event>, ghost later: Schedule)
      requires InStep(w, sched)
      requires VoteKnown(After(w, sched), ViewAt(pool.Book(), b.slot).votes,
                         ViewAt(pool.Book(), b.slot).fallbacks, v, b)
      modifies pool, pool.slotStates.Values, pool.finality, pool.parentReady, votor, out
      ensures ok ==> InStep(w, later) && later == sched + Tagged(me, events)
      ensures ok && old(pool.VoteVerdict(v, b, signed)).Some? ==> events == []
      ensures ok && old(pool.VoteVerdict(v, b, signed)).None? ==>
        && v < |pool.ei.validators| && old(pool.announced) <= pool.announced
        && Announces(events, pool.announced - old(pool.announced))
        && Reports(old(pool.Book()), pool.Book(), events, pool.finality.first)
        && TakesAllReady(old(pool.Core()), old(pool.Completed(v, b)), old(pool.Readiness()), pool.Readiness(), events)
      ensures ok ==> fresh(pool.slotStates.Values - old(pool.slotStates.Values))
      ensures ok <==> !old(pool.VoteHalts(v, b, signed))
      ensures !ok ==>
        v < |pool.ei.validators| && HaltExplained(After(w, sched), old(pool.Core()), old(pool.Completed(v, b)))
    {
      hide HaltExplained, TakeAll, Parked, Pool.Core, Pool.Completed, Pool.VoteHalts;
      HaltingVoter(pool, v, b, signed);
      hide Pool.Valid, Pool.Settled, Pool.Knows, Pool.Book, Pool.VoteVerdict, Run, Step, Network.Sound,
           Network.Grounded, VoteKnown, Possible, Admissible, EventsOf, Feasible, World.Assumed, After, Inv, Enters,
           Reports, Announces, Deliverable, AllJustified, TakesAllReady;
      ScheduleIsSound(w, sched);
      var r, repairs;
      r, events, repairs := pool.AddVote(v, b, signed, After(w, sched));
      ok := !r.Panicked?;
      later := sched + Tagged(me, events);
      if r.Added? {
        Deliver(events, w, sched);
      } else {
        assert Tagged(me, []) == [] && sched + [] == sched;
      }
    }

    /** A certificate arrives; no honest signature on it may be forged. */
    method ReceiveCert(c: Cert, signed: bool, ghost w: World, ghost sched: Schedule)
      returns (ok: bool, events: seq<Event>, ghost later: Schedule)
      requires InStep(w, sched) && c.Shaped() && Authentic(After(w, sched), c)
      modifies pool, pool.slotStates.Values, pool.finality, pool.parentReady, votor, out
      ensures ok ==> InStep(w, later) && later == sched + Tagged(me, events)
      ensures ok && old(pool.CertRejected(c, signed)) ==> events == []
      ensures ok && !old(pool.CertRejected(c, signed)) ==>
        && events != [] && events[|events| - 1] == CertCreated(c) && Announces(events, {KeyOf(c)})
        && Reports(old(pool.Book()), pool.Book(), events, pool.finality.first)
        && TakesReady(old(pool.Core()), MarkOf(c), old(pool.Readiness()), pool.Readiness(), events)
      ensures ok ==> fresh(pool.slotStates.Values - old(pool.slotStates.Values))
      ensures ok <==> !old(pool.CertHalts(c, signed))
      ensures !ok ==> TakeReason(After(w, sched), old(pool.Core()), MarkOf(c))
    {
      hide TakeReason, Take, Parked, Pool.Core;
      hide Pool.Valid, Pool.Settled, Pool.Knows, Pool.Book, Run, Step, Network.Sound, Network.Grounded, Authentic,
           Cert.CheckThreshold, Possible, Admissible, EventsOf, Feasible, World.Assumed, After, Inv, Reports,
           Announces, Deliverable, AllJustified, StoresCert, KeepsVotes, TakesReady;
      ScheduleIsSound(w, sched);
      var r, repairs;
      r, events, repairs := pool.AddCert(c, signed, After(w, sched));
      ok := !r.Panicked?;
      later := sched + Tagged(me, events);
      if r.Added? {
        Deliver(events, w, sched);
      } else {
        assert Tagged(me, []) == [] && sched + [] == sched;
      }
    }

    /** A block arrives with its parent. */
    method ReceiveBlock(b: BlockId, p: BlockId, ghost w: World, ghost sched: Schedule)
      returns (ok: bool, events: seq<Event>, ghost later: Schedule)
      requires InStep(w, sched) && w.parents(b) == p
      modifies pool, pool.slotStates.Values, pool.finality, pool.parentReady, votor, out
      ensures ok ==> InStep(w, later) && later == sched + Tagged(me, events)
      ensures ok ==>
        && NoCertEvents(events) && Reports(old(pool.Book()), pool.Book(), events, pool.finality.first)
        && SpreadsReady(old(pool.finality.Value()), Finality.TellParent(b, p), old(pool.Readiness()),
                        pool.Readiness(), events)
      ensures ok ==> fresh(pool.slotStates.Values - old(pool.slotStates.Values))
      ensures ok <==> Tell(old(pool.Core()), Finality.TellParent(b, p)).Some?
      ensures !ok ==> OpReason(After(w, sched), old(pool.Core()), Finality.TellParent(b, p))
    {
      hide OpReason, Tell, Parked, Pool.Core;
      hide Pool.Valid, Pool.Settled, Pool.Knows, Pool.Book, Run, Step, Network.Sound, Network.Grounded, Possible,
           Admissible, EventsOf, Feasible, World.Assumed, Inv, Reports, Steady, Deliverable, AllJustified,
           SpreadsReady, NoCertEvents, After, Linked;
      ScheduleIsSound(w, sched);
      var r;
      r, events := pool.AddBlock(b, p, After(w, sched));
      ok := !r.Panicked?;
      later := sched + Tagged(me, events);
      if ok {
        SteadyReports(old(pool.Book()), pool.Book(), events, pool.finality.first);
        Deliver(events, w, sched);
      }
    }

    /** The blockstore reports a block, a first shred or an invalid block. */
    method ReceiveBlockstoreEvent(e: Event, ghost w: World, ghost sched: Schedule)
      requires InStep(w, sched) && (e.FirstShred? || e.InvalidBlock? || e.Block?) && Truthful(e, w.parents)
      modifies votor, out
      ensures InStep(w, sched + [(me, e)])
    {
      hide Pool.Valid, Pool.Settled, Pool.Knows, Run, Step, LaterThan, Possible, Admissible, EventsOf, Feasible,
           World.Assumed, After, Inv, Truthful;
      ghost var sched' := sched + [(me, e)];
      FeedFacts(w, sched, me, e);
      pool.KnowsLasts(After(w, sched), After(w, sched'));
      votor.HandleBlockstoreEvent(e, out);
    }

    /** A timeout fires. */
    method ReceiveTimeout(alarm: Alarm, ghost w: World, ghost sched: Schedule)
      requires InStep(w, sched)
      modifies votor, out
      ensures InStep(w, sched + [(me, Fired(alarm))])
    {
      hide Pool.Valid, Pool.Settled, Pool.Knows, Run, Step, LaterThan, Possible, Admissible, EventsOf, Feasible,
           World.Assumed, After, Inv;
      ghost var sched' := sched + [(me, Fired(alarm))];
      FeedFacts(w, sched, me, Fired(alarm));
      pool.KnowsLasts(After(w, sched), After(w, sched'));
      votor.HandleTimeoutEvent(alarm, out);
    }

    /** Another validator's move leaves this one in step. */
    lemma OthersMove(w: World, sched: Schedule, u: nat, e: Event)
      requires InStep(w, sched) && u != me
      requires ValidEvent(e) && Truthful(e, w.parents) && After(w, sched).Justified(e)
      ensures InStep(w, sched + [(u, e)])
    {
      hide Pool.Valid, Pool.Settled, Pool.Knows, Run, LaterThan, Admissible, World.Assumed, Inv, Network.Justified;
      var sched' := sched + [(u, e)];
      HandOver(w, sched, u, e);
      FeasibleIsPossible(w, sched');
      assert EventsOf(sched', me) == EventsOf(sched, me) + [] == EventsOf(sched, me);
      pool.KnowsLasts(After(w, sched), After(w, sched'));
    }
  }

  /** If everybody may vote twice, every vote whose honest signer cast it may arrive. */
  lemma AnyVoteMayArrive(x: Validator, w: World, sched: Schedule, v: nat, b: Ballot)
    requires x.InStep(w, sched) && w.doubles == w.ei.All()
    requires v in w.honest ==> After(w, sched).Has(v, b)
    ensures var view := ViewAt(x.pool.Book(), b.slot);
      VoteKnown(After(w, sched), view.votes, view.fallbacks, v, b)
  {
    hide Run, Step, Inv, Admissible, Possible, EventsOf, Feasible, World.Assumed, Pool.Knows, Pool.Settled, Network.Has,
         Pool.AnnouncedExactly, ParentReadyTracker.Valid, Fits, Parked;
    var net := After(w, sched);
    assert net.doubles == w.doubles && net.honest == w.honest by {
      SameDoubles(w, sched);
    }
    if b.slot in x.pool.slotStates {
      assert x.pool.slotStates[b.slot].Valid(w.ei);
    }
  }

  lemma SameDoubles(w: World, sched: Schedule)
    requires Possible(sched, w.parents)
    ensures After(w, sched).doubles == w.doubles && After(w, sched).honest == w.honest
  {
  }

  lemma HaltingVoter(pool: Pool, v: nat, b: Ballot, signed: bool)
    ensures pool.VoteHalts(v, b, signed) ==> v < |pool.ei.validators|
  {
  }

  lemma NotarsAreGrounded(net: Network)
    requires net.Grounded()
    ensures net.NotarsGrounded()
  {
  }

  lemma OneNotarized(net: Network, a: BlockId, h: BlockHash)
    requires net.Notarized(a) && Locked(net, BlockId(a.slot, h))
    ensures Locked(net, a)
  {
    NotarizedIsCertified(net, a);
    assert a == BlockId(a.slot, a.hash);
  }

  /** A slot that one validator finalized by a final certificate is sealed for all of them,
      whatever votes were received: no other validator notarizes, fast-finalizes or finalizes
      another block of the slot, or takes the slot for skipped. */
  lemma FinalizedSlotsAgree(x: Validator, y: Validator, w: World, sched: Schedule, a: BlockId)
    requires x.InStep(w, sched) && y.InStep(w, sched)
    requires a in x.pool.finality.told.notarized && a.slot in x.pool.finality.told.finals && a.slot > 0
    ensures forall b :: b in y.pool.finality.told.notarized || b in y.pool.finality.told.fast ==>
      b.slot == a.slot ==> b == a
    ensures forall b :: b in y.pool.finality.told.direct ==> b.slot == a.slot ==> b == a
    ensures a.slot !in y.pool.finality.told.skipped && a.slot !in y.pool.parentReady.skipped
    ensures SkipKey(a.slot) !in y.pool.announced
  {
    hide Run, Step, Inv, Admissible, Possible, EventsOf, Feasible, World.Assumed, After, Network.Sound,
         Network.Grounded, Network.Certified, Network.Endorsed, Network.Notarized, Network.Finalized, Pool.Settled,
         Pool.SlotsFit, Pool.AnnouncedExactly, Sealed, ParentReadyTracker.Valid, SlotKnown;
    var net := After(w, sched);
    ScheduleIsSound(w, sched);
    NotarsAreGrounded(net);
    var h := SlowFinalizationSeals(net, a.slot);
    NotarizedUnique(net, a.slot, a.hash, h);
    FinalityKnown(net, y.pool.finality.Value(), y.pool.finality.told);
    FinalizedIsNotSkipped(net, a.slot);
    forall b | (b in y.pool.finality.told.notarized || b in y.pool.finality.told.fast) && b.slot == a.slot
      ensures b == a
    {
      if b in y.pool.finality.told.fast {
        StrongIsQuorum(net, b);
      }
      NotarizedUnique(net, a.slot, a.hash, b.hash);
    }
  }

  /** What two validators take for final: everything that one of them finalized, directly, fast
      or implicitly, at or above a slot that the other finalized by a final certificate,
      descends from the block finalized there, as long as the adversary and the double voters
      hold less than 20% in sum. */
  lemma FinalizedBlocksAgree(x: Validator, y: Validator, w: World, sched: Schedule, a: BlockId, b: BlockId)
    requires x.InStep(w, sched) && y.InStep(w, sched) && w.Tolerable()
    requires a in x.pool.finality.told.notarized && a.slot in x.pool.finality.told.finals && a.slot > 0
    requires b in y.pool.finality.told.direct || b in y.pool.finality.told.implicit
    requires a.slot <= b.slot
    ensures Descends(w.parents, b, a)
  {
    hide Run, Step, Inv, Admissible, Possible, EventsOf, Feasible, World.Assumed, After, Network.Sound,
         Network.Grounded, Network.Certified, Network.Notarized, Network.Finalized, Pool.Settled, Pool.SlotsFit,
         Pool.AnnouncedExactly, Locked, ParentReadyTracker.Valid, SlotKnown, ReadyKnown, AnnouncedKnown,
         Finality.Working;
    var net := After(w, sched);
    ScheduleIsSound(w, sched);
    NotarsAreGrounded(net);
    var h := SlowFinalizationLocks(net, a.slot);
    FinalityKnown(net, y.pool.finality.Value(), y.pool.finality.told);
    OneNotarized(net, a, h);
    OneChain(net, a, b);
  }

  /** The same for a block that one validator fast-finalized, as long as the adversary, the
      validators that voted both ways in its slot and the double voters hold less than 20%. */
  lemma FastFinalizedBlocksAgree(x: Validator, y: Validator, w: World, sched: Schedule, a: BlockId, b: BlockId)
    requires x.InStep(w, sched) && y.InStep(w, sched) && FewMixed(After(w, sched), a.slot)
    requires a in x.pool.finality.told.fast && 0 < a.slot <= b.slot
    requires b in y.pool.finality.told.direct || b in y.pool.finality.told.implicit
    ensures Descends(w.parents, b, a)
  {
    hide Run, Step, Inv, Admissible, Possible, EventsOf, Feasible, World.Assumed, After, Network.Sound,
         Network.Grounded, Network.Certified, Network.Notarized, Network.Finalized, Network.FastFinalized, FewMixed,
         Pool.Settled, Pool.SlotsFit, Pool.AnnouncedExactly, ParentReadyTracker.Valid, SlotKnown, ReadyKnown,
         AnnouncedKnown, Finality.Working, Parked;
    var net := After(w, sched);
    ScheduleIsSound(w, sched);
    FinalityKnown(net, y.pool.finality.Value(), y.pool.finality.told);
    FastFinalizedAgree(net, a, b);
  }

  lemma StartFacts(w: World, v: nat)
    requires w.Assumed()
    ensures Feasible(w, []) && Possible([], w.parents) && After(w, []).ei == w.ei
    ensures Admissible(EventsOf([], v), w.parents) && Run(v, EventsOf([], v), w.parents) == Init(v)
  {
  }

  lemma TaggedMore(v: nat, events: seq<Event>, i: nat, sched: Schedule)
    requires i < |events|
    ensures sched + Tagged(v, events[..i + 1]) == sched + Tagged(v, events[..i]) + [(v, events[i])]
  {
    assert events[..i + 1] == events[..i] + [events[i]];
    assert Tagged(v, events[..i + 1]) == Tagged(v, events[..i]) + [(v, events[i])];
  }

  lemma LaterChain(a: Network, b: Network, c: Network)
    ensures LaterThan(a, a) && (LaterThan(b, a) && LaterThan(c, b) ==> LaterThan(c, a))
  {
  }

  /** What one more event means for the schedule and for the run of its receiver. */
  lemma FeedFacts(w: World, sched: Schedule, v: nat, e: Event)
    requires Feasible(w, sched) && Possible(sched, w.parents) && Admissible(EventsOf(sched, v), w.parents)
    requires ValidEvent(e) && Truthful(e, w.parents) && After(w, sched).Justified(e)
    ensures var sched' := sched + [(v, e)];
      && Feasible(w, sched') && Possible(sched', w.parents) && Admissible(EventsOf(sched', v), w.parents)
      && LaterThan(After(w, sched'), After(w, sched)) && Run(v, EventsOf(sched, v), w.parents).Tidy()
      && Run(v, EventsOf(sched', v), w.parents) == Step(Run(v, EventsOf(sched, v), w.parents), e)
  {
    hide Run, Step, Network.Justified, LaterThan, Inv, Admissible, EventsOf;
    HandOver(w, sched, v, e);
    FeasibleIsPossible(w, sched + [(v, e)]);
    StepInRun(v, EventsOf(sched, v), e, w.parents);
  }

  /** The next step of a run. */
  lemma StepInRun(v: nat, events: seq<Event>, e: Event, parents: Parents)
    requires Admissible(events, parents) && ValidEvent(e) && Truthful(e, parents)
    ensures Admissible(events + [e], parents) && Run(v, events, parents).Tidy()
    ensures Run(v, events + [e], parents) == Step(Run(v, events, parents), e)
  {
    var more := events + [e];
    assert more[..|more| - 1] == events && more[|more| - 1] == e;
    RunStep(v, more, parents);
  }
}
