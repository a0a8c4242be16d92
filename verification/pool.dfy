/** The pool as it runs: votes, certificates and blocks go in, events for the voting
    process come out (crates/karstflow-alpenglow/src/pool.rs). */
module PoolImpl {
  import opened Base
  import opened Epoch
  import opened Certs
  import opened SlotSpec
  import opened SlotStates
  import opened SlotMeaning
  import opened ParentReadiness
  import opened Finality
  import FinalitySpread
  import opened FinalityImpl
  import opened VotorSpec
  import opened Quorums
  import opened Agreement
  import opened Schedules
  import opened PoolSpec
  import opened FinalityHalts
  import opened PoolCore
  import opened PoolReady

  class Pool {
    const ei: EpochInfo
    const own: nat
    const finality: FinalityTracker
    const parentReady: ParentReadyTracker
    var slotStates: map<nat, SlotState>
    var waiting: map<BlockId, BlockId>
    ghost var announced: set<Key>

    constructor (ei: EpochInfo, own: nat, ghost net: Network)
      requires Fits(ei)
      ensures this.ei == ei && this.own == own && Valid() && Settled()
      ensures slotStates == map[] && announced == {} && Core() == Start()
      ensures fresh(finality) && fresh(parentReady)
      ensures net.ei == ei ==> Knows(net)
    {
      hide Working, Exact, ToldKnown, ReadyKnown, AnnouncedKnown, OnlyDue, NoHistory, Fits;
      GenesisKnown(net);
      NothingDueYet(ei);
      this.ei := ei;
      this.own := own;
      finality := new FinalityTracker();
      parentReady := new ParentReadyTracker.Genesis();
      slotStates := map[];
      waiting := map[];
      announced := {};
      new;
      assert Book() == map[];
    }

    ghost predicate SlotsFit()
      reads this, slotStates.Values
    {
      forall s :: s in slotStates ==> slotStates[s].slot == s && slotStates[s].own == own && slotStates[s].Valid(ei)
    }

    /** Above the watermark, exactly the stored certificates were announced. */
    ghost predicate AnnouncedExactly()
      reads this, slotStates.Values, finality
    {
      forall k: Key :: k.slot >= finality.first ==>
        (k in announced <==> k.slot in slotStates && Holds(slotStates[k.slot].certs, k))
    }

    ghost predicate Valid()
      reads this, slotStates.Values, finality, parentReady
    {
      && Fits(ei)
      && finality.Valid() && parentReady.Valid() && parentReady.root == finality.first
      && SlotsFit() && AnnouncedExactly()
    }

    /** What the pool holds is true of the network. */
    ghost predicate Knows(net: Network)
      reads this, slotStates.Values, finality, parentReady
    {
      && net.ei == ei
      && (forall s :: s in slotStates ==> SlotKnown(net, slotStates[s]))
      && (forall p :: p in waiting ==> net.parents(waiting[p]) == p)
      && ReadyKnown(net, parentReady.marked, parentReady.skipped)
      && ToldKnown(net, finality.told)
      && AnnouncedKnown(net, announced)
    }

    ghost function Book(): PoolSpec.Book
      reads this`slotStates, slotStates.Values
    {
      map s | s in slotStates :: ViewOf(slotStates[s])
    }

    /** The blocks whose slot state knows them. */
    ghost function Blocks(): iset<BlockId>
      reads this`slotStates, slotStates.Values`parents
    {
      iset b: BlockId | b.slot in slotStates && b.hash in slotStates[b.slot].parents
    }

    /** What decides whether a certificate makes the pool panic. */
    ghost function Core(): PoolCore.Core
      reads this`slotStates, this`waiting, slotStates.Values`parents, finality
    {
      PoolCore.Core(finality.Value(), finality.told, waiting, Blocks(), Certified())
    }

    /** The blocks that were told that their parent has a certificate. */
    ghost function Certified(): iset<BlockId>
      reads this`slotStates, slotStates.Values`parents
    {
      iset b: BlockId | b.slot in slotStates && IsCertified(slotStates[b.slot].parents, b.hash)
    }

    /** The parents held ready. */
    ghost function Readiness(): Ready
      reads parentReady
    {
      Ready(parentReady.root, parentReady.states, parentReady.marked, parentReady.skipped)
    }

    lemma ReadinessListed()
      requires Valid()
      ensures Readiness().Listed()
    {
    }

    /** What the slot knows of its blocks, and those waiting for a check. */
    ghost function Needs(s: nat): (map<BlockHash, ParentStatus>, set<BlockHash>)
      reads this`slotStates, slotStates.Values`parents, slotStates.Values`pending
    {
      if s in slotStates then (slotStates[s].parents, slotStates[s].pending) else (map[], {})
    }

    /** The blocks a vote's slot state asks for: supported enough, and not known. */
    ghost function Wanted(v: nat, b: Ballot): set<BlockHash>
      requires v < |ei.validators|
      reads this, slotStates.Values
    {
      var t := Count(ViewAt(Book(), b.slot).totals, b, ei.validators[v].stake);
      Absent(ei, t, Needs(b.slot).0, Rechecked(b, v == own, Needs(b.slot).1))
    }

    /** No certificate is due: whatever a threshold calls for is stored and announced. */
    ghost predicate Settled()
      reads this, slotStates.Values, finality
    {
      OnlyDue(ei, Book(), finality.first, {})
    }

    /** What a pool knows stays true while the network goes on. */
    lemma KnowsLasts(net: Network, later: Network)
      requires Knows(net) && LaterThan(later, net)
      ensures Knows(later)
    {
      hide ToldKnown, ReadyKnown, AnnouncedKnown, EntryKnown;
      forall s | s in slotStates
        ensures SlotKnown(later, slotStates[s])
      {
        var ss := slotStates[s];
        EntryLasts(net, later, ss.slot, ss.votes, ss.fallbackVotes, ss.parents);
      }
      MarksLast(net, later, parentReady.marked, parentReady.skipped, finality.told, announced);
    }

    method SlotStateFor(s: nat, ghost net: Network) returns (ss: SlotState)
      requires Valid()
      modifies this`slotStates
      ensures Valid() && slotStates == old(slotStates)[s := ss] && SameAbove(old(Book()), Book(), 0)
      ensures s in old(slotStates) ==> ss == old(slotStates)[s]
      ensures s !in old(slotStates) ==> fresh(ss) && ss.parents == map[]
      ensures forall t :: Needs(t) == old(Needs(t))
      ensures Blocks() == old(Blocks()) && Core() == old(Core())
      ensures old(Knows(net)) ==> Knows(net)
    {
      hide Pool.Valid, Pool.Knows, Pool.Book;
      if s in slotStates {
        ss := slotStates[s];
        assert slotStates == slotStates[s := ss];
      } else {
        ss := new SlotState(s, own);
        OpenSlot(ss, net);
      }
    }

    /** Takes up the empty state of a new slot. */
    method OpenSlot(ss: SlotState, ghost net: Network)
      requires Valid() && ss.slot !in slotStates && ss.own == own && ViewOf(ss) == EMPTY_VIEW
      requires ss.parents == map[] && ss.pending == {}
      modifies this`slotStates
      ensures Valid() && slotStates == old(slotStates)[ss.slot := ss] && SameAbove(old(Book()), Book(), 0)
      ensures old(Knows(net)) ==> Knows(net)
    {
      hide Working, Exact, ToldKnown, ReadyKnown, AnnouncedKnown, SlotState.Valid, EntryKnown;
      EmptyIsValid(ss, ei, net);
      slotStates := slotStates[ss.slot := ss];
    }

    /** Tells the finality tracker, marks what it announces as valid parents and skipped
        slots, and prunes everything below the new watermark. */
    method FinalityStep(op: Op, ghost net: Network) returns (ok: bool, events: seq<Event>)
      requires Valid()
      modifies this`slotStates, finality, parentReady
      ensures ok <==> Tell(old(Core()), op).Some?
      ensures ok ==> Core() == Tell(old(Core()), op).value
      ensures ok ==>
          && Valid() && finality.Value() == Apply(old(finality.Value()), op).tracker
          && old(finality.first) <= finality.first
      ensures ok ==> slotStates == map s | s in old(slotStates) && s >= finality.first :: old(slotStates)[s]
      ensures ok ==> SameAbove(old(Book()), Book(), finality.first)
      ensures ok ==> Deliverable(events)
      ensures forall e :: e in events ==> e.ParentReady?
      ensures ok ==> SpreadsReady(old(finality.Value()), op, old(Readiness()), Readiness(), events)
      ensures ok && net.Sound() && net.Grounded() && old(Knows(net)) && OpKnown(net, op) ==>
        Knows(net) && AllJustified(net, events)
    {
      hide Working, Exact, ToldKnown, ReadyKnown, AnnouncedKnown, SlotState.Valid, EntryKnown, Fits, Apply, Announce,
           Note, Network.Sound, Network.Grounded, BestNew, Holds, Pool.Book, Pool.Blocks, From, SameAbove,
           Deliverable, AllJustified, BestEvents, Pool.SlotsFit, SlotKnown, NewlyReady, BecomesReady,
           ParentReadyTracker.OneParentAtMost, BestReady, SpreadsReady, Pool.Certified,
           FinalitySpread.SpreadsExactly, FinalitySpread.Kept, ParentReadyTracker.Valid;
      events := [];
      ghost var told := finality.told;
      var r := finality.Perform(op);
      if r.None? {
        return false, [];
      }
      ok := true;
      ghost var marked, skipped := parentReady.marked, parentReady.skipped;
      var best := MarkFinal(r.value, net);
      events := BestEvents(best);
      if net.Sound() && net.Grounded() && old(Knows(net)) && OpKnown(net, op) {
        SpreadKnown(net, finality.Value(), told, op, r.value, parentReady.root, marked, skipped);
      }
      assert Book() == old(Book());
      ghost var mid := Readiness();
      Prune(net);
      SpreadStated(old(finality.Value()), op, old(Readiness()), mid, Readiness(), best);
    }

    /** Marks what was announced as final as valid parents and skipped slots. */
    method MarkFinal(ev: FinEvent, ghost net: Network) returns (best: Option<ReadyPair>)
      requires parentReady.Valid()
      modifies parentReady
      ensures parentReady.Valid() && parentReady.root == old(parentReady.root)
      ensures parentReady.marked == old(parentReady.marked) + AtOrAbove(parentReady.root, Named(ev))
      ensures parentReady.skipped == old(parentReady.skipped) + SlotsAtOrAbove(parentReady.root, ev.gaps)
      ensures BestReady(parentReady.root, old(parentReady.states), parentReady.marked, parentReady.skipped, best)
      ensures BestNew(old(parentReady.states), parentReady.states, best) && Deliverable(BestEvents(best))
      ensures ReadyKnown(net, parentReady.marked, parentReady.skipped) ==> AllJustified(net, BestEvents(best))
    {
      hide Exact, BestReady, BestNew, NewlyReady, BecomesReady, ParentReadyTracker.OneParentAtMost, BestEvents,
           Deliverable, AllJustified, ReadyKnown;
      best := parentReady.HandleFinalization(ev.finalized, ev.ancestors, ev.gaps);
      BestIsStart(parentReady, old(parentReady.states), best);
      if ReadyKnown(net, parentReady.marked, parentReady.skipped) {
        BestJustified(net, parentReady, old(parentReady.states), best);
      }
    }

    /** Drops everything below the watermark. */
    method Prune(ghost net: Network)
      requires Fits(ei) && finality.Valid() && parentReady.Valid() && parentReady.root <= finality.first
      requires SlotsFit() && AnnouncedExactly()
      modifies this`slotStates, parentReady
      ensures Valid() && slotStates == map s | s in old(slotStates) && s >= finality.first :: old(slotStates)[s]
      ensures SameAbove(old(Book()), Book(), finality.first) && Blocks() == From(old(Blocks()), finality.first)
      ensures Certified() == From(old(Certified()), finality.first)
      ensures PrunedReady(old(Readiness()), Readiness(), finality.first)
      ensures old(Knows(net)) ==> Knows(net)
    {
      hide Working, Exact, ToldKnown, ReadyKnown, AnnouncedKnown, SlotState.Valid, EntryKnown, Fits, Holds;
      slotStates := map s | s in slotStates && s >= finality.first :: slotStates[s];
      parentReady.Prune(finality.first);
    }

    /** Marks a block's parent certified. The source panics if the block is not known,
        which happens when its slot state was dropped meanwhile. */
    method CertifyParent(child: BlockId, ghost net: Network) returns (ok: bool, events: seq<Event>)
      requires Valid()
      modifies this`slotStates, slotStates.Values
      ensures ok <==> child in old(Blocks())
      ensures ok ==> Valid() && slotStates == old(slotStates) && Steady(old(Book()), Book(), events, 0)
      ensures ok ==> Blocks() == old(Blocks()) && Certified() == old(Certified()) + iset{child}
      ensures ok ==> IsCertified(slotStates[child.slot].parents, child.hash)
      ensures Deliverable(events) && forall e :: e in events ==> e.SafeToNotar?
      ensures ok && old(Knows(net)) && net.ValidParent(net.parents(child)) ==> Knows(net) && AllJustified(net, events)
    {
      hide Pool.Valid, Pool.Knows, Pool.Book, Steady;
      events := [];
      var ss := SlotStateFor(child.slot, net);
      if child.hash !in ss.parents {
        return false, [];
      }
      ok := true;
      assert slotStates == old(slotStates);
      events := CertifyIn(ss, child, net);
    }

    method CertifyIn(ss: SlotState, child: BlockId, ghost net: Network) returns (events: seq<Event>)
      requires Valid() && child.slot in slotStates && slotStates[child.slot] == ss && child.hash in ss.parents
      modifies ss`parents, ss`pending, ss`sent
      ensures Valid() && Steady(old(Book()), Book(), events, 0) && IsCertified(ss.parents, child.hash)
      ensures Blocks() == old(Blocks()) && Certified() == old(Certified()) + iset{child}
      ensures Deliverable(events) && forall e :: e in events ==> e.SafeToNotar?
      ensures old(Knows(net)) && net.ValidParent(net.parents(child)) ==> Knows(net) && AllJustified(net, events)
    {
      hide Working, Exact, ToldKnown, ReadyKnown, AnnouncedKnown, SlotState.Valid, EntryKnown, Fits, Holds,
           Network.Justified, Network.ValidParent, Steady, Pool.Book;
      events := [];
      assert ss.Valid(ei);
      var e := MarkCertified(ss, child);
      if e.Some? {
        events := [ToVotor(e.value)];
      }
      if old(Knows(net)) && net.ValidParent(net.parents(child)) {
        ChildKnown(net, ss, child.hash, old(ss.parents), e);
      }
    }

    method MarkCertified(ss: SlotState, child: BlockId) returns (e: Option<SlotEvent>)
      requires SlotsFit() && child.slot in slotStates && slotStates[child.slot] == ss && child.hash in ss.parents
      modifies ss`parents, ss`pending, ss`sent
      ensures ss.Valid(ei) && ss.parents == old(ss.parents)[child.hash := ParentCertified]
      ensures e.Some? ==> e.value == SafeNotarEvent(child) && child.hash in ss.sent
      ensures Steady(old(Book()), Book(), if e.Some? then [ToVotor(e.value)] else [], 0)
    {
      hide SlotState.Valid, Steady;
      assert ss.Valid(ei);
      e := ss.NotifyParentCertified(child.hash, ei);
      assert child == BlockId(ss.slot, child.hash);
      assert Book() == old(Book())[child.slot := ViewOf(ss)];
      ChangedSent(old(Book()), Book(), child.slot, child.hash, ss.sent, if e.Some? then [ToVotor(e.value)] else []);
    }

    /** Tells the child parked under a block that its parent is certified. */
    method NotifyChild(b: BlockId, ghost net: Network) returns (ok: bool, events: seq<Event>)
      requires Valid()
      modifies this`slotStates, this`waiting, slotStates.Values
      ensures ok <==> Notify(old(Core()), b).Some?
      ensures ok ==> Core() == Notify(old(Core()), b).value
      ensures ok ==>
          && Valid() && waiting == old(waiting) - {b} && slotStates == old(slotStates)
          && Steady(old(Book()), Book(), events, 0)
      ensures Deliverable(events) && forall e :: e in events ==> e.SafeToNotar?
      ensures ok && old(Knows(net)) && net.ValidParent(b) ==> Knows(net) && AllJustified(net, events)
    {
      hide Working, Exact, ToldKnown, ReadyKnown, AnnouncedKnown, SlotState.Valid, EntryKnown, Fits, Holds,
           Network.Justified, Network.ValidParent, Pool.Book, Steady;
      events, ok := [], true;
      SameIsSteady(Book(), Book(), [], 0);
      if b in waiting {
        var child := waiting[b];
        waiting := waiting - {b};
        ok, events := CertifyParent(child, net);
      }
    }

    /** Lists a block as a valid parent where it connects. */
    method MarkParent(b: BlockId, ghost net: Network) returns (events: seq<Event>)
      requires Valid()
      modifies parentReady
      ensures Valid() && Deliverable(events) && (forall e :: e in events ==> e.ParentReady?)
      ensures MarksReady(b, old(Readiness()), Readiness(), events)
      ensures old(Knows(net)) && net.ValidParent(b) ==> Knows(net) && AllJustified(net, events)
    {
      hide Working, Exact, ToldKnown, AnnouncedKnown, SlotState.Valid, EntryKnown, Fits, Holds, NewPairs,
           Network.Justified, Network.ValidParent, Network.Skipped;
      var pairs := parentReady.MarkNotarFallback(b);
      events := ReadyEvents(pairs);
      PairsAnnounced(old(parentReady.states), parentReady.states, pairs);
      PairsAreStarts(parentReady, old(parentReady.states), pairs);
      if old(Knows(net)) && net.ValidParent(b) {
        PairsJustified(net, parentReady, old(parentReady.states), pairs);
      }
    }

    /** Lists the blocks a skipped slot connects. */
    method MarkSkip(s: nat, ghost net: Network) returns (events: seq<Event>)
      requires Valid()
      modifies parentReady
      ensures Valid() && Deliverable(events) && (forall e :: e in events ==> e.ParentReady?)
      ensures SkipsReady(s, old(Readiness()), Readiness(), events)
      ensures old(Knows(net)) && net.Skipped(s) ==> Knows(net) && AllJustified(net, events)
    {
      hide Working, Exact, ToldKnown, AnnouncedKnown, SlotState.Valid, EntryKnown, Fits, Holds, NewPairs,
           Network.Justified, Network.ValidParent, Network.Skipped;
      var pairs := parentReady.MarkSkipped(s);
      events := ReadyEvents(pairs);
      PairsAnnounced(old(parentReady.states), parentReady.states, pairs);
      PairsAreStarts(parentReady, old(parentReady.states), pairs);
      if old(Knows(net)) && net.Skipped(s) {
        PairsJustified(net, parentReady, old(parentReady.states), pairs);
      }
    }

    /** Stores a certificate in its slot state; this is what makes it announced. */
    method KeepCert(c: Cert, ghost net: Network)
      requires Valid()
      modifies this`slotStates, this`announced, slotStates.Values
      ensures Valid() && announced == old(announced) + {KeyOf(c)} && fresh(slotStates.Values - old(slotStates.Values))
      ensures Core() == old(Core())
      ensures KeepsVotes(old(Book()), Book(), 0) && StoresCert(old(Book()), Book(), c, 0)
      ensures Reports(old(Book()), Book(), [], 0)
      ensures old(Knows(net)) && CertKnown(net, c) ==> Knows(net)
    {
      hide Pool.Valid, Pool.Knows, Pool.Book, StoreCert;
      var ss := SlotStateFor(c.slot, net);
      PutCert(ss, c, net);
    }

    method PutCert(ss: SlotState, c: Cert, ghost net: Network)
      requires Valid() && c.slot in slotStates && slotStates[c.slot] == ss
      modifies this`announced, ss`certs
      ensures Valid() && announced == old(announced) + {KeyOf(c)}
      ensures KeepsVotes(old(Book()), Book(), 0) && StoresCert(old(Book()), Book(), c, 0)
      ensures Reports(old(Book()), Book(), [], 0)
      ensures old(Knows(net)) && CertKnown(net, c) ==> Knows(net)
    {
      hide Working, Exact, ToldKnown, ReadyKnown, EntryKnown, Fits, Holds, SlotState.Valid, StoreCert, KeepsVotes,
           StoresCert, Reports, Pool.Book;
      StoreIn(ss, c);
      announced := announced + {KeyOf(c)};
      forall k: Key | k.slot == c.slot
        ensures Holds(ss.certs, k) <==> Holds(old(ss.certs), k) || k == KeyOf(c)
      {
        StoreHolds(old(ss.certs), c, k);
      }
    }

    method StoreIn(ss: SlotState, c: Cert)
      requires SlotsFit() && c.slot in slotStates && slotStates[c.slot] == ss
      modifies ss`certs
      ensures ss.certs == StoreCert(old(ss.certs), c)
      ensures KeepsVotes(old(Book()), Book(), 0) && StoresCert(old(Book()), Book(), c, 0)
      ensures Reports(old(Book()), Book(), [], 0)
    {
      hide SlotState.Valid, StoreCert, KeepsVotes, StoresCert, Reports;
      ss.AddCert(c);
      assert Book() == old(Book())[c.slot := ViewOf(ss)];
      ChangedCerts(old(Book()), Book(), c);
    }

    /** Tells the parked child of a certified block, then lists the block as a parent. */
    method NotifyAndMark(b: BlockId, ghost net: Network) returns (ok: bool, events: seq<Event>)
      requires Valid()
      modifies this`slotStates, this`waiting, slotStates.Values, parentReady
      ensures ok <==> Notify(old(Core()), b).Some?
      ensures ok ==> Core() == Notify(old(Core()), b).value && Valid() && slotStates == old(slotStates)
      ensures ok ==> Steady(old(Book()), Book(), events, 0)
      ensures NoCertEvents(events) && (ok ==> Deliverable(events))
      ensures ok ==> MarksReady(b, old(Readiness()), Readiness(), events)
      ensures ok && old(Knows(net)) && net.ValidParent(b) ==> Knows(net) && AllJustified(net, events)
    {
      hide Working, Exact, Network.Justified, Network.ValidParent, Pool.Valid, Pool.Knows, Pool.Book, Pool.Core,
           Steady, ReadyAnnounced, AllJustified, Deliverable, Notify;
      ok, events := NotifyChild(b, net);
      if !ok {
        return;
      }
      ghost var before := Readiness();
      var ready := MarkParent(b, net);
      SameIsSteadyWith(Book(), ready, 0);
      SteadyAppend(old(Book()), Book(), Book(), events, ready, 0, 0);
      OnlyReadyCounts(before.states, parentReady.states, events, ready);
      Join(net, events, ready);
      events := events + ready;
    }

    /** A block got a notar or notar-fallback certificate. */
    method OnCertified(b: BlockId, isNotar: bool, ghost net: Network) returns (ok: bool, events: seq<Event>)
      requires Valid()
      modifies this`slotStates, this`waiting, slotStates.Values, finality, parentReady
      ensures ok <==> Take(old(Core()), if isNotar then NotarMark(b) else FallbackMark(b)).Some?
      ensures ok ==> Core() == Take(old(Core()), if isNotar then NotarMark(b) else FallbackMark(b)).value
      ensures ok ==> Valid() && old(finality.first) <= finality.first && slotStates.Values <= old(slotStates.Values)
      ensures ok ==> Steady(old(Book()), Book(), events, finality.first)
      ensures NoCertEvents(events) && (ok ==> Deliverable(events))
      ensures ok ==>
        TakesReady(old(Core()), if isNotar then NotarMark(b) else FallbackMark(b), old(Readiness()), Readiness(),
                   events)
      ensures ok && net.Sound() && net.Grounded() && old(Knows(net)) && net.ValidParent(b) ==>
        (isNotar ==> net.Notarized(b)) ==>
        Knows(net) && AllJustified(net, events)
    {
      hide Working, Exact, Apply, Network.Notarized, Network.Sound, Network.Grounded, Network.Justified,
           Network.ValidParent, Pool.Valid, Pool.Knows, Pool.Book, Pool.Core, SameAbove, Steady,
           AllJustified, Deliverable, Tell, Notify, SpreadsReady, MarksReady, Ready.Listed;
      ok, events := true, [];
      TrackerOf();
      SameIsSteadyWith(Book(), [], finality.first);
      if isNotar {
        ok, events := FinalityStep(TellNotar(b), net);
        if !ok {
          return;
        }
        SameIsSteady(old(Book()), Book(), events, finality.first);
      }
      ghost var mid, spread := Book(), Readiness();
      ReadinessListed();
      var more;
      ok, more := NotifyAndMark(b, net);
      if !ok {
        return;
      }
      SteadyLater(mid, Book(), more, finality.first);
      SteadyAppend(old(Book()), mid, Book(), events, more, finality.first, finality.first);
      if isNotar {
        NotarTakes(old(Core()), b, old(Readiness()), spread, Readiness(), events, more);
      } else {
        assert [] + more == more;
      }
      Join(net, events, more);
      events := events + more;
    }

    lemma TrackerOf()
      ensures Core().tracker == finality.Value()
    {
    }

    /** What follows from a stored certificate. */
    method Follow(c: Cert, ghost net: Network) returns (ok: bool, events: seq<Event>)
      requires Valid()
      modifies this`slotStates, this`waiting, slotStates.Values, finality, parentReady
      ensures ok <==> Take(old(Core()), MarkOf(c)).Some?
      ensures ok ==> Core() == Take(old(Core()), MarkOf(c)).value
      ensures ok ==> Valid() && old(finality.first) <= finality.first && slotStates.Values <= old(slotStates.Values)
      ensures ok ==> Steady(old(Book()), Book(), events, finality.first)
      ensures NoCertEvents(events) && (ok ==> Deliverable(events))
      ensures ok ==> TakesReady(old(Core()), MarkOf(c), old(Readiness()), Readiness(), events)
      ensures ok && net.Sound() && net.Grounded() && old(Knows(net)) && CertKnown(net, c) ==>
        Knows(net) && AllJustified(net, events)
    {
      hide Working, Exact, ToldKnown, ReadyKnown, AnnouncedKnown, SlotState.Valid, EntryKnown, Fits, Holds, Apply,
           AllJustified, Network.Sound, Network.Grounded, Pool.Valid, Pool.Knows, Pool.Book, Pool.Core, SameAbove,
           Steady, ReadyAnnounced, Tell, Notify, SpreadsReady, MarksReady, SkipsReady, NotarReady;
      TrackerOf();
      match c {
        case NotarCert(s, h, _, _) =>
          CertifiedIsParent(net, c);
          ok, events := OnCertified(BlockId(s, h), true, net);
        case NotarFallbackCert(s, h, _, _, _) =>
          ok, events := OnCertified(BlockId(s, h), false, net);
        case SkipCert(s, _, _, _) =>
          ok := true;
          events := MarkSkip(s, net);
          SameIsSteadyWith(Book(), events, finality.first);
        case FastFinalCert(s, h, _, _) =>
          CertifiedIsParent(net, c);
          ok, events := FinalityStep(TellFast(BlockId(s, h)), net);
          if ok {
            SameIsSteady(old(Book()), Book(), events, finality.first);
          }
        case FinalCert(s, _, _) =>
          ok, events := FinalityStep(TellFinal(s), net);
          if ok {
            SameIsSteady(old(Book()), Book(), events, finality.first);
          }
      }
    }

    /** Stores a new certificate, draws its consequences and announces it once. */
    method AddValidCert(c: Cert, ghost net: Network) returns (ok: bool, events: seq<Event>, repairs: seq<BlockId>)
      requires Valid()
      modifies this, slotStates.Values, finality, parentReady
      ensures ok <==> Take(old(Core()), MarkOf(c)).Some?
      ensures ok ==> Core() == Take(old(Core()), MarkOf(c)).value && repairs == RepairsOf(MarkOf(c))
      ensures ok ==>
        Valid() && old(finality.first) <= finality.first && fresh(slotStates.Values - old(slotStates.Values))
      ensures ok ==> announced == old(announced) + {KeyOf(c)} && Announces(events, {KeyOf(c)}) && Deliverable(events)
      ensures ok ==> events != [] && events[|events| - 1] == CertCreated(c)
      ensures ok ==>
        KeepsVotes(old(Book()), Book(), finality.first) && StoresCert(old(Book()), Book(), c, finality.first)
      ensures ok ==> Reports(old(Book()), Book(), events, finality.first)
      ensures ok ==> repairs == if c.NotarCert? || c.NotarFallbackCert? then [BlockId(c.slot, c.hash)] else []
      ensures ok ==> TakesReady(old(Core()), MarkOf(c), old(Readiness()), Readiness(), events)
      ensures ok && net.Sound() && net.Grounded() && old(Knows(net)) && CertKnown(net, c) ==>
        Knows(net) && AllJustified(net, events)
    {
      hide Working, Exact, ToldKnown, ReadyKnown, AnnouncedKnown, SlotState.Valid, EntryKnown, Fits, Holds, Apply,
           Network.Sound, Network.Grounded, Network.Notarized, Pool.Valid, Pool.Knows, Pool.Book, Announces,
           KeepsVotes, KeepsCerts, StoresCert, Reports, ReadyAnnounced, Pool.Core, Take, TakesReady;
      KeepCert(c, net);
      ghost var mid := Book();
      ok, events := Follow(c, net);
      repairs := RepairsOf(MarkOf(c));
      if ok {
        AnnouncedLast(events, c);
        StoredThenSteady(old(Book()), mid, Book(), c, events, finality.first);
        TakesQuiet(old(Core()), MarkOf(c), old(Readiness()), Readiness(), events, [CertCreated(c)]);
        events := events + [CertCreated(c)];
      }
    }

    /** The certificates a vote completes. */
    ghost function Completed(v: nat, b: Ballot): seq<Mark>
      requires v < |ei.validators|
      reads this`slotStates, slotStates.Values
    {
      var view := ViewAt(Book(), b.slot);
      DueMarks(ei, b, Count(view.totals, b, ei.validators[v].stake), view.certs)
    }

    /** Lets the vote's slot state count and store it. What it completes is not announced yet,
        and nothing else is due. */
    method CountVote(v: nat, b: Ballot, ghost net: Network) returns (so: Outputs)
      requires Valid() && Settled() && b.slot >= finality.first && v < |ei.validators|
      requires Accepts(ViewAt(Book(), b.slot).votes, ViewAt(Book(), b.slot).fallbacks, v, b)
      modifies this`slotStates, slotStates.Values
      ensures Valid() && fresh(slotStates.Values - old(slotStates.Values)) && Core() == old(Core())
      ensures MarksOf(so.certs) == old(Completed(v, b)) && RepairsAre(so.repairs, b.slot, old(Wanted(v, b)))
      ensures Enters(old(Book()), Book(), v, b, ei.validators[v].stake, 0) && KeepsCerts(old(Book()), Book(), 0)
      ensures Reports(old(Book()), Book(), AllToVotor(so.events), 0)
      ensures NotAnnounced(so.certs, announced) && OnlyDue(ei, Book(), finality.first, KeysOf(so.certs))
      ensures old(Knows(net)) ==>
        VoteKnown(net, ViewAt(old(Book()), b.slot).votes, ViewAt(old(Book()), b.slot).fallbacks, v, b) ==>
        Knows(net) && AllJustified(net, AllToVotor(so.events)) && forall c :: c in so.certs ==> CertKnown(net, c)
    {
      hide SlotState.Valid, Accepts, Store, StoreFallback, Count, Pool.Book, Pool.Valid, Pool.Knows, CertsAre,
           EventsAre, SkipFires, AllJustified, VoteKnown, CertKnown, Due, NotAnnounced, DueMarks, Pool.Core,
           Pool.Blocks, RepairsAre, Absent, Rechecked;
      var ss := SlotStateFor(b.slot, net);
      ghost var mid := Book();
      SameIsSteady(old(Book()), mid, [], 0);
      SteadyIsSettled(ei, old(Book()), mid, finality.first, finality.first, {});
      hide OnlyDue;
      so := BookVote(ss, v, b, net);
      ReportsAppend(old(Book()), mid, Book(), [], AllToVotor(so.events), 0, 0);
      assert [] + AllToVotor(so.events) == AllToVotor(so.events);
    }

    method BookVote(ss: SlotState, v: nat, b: Ballot, ghost net: Network) returns (so: Outputs)
      requires Valid() && OnlyDue(ei, Book(), finality.first, {}) && b.slot >= finality.first && v < |ei.validators|
      requires b.slot in slotStates && slotStates[b.slot] == ss
      requires Accepts(ViewAt(Book(), b.slot).votes, ViewAt(Book(), b.slot).fallbacks, v, b)
      modifies ss`votes, ss`fallbackVotes, ss`totals, ss`pending, ss`sent, ss`sentSafeToSkip
      ensures Valid() && MarksOf(so.certs) == old(Completed(v, b)) && RepairsAre(so.repairs, b.slot, old(Wanted(v, b)))
      ensures Enters(old(Book()), Book(), v, b, ei.validators[v].stake, 0) && KeepsCerts(old(Book()), Book(), 0)
      ensures Reports(old(Book()), Book(), AllToVotor(so.events), 0)
      ensures NotAnnounced(so.certs, announced) && OnlyDue(ei, Book(), finality.first, KeysOf(so.certs))
      ensures old(Knows(net)) ==>
        VoteKnown(net, ViewAt(old(Book()), b.slot).votes, ViewAt(old(Book()), b.slot).fallbacks, v, b) ==>
        Knows(net) && AllJustified(net, AllToVotor(so.events)) && forall c :: c in so.certs ==> CertKnown(net, c)
    {
      hide SlotState.Valid, Accepts, Store, StoreFallback, Count, Pool.Knows, Pool.AnnouncedExactly,
           FinalityTracker.Valid, ParentReadyTracker.Valid, CertsAre, EventsAre, SkipFires, AllJustified, VoteKnown,
           CertKnown, Fits, OnlyDue, Enters, KeepsCerts, Reports, NotAnnounced, DueMarks, RepairsAre, Absent,
           Rechecked;
      ghost var view := ViewOf(ss);
      assert ViewAt(Book(), b.slot) == view;
      so := VoteIn(ss, v, b, net);
      BuiltMarks(so.certs, ei, b.slot, b, view.votes, ss.votes, view.fallbacks, ss.totals, view.certs);
      assert Book() == old(Book())[b.slot := ViewOf(ss)];
      Voted(ei, old(Book()), Book(), ViewOf(ss), v, b, ei.validators[v].stake, so, finality.first);
    }

    method VoteIn(ss: SlotState, v: nat, b: Ballot, ghost net: Network) returns (so: Outputs)
      requires Valid() && b.slot >= finality.first && v < |ei.validators|
      requires b.slot in slotStates && slotStates[b.slot] == ss && Accepts(ss.votes, ss.fallbackVotes, v, b)
      modifies ss`votes, ss`fallbackVotes, ss`totals, ss`pending, ss`sent, ss`sentSafeToSkip
      ensures Valid() && VotedView(ei, old(ViewOf(ss)), ViewOf(ss), v, b, ei.validators[v].stake, so)
      ensures RepairsAre(so.repairs, b.slot, Absent(ei, ss.totals, ss.parents, Rechecked(b, v == own, old(ss.pending))))
      ensures NotAnnounced(so.certs, announced)
      ensures old(Knows(net)) && VoteKnown(net, old(ss.votes), old(ss.fallbackVotes), v, b) ==>
        Knows(net) && AllJustified(net, AllToVotor(so.events)) && forall c :: c in so.certs ==> CertKnown(net, c)
    {
      hide Working, Exact, ToldKnown, ReadyKnown, AnnouncedKnown, SlotState.Valid, EntryKnown, Fits, Holds, Accepts,
           Store, StoreFallback, CertsAre, EventsAre, RepairsAre, SkipFires, Count, AllJustified, VoteKnown,
           CertKnown;
      assert ss.Valid(ei);
      assert old(Knows(net)) ==> EntryKnown(net, ss.slot, ss.votes, ss.fallbackVotes, ss.parents);
      so := ss.AddVote(v, b, ei);
      BuiltAreNew(so.certs, ei, b.slot, b, old(ss.votes), ss.votes, old(ss.fallbackVotes),
                  ss.totals, ss.certs, announced);
      if old(Knows(net)) && VoteKnown(net, old(ss.votes), old(ss.fallbackVotes), v, b) {
        VoteLeavesKnown(net, ss, v, b, old(ss.votes), old(ss.fallbackVotes), old(ss.sent), old(ss.sentSafeToSkip), so);
      }
    }

    /** Adds the certificates a vote completed, in order; then nothing is due. */
    method AddCerts(certs: seq<Cert>, ghost net: Network) returns (ok: bool, events: seq<Event>, repairs: seq<BlockId>)
      requires Valid() && NotAnnounced(certs, announced) && OnlyDue(ei, Book(), finality.first, KeysOf(certs))
      modifies this, slotStates.Values, finality, parentReady
      ensures ok <==> TakeAll(old(Core()), MarksOf(certs)).Some?
      ensures ok ==> Core() == TakeAll(old(Core()), MarksOf(certs)).value && repairs == AllRepairs(MarksOf(certs))
      ensures ok ==>
          && Valid() && Settled() && old(finality.first) <= finality.first
          && fresh(slotStates.Values - old(slotStates.Values))
      ensures ok ==>
        announced == old(announced) + KeysOf(certs) && Announces(events, KeysOf(certs)) && Deliverable(events)
      ensures ok ==>
        KeepsVotes(old(Book()), Book(), finality.first) && Reports(old(Book()), Book(), events, finality.first)
      ensures ok ==> TakesAllReady(old(Core()), MarksOf(certs), old(Readiness()), Readiness(), events)
      ensures ok && net.Sound() && net.Grounded() && old(Knows(net)) ==>
        (forall c :: c in certs ==> CertKnown(net, c)) ==>
        Knows(net) && AllJustified(net, events)
    {
      hide Pool.Valid, Pool.Knows, Pool.Book, Network.Sound, Network.Grounded, CertKnown, Announces,
           Network.Justified, StoresCert, Reports, OnlyDue, ReadyAnnounced, Pool.Core, Take, RepairsOf, Deliverable,
           AllJustified, KeysOf, TakesReady, TakesAllReady, Ready.Listed, TakeAll, AllRepairs;
      ok, events, repairs := true, [], [];
      ghost var marks := MarksOf(certs);
      NoAnnouncements(events);
      Join(net, [], []);
      SameIsSteadyWith(Book(), events, finality.first);
      AllKeysLeft(certs);
      NoneTaken(Core(), Readiness(), marks[..0]);
      for i := 0 to |certs|
        invariant Valid() && old(finality.first) <= finality.first && fresh(slotStates.Values - old(slotStates.Values))
        invariant announced == old(announced) + KeysOf(certs[..i]) && Announces(events, KeysOf(certs[..i]))
        invariant Deliverable(events)
        invariant KeepsVotes(old(Book()), Book(), finality.first)
        invariant Reports(old(Book()), Book(), events, finality.first)
        invariant OnlyDue(ei, Book(), finality.first, KeysOf(certs[i..]))
        invariant TakeAll(old(Core()), marks[..i]) == Some(Core()) && repairs == AllRepairs(marks[..i])
        invariant TakesAllReady(old(Core()), marks[..i], old(Readiness()), Readiness(), events)
        invariant net.Sound() && net.Grounded() && old(Knows(net)) && (forall c :: c in certs ==> CertKnown(net, c)) ==>
          Knows(net) && AllJustified(net, events)
      {
        KeysOfPrefix(certs, i);
        KeysOfSuffix(certs, i);
        ghost var mid, first, spread := Book(), finality.first, Readiness();
        ReadinessListed();
        TakeAllMore(old(Core()), marks, i);
        AllRepairsMore(marks, i);
        var more, asked;
        ok, more, asked := AddValidCert(certs[i], net);
        if !ok {
          TakeAllStops(old(Core()), marks, i + 1);
          return;
        }
        Join(net, events, more);
        AnnouncesAppend(events, more, KeysOf(certs[..i]), {KeyOf(certs[i])});
        ReportsAppend(old(Book()), mid, Book(), events, more, first, finality.first);
        StoredIsSettled(ei, mid, Book(), certs[i], first, finality.first, KeysOf(certs[i..]));
        TakesAllMore(old(Core()), marks, i, old(Readiness()), spread, Readiness(), events, more);
        events, repairs := events + more, repairs + asked;
      }
      NoKeysLeft(certs);
      assert certs[..|certs|] == certs && marks[..|certs|] == marks;
    }

    /** From the watermark up to two epochs past the highest finalized slot. */
    predicate InBounds(s: nat)
      reads finality
    {
      finality.first <= s < finality.highest + 2 * SLOTS_PER_EPOCH
    }

    ghost function VoteVerdict(v: nat, b: Ballot, signed: bool): Option<AddError>
      reads this, slotStates.Values, finality
    {
      var votes, fallbacks := ViewAt(Book(), b.slot).votes, ViewAt(Book(), b.slot).fallbacks;
      if !InBounds(b.slot) then Some(SlotOutOfBounds)
      else if v >= |ei.validators| then Some(UnknownSigner)
      else if !signed then Some(InvalidSignature)
      else if CheckOffence(votes, fallbacks, v, b).Some?
        then Some(Slashable(CheckOffence(votes, fallbacks, v, b).value))
      else if ShouldIgnore(votes, fallbacks, v, b) then Some(Duplicate)
      else None
    }

    /** In every slot exactly the blocks that are safe by the stored votes were reported. */
    lemma SafeBlocksReported(s: nat, h: BlockHash)
      requires Valid() && s in slotStates
      ensures h in ViewAt(Book(), s).sent <==>
        SafeByVotes(ei, slotStates[s].votes, slotStates[s].parents, own, h)
    {
      hide Working, Exact, Holds, SafeByVotes, SafeNotar;
      var ss := slotStates[s];
      assert ss.Valid(ei);
      SafeNotarIff(ei, ss.votes, ss.fallbackVotes, ss.totals, ss.parents, own, h);
    }

    /** Which votes are reported as offences, which as duplicates, and which are taken, by the
        votes the pool holds. */
    lemma VerdictMeaning(v: nat, b: Ballot, signed: bool)
      requires Valid()
      ensures var view, verdict := ViewAt(Book(), b.slot), VoteVerdict(v, b, signed);
        if !(finality.first <= b.slot < finality.highest + 36_000) then verdict == Some(SlotOutOfBounds)
        else if v >= |ei.validators| then verdict == Some(UnknownSigner)
        else if !signed then verdict == Some(InvalidSignature)
        else
          && (verdict.Some? && verdict.value.Slashable? <==> Excluded(view.votes, view.fallbacks, v, b))
          && (verdict == Some(Duplicate) <==>
                !Excluded(view.votes, view.fallbacks, v, b) && Repeated(view.votes, view.fallbacks, v, b))
          && (b.Notar? && Of(view.votes, v).notar.Some? && Of(view.votes, v).notar != Some(b.hash) ==>
                verdict == Some(Slashable(NotarDifferentHash)))
    {
      hide Working, Exact, Accounted, Reported, Holds, CheckOffence, ShouldIgnore, Excluded, Repeated;
      if b.slot in slotStates {
        assert slotStates[b.slot].Valid(ei);
      }
      OffenceFirst(ei, ViewAt(Book(), b.slot).votes, ViewAt(Book(), b.slot).fallbacks, v, b);
    }

    /** Rejects a vote for the first reason that applies, and leaves everything as it was. */
    method ScreenVote(v: nat, b: Ballot, signed: bool, ghost net: Network) returns (error: Option<AddError>)
      requires Valid()
      modifies this`slotStates
      ensures Valid() && error == old(VoteVerdict(v, b, signed)) && SameAbove(old(Book()), Book(), 0)
      ensures Core() == old(Core()) && forall t :: Needs(t) == old(Needs(t))
      ensures fresh(slotStates.Values - old(slotStates.Values))
      ensures old(Knows(net)) ==> Knows(net)
    {
      hide Working, Exact, ToldKnown, ReadyKnown, AnnouncedKnown, SlotState.Valid, EntryKnown, Fits, Holds,
           CheckOffence, ShouldIgnore, Pool.Knows;
      if !InBounds(b.slot) {
        return Some(SlotOutOfBounds);
      }
      if v >= |ei.validators| {
        return Some(UnknownSigner);
      }
      if !signed {
        return Some(InvalidSignature);
      }
      var ss := SlotStateFor(b.slot, net);
      assert ViewAt(old(Book()), b.slot) == ViewOf(ss);
      var offence := CheckOffence(ss.votes, ss.fallbackVotes, v, b);
      if offence.Some? {
        return Some(Slashable(offence.value));
      }
      error := if ShouldIgnore(ss.votes, ss.fallbackVotes, v, b) then Some(Duplicate) else None;
    }

    /** The vote makes the pool panic: it is acceptable, and a certificate it completes cannot be
        taken. */
    ghost predicate VoteHalts(v: nat, b: Ballot, signed: bool)
      reads this, slotStates.Values, finality
    {
      VoteVerdict(v, b, signed).None? && TakeAll(Core(), Completed(v, b)).None?
    }

    /** Adds a vote. It is stored exactly when nothing speaks against it; every certificate it
        completes is announced, for the first time, and every block or slot it makes safe is
        reported. It panics exactly when a certificate it completes cannot be taken, and on
        known votes for one of the known reasons only. */
    method AddVote(v: nat, b: Ballot, signed: bool, ghost net: Network)
      returns (r: AddResult, events: seq<Event>, repairs: seq<BlockId>)
      requires Valid() && Settled()
      modifies this, slotStates.Values, finality, parentReady
      ensures r.Rejected? <==> old(VoteVerdict(v, b, signed)).Some?
      ensures r.Panicked? <==> old(VoteHalts(v, b, signed))
      ensures r.Rejected? ==>
        && Some(r.error) == old(VoteVerdict(v, b, signed)) && events == [] && repairs == [] && Core() == old(Core())
        && announced == old(announced) && SameAbove(old(Book()), Book(), 0) && (old(Knows(net)) ==> Knows(net))
      ensures r.Added? ==>
        && v < |ei.validators| && Enters(old(Book()), Book(), v, b, ei.validators[v].stake, finality.first)
        && old(announced) <= announced && Announces(events, announced - old(announced)) && Deliverable(events)
        && Reports(old(Book()), Book(), events, finality.first)
        && TakeAll(old(Core()), old(Completed(v, b))) == Some(Core())
        && TakesAllReady(old(Core()), old(Completed(v, b)), old(Readiness()), Readiness(), events)
        && Requests(repairs, b.slot, old(Wanted(v, b)), old(Completed(v, b)))
      ensures
        var view := ViewAt(old(Book()), b.slot);
        net.Sound() && net.Grounded() && old(Knows(net)) && VoteKnown(net, view.votes, view.fallbacks, v, b) ==>
          && (r.Added? ==> Knows(net) && AllJustified(net, events))
          && (r.Panicked? && Parked(old(Core())) ==> HaltExplained(net, old(Core()), old(Completed(v, b))))
      ensures !r.Panicked? ==>
        && Valid() && Settled() && old(finality.first) <= finality.first
        && fresh(slotStates.Values - old(slotStates.Values))
      ensures !r.Panicked? && Parked(old(Core())) ==> Parked(Core())
    {
      hide Pool.Valid, Pool.Knows, Pool.Book, Pool.Core, Network.Sound, Network.Grounded, VoteKnown, Announces,
           CheckOffence, ShouldIgnore, OnlyDue, Reports, Enters, KeepsVotes, KeepsCerts, TakeAll, HaltExplained,
           DueMarks, Parked, Requests, Absent, Rechecked, TakesAllReady;
      events, repairs := [], [];
      var error := ScreenVote(v, b, signed, net);
      SameIsSteady(old(Book()), Book(), [], 0);
      SteadyIsSettled(ei, old(Book()), Book(), finality.first, finality.first, {});
      if error.Some? {
        return Rejected(error.value), [], [];
      }
      ghost var screened := Book();
      var ok;
      ok, events, repairs := AcceptVote(v, b, net);
      if !ok {
        return Panicked, [], [];
      }
      ReportsAppend(old(Book()), screened, Book(), [], events, 0, finality.first);
      assert [] + events == events;
      EntersAfter(old(Book()), screened, Book(), v, b, ei.validators[v].stake, finality.first);
      r := Added;
    }

    /** Counts and stores an acceptable vote, then adds the certificates it completes. */
    method AcceptVote(v: nat, b: Ballot, ghost net: Network)
      returns (ok: bool, events: seq<Event>, repairs: seq<BlockId>)
      requires Valid() && Settled() && b.slot >= finality.first && v < |ei.validators|
      requires Accepts(ViewAt(Book(), b.slot).votes, ViewAt(Book(), b.slot).fallbacks, v, b)
      modifies this, slotStates.Values, finality, parentReady
      ensures ok <==> TakeAll(old(Core()), old(Completed(v, b))).Some?
      ensures ok ==>
        && Enters(old(Book()), Book(), v, b, ei.validators[v].stake, finality.first)
        && old(announced) <= announced && Announces(events, announced - old(announced)) && Deliverable(events)
        && Reports(old(Book()), Book(), events, finality.first)
        && TakeAll(old(Core()), old(Completed(v, b))) == Some(Core())
        && TakesAllReady(old(Core()), old(Completed(v, b)), old(Readiness()), Readiness(), events)
        && Requests(repairs, b.slot, old(Wanted(v, b)), old(Completed(v, b)))
      ensures
        var view := ViewAt(old(Book()), b.slot);
        net.Sound() && net.Grounded() && old(Knows(net)) && VoteKnown(net, view.votes, view.fallbacks, v, b) ==>
          && (ok ==> Knows(net) && AllJustified(net, events))
          && (!ok && Parked(old(Core())) ==> HaltExplained(net, old(Core()), old(Completed(v, b))))
      ensures ok ==>
        && Valid() && Settled() && old(finality.first) <= finality.first
        && fresh(slotStates.Values - old(slotStates.Values))
      ensures ok && Parked(old(Core())) ==> Parked(Core())
    {
      hide Pool.Knows, Pool.Book, Pool.Core, Network.Sound, Network.Grounded, Network.Justified, CertKnown, VoteKnown,
           Announces, Accepts, Store, StoreFallback, Count, OnlyDue, Reports, Enters, KeepsVotes, KeepsCerts, TakeAll,
           HaltExplained, DueMarks, Parked, Pool.Valid, Pool.Completed, Pool.Wanted, RepairsAre, AllRepairs, Requests,
           TakesAllReady;
      var so := CountVote(v, b, net);
      ghost var counted := Book();
      CountedHalt(net, so.certs);
      var more, asked;
      ok, more, asked := AddCerts(so.certs, net);
      events, repairs := AllToVotor(so.events) + more, so.repairs + asked;
      RequestsJoin(so.repairs, b.slot, old(Wanted(v, b)), MarksOf(so.certs));
      if ok {
        ReportsAppend(old(Book()), counted, Book(), AllToVotor(so.events), more, 0, finality.first);
        EntersBetween(old(Book()), old(Book()), counted, Book(), v, b, ei.validators[v].stake, finality.first);
        NewlyAnnounced(old(announced), announced, so, more);
        SlotEventsDeliverable(so.events);
        SlotEventsQuiet(so.events);
        TakesAllAfter(old(Core()), MarksOf(so.certs), old(Readiness()), Readiness(), more, AllToVotor(so.events));
      }
    }

    /** Why taking this certificate may panic. */
    lemma CertHalt(net: Network, c: Cert)
      requires Valid()
      ensures Parked(Core()) && Take(Core(), MarkOf(c)).Some? ==> Parked(Take(Core(), MarkOf(c)).value)
      ensures net.Sound() && net.Grounded() && Knows(net) && Parked(Core()) && CertKnown(net, c) ==>
        Take(Core(), MarkOf(c)).None? ==>
        TakeReason(net, Core(), MarkOf(c))
    {
      hide Network.Sound, Network.Grounded, Working, ToldKnown, Parked, Take, TakeReason;
      if Parked(Core()) && Take(Core(), MarkOf(c)).Some? {
        TakeKeepsParked(Core(), MarkOf(c));
      }
      if net.Sound() && net.Grounded() && Knows(net) && Parked(Core()) && CertKnown(net, c)
         && Take(Core(), MarkOf(c)).None? {
        KnownTakeHalts(net, Core(), MarkOf(c));
      }
    }

    /** Why taking these certificates may panic. */
    lemma CountedHalt(net: Network, certs: seq<Cert>)
      requires Valid()
      ensures Parked(Core()) && TakeAll(Core(), MarksOf(certs)).Some? ==> Parked(TakeAll(Core(), MarksOf(certs)).value)
      ensures net.Sound() && net.Grounded() && Knows(net) && Parked(Core()) ==>
        (forall c :: c in certs ==> CertKnown(net, c)) ==>
        TakeAll(Core(), MarksOf(certs)).None? ==> HaltExplained(net, Core(), MarksOf(certs))
    {
      hide Network.Sound, Network.Grounded, Working, ToldKnown, Parked, TakeAll, HaltExplained;
      var marks := MarksOf(certs);
      if Parked(Core()) && TakeAll(Core(), marks).Some? {
        TakeAllKeepsParked(Core(), marks);
      }
      if net.Sound() && net.Grounded() && Knows(net) && Parked(Core()) && forall c :: c in certs ==> CertKnown(net, c) {
        CertMarksKnown(net, certs);
        KnownTakeAllHalts(net, Core(), marks);
      }
    }

    ghost predicate CertRejected(c: Cert, signed: bool)
      requires c.Shaped()
      reads this, finality
    {
      !InBounds(c.slot) || !c.CheckThreshold(ei) || !signed || KeyOf(c) in announced
    }

    /** The certificate makes the pool panic: it is acceptable and cannot be taken. */
    ghost predicate CertHalts(c: Cert, signed: bool)
      requires c.Shaped()
      reads this, slotStates.Values, finality
    {
      !CertRejected(c, signed) && Take(Core(), MarkOf(c)).None?
    }

    /** Adds a certificate unless it is out of bounds, too light, badly signed or announced before.
        It panics exactly when the certificate cannot be taken, and on genuine certificates for
        one of the known reasons only. */
    method AddCert(c: Cert, signed: bool, ghost net: Network)
      returns (r: AddResult, events: seq<Event>, repairs: seq<BlockId>)
      requires Valid() && Settled() && c.Shaped()
      modifies this, slotStates.Values, finality, parentReady
      ensures r.Rejected? <==> old(CertRejected(c, signed))
      ensures r.Panicked? <==> old(CertHalts(c, signed))
      ensures r.Rejected? ==>
        && r.error == (if old(!InBounds(c.slot)) then SlotOutOfBounds else if !c.CheckThreshold(ei) then ThresholdNotMet
                       else if !signed then InvalidSignature else Duplicate)
        && events == [] && repairs == [] && announced == old(announced) && SameAbove(old(Book()), Book(), 0)
        && Core() == old(Core())
        && (old(Knows(net)) ==> Knows(net))
      ensures r.Added? ==>
        && announced == old(announced) + {KeyOf(c)} && Announces(events, {KeyOf(c)}) && Deliverable(events)
        && events != [] && events[|events| - 1] == CertCreated(c)
        && KeepsVotes(old(Book()), Book(), finality.first) && StoresCert(old(Book()), Book(), c, finality.first)
        && Reports(old(Book()), Book(), events, finality.first)
        && TakesReady(old(Core()), MarkOf(c), old(Readiness()), Readiness(), events)
        && Take(old(Core()), MarkOf(c)) == Some(Core())
        && repairs == (if c.NotarCert? || c.NotarFallbackCert? then [BlockId(c.slot, c.hash)] else [])
      ensures net.Sound() && net.Grounded() && old(Knows(net)) && Genuine(net, c) ==>
        && (r.Added? ==> Knows(net) && AllJustified(net, events))
        && (r.Panicked? && Parked(old(Core())) ==> TakeReason(net, old(Core()), MarkOf(c)))
      ensures !r.Panicked? && Parked(old(Core())) ==> Parked(Core())
      ensures !r.Panicked? ==>
        && Valid() && Settled() && old(finality.first) <= finality.first
        && fresh(slotStates.Values - old(slotStates.Values))
    {
      hide Pool.Valid, Pool.Knows, Pool.Book, Pool.Core, Network.Sound, Network.Grounded, Announces, Genuine,
           Cert.CheckThreshold, OnlyDue, Reports, ReadyAnnounced, Take, TakeReason, Parked, KeepsVotes, StoresCert,
           Deliverable, AllJustified, RepairsOf, TakesReady;
      events, repairs := [], [];
      var error := ScreenCert(c, signed, net);
      SameIsSteady(old(Book()), Book(), [], 0);
      SteadyIsSettled(ei, old(Book()), Book(), finality.first, finality.first, {});
      if error.Some? {
        return Rejected(error.value), [], [];
      }
      r, events, repairs := AddNewCert(c, old(Book()), net);
    }

    /** Rejects a certificate for the first reason that applies, and leaves everything as it was. */
    method ScreenCert(c: Cert, signed: bool, ghost net: Network) returns (error: Option<AddError>)
      requires Valid() && c.Shaped()
      modifies this`slotStates
      ensures Valid() && SameAbove(old(Book()), Book(), 0) && Core() == old(Core())
      ensures fresh(slotStates.Values - old(slotStates.Values))
      ensures error.Some? <==> old(CertRejected(c, signed))
      ensures error.Some? ==>
        error.value == (if old(!InBounds(c.slot)) then SlotOutOfBounds
                        else if !c.CheckThreshold(ei) then ThresholdNotMet
                        else if !signed then InvalidSignature else Duplicate)
      ensures old(Knows(net)) ==> Knows(net)
    {
      hide Pool.Knows, Pool.Book, Pool.Core, Cert.CheckThreshold, SlotState.Valid, FinalityTracker.Valid,
           ParentReadyTracker.Valid, Fits, Holds;
      if !InBounds(c.slot) {
        return Some(SlotOutOfBounds);
      }
      if !c.CheckThreshold(ei) {
        return Some(ThresholdNotMet);
      }
      if !signed {
        return Some(InvalidSignature);
      }
      var ss := SlotStateFor(c.slot, net);
      StoredIsHeld(ss.certs, c);
      error := if IsStored(ss.certs, c) then Some(Duplicate) else None;
    }

    method AddNewCert(c: Cert, ghost was: PoolSpec.Book, ghost net: Network)
      returns (r: AddResult, events: seq<Event>, repairs: seq<BlockId>)
      requires Valid() && Settled() && SameAbove(was, Book(), 0)
      modifies this, slotStates.Values, finality, parentReady
      ensures !r.Rejected? && (r.Panicked? <==> Take(old(Core()), MarkOf(c)).None?)
      ensures r.Added? ==>
        && announced == old(announced) + {KeyOf(c)} && Announces(events, {KeyOf(c)}) && Deliverable(events)
        && events != [] && events[|events| - 1] == CertCreated(c)
        && KeepsVotes(was, Book(), finality.first) && StoresCert(was, Book(), c, finality.first)
        && Reports(was, Book(), events, finality.first)
        && TakesReady(old(Core()), MarkOf(c), old(Readiness()), Readiness(), events)
        && Take(old(Core()), MarkOf(c)) == Some(Core())
        && repairs == (if c.NotarCert? || c.NotarFallbackCert? then [BlockId(c.slot, c.hash)] else [])
      ensures net.Sound() && net.Grounded() && old(Knows(net)) && Genuine(net, c) ==>
        && (r.Added? ==> Knows(net) && AllJustified(net, events))
        && (r.Panicked? && Parked(old(Core())) ==> TakeReason(net, old(Core()), MarkOf(c)))
      ensures r.Added? && Parked(old(Core())) ==> Parked(Core())
      ensures r.Added? ==>
        && Valid() && Settled() && old(finality.first) <= finality.first
        && fresh(slotStates.Values - old(slotStates.Values))
    {
      hide Pool.Valid, Pool.Knows, Pool.Book, Network.Sound, Network.Grounded, Network.Justified, CertKnown,
           Announces, Genuine, OnlyDue, Reports, ReadyAnnounced, Pool.Core, Take, TakeReason, Parked, TakesReady;
      GenuineIsKnown(net, c);
      CertHalt(net, c);
      ghost var mid, first := Book(), finality.first;
      var ok;
      ok, events, repairs := AddValidCert(c, net);
      if !ok {
        return Panicked, [], [];
      }
      StoredIsSettled(ei, mid, Book(), c, first, finality.first, {});
      assert {} - {KeyOf(c)} == {};
      SameIsSteady(was, mid, [], 0);
      ReportsAppend(was, mid, Book(), [], events, 0, finality.first);
      assert [] + events == events;
      r := Added;
    }

    /** Records in its slot that a block was seen. */
    method KnowBlock(b: BlockId, ghost net: Network)
      requires Valid()
      modifies this`slotStates, slotStates.Values
      ensures Valid() && SameAbove(old(Book()), Book(), 0) && fresh(slotStates.Values - old(slotStates.Values))
      ensures b.slot in slotStates && b.hash in slotStates[b.slot].parents
      ensures slotStates == old(slotStates)[b.slot := slotStates[b.slot]] && Blocks() == old(Blocks()) + iset{b}
      ensures Certified() == old(Certified())
      ensures old(Knows(net)) ==> Knows(net)
    {
      hide Pool.Valid, Pool.Knows, Pool.Book;
      var ss := SlotStateFor(b.slot, net);
      KnowIn(ss, b, net);
    }

    method KnowIn(ss: SlotState, b: BlockId, ghost net: Network)
      requires Valid() && b.slot in slotStates && slotStates[b.slot] == ss
      modifies ss`parents
      ensures Valid() && Book() == old(Book()) && b.hash in ss.parents && Blocks() == old(Blocks()) + iset{b}
      ensures Certified() == old(Certified())
      ensures old(Knows(net)) ==> Knows(net)
    {
      hide Working, Exact, ToldKnown, ReadyKnown, AnnouncedKnown, EntryKnown, Fits, Holds, SlotState.Valid;
      assert ss.Valid(ei);
      ss.NotifyParentKnown(b.hash, ei);
      KnownStaysKnown(net, ss, old(ss.parents), b.hash);
    }

    /** Tells a known block that its parent is certified, or parks it under the parent. */
    method LinkChild(b: BlockId, p: BlockId, ghost net: Network) returns (events: seq<Event>)
      requires Valid() && b.slot in slotStates && b.hash in slotStates[b.slot].parents
      requires forall s :: s in slotStates && s != b.slot ==> s >= finality.first
      requires p.slot < b.slot
      modifies this`slotStates, this`waiting, slotStates.Values
      ensures Valid() && slotStates == old(slotStates) && Steady(old(Book()), Book(), events, 0) && NoCertEvents(events)
      ensures Deliverable(events)
      ensures b.hash in slotStates[b.slot].parents && Blocks() == old(Blocks()) && NoReady(events)
      ensures if p.slot >= finality.first && FallbackKey(p.slot, p.hash) in announced
              then waiting == old(waiting) && IsCertified(slotStates[b.slot].parents, b.hash)
                && Certified() == old(Certified()) + iset{b}
              else waiting == old(waiting)[p := b] && Certified() == old(Certified())
      ensures old(Knows(net)) && net.parents(b) == p ==> Knows(net) && AllJustified(net, events)
    {
      hide Pool.Valid, Pool.Knows, Pool.Book, Steady, Network.Certified, AllJustified;
      events := [];
      SameIsSteadyWith(Book(), [], 0);
      FallbackHeld(b.slot, p, net);
      if p.slot in slotStates && HasFallbackCert(slotStates[p.slot].certs, p.hash) {
        var ok;
        ok, events := CertifyParent(b, net);
      } else {
        Park(b, p, net);
        Join(net, [], []);
      }
    }

    /** A fallback certificate is stored iff it was announced, and then the block is certified. */
    lemma FallbackHeld(open: nat, p: BlockId, net: Network)
      requires Valid() && p.slot < open && forall s :: s in slotStates && s != open ==> s >= finality.first
      ensures (p.slot in slotStates && HasFallbackCert(slotStates[p.slot].certs, p.hash)) <==>
        p.slot >= finality.first && FallbackKey(p.slot, p.hash) in announced
      ensures Knows(net) && FallbackKey(p.slot, p.hash) in announced ==> net.Certified(p)
    {
      hide Working, Exact, ToldKnown, ReadyKnown, EntryKnown, Fits, SlotState.Valid, Network.Certified;
      assert p.slot in slotStates ==>
        (Holds(slotStates[p.slot].certs, FallbackKey(p.slot, p.hash)) <==>
         HasFallbackCert(slotStates[p.slot].certs, p.hash));
      assert BlockId(p.slot, p.hash) == p;
    }

    method Park(b: BlockId, p: BlockId, ghost net: Network)
      requires Valid()
      modifies this`waiting
      ensures Valid() && waiting == old(waiting)[p := b]
      ensures old(Knows(net)) && net.parents(b) == p ==> Knows(net)
    {
      hide Working, Exact, ToldKnown, ReadyKnown, AnnouncedKnown, EntryKnown, Fits, SlotState.Valid, Holds;
      waiting := waiting[p := b];
    }

    /** Why a block may make the pool panic, and that it is known when it is parked. */
    lemma BlockHalt(b: BlockId, p: BlockId, net: Network)
      requires Valid()
      ensures b.slot <= p.slot ==> Tell(Core(), TellParent(b, p)).None?
      ensures net.Sound() && net.Grounded() && Knows(net) && net.parents(b) == p ==>
        Tell(Core(), TellParent(b, p)).None? ==>
        OpReason(net, Core(), TellParent(b, p))
      ensures Parked(Core()) && Tell(Core(), TellParent(b, p)).Some? ==>
        forall certified :: Parked(Linked(Tell(Core(), TellParent(b, p)).value, b, p, certified))
    {
      hide Network.Sound, Network.Grounded, Working, ToldKnown, HaltReason;
      if net.Sound() && net.Grounded() && Knows(net) && net.parents(b) == p && Tell(Core(), TellParent(b, p)).None? {
        KnownHalt(net, finality.Value(), finality.told, TellParent(b, p));
      }
      if Parked(Core()) && Tell(Core(), TellParent(b, p)).Some? {
        TellKeepsParked(Core(), TellParent(b, p));
      }
    }

    /** Records a block, and tells it that its parent is certified or parks it. */
    method Register(b: BlockId, p: BlockId, ghost net: Network) returns (events: seq<Event>)
      requires Valid() && p.slot < b.slot && forall s :: s in slotStates ==> s >= finality.first
      modifies this`slotStates, this`waiting, slotStates.Values
      ensures Valid() && Steady(old(Book()), Book(), events, finality.first)
      ensures NoCertEvents(events) && Deliverable(events) && NoReady(events)
      ensures var certified := p.slot >= finality.first && FallbackKey(p.slot, p.hash) in announced;
        && Core() == Linked(old(Core()), b, p, certified)
        && b.slot in slotStates && b.hash in slotStates[b.slot].parents
        && (certified ==> IsCertified(slotStates[b.slot].parents, b.hash))
      ensures fresh(slotStates.Values - old(slotStates.Values))
      ensures old(Knows(net)) && net.parents(b) == p ==> Knows(net) && AllJustified(net, events)
    {
      hide Pool.Knows, Pool.Valid, Pool.Book, Pool.Blocks, Pool.Certified, Steady, AllJustified, Deliverable;
      KnowBlock(b, net);
      ghost var known := Book();
      SameIsSteady(old(Book()), known, [], 0);
      SteadyLater(old(Book()), known, [], finality.first);
      events := LinkChild(b, p, net);
      SteadyLater(known, Book(), events, finality.first);
      SteadyAppend(old(Book()), known, Book(), [], events, finality.first, finality.first);
      assert [] + events == events;
    }

    /** Registers a block under its parent; it either learns at once that the parent has a
        fallback certificate, or is parked until the parent has one. */
    method AddBlock(b: BlockId, p: BlockId, ghost net: Network) returns (r: AddResult, events: seq<Event>)
      requires Valid() && Settled()
      modifies this, slotStates.Values, finality, parentReady
      ensures r.Panicked? <==> Tell(old(Core()), TellParent(b, p)).None?
      ensures net.Sound() && net.Grounded() && old(Knows(net)) && net.parents(b) == p && r.Panicked? ==>
        OpReason(net, old(Core()), TellParent(b, p))
      ensures !r.Panicked? ==>
        var certified := p.slot >= finality.first && FallbackKey(p.slot, p.hash) in announced;
        && Core() == Linked(Tell(old(Core()), TellParent(b, p)).value, b, p, certified)
        && b.slot in slotStates && b.hash in slotStates[b.slot].parents
        && (certified ==> IsCertified(slotStates[b.slot].parents, b.hash))
        && (Parked(old(Core())) ==> Parked(Core()))
      ensures !r.Panicked? ==>
        && r.Added? && Valid() && Settled() && old(finality.first) <= finality.first
        && Steady(old(Book()), Book(), events, finality.first) && announced == old(announced)
        && NoCertEvents(events) && Deliverable(events)
        && SpreadsReady(old(finality.Value()), TellParent(b, p), old(Readiness()), Readiness(), events)
      ensures !r.Panicked? && net.Sound() && net.Grounded() && old(Knows(net)) && net.parents(b) == p ==>
        Knows(net) && AllJustified(net, events)
      ensures !r.Panicked? ==> fresh(slotStates.Values - old(slotStates.Values))
    {
      hide Pool.Knows, Pool.Valid, Pool.Book, Pool.Blocks, Network.Sound, Network.Grounded, Network.Justified, Apply,
           Reports, OnlyDue, OpReason, Parked, Tell, SpreadsReady, Pool.Certified, Pool.Core, Linked, Steady,
           AllJustified, Deliverable;
      events := [];
      BlockHalt(b, p, net);
      if b.slot <= p.slot {
        return Panicked, [];
      }
      var ok;
      ok, events := FinalityStep(TellParent(b, p), net);
      if !ok {
        return Panicked, [];
      }
      SameIsSteady(old(Book()), Book(), events, finality.first);
      ghost var pruned := Book();
      var more := Register(b, p, net);
      SteadyAppend(old(Book()), pruned, Book(), events, more, finality.first, finality.first);
      Join(net, events, more);
      SteadyIsSettled(ei, old(Book()), Book(), old(finality.first), finality.first, {});
      SpreadsQuiet(old(finality.Value()), TellParent(b, p), old(Readiness()), Readiness(), events, more);
      r, events := Added, events + more;
    }
  }

  /** Pruning keeps the marks and everything from the new root up. */
  ghost predicate PrunedReady(r: Ready, s: Ready, root: nat) {
    && s.root == root && s.marked == r.marked && s.skipped == r.skipped
    && forall t: nat :: t >= root ==> ParentReadiness.At(s.states, t) == ParentReadiness.At(r.states, t)
  }

  /** What a finality operation did to the ready parents. */
  lemma SpreadStated(t: Tracker, op: Op, r: Ready, mid: Ready, s: Ready, best: Option<ReadyPair>)
    requires Apply(t, op).Done? && PrunedReady(mid, s, Apply(t, op).tracker.first)
    requires var ev := Apply(t, op).event;
      && mid.marked == r.marked + AtOrAbove(r.root, Named(ev))
      && mid.skipped == r.skipped + SlotsAtOrAbove(r.root, ev.gaps)
    requires BestReady(r.root, r.states, mid.marked, mid.skipped, best) && BestNew(r.states, mid.states, best)
    ensures SpreadsReady(t, op, r, s, BestEvents(best))
  {
    hide Apply, BestReady, Watermark;
    assert ReadyIn(BestEvents(best)) == if best.Some? then [best.value] else [] by {
      if best.Some? {
        var e := BestEvents(best);
        assert e[..0] == [] && ReadyIn([]) == [];
      }
    }
    assert BestIs(r, s, best, BestEvents(best));
  }

  lemma NoneTaken(core: PoolCore.Core, r: Ready, marks: seq<Mark>)
    requires marks == []
    ensures TakesAllReady(core, marks, r, r, []) && TakeAll(core, marks) == Some(core) && AllRepairs(marks) == []
  {
  }

  lemma SlotEventsQuiet(events: seq<SlotEvent>)
    ensures NoReady(AllToVotor(events))
  {
  }

  /** Certificates that stand for quorums make marks that do. */
  lemma CertMarksKnown(net: Network, certs: seq<Cert>)
    requires forall c :: c in certs ==> CertKnown(net, c)
    ensures forall m :: m in MarksOf(certs) ==> MarkKnown(net, m)
  {
    forall m | m in MarksOf(certs)
      ensures MarkKnown(net, m)
    {
      var i :| 0 <= i < |certs| && MarksOf(certs)[i] == m;
      assert certs[i] in certs && CertKnown(net, certs[i]);
    }
  }

  /** A vote enters after a stretch without votes. */
  lemma EntersAfter(a: PoolSpec.Book, b: PoolSpec.Book, c: PoolSpec.Book, v: nat, ballot: Ballot, stake: nat,
                    first: nat)
    requires SameAbove(a, b, 0) && Enters(b, c, v, ballot, stake, first)
    ensures Enters(a, c, v, ballot, stake, first)
  {
  }

  lemma NothingDueYet(ei: EpochInfo)
    requires Fits(ei)
    ensures OnlyDue(ei, map[], 0, {})
  {
    NothingDue(ei, 0);
  }

  lemma KnownStaysKnown(net: Network, ss: SlotState, parents: map<BlockHash, ParentStatus>, h: BlockHash)
    requires ss.parents == if h in parents then parents else parents[h := Known]
    ensures EntryKnown(net, ss.slot, ss.votes, ss.fallbackVotes, parents) ==> SlotKnown(net, ss)
  {
  }

  lemma GenuineIsKnown(net: Network, c: Cert)
    ensures net.Sound() && Genuine(net, c) ==> CertKnown(net, c)
  {
    if net.Sound() && Genuine(net, c) {
      CertificateMeaning(net, c);
      if c.NotarFallbackCert? {
        EndorsedIsCertified(net, BlockId(c.slot, c.hash));
      }
    }
  }

  /** The slot's own events announce no certificate, so the rest announces all of them. */
  lemma NewlyAnnounced(before: set<Key>, after: set<Key>, so: Outputs, more: seq<Event>)
    requires after == before + KeysOf(so.certs) && forall c :: c in so.certs ==> KeyOf(c) !in before
    requires Announces(more, KeysOf(so.certs))
    ensures Announces(AllToVotor(so.events) + more, after - before)
  {
    assert after - before == KeysOf(so.certs);
    AnnouncesAppend(AllToVotor(so.events), more, {}, KeysOf(so.certs));
    assert {} + KeysOf(so.certs) == KeysOf(so.certs);
  }

  lemma NoAnnouncements(events: seq<Event>)
    requires events == []
    ensures Announces(events, KeysOf([]))
  {
  }

  /** The slot state stays true after a vote that is, and so is everything it reports. */
  lemma VoteLeavesKnown(net: Network, ss: SlotState, v: nat, b: Ballot, votes: Votes, fallbacks: FallbackVotes,
                        sent: set<BlockHash>, fired: bool, so: Outputs)
    requires ss.Valid(net.ei) && Fits(net.ei) && ss.slot == b.slot
    requires ss.votes == Store(votes, v, b) && ss.fallbackVotes == StoreFallback(fallbacks, v, b)
    requires EntryKnown(net, ss.slot, votes, fallbacks, ss.parents) && VoteKnown(net, votes, fallbacks, v, b)
    requires ss.sentSafeToSkip == (fired || SkipFires(net.ei, b, votes, ss.votes, ss.totals, ss.own))
    requires EventsAre(so.events, ss.slot, ss.sent - sent, !fired && ss.sentSafeToSkip)
    requires CertsAre(so.certs, net.ei, ss.slot, b, votes, ss.votes, fallbacks, ss.totals, ss.certs)
    ensures SlotKnown(net, ss) && AllJustified(net, AllToVotor(so.events))
    ensures forall c :: c in so.certs ==> CertKnown(net, c)
  {
    hide Compatible, Accounted, Reported, Authored, ParentsKnown, DoublesNamed, EventsAre, CertsAre, SkipFires,
         AllJustified, CertKnown, VoteKnown, Store, StoreFallback;
    StoredKnown(net, ss.slot, votes, fallbacks, v, b);
    VoteEventsKnown(net, ss.slot, ss.own, votes, v, b, ss.fallbackVotes, ss.totals, ss.parents, ss.pending, ss.sent,
                    so.events, ss.sent - sent, !fired && ss.sentSafeToSkip);
    BuiltAreKnown(net, so.certs, ss.slot, b, votes, ss.votes, fallbacks, ss.fallbackVotes, ss.totals, ss.certs);
  }

  /** A notarized or fast-finalized block is a valid parent. */
  lemma CertifiedIsParent(net: Network, c: Cert)
    requires c.NotarCert? || c.FastFinalCert?
    ensures CertKnown(net, c) ==> net.ValidParent(BlockId(c.slot, c.hash))
  {
    if CertKnown(net, c) {
      if c.FastFinalCert? {
        StrongIsQuorum(net, BlockId(c.slot, c.hash));
      }
      NotarizedIsCertified(net, BlockId(c.slot, c.hash));
    }
  }

  lemma Join(net: Network, a: seq<Event>, b: seq<Event>)
    ensures Deliverable(a) && Deliverable(b) ==> Deliverable(a + b)
    ensures AllJustified(net, a) && AllJustified(net, b) ==> AllJustified(net, a + b)
    ensures Deliverable([]) && AllJustified(net, [])
  {
  }

  function ReadyEvents(pairs: seq<ReadyPair>): (q: seq<Event>)
    ensures |q| == |pairs| && forall i :: 0 <= i < |q| ==> q[i] == ParentReady(pairs[i].slot, pairs[i].parent)
  {
    seq(|pairs|, i requires 0 <= i < |pairs| => ParentReady(pairs[i].slot, pairs[i].parent))
  }

  lemma PairsAnnounced(before: map<nat, SlotMarks>, after: map<nat, SlotMarks>, pairs: seq<ReadyPair>)
    requires NewPairs(before, after, pairs)
    ensures ReadyAnnounced(before, after, ReadyEvents(pairs))
  {
    var events := ReadyEvents(pairs);
    forall s: nat, b: BlockId
      ensures ParentReady(s, b) in events <==> ReadyPair(s, b) in pairs
    {
      if ReadyPair(s, b) in pairs {
        var i :| 0 <= i < |pairs| && pairs[i] == ReadyPair(s, b);
        assert events[i] == ParentReady(s, b);
      }
    }
  }

  lemma PairsAreStarts(tracker: ParentReadyTracker, before: map<nat, SlotMarks>, pairs: seq<ReadyPair>)
    requires tracker.Valid() && NewPairs(before, tracker.states, pairs)
    ensures Deliverable(ReadyEvents(pairs))
  {
    forall i | 0 <= i < |pairs|
      ensures IsStartOfWindow(pairs[i].slot)
    {
      assert pairs[i] in pairs;
    }
  }

  lemma BestIsStart(tracker: ParentReadyTracker, before: map<nat, SlotMarks>, best: Option<ReadyPair>)
    requires tracker.Valid() && BestNew(before, tracker.states, best)
    ensures Deliverable(BestEvents(best))
  {
    if best.Some? {
      BestIsReady(before, tracker.states, best);
    }
  }

  function BestEvents(best: Option<ReadyPair>): (events: seq<Event>)
    ensures forall e :: e in events ==> e.ParentReady?
  {
    if best.Some? then [ParentReady(best.value.slot, best.value.parent)] else []
  }

  lemma PairsJustified(net: Network, tracker: ParentReadyTracker, before: map<nat, SlotMarks>, pairs: seq<ReadyPair>)
    requires tracker.Valid() && NewPairs(before, tracker.states, pairs)
    requires ReadyKnown(net, tracker.marked, tracker.skipped)
    ensures AllJustified(net, ReadyEvents(pairs))
  {
  }

  /** A certified parent that is one leaves the slot state true, and its event justified. */
  lemma ChildKnown(net: Network, ss: SlotState, h: BlockHash, parents: map<BlockHash, ParentStatus>,
                   e: Option<SlotEvent>)
    requires ss.Valid(net.ei) && Fits(net.ei)
    requires EntryKnown(net, ss.slot, ss.votes, ss.fallbackVotes, parents)
    requires ss.parents == parents[h := ParentCertified]
    requires net.ValidParent(net.parents(BlockId(ss.slot, h)))
    requires e.Some? ==> e.value == SafeNotarEvent(BlockId(ss.slot, h)) && h in ss.sent
    ensures SlotKnown(net, ss) && (e.Some? ==> net.Justified(ToVotor(e.value)))
  {
    if e.Some? {
      SlotEventKnown(net, ss.slot, ss.own, ss.votes, ss.fallbackVotes, ss.totals, ss.parents, e.value);
    }
  }

  lemma BestJustified(net: Network, tracker: ParentReadyTracker, before: map<nat, SlotMarks>, best: Option<ReadyPair>)
    requires tracker.Valid() && BestNew(before, tracker.states, best)
    requires ReadyKnown(net, tracker.marked, tracker.skipped)
    ensures AllJustified(net, BestEvents(best))
  {
    if best.Some? {
      BestIsReady(before, tracker.states, best);
    }
  }

  ghost function ViewOf(ss: SlotState): SlotView
    reads ss`votes, ss`fallbackVotes, ss`totals, ss`certs, ss`sent, ss`sentSafeToSkip
  {
    SlotView(ss.votes, ss.fallbackVotes, ss.totals, ss.certs, ss.sent, ss.sentSafeToSkip)
  }

  ghost predicate SlotKnown(net: Network, ss: SlotState)
    reads ss`votes, ss`fallbackVotes, ss`parents
  {
    EntryKnown(net, ss.slot, ss.votes, ss.fallbackVotes, ss.parents)
  }

  lemma EmptyIsValid(ss: SlotState, ei: EpochInfo, net: Network)
    requires ei.totalStake > 0
    requires ss.votes == map[] && ss.fallbackVotes == {} && ss.totals == NO_STAKE && ss.parents == map[]
    requires ss.pending == {} && ss.sent == {}
    ensures ss.Valid(ei) && SlotKnown(net, ss)
  {
    NothingAccounted(ei);
  }
}
