/** Pools that panic although every certificate is in order: runs from the start that reach the
    reasons named by `PoolCore.TakeReason` (crates/karstflow-alpenglow/src/pool.rs). */
module Panics {
  import opened Base
  import opened Epoch
  import opened Certs
  import opened SlotStates
  import opened Quorums
  import Agreement
  import Schedules
  import Conflicts
  import MixedVotes
  import opened Orphans
  import opened Finality
  import opened PoolSpec
  import opened PoolCore
  import opened PoolImpl

  // ---- runs of a pool's core ----

  /** A block with its parent, parked unless the parent has a fallback certificate; or a
      certificate. */
  datatype Move = Register(block: BlockId, parent: BlockId, certified: bool) | Certify(mark: Mark)

  ghost function Make(core: Core, move: Move): Option<Core> {
    match move
    case Register(b, p, certified) =>
      var told := Tell(core, TellParent(b, p));
      if told.None? then None else Some(Linked(told.value, b, p, certified))
    case Certify(m) => Take(core, m)
  }

  ghost function Play(moves: seq<Move>): Option<Core> {
    if moves == [] then Some(Start())
    else
      var last := |moves| - 1;
      var before := Play(moves[..last]);
      if before.None? then None else Make(before.value, moves[last])
  }

  lemma PlayMore(moves: seq<Move>, k: nat)
    requires k < |moves| && Play(moves[..k]).Some?
    ensures Play(moves[..k + 1]) == Make(Play(moves[..k]).value, moves[k])
  {
    assert moves[..k + 1][..k] == moves[..k];
  }

  /** A known move: the certificate stands for a quorum, the block names its parent. */
  ghost predicate MoveKnown(net: Network, move: Move) {
    match move
    case Register(b, p, _) => net.parents(b) == p
    case Certify(m) => MarkKnown(net, m)
  }

  /** The moves went through, and no slot was pruned. */
  ghost predicate AtStart(moves: seq<Move>) {
    Play(moves).Some? && Play(moves).value.tracker.first == 0
  }

  /** The moves are backed by votes: after a feasible schedule of a network in which everybody is
      honest and nobody is counted twice, they are all known. */
  ghost predicate Backed(w: Agreement.World, sched: Schedules.Schedule, moves: seq<Move>) {
    && w.Assumed() && w.Tolerable() && w.honest == w.ei.All() && w.doubles == {} && Schedules.Feasible(w, sched)
    && forall i :: 0 <= i < |moves| ==> MoveKnown(Schedules.After(w, sched), moves[i])
  }

  /** Over every run parked children above the watermark stay known. */
  lemma {:induction false} PlayKeepsParked(moves: seq<Move>)
    requires Play(moves).Some?
    ensures Working(Play(moves).value.tracker, Play(moves).value.told) && Parked(Play(moves).value)
  {
    if moves != [] {
      hide Working;
      var last := |moves| - 1;
      PlayKeepsParked(moves[..last]);
      var before := Play(moves[..last]).value;
      match moves[last]
      case Register(b, p, _) => TellKeepsParked(before, TellParent(b, p));
      case Certify(m) => TakeKeepsParked(before, m);
    }
  }

  // ---- a parked child is pruned ----

  /** A child is parked under a block of slot 4. Slots 5 and 6 are fast-finalized, by other
      blocks. Then slot 4 gets its final and its notarization certificate. */
  function OrphanMoves(): seq<Move> {
    [Register(CHILD, PARENT, false), Certify(FastMark(SIBLING)), Certify(FastMark(LATER)),
     Register(PARENT, GenesisBlock(), false), Certify(FinalMark(4)), Certify(NotarMark(PARENT))]
  }

  /** A slot that is not yet decided keeps the watermark where it is. */
  lemma NoPruning(t: Tracker)
    requires !IsDecided(t.status, t.first + 1)
    requires forall s :: s in t.status ==> s >= t.first
    requires forall b :: b in t.parents ==> b.slot >= t.first
    ensures Prune(t) == t
  {
    assert Watermark(t.status, t.first) == t.first;
  }

  const STATUS: map<nat, Entry> := map[0 := Entry(Notarized, 0), 5 := Entry(Finalized, 9), 6 := Entry(Finalized, 10)]

  /** A block of an untouched slot without a known parent is fast-finalized. */
  lemma FastFinalizes(core: Core, b: BlockId)
    requires b.slot !in core.tracker.status && b !in core.tracker.parents && b.slot > core.tracker.first + 1
    requires !IsDecided(core.tracker.status, core.tracker.first + 1)
    requires forall s :: s in core.tracker.status ==> s >= core.tracker.first
    requires forall x :: x in core.tracker.parents ==> x.slot >= core.tracker.first
    requires From(core.known, core.tracker.first) == core.known
    ensures Take(core, FastMark(b)).Some?
    ensures var r := Take(core, FastMark(b)).value;
      && r.tracker == core.tracker.(status := core.tracker.status[b.slot := Entry(Finalized, b.hash)],
                                    highest := Max(core.tracker.highest, b.slot))
      && r.waiting == core.waiting && r.known == core.known
  {
    NoPruning(core.tracker.(status := core.tracker.status[b.slot := Entry(Finalized, b.hash)],
                            highest := Max(core.tracker.highest, b.slot)));
  }

  lemma FirstRegister(core: Core)
    requires core == Start()
    ensures Make(core, Register(CHILD, PARENT, false)).Some?
    ensures var r := Make(core, Register(CHILD, PARENT, false)).value;
      && r.tracker == Genesis().(parents := map[CHILD := PARENT])
      && r.waiting == map[PARENT := CHILD] && r.known == iset{CHILD}
  {
    assert From(iset{}, 0) == iset{};
  }

  lemma LastRegister(core: Core)
    requires core.tracker == Tracker(STATUS, map[CHILD := PARENT], 6, 0)
    requires core.waiting == map[PARENT := CHILD] && core.known == iset{CHILD}
    ensures Make(core, Register(PARENT, GenesisBlock(), false)).Some?
    ensures var r := Make(core, Register(PARENT, GenesisBlock(), false)).value;
      && r.tracker == Tracker(STATUS, map[CHILD := PARENT, PARENT := GenesisBlock()], 6, 0)
      && PARENT in r.waiting && r.waiting[PARENT] == CHILD && CHILD in r.known
  {
  }

  lemma FinalPends(core: Core)
    requires core.tracker == Tracker(STATUS, map[CHILD := PARENT, PARENT := GenesisBlock()], 6, 0)
    requires PARENT in core.waiting && core.waiting[PARENT] == CHILD && CHILD in core.known
    ensures Take(core, FinalMark(4)).Some?
    ensures var r := Take(core, FinalMark(4)).value;
      && r.tracker == core.tracker.(status := STATUS[4 := Entry(FinalPendingNotar, 0)])
      && PARENT in r.waiting && r.waiting[PARENT] == CHILD && CHILD in r.known
  {
  }

  lemma WatermarkIs(status: map<nat, Entry>, first: nat, r: nat)
    requires first <= r && (forall s :: first < s <= r ==> IsDecided(status, s)) && !IsDecided(status, r + 1)
    ensures Watermark(status, first) == r
  {
  }

  /** The walk from the parent to genesis skips slots 1 to 3. */
  lemma WalkToGenesis(t: Tracker, ev: FinEvent)
    requires t.first == 0 && GenesisBlock() !in t.parents && 0 in t.status && t.status[0] == Entry(Notarized, 0)
    requires forall s :: 0 < s < 4 ==> s !in t.status
    ensures Walk(t, 4, GenesisBlock(), ev).Done?
    ensures Walk(t, 4, GenesisBlock(), ev).tracker ==
      SetStatus(t.(status := SkipTo(t.status, 1, 4)), 0, ImplicitlyFinalized, 0)
  {
    assert FirstSkipped(t.status, 1, 4) == 4;
    assert !exists s :: 0 < s < 4 && Resists(t.status, s);
    SkipToContents(t.status, 1, 4);
  }

  /** With the parent's notarization slots 1 to 6 are decided. */
  lemma WatermarkPasses(t: Tracker)
    requires t == Tracker(STATUS[4 := Entry(FinalPendingNotar, 0)],
                          map[CHILD := PARENT, PARENT := GenesisBlock()], 6, 0)
    ensures MarkNotarized(t, PARENT).Done? && MarkNotarized(t, PARENT).tracker.first == 6
  {
    hide Walk;
    var t1 := SetStatus(t, 4, Finalized, PARENT.hash).(highest := 6);
    WalkToGenesis(t1, NOTHING.(finalized := Some(PARENT)));
    SkipToContents(t1.status, 1, 4);
    var status := SkipTo(t1.status, 1, 4)[0 := Entry(ImplicitlyFinalized, 0)];
    assert IsDecided(status, 4) && IsDecided(status, 5) && IsDecided(status, 6) && !IsDecided(status, 7);
    WatermarkIs(status, 0, 6);
  }

  /** The cores the moves lead to, one by one. The notarization certificate itself can be told to
      the tracker, which moves the watermark past the parked child. */
  lemma OrphanCores() returns (one: Core, two: Core, three: Core, four: Core, five: Core)
    ensures Make(Start(), Register(CHILD, PARENT, false)) == Some(one) && Take(one, FastMark(SIBLING)) == Some(two)
    ensures Take(two, FastMark(LATER)) == Some(three)
    ensures Make(three, Register(PARENT, GenesisBlock(), false)) == Some(four)
    ensures Take(four, FinalMark(4)) == Some(five) && Take(five, NotarMark(PARENT)).None?
    ensures Tell(five, TellNotar(PARENT)).Some? && Orphaned(Tell(five, TellNotar(PARENT)).value, PARENT)
    ensures one.tracker.first == two.tracker.first == three.tracker.first
      == four.tracker.first == five.tracker.first == 0
  {
    hide Take;
    FirstRegister(Start());
    one := Make(Start(), Register(CHILD, PARENT, false)).value;
    FastFinalizes(one, SIBLING);
    two := Take(one, FastMark(SIBLING)).value;
    FastFinalizes(two, LATER);
    three := Take(two, FastMark(LATER)).value;
    LastRegister(three);
    four := Make(three, Register(PARENT, GenesisBlock(), false)).value;
    FinalPends(four);
    five := Take(four, FinalMark(4)).value;
    ChildIsOrphaned(five);
  }

  lemma ChildIsOrphaned(core: Core)
    requires core.tracker == Tracker(STATUS[4 := Entry(FinalPendingNotar, 0)],
                                     map[CHILD := PARENT, PARENT := GenesisBlock()], 6, 0)
    requires PARENT in core.waiting && core.waiting[PARENT] == CHILD
    ensures Take(core, NotarMark(PARENT)).None?
    ensures Tell(core, TellNotar(PARENT)).Some? && Orphaned(Tell(core, TellNotar(PARENT)).value, PARENT)
  {
    WatermarkPasses(core.tracker);
  }

  lemma NoMoves(moves: seq<Move>)
    requires moves == []
    ensures Play(moves) == Some(Start())
  {
  }

  /** A certificate that finalizes its block, and with it everything up to slot 6, panics: the
      parked child of slot 5 was pruned with its slot. */
  lemma ParkedChildPanics()
    ensures var moves := OrphanMoves();
      && Play(moves[..5]).Some? && Play(moves).None?
      && Tell(Play(moves[..5]).value, TellNotar(PARENT)).Some?
      && Orphaned(Tell(Play(moves[..5]).value, TellNotar(PARENT)).value, PARENT)
    ensures forall i :: 0 <= i <= 5 ==> AtStart(OrphanMoves()[..i])
  {
    hide Play, Take, Tell;
    var moves := OrphanMoves();
    var one, two, three, four, five := OrphanCores();
    NoMoves(moves[..0]);
    PlayMore(moves, 0);
    PlayMore(moves, 1);
    PlayMore(moves, 2);
    PlayMore(moves, 3);
    PlayMore(moves, 4);
    PlayMore(moves, 5);
    assert moves[..6] == moves;
  }

  /** The same in a network: everybody is honest, and the certificates and blocks that make the pool
      panic are backed by votes. */
  lemma BackedChildPanics(ei: EpochInfo, c: Cert)
    requires ei.WellFormed() && ei.totalStake > 0 && ParentCert(c)
    ensures Backed(MixedVotes.HonestWorld(ei, OrphanParents()), ChainSchedule(ei, c), OrphanMoves())
    ensures Play(OrphanMoves()[..5]).Some? && Play(OrphanMoves()).None?
  {
    hide Play, Schedules.Feasible, Schedules.After, ChainSchedule, Network.Notarized, Network.Finalized,
         Network.FastFinalized, Agreement.World.Assumed, Agreement.World.Tolerable;
    ChainIsFinalized(ei, c);
    Schedules.ScheduleIsSound(MixedVotes.HonestWorld(ei, OrphanParents()), ChainSchedule(ei, c));
    ParkedChildPanics();
  }

  // ---- a notarized block rivals the finalized chain ----

  /** Slot 3 is notarized; the block of slot 4, notarized and finalized, has another parent. */
  function RivalMoves(): seq<Move> {
    [Certify(NotarMark(Conflicts.LEFT)), Register(Conflicts.NEXT, Conflicts.RIGHT, false),
     Certify(NotarMark(Conflicts.NEXT)),
     Certify(FinalMark(4))]
  }

  /** A block of an untouched slot is noted as notarized. */
  lemma NotarNoted(core: Core, b: BlockId)
    requires b.slot >= core.tracker.first && b.slot !in core.tracker.status && b !in core.waiting
    ensures Take(core, NotarMark(b)).Some?
    ensures var r := Take(core, NotarMark(b)).value;
      r.tracker == SetStatus(core.tracker, b.slot, Notarized, b.hash) && r.waiting == core.waiting
  {
  }

  lemma ParentNoted(core: Core, b: BlockId, p: BlockId)
    requires b.slot > p.slot && b.slot >= core.tracker.first && b.slot !in core.tracker.status
    requires b !in core.tracker.parents
    ensures Make(core, Register(b, p, false)).Some?
    ensures var r := Make(core, Register(b, p, false)).value;
      r.tracker == core.tracker.(parents := core.tracker.parents[b := p]) && r.waiting == core.waiting[p := b]
  {
  }

  lemma RivalRun(moves: seq<Move>)
    requires moves == RivalMoves()
    ensures Play(moves[..3]).Some? && Play(moves).None? && forall i :: 0 <= i <= 3 ==> AtStart(moves[..i])
  {
    hide Play, Take, Tell, MarkFinalized;
    NoMoves(moves[..0]);
    PlayMore(moves, 0);
    NotarNoted(Start(), Conflicts.LEFT);
    PlayMore(moves, 1);
    ParentNoted(Play(moves[..1]).value, Conflicts.NEXT, Conflicts.RIGHT);
    PlayMore(moves, 2);
    NotarNoted(Play(moves[..2]).value, Conflicts.NEXT);
    PlayMore(moves, 3);
    FinalRefused(Play(moves[..3]).value);
    assert moves[..4] == moves;
  }

  lemma FinalRefused(core: Core)
    requires var t := core.tracker;
      && t.first == 0 && t.parents == map[Conflicts.NEXT := Conflicts.RIGHT]
      && 3 in t.status && t.status[3] == Entry(Notarized, 13) && 4 in t.status && t.status[4] == Entry(Notarized, 15)
    ensures Take(core, FinalMark(4)).None?
  {
    RivalConflicts(core.tracker);
  }

  lemma RivalConflicts(t: Tracker)
    requires t.first == 0 && t.parents == map[Conflicts.NEXT := Conflicts.RIGHT]
    requires 3 in t.status && t.status[3] == Entry(Notarized, 13) && 4 in t.status
    requires t.status[4] == Entry(Notarized, 15)
    ensures MarkFinalized(t, 4).Halt?
  {
    var t1 := SetStatus(t, 4, Finalized, 15).(highest := Max(t.highest, 4));
    assert FirstSkipped(t1.status, 4, 4) == 4;
    assert Walk(t1, 4, Conflicts.RIGHT, NOTHING.(finalized := Some(Conflicts.NEXT))).Halt?;
  }

  lemma RivalMovesKnown(net: Network)
    requires net.Notarized(Conflicts.LEFT) && net.Notarized(Conflicts.NEXT) && net.Finalized(4)
    requires net.parents(Conflicts.NEXT) == Conflicts.RIGHT
    ensures forall i :: 0 <= i < |RivalMoves()| ==> MoveKnown(net, RivalMoves()[i])
  {
    hide Network.Notarized, Network.Finalized;
  }

  /** Everybody is honest, nobody votes twice, everything is backed by votes, and yet a pool that
      receives these certificates and this block panics. */
  lemma HonestPoolsPanic(x: nat, y: nat, z: nat, left: Cert, next: Cert)
    requires Conflicts.SplitCerts(left, next) && Conflicts.Yields(x, y, z)
    ensures var moves := RivalMoves();
      && Backed(Conflicts.YieldWorld(x, y, z), Conflicts.YieldSchedule(left, next), moves)
      && Play(moves[..3]).Some? && Play(moves).None?
  {
    hide Play, MoveKnown, Schedules.Feasible, Schedules.After, Conflicts.YieldSchedule, Conflicts.YieldWorld,
         Network.Notarized, Network.Finalized, Agreement.World.Assumed, Agreement.World.Tolerable;
    Conflicts.NotarizedAgainstFinalized(x, y, z, left, next);
    Schedules.FeasibleIsPossible(Conflicts.YieldWorld(x, y, z), Conflicts.YieldSchedule(left, next));
    RivalMovesKnown(Schedules.After(Conflicts.YieldWorld(x, y, z), Conflicts.YieldSchedule(left, next)));
    RivalRun(RivalMoves());
  }

  // ---- a finalized block is passed by ----

  /** Slot 4 is fast-finalized; the block of slot 8, notarized and finalized, extends genesis. */
  function LooseMoves(): seq<Move> {
    [Certify(FastMark(MixedVotes.LATE_BLOCK)), Register(MixedVotes.AROUND, GenesisBlock(), false),
     Certify(NotarMark(MixedVotes.AROUND)), Certify(FinalMark(8))]
  }

  lemma FirstFast(core: Core)
    requires core == Start()
    ensures Take(core, FastMark(MixedVotes.LATE_BLOCK)).Some?
    ensures var r := Take(core, FastMark(MixedVotes.LATE_BLOCK)).value;
      && r.tracker == Genesis().(status := Genesis().status[4 := Entry(Finalized, 7)], highest := 4)
      && r.waiting == map[]
  {
    assert From(core.known, 0) == core.known;
    FastFinalizes(core, MixedVotes.LATE_BLOCK);
  }

  /** The walk to genesis would have to skip the finalized slot. */
  lemma LooseRefused(core: Core)
    requires var t := core.tracker;
      && t.first == 0 && t.parents == map[MixedVotes.AROUND := GenesisBlock()]
      && t.status == Genesis().status[4 := Entry(Finalized, 7)][8 := Entry(Notarized, 1)]
    ensures Take(core, FinalMark(8)).None?
  {
    var t := core.tracker;
    var t1 := SetStatus(t, 8, Finalized, 1).(highest := Max(t.highest, 8));
    assert FirstSkipped(t1.status, 1, 8) == 8;
    assert Resists(t1.status, 4);
    assert Walk(t1, 8, GenesisBlock(), NOTHING.(finalized := Some(MixedVotes.AROUND))).Halt?;
  }

  lemma LooseRun(moves: seq<Move>)
    requires moves == LooseMoves()
    ensures Play(moves[..3]).Some? && Play(moves).None? && forall i :: 0 <= i <= 3 ==> AtStart(moves[..i])
  {
    hide Play, Take, Tell;
    NoMoves(moves[..0]);
    PlayMore(moves, 0);
    FirstFast(Start());
    PlayMore(moves, 1);
    ParentNoted(Play(moves[..1]).value, MixedVotes.AROUND, GenesisBlock());
    PlayMore(moves, 2);
    NotarNoted(Play(moves[..2]).value, MixedVotes.AROUND);
    PlayMore(moves, 3);
    LooseRefused(Play(moves[..3]).value);
    assert moves[..4] == moves;
  }

  /** A finalized block that is not locked: everybody is honest, nobody votes twice, everything is
      backed by votes, and a pool panics when the chain that passes the block by is finalized. */
  lemma LooseBlockPanics(ei: EpochInfo, m: set<nat>, n: set<nat>, c: Cert)
    requires ei.WellFormed() && ei.totalStake > 0 && m + n <= ei.All() && m !! n && MixedVotes.AroundCert(c)
    requires ei.IsStrong(ei.StakeOf(m + n)) && ei.IsWeak(ei.StakeOf(ei.All() - n))
    ensures var w := MixedVotes.HonestWorld(ei, MixedVotes.GenesisParents());
      var sched := MixedVotes.MixedSchedule(ei, m, n, c);
      && Backed(w, sched, LooseMoves()) && !Locked(Schedules.After(w, sched), MixedVotes.LATE_BLOCK)
      && Play(LooseMoves()[..3]).Some? && Play(LooseMoves()).None?
  {
    hide Play, Schedules.Feasible, Schedules.After, MixedVotes.MixedSchedule, Network.Notarized, Network.Finalized,
         Network.FastFinalized, Network.Skipped, Agreement.World.Assumed, Agreement.World.Tolerable;
    MixedVotes.MixedVotesUndoFinality(ei, m, n, c);
    LooseRun(LooseMoves());
    Schedules.ScheduleIsSound(MixedVotes.HonestWorld(ei, MixedVotes.GenesisParents()),
                              MixedVotes.MixedSchedule(ei, m, n, c));
  }

  // ---- the same with a pool ----

  predicate Passes(ei: EpochInfo, c: Cert) {
    c.Shaped() && c.CheckThreshold(ei)
  }

  /** The keys of the first `k` certificates. */
  ghost function KeysUpTo(moves: seq<Move>, certs: seq<Cert>, k: nat): set<Key>
    requires k <= |moves| == |certs|
  {
    set i | 0 <= i < k && moves[i].Certify? :: KeyOf(certs[i])
  }

  /** The pool does not refuse move `k`: its certificate is in bounds, heavy enough and new. And a
      block is parked unless its parent has a fallback certificate. */
  ghost predicate Accepted(ei: EpochInfo, moves: seq<Move>, certs: seq<Cert>, k: nat)
    requires k < |moves| == |certs|
  {
    var core := Play(moves[..k]);
    core.Some? ==>
      match moves[k]
      case Certify(m) =>
        && Passes(ei, certs[k]) && MarkOf(certs[k]) == m && KeyOf(certs[k]) !in KeysUpTo(moves, certs, k)
        && core.value.tracker.first <= certs[k].slot < core.value.tracker.highest + 2 * SLOTS_PER_EPOCH
      case Register(b, p, certified) =>
        var told := Tell(core.value, TellParent(b, p));
        told.Some? ==>
          (certified <==>
            p.slot >= told.value.tracker.first && FallbackKey(p.slot, p.hash) in KeysUpTo(moves, certs, k))
  }

  lemma CoreBounds(pool: Pool, s: nat)
    ensures pool.InBounds(s) <==> pool.Core().tracker.first <= s < pool.Core().tracker.highest + 2 * SLOTS_PER_EPOCH
    ensures pool.Core().tracker.first == pool.finality.first
  {
  }

  lemma NoKeys(moves: seq<Move>, certs: seq<Cert>)
    requires |moves| == |certs|
    ensures KeysUpTo(moves, certs, 0) == {}
  {
  }

  lemma MoreKeys(moves: seq<Move>, certs: seq<Cert>, k: nat)
    requires k < |moves| == |certs|
    ensures KeysUpTo(moves, certs, k + 1) ==
      KeysUpTo(moves, certs, k) + if moves[k].Certify? then {KeyOf(certs[k])} else {}
  {
  }

  /** No move can be made after a panic. */
  lemma {:induction false} PanicIsFinal(moves: seq<Move>, k: nat)
    requires k <= |moves| && Play(moves[..k]).None?
    ensures Play(moves).None?
  {
    if k < |moves| {
      assert moves[..|moves| - 1][..k] == moves[..k];
      PanicIsFinal(moves[..|moves| - 1], k);
    } else {
      assert moves[..k] == moves;
    }
  }

  /** Adds an acceptable certificate. */
  method AddTaken(pool: Pool, c: Cert, ghost net: Network) returns (ok: bool)
    requires pool.Valid() && pool.Settled() && Passes(pool.ei, c) && KeyOf(c) !in pool.announced
    requires pool.Core().tracker.first <= c.slot < pool.Core().tracker.highest + 2 * SLOTS_PER_EPOCH
    modifies pool, pool.slotStates.Values, pool.finality, pool.parentReady
    ensures ok <==> Take(old(pool.Core()), MarkOf(c)).Some?
    ensures ok ==> pool.Valid() && pool.Settled() && fresh(pool.slotStates.Values - old(pool.slotStates.Values))
    ensures ok ==> Some(pool.Core()) == Take(old(pool.Core()), MarkOf(c))
    ensures ok ==> pool.announced == old(pool.announced) + {KeyOf(c)}
  {
    hide Pool.Valid, Pool.Settled, Pool.Knows, Pool.Book, Pool.Core, Take, Network.Sound, Network.Grounded,
         KeepsVotes, StoresCert, Reports, Announces, Deliverable, ReadyAnnounced, Parked, TakeReason, AllJustified,
         SameAbove, Cert.CheckThreshold, Cert.Shaped;
    CoreBounds(pool, c.slot);
    var r, events, repairs := pool.AddCert(c, true, net);
    ok := r.Added?;
  }

  method AddLinked(pool: Pool, b: BlockId, p: BlockId, certified: bool, ghost net: Network) returns (ok: bool)
    requires pool.Valid() && pool.Settled()
    requires var told := Tell(pool.Core(), TellParent(b, p));
      told.Some? ==>
        (certified <==> p.slot >= told.value.tracker.first && FallbackKey(p.slot, p.hash) in pool.announced)
    modifies pool, pool.slotStates.Values, pool.finality, pool.parentReady
    ensures ok <==> Make(old(pool.Core()), Register(b, p, certified)).Some?
    ensures ok ==> pool.Valid() && pool.Settled() && fresh(pool.slotStates.Values - old(pool.slotStates.Values))
    ensures ok ==> Some(pool.Core()) == Make(old(pool.Core()), Register(b, p, certified))
    ensures ok ==> pool.announced == old(pool.announced)
  {
    hide Pool.Valid, Pool.Settled, Pool.Knows, Pool.Book, Pool.Core, Tell, Network.Sound, Network.Grounded, Steady,
         Deliverable, Parked, OpReason, AllJustified, NoCertEvents;
    var r, events := pool.AddBlock(b, p, net);
    ok := r.Added?;
    CoreBounds(pool, 0);
  }

  /** A pool that is given moves it does not refuse does what the run of its core does: it panics
      exactly when the run does. */
  method PlayOnPool(ei: EpochInfo, own: nat, moves: seq<Move>, certs: seq<Cert>, ghost net: Network)
    returns (panicked: bool)
    requires Fits(ei) && |moves| == |certs| && forall k :: 0 <= k < |moves| ==> Accepted(ei, moves, certs, k)
    ensures panicked <==> Play(moves).None?
  {
    hide Pool.Valid, Pool.Settled, Pool.Knows, Pool.Book, Pool.Core, Start, Take, Tell, Linked, Play, Fits, Passes,
         KeysUpTo;
    var pool := new Pool(ei, own, net);
    NoMoves(moves[..0]);
    NoKeys(moves, certs);
    for i := 0 to |moves|
      invariant pool.ei == ei && pool.Valid() && pool.Settled() && Play(moves[..i]) == Some(pool.Core())
      invariant pool.announced == KeysUpTo(moves, certs, i)
      invariant fresh(pool) && fresh(pool.slotStates.Values) && fresh(pool.finality) && fresh(pool.parentReady)
    {
      assert Accepted(ei, moves, certs, i);
      PlayMore(moves, i);
      MoreKeys(moves, certs, i);
      var ok;
      match moves[i] {
        case Certify(_) => ok := AddTaken(pool, certs[i], net);
        case Register(b, p, certified) => ok := AddLinked(pool, b, p, certified, net);
      }
      if !ok {
        PanicIsFinal(moves, i + 1);
        return true;
      }
    }
    assert moves[..|moves|] == moves;
    panicked := false;
  }

  /** The three runs above with a pool: it panics on the last certificate, whoever signed them, as
      soon as they pass the threshold test. */
  method OrphanPoolPanics(ei: EpochInfo, own: nat, sibling: Cert, later: Cert, final: Cert, notar: Cert,
                          ghost net: Network)
    returns (panicked: bool)
    requires Fits(ei) && Passes(ei, sibling) && Passes(ei, later) && Passes(ei, final) && Passes(ei, notar)
    requires MarkOf(sibling) == FastMark(SIBLING) && MarkOf(later) == FastMark(LATER)
    requires MarkOf(final) == FinalMark(4) && MarkOf(notar) == NotarMark(PARENT)
    ensures panicked
  {
    hide Play, Tell, Fits, Passes;
    ParkedChildPanics();
    panicked := PlayOnPool(ei, own, OrphanMoves(), [sibling, sibling, later, final, final, notar], net);
  }

  method RivalPoolPanics(ei: EpochInfo, own: nat, left: Cert, next: Cert, final: Cert, ghost net: Network)
    returns (panicked: bool)
    requires Fits(ei) && Passes(ei, left) && Passes(ei, next) && Passes(ei, final)
    requires MarkOf(left) == NotarMark(Conflicts.LEFT) && MarkOf(next) == NotarMark(Conflicts.NEXT)
    requires MarkOf(final) == FinalMark(4)
    ensures panicked
  {
    hide Play, Tell, Fits, Passes;
    RivalRun(RivalMoves());
    panicked := PlayOnPool(ei, own, RivalMoves(), [left, next, next, final], net);
  }

  method LoosePoolPanics(ei: EpochInfo, own: nat, fast: Cert, notar: Cert, final: Cert, ghost net: Network)
    returns (panicked: bool)
    requires Fits(ei) && Passes(ei, fast) && Passes(ei, notar) && Passes(ei, final)
    requires MarkOf(fast) == FastMark(MixedVotes.LATE_BLOCK) && MarkOf(notar) == NotarMark(MixedVotes.AROUND)
    requires MarkOf(final) == FinalMark(8)
    ensures panicked
  {
    hide Play, Tell, Fits, Passes;
    LooseRun(LooseMoves());
    panicked := PlayOnPool(ei, own, LooseMoves(), [fast, notar, notar, final], net);
  }
}
