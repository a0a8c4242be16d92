/** Honest validators that vote both ways in a slot or twice for a block, and what it takes for
    such votes to undo a fast finalization. */
module MixedVotes {
  import opened Base
  import opened Epoch
  import opened Certs
  import opened Sorted
  import opened SlotStates
  import opened VotorSpec
  import opened VotorInv
  import opened VotorRuns
  import opened Quorums
  import opened Agreement
  import opened Schedules
  import opened Rounds
  import opened Conflicts

  const LATE_BLOCK: BlockId := BlockId(4, 7)
  const AROUND: BlockId := BlockId(8, 1)

  /** Every block extends genesis. */
  function GenesisParents(): Parents {
    (b: BlockId) => GenesisBlock()
  }

  // ---- states in which nothing is pending ----

  /** Nothing is pending, and nothing was touched from slot `s` on. */
  ghost predicate Idle(st: State, s: nat) {
    st.Tidy() && NoPending(st) && st.highest == 0 && forall x :: x >= s ==> st.At(x) == FRESH
  }

  /** Skipping a range casts skip votes where none was cast and touches nothing else. */
  lemma RangeSkipped(st: State, from: nat, end: nat, r: State)
    requires from <= end && r == SkipRange(st, from, end)
    ensures KeepsCast(st, r) && r.highest == st.highest
    ensures forall x :: from <= x < end && !st.At(x).voted ==> Skip(x) in r.cast
    ensures forall x :: r.At(x).pendingBlock == st.At(x).pendingBlock && r.At(x).retired == st.At(x).retired
    ensures forall x :: r.At(x).blockNotarized == st.At(x).blockNotarized
    ensures forall x: nat :: !(from <= x < end) ==> r.At(x) == st.At(x)
    ensures forall b :: b in r.cast ==> b in st.cast || (b.Skip? && from <= b.slot < end && !st.At(b.slot).voted)
  {
    SkipRangeVotes(st, from, end);
    SkipRangeFrame(st, from, end);
    forall x
      ensures r.At(x).pendingBlock == st.At(x).pendingBlock && r.At(x).retired == st.At(x).retired
      ensures r.At(x).blockNotarized == st.At(x).blockNotarized
    {
      var a, b := r.At(x).(voted := true, badWindow := true), st.At(x).(voted := true, badWindow := true);
      assert a == b;
      assert r.At(x).pendingBlock == a.pendingBlock && r.At(x).retired == a.retired;
      assert r.At(x).blockNotarized == a.blockNotarized;
    }
    forall b | b in r.cast
      ensures b in st.cast || (b.Skip? && from <= b.slot < end && !st.At(b.slot).voted)
    {
      SkipRangeOnly(st, from, end, b);
    }
  }

  lemma NonePending(st: State)
    requires forall x :: st.At(x).pendingBlock.None?
    ensures NoPending(st)
  {
    forall s | s in st.slots
      ensures st.slots[s].pendingBlock.None?
    {
      assert st.At(s) == st.slots[s];
    }
  }

  /** A step that leaves pending blocks alone and touches nothing from slot `s` on. */
  lemma IdleAfter(st: State, s: nat, r: State)
    requires st.highest == 0 && NoPending(st) && r.Tidy() && r.highest == 0
    requires forall x :: x >= s ==> st.At(x) == FRESH && r.At(x) == st.At(x)
    requires forall x :: r.At(x).pendingBlock == st.At(x).pendingBlock
    ensures Idle(r, s)
  {
    forall x
      ensures r.At(x).pendingBlock.None?
    {
      assert r.At(x).pendingBlock == st.At(x).pendingBlock;
    }
    NonePending(r);
  }

  ghost predicate FirstWindowSkipped(cast: seq<Ballot>) {
    Skip(1) in cast && Skip(2) in cast && Skip(3) in cast
  }

  /** A timeout in the first window skips it. */
  lemma FirstWindowOver(index: nat, e: seq<Event>, parents: Parents) returns (st: State)
    requires e != [] && e[0] == Fired(Timeout(1)) && Admissible(e, parents)
    ensures Admissible(e[..1], parents) && st == Run(index, e[..1], parents)
    ensures FirstWindowSkipped(st.cast) && Idle(st, 4) && forall b :: b in st.cast ==> b.slot < 4
  {
    hide SkipRange, CheckPending, HandleCert, Fallback, OnBlock, Run, Inv;
    PrefixStep(index, e, 0, parents);
    EmptyRun(index, e[..0], parents);
    var init := Init(index);
    st := TrySkipWindow(init, 1);
    StepTidy(init, Fired(Timeout(1)));
    RangeSkipped(init, 0, 4, st);
    assert forall x :: x >= 4 ==> init.At(x) == FRESH && st.At(x) == init.At(x);
    IdleAfter(init, 4, st);
  }

  lemma EmptyRun(index: nat, e: seq<Event>, parents: Parents)
    requires e == []
    ensures Admissible(e, parents) && Run(index, e, parents) == Init(index)
  {
  }

  ghost predicate RestSkipped(cast: seq<Ballot>) {
    Skip(5) in cast && Skip(6) in cast && Skip(7) in cast
  }

  // ---- a skip vote and then a notar vote ----

  /** Exactly one block is pending, and its slot was never notarized. */
  ghost predicate OnlyPending(st: State, s: nat, b: BlockId, parent: BlockId) {
    && st.Tidy() && st.highest == 0 && s in st.slots && st.slots[s].pendingBlock == Some((b, parent))
    && st.slots[s].blockNotarized.None? && !st.slots[s].retired
    && forall x :: x != s ==> st.At(x).pendingBlock.None?
  }

  lemma OneToCheck(st: State, s: nat, b: BlockId, parent: BlockId)
    requires OnlyPending(st, s, b, parent)
    ensures PendingOf(st.slots, Enumerate(st.slots.Keys)) == [(s, b, parent)]
  {
    hide PendingOf;
    var keys := Enumerate(st.slots.Keys);
    var q := PendingOf(st.slots, keys);
    PendingOfElements(st.slots, keys);
    PendingOfIsList(st);
    assert s in keys && (s, b, parent) in q;
    forall t | t in q
      ensures t == (s, b, parent)
    {
      assert st.At(t.0).pendingBlock == Some((t.1, t.2));
    }
    OneElement(q, (s, b, parent));
  }

  lemma OneElement(q: seq<(nat, BlockId, BlockId)>, t: (nat, BlockId, BlockId))
    requires t in q && (forall u :: u in q ==> u == t) && forall i, j :: 0 <= i < j < |q| ==> q[i].0 < q[j].0
    ensures q == [t]
  {
    assert forall i :: 0 <= i < |q| ==> q[i] in q;
    assert |q| > 1 ==> q[0].0 < q[1].0;
  }

  lemma TryOne(st: State, q: seq<(nat, BlockId, BlockId)>, s: nat, b: BlockId, parent: BlockId)
    requires q == [(s, b, parent)] && s >= st.FirstUnpruned()
    ensures TryEach(st, q) == TryNotar(st, s, b, parent)
  {
    assert q[1..] == [];
  }

  /** A pending block whose parent is announced is notarized, skipped or not. */
  lemma PendingIsNotarized(st: State, b: BlockId, parent: BlockId) returns (r: State)
    requires OnlyPending(st, b.slot, b, parent) && IsStartOfWindow(b.slot)
    ensures r == Step(st, ParentReady(b.slot, parent)) && r.Tidy() && NoPending(r) && r.highest == 0
    ensures r.cast == st.cast + [Notar(b.slot, b.hash)]
    ensures forall x :: x != b.slot ==> r.At(x) == st.At(x)
  {
    hide PendingOf, Enumerate;
    var ready := AddReady(st, b.slot, parent);
    assert forall x :: x != b.slot ==> ready.At(x) == st.At(x);
    OneToCheck(ready, b.slot, b, parent);
    r := SetTimeouts(CheckPending(ready), b.slot);
    TryOne(ready, [(b.slot, b, parent)], b.slot, b, parent);
    forall x
      ensures r.At(x).pendingBlock.None? && (x != b.slot ==> r.At(x) == st.At(x))
    {
      assert x != b.slot ==> r.At(x) == ready.At(x) == st.At(x);
    }
    NonePending(r);
  }

  /** A block arrives before its parent is announced, and its window times out. */
  lemma SkippedWhilePending(st: State) returns (two: State, r: State)
    requires Idle(st, 4)
    ensures two == Step(st, Block(4, LATE_BLOCK, GenesisBlock())) && two.Tidy()
    ensures r == Step(two, Fired(Timeout(4)))
    ensures OnlyPending(r, 4, LATE_BLOCK, GenesisBlock()) && forall x :: x >= 8 ==> r.At(x) == FRESH
    ensures Skip(4) in r.cast && RestSkipped(r.cast) && KeepsCast(st, r)
  {
    hide SkipRange, CheckPending, HandleCert, Fallback, TryNotar;
    two := Step(st, Block(4, LATE_BLOCK, GenesisBlock()));
    StepTidy(st, Block(4, LATE_BLOCK, GenesisBlock()));
    r := TrySkipWindow(two, 4);
    StepTidy(two, Fired(Timeout(4)));
    assert two.At(4) == FRESH.(pendingBlock := Some((LATE_BLOCK, GenesisBlock())));
    assert forall x :: x != 4 ==> two.At(x) == st.At(x);
    RangeSkipped(two, 4, 8, r);
    assert r.At(4).pendingBlock.Some? && r.At(4).blockNotarized == two.At(4).blockNotarized && !r.At(4).retired;
    assert !two.At(5).voted && !two.At(6).voted && !two.At(7).voted;
    forall x
      ensures x != 4 ==> r.At(x).pendingBlock.None?
      ensures x >= 8 ==> r.At(x) == FRESH
    {
      assert x >= 8 ==> r.At(x) == two.At(x) == st.At(x);
      assert x != 4 ==> r.At(x).pendingBlock == two.At(x).pendingBlock == st.At(x).pendingBlock;
    }
  }

  /** What comes after: the next window starts from genesis, and its block is certified. */
  function Tail(c: Cert): seq<Event> {
    [ParentReady(8, GenesisBlock()), Block(8, AROUND, GenesisBlock()), CertCreated(c)]
  }

  ghost predicate AroundCert(c: Cert) {
    c.NotarCert? && c.slot == 8 && c.hash == AROUND.hash
  }

  /** Whatever happened before, the block of slot 8 is notarized and its slot finalized. */
  lemma TailRun(index: nat, e: seq<Event>, parents: Parents, c: Cert) returns (six: State, r: State)
    requires |e| == 7 && e[4..] == Tail(c) && AroundCert(c) && Admissible(e, parents)
    requires Admissible(e[..4], parents) && Idle(Run(index, e[..4], parents), 8)
    ensures Admissible(e[..6], parents) && six == Run(index, e[..6], parents) && r == Run(index, e, parents)
    ensures six.cast == Run(index, e[..4], parents).cast + [Notar(8, AROUND.hash)] && r.cast == six.cast + [Final(8)]
  {
    hide Step, Run, Inv, NoPending, State.Tidy;
    assert e[4] == Tail(c)[0] && e[5] == Tail(c)[1] && e[6] == Tail(c)[2];
    PrefixStep(index, e, 4, parents);
    PrefixStep(index, e, 5, parents);
    PrefixStep(index, e, 6, parents);
    var five := ParentArrives(Run(index, e[..4], parents), 8, GenesisBlock());
    var a, b := five.At(8).(parentsReady := []), FRESH;
    assert a == b;
    assert a.retired == five.At(8).retired && a.voted == five.At(8).voted && a.badWindow == five.At(8).badWindow
        && a.blockNotarized == five.At(8).blockNotarized;
    six := BlockIsNotarized(five, AROUND, GenesisBlock());
    r := NotarCertArrives(six, c);
    assert e[..7] == e;
  }

  // ---- three kinds of validators ----

  /** A block for slot 4 arrives, its window times out, then its parent is announced. */
  function ConflictEvents(c: Cert): seq<Event> {
    [Fired(Timeout(1)), Block(4, LATE_BLOCK, GenesisBlock()), Fired(Timeout(4)), ParentReady(4, GenesisBlock())]
      + Tail(c)
  }

  /** The parent is announced in time and the block arrives. */
  function OnTimeEvents(): seq<Event> {
    [Fired(Timeout(1)), ParentReady(4, GenesisBlock()), Block(4, LATE_BLOCK, GenesisBlock())]
  }

  /** Then the slot is safe to skip. */
  function NotarEvents(c: Cert): seq<Event> {
    OnTimeEvents() + [SafeToSkip(4)] + Tail(c)
  }

  /** Nothing arrives in time, and only shreds arrive later. */
  function SkipEvents(c: Cert): seq<Event> {
    [Fired(Timeout(1)), Fired(Timeout(4)), FirstShred(4), FirstShred(5)] + Tail(c)
  }

  /** One honest run casts a skip vote for slot 4 and then a notar vote for it. */
  lemma MixedVotesHappen(index: nat, e: seq<Event>, parents: Parents, c: Cert) returns (three: State, four: State)
    requires e == ConflictEvents(c) && Admissible(e, parents)
    ensures Admissible(e[..3], parents) && three == Run(index, e[..3], parents) && Skip(4) in three.cast
    ensures Admissible(e[..4], parents) && four == Run(index, e[..4], parents) && Idle(four, 8)
    ensures FirstWindowSkipped(four.cast) && RestSkipped(four.cast)
    ensures Skip(4) in four.cast && Notar(4, LATE_BLOCK.hash) in four.cast
  {
    hide Step, Run, Inv, State.Tidy;
    PrefixStep(index, e, 1, parents);
    PrefixStep(index, e, 2, parents);
    PrefixStep(index, e, 3, parents);
    var one := FirstWindowOver(index, e, parents);
    var two;
    two, three := SkippedWhilePending(one);
    four := PendingIsNotarized(three, LATE_BLOCK, GenesisBlock());
  }

  lemma SkipFallbackAfterNotar(st: State) returns (r: State)
    requires Idle(st, 5) && !st.At(4).retired && st.At(4).voted
    ensures r == Step(st, SafeToSkip(4)) && Idle(r, 8) && SkipFallback(4) in r.cast && RestSkipped(r.cast)
    ensures KeepsCast(st, r) && (Skip(4) in r.cast ==> Skip(4) in st.cast)
  {
    hide SkipRange;
    var voted := st.Vote(SkipFallback(4));
    var skipped := TrySkipWindow(voted, 4);
    r := Fallback(st, 4, SkipFallback(4));
    StepTidy(st, SafeToSkip(4));
    assert forall x :: voted.At(x) == st.At(x);
    RangeSkipped(voted, 4, 8, skipped);
    assert forall x :: r.At(x).pendingBlock == skipped.At(x).pendingBlock && (x >= 8 ==> r.At(x) == skipped.At(x));
    assert forall x :: x >= 8 ==> st.At(x) == FRESH && r.At(x) == st.At(x);
    assert forall x :: r.At(x).pendingBlock == st.At(x).pendingBlock;
    IdleAfter(st, 8, r);
    assert !st.At(5).voted && !st.At(6).voted && !st.At(7).voted;
  }

  /** Whoever is told in time notarizes the block. */
  lemma OnTimeRun(index: nat, e: seq<Event>, parents: Parents) returns (r: State)
    requires |e| >= 3 && e[..3] == OnTimeEvents() && Admissible(e, parents)
    ensures Admissible(e[..3], parents) && r == Run(index, e[..3], parents) && Idle(r, 5)
    ensures r.At(4).voted && r.At(4).votedNotar == Some(LATE_BLOCK.hash) && !r.At(4).badWindow && !r.At(4).retired
    ensures Skip(4) !in r.cast
    ensures FirstWindowSkipped(r.cast) && Notar(4, LATE_BLOCK.hash) in r.cast
  {
    hide Step, Run, Inv, NoPending, State.Tidy;
    var q := OnTimeEvents();
    assert e[0] == q[0] && e[1] == q[1] && e[2] == q[2];
    PrefixStep(index, e, 1, parents);
    PrefixStep(index, e, 2, parents);
    var one := FirstWindowOver(index, e, parents);
    var two := ParentArrives(one, 4, GenesisBlock());
    var a, b := two.At(4).(parentsReady := []), FRESH;
    assert a == b;
    assert a.retired == two.At(4).retired && a.voted == two.At(4).voted && a.badWindow == two.At(4).badWindow
        && a.blockNotarized == two.At(4).blockNotarized;
    r := BlockIsNotarized(two, LATE_BLOCK, GenesisBlock());
  }

  lemma NotarRun(index: nat, e: seq<Event>, parents: Parents, c: Cert) returns (four: State)
    requires e == NotarEvents(c) && Admissible(e, parents)
    ensures Admissible(e[..4], parents) && four == Run(index, e[..4], parents) && Idle(four, 8)
    ensures FirstWindowSkipped(four.cast) && RestSkipped(four.cast)
    ensures SkipFallback(4) in four.cast && Notar(4, LATE_BLOCK.hash) in four.cast && Skip(4) !in four.cast
  {
    hide Step, Run, Inv, NoPending, State.Tidy;
    PrefixStep(index, e, 3, parents);
    var three := OnTimeRun(index, e, parents);
    four := SkipFallbackAfterNotar(three);
  }

  lemma WindowTimesOut(st: State) returns (r: State)
    requires Idle(st, 4)
    ensures r == Step(st, Fired(Timeout(4))) && Idle(r, 8) && Skip(4) in r.cast && RestSkipped(r.cast)
    ensures KeepsCast(st, r) && forall b :: b in r.cast ==> b in st.cast || b.Skip?
  {
    hide SkipRange;
    r := TrySkipWindow(st, 4);
    StepTidy(st, Fired(Timeout(4)));
    RangeSkipped(st, 4, 8, r);
    assert forall x :: x >= 8 ==> st.At(x) == FRESH && r.At(x) == st.At(x);
    IdleAfter(st, 8, r);
    assert !st.At(4).voted && !st.At(5).voted && !st.At(6).voted && !st.At(7).voted;
  }

  lemma ShredArrives(st: State, s: nat) returns (r: State)
    requires Idle(st, 8) && s < 8
    ensures r == Step(st, FirstShred(s)) && Idle(r, 8) && r.cast == st.cast
  {
    r := Step(st, FirstShred(s));
    assert forall x :: x != s ==> r.At(x) == st.At(x);
    assert r.At(s).pendingBlock == st.At(s).pendingBlock;
    IdleAfter(st, 8, r);
  }

  lemma SkipRun(index: nat, e: seq<Event>, parents: Parents, c: Cert) returns (two: State, four: State)
    requires e == SkipEvents(c) && Admissible(e, parents)
    ensures Admissible(e[..2], parents) && two == Run(index, e[..2], parents) && Skip(4) in two.cast
    ensures Admissible(e[..4], parents) && four == Run(index, e[..4], parents) && Idle(four, 8)
    ensures FirstWindowSkipped(four.cast) && RestSkipped(four.cast)
    ensures Skip(4) in four.cast && forall h :: Notar(4, h) !in four.cast
  {
    hide Step, Run, Inv, Idle;
    PrefixStep(index, e, 1, parents);
    PrefixStep(index, e, 2, parents);
    PrefixStep(index, e, 3, parents);
    var one := FirstWindowOver(index, e, parents);
    two := WindowTimesOut(one);
    var three := ShredArrives(two, 4);
    four := ShredArrives(three, 5);
  }

  // ---- how many mixed votes undo a fast finalization ----

  /** The members of `m` vote both ways in slot 4, those of `n` notarize, the others skip. */
  function EventsFor(v: nat, m: set<nat>, n: set<nat>, c: Cert): (q: seq<Event>)
    ensures |q| == 7 && q[0] == Fired(Timeout(1)) && q[4..] == Tail(c)
  {
    if v in m then ConflictEvents(c) else if v in n then NotarEvents(c) else SkipEvents(c)
  }

  lemma AllAdmissible(v: nat, m: set<nat>, n: set<nat>, c: Cert, parents: Parents)
    requires parents == GenesisParents()
    ensures Admissible(EventsFor(v, m, n, c), parents)
  {
  }

  /** The votes of each kind of validator after `k` of its events. */
  ghost predicate Ballots(cast: seq<Ballot>, v: nat, m: set<nat>, n: set<nat>, k: nat) {
    && (k >= 1 ==> FirstWindowSkipped(cast))
    && (k >= 3 && v !in n ==> Skip(4) in cast)
    && (k >= 4 ==> RestSkipped(cast) && (v in n ==> SkipFallback(4) in cast))
    && (k >= 4 && v in m + n ==> Notar(4, LATE_BLOCK.hash) in cast)
    && (k >= 6 ==> Notar(8, AROUND.hash) in cast)
    && (k == 7 ==> Final(8) in cast && (v in n ==> Skip(4) !in cast))
    && (k == 7 && v !in m + n ==> forall h :: Notar(4, h) !in cast)
  }

  /** The state after four events, whatever the kind. */
  lemma FourEvents(v: nat, e: seq<Event>, m: set<nat>, n: set<nat>, c: Cert, parents: Parents) returns (four: State)
    requires m !! n && e == EventsFor(v, m, n, c) && Admissible(e, parents)
    ensures Admissible(e[..4], parents) && four == Run(v, e[..4], parents) && Idle(four, 8)
    ensures Ballots(four.cast, v, m, n, 4) && (v in n ==> Skip(4) !in four.cast)
    ensures v !in m + n ==> forall h :: Notar(4, h) !in four.cast
  {
    hide Step, Run, Inv, Admissible, Idle, ConflictEvents, NotarEvents, SkipEvents;
    if v in m {
      var three;
      three, four := MixedVotesHappen(v, e, parents, c);
    } else if v in n {
      four := NotarRun(v, e, parents, c);
    } else {
      var two;
      two, four := SkipRun(v, e, parents, c);
    }
  }

  /** The skip votes for slot 4 are there after three events. */
  lemma ThreeEvents(v: nat, e: seq<Event>, m: set<nat>, n: set<nat>, c: Cert, parents: Parents)
    requires m !! n && e == EventsFor(v, m, n, c) && Admissible(e, parents) && Admissible(Prefix(e, 3), parents)
    ensures v !in n ==> Skip(4) in Run(v, Prefix(e, 3), parents).cast
  {
    hide Step, Run, Inv, Admissible, ConflictEvents, NotarEvents, SkipEvents;
    if v in m {
      var three, four := MixedVotesHappen(v, e, parents, c);
    } else if v !in n {
      var two, four := SkipRun(v, e, parents, c);
      PrefixCasts(v, e, 2, 3, parents);
    }
  }

  lemma VotesAfter(v: nat, e: seq<Event>, m: set<nat>, n: set<nat>, c: Cert, k: nat, parents: Parents)
    requires m !! n && AroundCert(c) && e == EventsFor(v, m, n, c) && Admissible(e, parents) && k <= 7
    requires Admissible(Prefix(e, k), parents)
    ensures Ballots(Run(v, Prefix(e, k), parents).cast, v, m, n, k)
  {
    hide Run, Inv, Admissible, Idle, EventsFor, Tail;
    PrefixIsAdmissible(e, 3, parents);
    if k >= 1 {
      var one := FirstWindowOver(v, e, parents);
      PrefixCasts(v, e, 1, k, parents);
    }
    if k >= 3 {
      ThreeEvents(v, e, m, n, c, parents);
      PrefixCasts(v, e, 3, k, parents);
    }
    if k >= 4 {
      LateVotes(v, e, m, n, c, k, parents);
    }
  }

  lemma LateVotes(v: nat, e: seq<Event>, m: set<nat>, n: set<nat>, c: Cert, k: nat, parents: Parents)
    requires m !! n && AroundCert(c) && e == EventsFor(v, m, n, c) && Admissible(e, parents) && 4 <= k <= 7
    requires Admissible(Prefix(e, k), parents)
    ensures Ballots(Run(v, Prefix(e, k), parents).cast, v, m, n, k)
  {
    hide Run, Inv, Admissible, Idle, EventsFor, Tail;
    var four := FourEvents(v, e, m, n, c, parents);
    PrefixCasts(v, e, 4, k, parents);
    if k >= 6 {
      var six, r := TailRun(v, e, parents, c);
      PrefixCasts(v, e, 6, k, parents);
      assert e[..7] == e;
    }
  }

  ghost function MixedRuns(ei: EpochInfo, m: set<nat>, n: set<nat>, c: Cert): Runs {
    map v | v in ei.All() :: EventsFor(v, m, n, c)
  }

  /** Everybody is honest, and nobody is counted twice. */
  ghost function HonestWorld(ei: EpochInfo, parents: Parents): World {
    World(ei, ei.All(), {}, parents)
  }

  lemma HonestIsAssumed(ei: EpochInfo, parents: Parents)
    requires ei.WellFormed() && ei.totalStake > 0
    ensures HonestWorld(ei, parents).Assumed() && HonestWorld(ei, parents).Tolerable()
  {
    Empty(ei);
    assert ei.All() - ei.All() == {};
  }

  /** The three kinds of validators after `k` rounds. */
  ghost predicate MixedNetwork(net: Network, m: set<nat>, n: set<nat>, k: nat) {
    && net.ei.WellFormed() && net.honest == net.ei.All() && net.doubles == {} && net.parents == GenesisParents()
    && forall v :: v in net.honest ==> v in net.cast && Ballots(net.cast[v], v, m, n, k)
  }

  lemma MixedAfter(ei: EpochInfo, m: set<nat>, n: set<nat>, c: Cert, k: nat) returns (net: Network)
    requires ei.WellFormed() && m !! n && AroundCert(c) && k <= 7
    ensures var w, runs := HonestWorld(ei, GenesisParents()), MixedRuns(ei, m, n, c);
      w.Runs(runs) && w.Runs(UpTo(runs, k)) && net == NetworkOf(w, UpTo(runs, k))
    ensures net.ei == ei && MixedNetwork(net, m, n, k)
  {
    hide Run, Inv, Admissible, EventsFor, Prefix, Ballots;
    var w, runs := HonestWorld(ei, GenesisParents()), MixedRuns(ei, m, n, c);
    forall v | v in w.honest
      ensures Admissible(runs[v], w.parents)
    {
      AllAdmissible(v, m, n, c, w.parents);
    }
    PrefixAdmissible(w, runs, k);
    net := NetworkOf(w, UpTo(runs, k));
    forall v | v in net.honest
      ensures Ballots(net.cast[v], v, m, n, k)
    {
      VotesAfter(v, runs[v], m, n, c, k, w.parents);
    }
  }

  lemma MixedSkips(net: Network, m: set<nat>, n: set<nat>, k: nat, s: nat)
    requires MixedNetwork(net, m, n, k) && 1 <= s <= 7 && k >= (if s <= 3 then 1 else 4)
    ensures net.Skipped(s)
  {
    forall v | v in net.honest
      ensures net.Has(v, Skip(s)) || net.Has(v, SkipFallback(s))
    {
      assert Ballots(net.cast[v], v, m, n, k);
    }
    assert net.SkipOrFallbackBy(net.ei.All(), s);
  }

  lemma MixedAgainst(net: Network, m: set<nat>, n: set<nat>, k: nat, h: BlockHash)
    requires MixedNetwork(net, m, n, k) && k >= 3 && net.ei.IsWeak(net.ei.StakeOf(net.ei.All() - n))
    ensures net.Against(4, h)
  {
    forall v | v in net.ei.All() - n && v in net.honest
      ensures net.Has(v, Skip(4))
    {
      assert Ballots(net.cast[v], v, m, n, k);
    }
    assert net.AgainstBy(net.ei.All() - n, 4, h);
  }

  /** What everybody voted for is notarized, whatever the stakes. */
  lemma AllNotarize(net: Network, b: BlockId)
    requires net.ei.WellFormed() && forall v :: v in net.ei.All() ==> net.Has(v, Notar(b.slot, b.hash))
    ensures net.Notarized(b) && net.FastFinalized(b)
  {
    assert net.NotarBy(net.ei.All(), b);
  }

  lemma AroundNotarized(net: Network, m: set<nat>, n: set<nat>, k: nat)
    requires MixedNetwork(net, m, n, k) && k >= 6
    ensures net.Notarized(AROUND) && (k == 7 ==> net.Finalized(8))
  {
    forall v | v in net.honest
      ensures net.Has(v, Notar(8, AROUND.hash)) && (k == 7 ==> net.Has(v, Final(8)))
    {
      assert Ballots(net.cast[v], v, m, n, k);
    }
    AllNotarize(net, AROUND);
    assert k == 7 ==> net.FinalBy(net.ei.All(), 8);
  }

  /** What the event of round `k` rests on. */
  lemma EventJustified(net: Network, v: nat, m: set<nat>, n: set<nat>, c: Cert, k: nat)
    requires k < 7 && MixedNetwork(net, m, n, k) && AroundCert(c) && m !! n
    requires net.ei.IsWeak(net.ei.StakeOf(net.ei.All() - n))
    ensures net.Justified(EventsFor(v, m, n, c)[k])
  {
    hide Network.Skipped, Network.Against, Network.Notarized, MixedNetwork;
    var e := EventsFor(v, m, n, c)[k];
    match e
    case ParentReady(s, p) =>
      forall t | 0 < t < s
        ensures net.Skipped(t)
      {
        MixedSkips(net, m, n, k, t);
      }
    case SafeToSkip(s) =>
      forall h: BlockHash
        ensures net.Against(4, h)
      {
        MixedAgainst(net, m, n, k, h);
      }
    case CertCreated(d) =>
      AroundNotarized(net, m, n, k);
    case _ =>
  }

  lemma MixedJustified(ei: EpochInfo, m: set<nat>, n: set<nat>, c: Cert, k: nat)
    requires ei.WellFormed() && m !! n && AroundCert(c) && k < 7 && ei.IsWeak(ei.StakeOf(ei.All() - n))
    ensures var w, runs := HonestWorld(ei, GenesisParents()), MixedRuns(ei, m, n, c);
      w.Runs(UpTo(runs, k)) && RoundJustified(w, runs, k)
  {
    hide NetworkOf, UpTo, MixedNetwork, EventsFor, Network.Justified, World.Runs;
    var net := MixedAfter(ei, m, n, c, k);
    forall v | v in ei.All()
      ensures net.Justified(EventsFor(v, m, n, c)[k])
    {
      EventJustified(net, v, m, n, c, k);
    }
  }

  lemma MixedAre(net: Network, m: set<nat>, n: set<nat>)
    requires MixedNetwork(net, m, n, 7) && m + n <= net.ei.All() && m !! n
    ensures MixedVoters(net, 4) == m
  {
    forall v | v in net.honest
      ensures IsMixed(net, v, 4) <==> v in m
    {
      assert Ballots(net.cast[v], v, m, n, 7);
    }
  }

  lemma MixedNotarized(net: Network, m: set<nat>, n: set<nat>)
    requires MixedNetwork(net, m, n, 7) && net.ei.IsStrong(net.ei.StakeOf(m + n))
    ensures net.FastFinalized(LATE_BLOCK)
  {
    forall v | v in m + n && v in net.honest
      ensures net.Has(v, Notar(4, LATE_BLOCK.hash))
    {
      assert Ballots(net.cast[v], v, m, n, 7);
    }
    assert net.NotarBy(m + n, LATE_BLOCK);
  }

  ghost function MixedSchedule(ei: EpochInfo, m: set<nat>, n: set<nat>, c: Cert): Schedule {
    Deal(MixedRuns(ei, m, n, c), 7, |ei.validators|)
  }

  /** The schedule is feasible and leads to the network of the three kinds of validators. */
  lemma MixedFeasible(ei: EpochInfo, m: set<nat>, n: set<nat>, c: Cert) returns (net: Network)
    requires ei.WellFormed() && m !! n && AroundCert(c) && ei.IsWeak(ei.StakeOf(ei.All() - n))
    ensures var w, sched := HonestWorld(ei, GenesisParents()), MixedSchedule(ei, m, n, c);
      Feasible(w, sched) && net == After(w, sched)
    ensures net.ei == ei && MixedNetwork(net, m, n, 7)
  {
    hide After, Feasible, NetworkOf, UpTo, RoundJustified, Deal, MixedNetwork, EventsFor;
    var w, runs := HonestWorld(ei, GenesisParents()), MixedRuns(ei, m, n, c);
    forall j | 0 <= j < 7
      ensures w.Runs(UpTo(runs, j)) && RoundJustified(w, runs, j)
    {
      MixedJustified(ei, m, n, c, j);
    }
    net := MixedAfter(ei, m, n, c, 7);
    DealIsFeasible(w, runs, 7, |ei.validators|);
    FeasibleIsPossible(w, Deal(runs, 7, |ei.validators|));
    AfterDeal(w, runs, 7, |ei.validators|);
  }

  /** Mixed votes undo a fast finalization as soon as the stakes allow it: in every epoch with
      80% in `m` and `n` together and 40% outside `n`, with no adversary, no double votes and
      every event justified when handed over, slot 4 is fast-finalized, exactly the members of
      `m` vote both ways in it, and a block that does not descend from it is finalized. */
  lemma MixedVotesUndoFinality(ei: EpochInfo, m: set<nat>, n: set<nat>, c: Cert)
    requires ei.WellFormed() && ei.totalStake > 0 && m + n <= ei.All() && m !! n && AroundCert(c)
    requires ei.IsStrong(ei.StakeOf(m + n)) && ei.IsWeak(ei.StakeOf(ei.All() - n))
    ensures var w, sched := HonestWorld(ei, GenesisParents()), MixedSchedule(ei, m, n, c);
      w.Assumed() && w.Tolerable() && Feasible(w, sched) &&
      var net := After(w, sched);
      && net.FastFinalized(LATE_BLOCK) && MixedVoters(net, 4) == m && net.Skipped(4)
      && net.Finalized(8) && net.Notarized(AROUND) && !Descends(w.parents, AROUND, LATE_BLOCK)
  {
    hide After, Feasible, MixedSchedule, MixedNetwork, Network.Skipped, Network.Finalized, Network.Notarized,
         Network.FastFinalized, MixedVoters;
    HonestIsAssumed(ei, GenesisParents());
    var net := MixedFeasible(ei, m, n, c);
    MixedAre(net, m, n);
    MixedSkips(net, m, n, 7, 4);
    MixedNotarized(net, m, n);
    AroundNotarized(net, m, n, 7);
  }

  /** The 20% of the tolerance theorem are exact: less can never meet the two conditions, and
      one of five equal validators does. */
  lemma FastToleranceIsTight(ei: EpochInfo, m: set<nat>, n: set<nat>)
    requires ei.WellFormed() && m !! n
    ensures ei.IsStrong(ei.StakeOf(m + n)) && ei.IsWeak(ei.StakeOf(ei.All() - n)) ==> ei.IsWeakest(ei.StakeOf(m))
    ensures var five := EpochInfo(seq(5, i requires 0 <= i => ValidatorInfo(i, 1)), 5);
      && five.WellFormed() && five.IsStrong(five.StakeOf({0} + {1, 2, 3}))
      && five.IsWeak(five.StakeOf(five.All() - {1, 2, 3})) && 5 * five.StakeOf({0}) == five.totalStake
  {
    Disjoint(ei, m, n);
    Disjoint(ei, n, ei.All() - n);
    Monotone(ei, ei.All(), n + (ei.All() - n));
    AtMostTotal(ei, n + (ei.All() - n));
    var five := EpochInfo(seq(5, i requires 0 <= i => ValidatorInfo(i, 1)), 5);
    FiveStakes(five, five.All());
    FiveStakes(five, {0} + {1, 2, 3});
    FiveStakes(five, five.All() - {1, 2, 3});
    FiveStakes(five, {0});
  }

  lemma FiveStakes(five: EpochInfo, s: set<nat>)
    requires |five.validators| == 5 && forall i :: 0 <= i < 5 ==> five.validators[i] == ValidatorInfo(i, 1)
    ensures five.StakeOf(s) == One(0 in s) + One(1 in s) + One(2 in s) + One(3 in s) + One(4 in s)
  {
    assert StakeUpTo(five.validators, s, 1) == One(0 in s);
    assert StakeUpTo(five.validators, s, 2) == One(0 in s) + One(1 in s);
    assert StakeUpTo(five.validators, s, 3) == One(0 in s) + One(1 in s) + One(2 in s);
    assert StakeUpTo(five.validators, s, 4) == One(0 in s) + One(1 in s) + One(2 in s) + One(3 in s);
  }

  // ---- an honest validator votes twice for a block ----

  /** A block arrives, its window times out, the block is safe to notarize, then its parent is
      announced. */
  function TwiceEvents(): seq<Event> {
    [Fired(Timeout(1)), Block(4, LATE_BLOCK, GenesisBlock()), Fired(Timeout(4)), SafeToNotar(LATE_BLOCK),
     ParentReady(4, GenesisBlock())]
  }

  lemma FallbackWhilePending(st: State) returns (r: State)
    requires OnlyPending(st, 4, LATE_BLOCK, GenesisBlock())
    ensures r == Step(st, SafeToNotar(LATE_BLOCK)) && OnlyPending(r, 4, LATE_BLOCK, GenesisBlock())
    ensures NotarFallback(4, LATE_BLOCK.hash) in r.cast
  {
    hide SkipRange;
    var b := NotarFallback(4, LATE_BLOCK.hash);
    var voted := st.Vote(b);
    var skipped := TrySkipWindow(voted, 4);
    r := Fallback(st, 4, b);
    StepTidy(st, SafeToNotar(LATE_BLOCK));
    assert forall x :: voted.At(x) == st.At(x);
    RangeSkipped(voted, 4, 8, skipped);
    assert r.At(4) == skipped.At(4).(badWindow := true);
    assert forall x :: x != 4 ==> r.At(x) == skipped.At(x);
    assert st.At(4).pendingBlock.Some? && st.At(4).blockNotarized.None? && !st.At(4).retired;
    assert skipped.At(4).pendingBlock == st.At(4).pendingBlock && skipped.At(4).blockNotarized.None?;
  }

  /** One honest run casts a notar-fallback vote and then a notar vote for the same block. */
  lemma HonestDoubleVote(index: nat, e: seq<Event>, parents: Parents) returns (three: State, four: State, r: State)
    requires e == TwiceEvents() && Admissible(e, parents)
    ensures Admissible(e[..3], parents) && three == Run(index, e[..3], parents) && Skip(4) in three.cast
    ensures Admissible(e[..4], parents) && four == Run(index, e[..4], parents)
    ensures NotarFallback(4, LATE_BLOCK.hash) in four.cast
    ensures r == Run(index, e, parents) && NotarFallback(4, LATE_BLOCK.hash) in r.cast
    ensures Notar(4, LATE_BLOCK.hash) in r.cast
  {
    hide Step, Run, Inv, State.Tidy;
    PrefixStep(index, e, 1, parents);
    PrefixStep(index, e, 2, parents);
    PrefixStep(index, e, 3, parents);
    PrefixStep(index, e, 4, parents);
    var one := FirstWindowOver(index, e, parents);
    var two;
    two, three := SkippedWhilePending(one);
    four := FallbackWhilePending(three);
    r := PendingIsNotarized(four, LATE_BLOCK, GenesisBlock());
    assert e[..5] == e;
  }

  /** The members of `d` are late, the others on time. */
  function LateOrOnTime(v: nat, d: set<nat>): (q: seq<Event>)
    ensures |q| >= 3 && q[0] == Fired(Timeout(1))
  {
    if v in d then TwiceEvents() else OnTimeEvents()
  }

  ghost function TwiceRuns(ei: EpochInfo, d: set<nat>): Runs {
    map v | v in ei.All() :: LateOrOnTime(v, d)
  }

  lemma LateAdmissible(v: nat, d: set<nat>, parents: Parents)
    requires parents == GenesisParents()
    ensures Admissible(LateOrOnTime(v, d), parents)
  {
  }

  ghost predicate LateBallots(cast: seq<Ballot>, v: nat, d: set<nat>, k: nat) {
    && (k >= 1 ==> FirstWindowSkipped(cast))
    && (k >= 3 && v in d ==> Skip(4) in cast)
    && (k >= 3 && v !in d ==> Notar(4, LATE_BLOCK.hash) in cast)
    && (k == 5 && v in d ==> NotarFallback(4, LATE_BLOCK.hash) in cast && Notar(4, LATE_BLOCK.hash) in cast)
  }

  lemma LateVotesAfter(v: nat, e: seq<Event>, d: set<nat>, k: nat, parents: Parents)
    requires e == LateOrOnTime(v, d) && Admissible(e, parents) && k <= 5 && Admissible(Prefix(e, k), parents)
    ensures LateBallots(Run(v, Prefix(e, k), parents).cast, v, d, k)
  {
    hide Run, Inv, Admissible;
    if k >= 1 {
      var one := FirstWindowOver(v, e, parents);
      PrefixCasts(v, e, 1, k, parents);
    }
    if k >= 3 {
      PrefixCasts(v, e, 3, k, parents);
      if v in d {
        var three, four, five := HonestDoubleVote(v, e, parents);
        assert e[..5] == e;
      } else {
        var three := OnTimeRun(v, e, parents);
      }
    }
  }

  ghost predicate LateNetwork(net: Network, d: set<nat>, k: nat) {
    && net.ei.WellFormed() && net.honest == net.ei.All() && net.parents == GenesisParents()
    && forall v :: v in net.honest ==> v in net.cast && LateBallots(net.cast[v], v, d, k)
  }

  lemma LateAfter(ei: EpochInfo, d: set<nat>, k: nat) returns (net: Network)
    requires ei.WellFormed() && k <= 5
    ensures var w, runs := HonestWorld(ei, GenesisParents()), TwiceRuns(ei, d);
      w.Runs(runs) && w.Runs(UpTo(runs, k)) && net == NetworkOf(w, UpTo(runs, k))
    ensures net.ei == ei && LateNetwork(net, d, k)
  {
    hide Run, Inv, Admissible, LateOrOnTime, Prefix, LateBallots;
    var w, runs := HonestWorld(ei, GenesisParents()), TwiceRuns(ei, d);
    forall v | v in w.honest
      ensures Admissible(runs[v], w.parents)
    {
      LateAdmissible(v, d, w.parents);
    }
    PrefixAdmissible(w, runs, k);
    net := NetworkOf(w, UpTo(runs, k));
    forall v | v in net.honest
      ensures LateBallots(net.cast[v], v, d, k)
    {
      LateVotesAfter(v, runs[v], d, k, w.parents);
    }
  }

  lemma LateSkips(net: Network, d: set<nat>, k: nat, s: nat)
    requires LateNetwork(net, d, k) && 1 <= s <= 3 && k >= 1
    ensures net.Skipped(s)
  {
    forall v | v in net.honest
      ensures net.Has(v, Skip(s))
    {
      assert LateBallots(net.cast[v], v, d, k);
    }
    assert net.SkipOrFallbackBy(net.ei.All(), s);
  }

  /** The notar votes of those on time and the skip votes of the late ones support the block. */
  lemma LateSupported(net: Network, d: set<nat>, k: nat)
    requires LateNetwork(net, d, k) && k >= 3 && d <= net.ei.All()
    requires net.ei.IsWeakest(net.ei.StakeOf(net.ei.All() - d))
    ensures net.Supported(LATE_BLOCK)
  {
    var all := net.ei.All();
    forall v | v in net.honest
      ensures if v in d then net.Has(v, Skip(4)) else net.Has(v, Notar(4, LATE_BLOCK.hash))
    {
      assert LateBallots(net.cast[v], v, d, k);
    }
    assert net.NotarBy(all - d, LATE_BLOCK) && net.SkipBy(d, 4);
    Disjoint(net.ei, all - d, d);
    assert all - d + d == all;
    assert all - d !! d;
  }

  lemma LateEventJustified(net: Network, v: nat, d: set<nat>, k: nat)
    requires LateNetwork(net, d, k) && k < |LateOrOnTime(v, d)| && d <= net.ei.All()
    requires net.ei.IsWeakest(net.ei.StakeOf(net.ei.All() - d))
    ensures net.Justified(LateOrOnTime(v, d)[k])
  {
    hide Network.Skipped, Network.Supported, LateNetwork;
    match LateOrOnTime(v, d)[k]
    case ParentReady(s, p) =>
      LateSkips(net, d, k, 1);
      LateSkips(net, d, k, 2);
      LateSkips(net, d, k, 3);
    case SafeToNotar(b) =>
      LateParents(net, d, k, b);
      LateSupported(net, d, k);
    case _ =>
  }

  lemma LateParents(net: Network, d: set<nat>, k: nat, b: BlockId)
    requires LateNetwork(net, d, k)
    ensures net.parents(b) == GenesisBlock()
  {
  }

  lemma LateJustified(ei: EpochInfo, d: set<nat>, k: nat)
    requires ei.WellFormed() && k < 5 && d <= ei.All() && ei.IsWeakest(ei.StakeOf(ei.All() - d))
    ensures var w, runs := HonestWorld(ei, GenesisParents()), TwiceRuns(ei, d);
      w.Runs(UpTo(runs, k)) && RoundJustified(w, runs, k)
  {
    hide NetworkOf, UpTo, LateNetwork, LateOrOnTime, Network.Justified, World.Runs;
    var net := LateAfter(ei, d, k);
    forall v | v in ei.All() && k < |LateOrOnTime(v, d)|
      ensures net.Justified(LateOrOnTime(v, d)[k])
    {
      LateEventJustified(net, v, d, k);
    }
  }

  /** Double votes are nothing an adversary is needed for: in every epoch, any set of validators
      that leaves 20% outside can be made to cast a notar-fallback and a notar vote for one
      block, everybody honest and every event justified when handed over. */
  lemma HonestDoubleVotesHappen(ei: EpochInfo, d: set<nat>)
    requires ei.WellFormed() && ei.totalStake > 0 && d <= ei.All() && ei.IsWeakest(ei.StakeOf(ei.All() - d))
    ensures var w, sched := HonestWorld(ei, GenesisParents()), Deal(TwiceRuns(ei, d), 5, |ei.validators|);
      w.Assumed() && Feasible(w, sched) &&
      forall v :: v in d ==>
        After(w, sched).Has(v, NotarFallback(4, LATE_BLOCK.hash)) && After(w, sched).Has(v, Notar(4, LATE_BLOCK.hash))
  {
    hide After, Feasible, NetworkOf, UpTo, RoundJustified, Deal, LateOrOnTime;
    HonestIsAssumed(ei, GenesisParents());
    var w, runs := HonestWorld(ei, GenesisParents()), TwiceRuns(ei, d);
    forall j | 0 <= j < 5
      ensures w.Runs(UpTo(runs, j)) && RoundJustified(w, runs, j)
    {
      LateJustified(ei, d, j);
    }
    var net := LateAfter(ei, d, 5);
    DealIsFeasible(w, runs, 5, |ei.validators|);
    FeasibleIsPossible(w, Deal(runs, 5, |ei.validators|));
    AfterDeal(w, runs, 5, |ei.validators|);
    forall v | v in d
      ensures net.Has(v, NotarFallback(4, LATE_BLOCK.hash)) && net.Has(v, Notar(4, LATE_BLOCK.hash))
    {
      assert LateBallots(net.cast[v], v, d, 5);
    }
  }
}
