/** How far the agreement theorems reach: double votes that split the chain, and a block that is
    notarized next to a finalized chain. */
module Conflicts {
  import opened Base
  import opened Epoch
  import opened Certs
  import opened Sorted
  import opened SlotSpec
  import opened SlotStates
  import opened VotorSpec
  import opened VotorInv
  import opened VotorRuns
  import opened Quorums
  import opened Agreement
  import opened Schedules
  import opened Rounds

  // ---- steps without pending blocks ----

  ghost predicate NoPending(st: State) {
    forall s :: s in st.slots ==> st.slots[s].pendingBlock.None?
  }

  lemma {:induction false} NothingPending(slots: map<nat, SlotEntry>, keys: seq<nat>)
    requires forall k :: k in keys ==> k in slots && slots[k].pendingBlock.None?
    ensures PendingOf(slots, keys) == []
  {
    if keys != [] {
      NothingPending(slots, keys[1..]);
    }
  }

  lemma NothingToCheck(st: State)
    requires st.Tidy() && NoPending(st)
    ensures CheckPending(st) == st
  {
    NothingPending(st.slots, Enumerate(st.slots.Keys));
  }

  /** A block whose parent is in order is notarized on arrival. */
  lemma BlockIsNotarized(st: State, b: BlockId, parent: BlockId) returns (r: State)
    requires st.Tidy() && NoPending(st) && st.highest == 0 && b.slot > 0
    requires !st.At(b.slot).retired && !st.At(b.slot).voted && st.At(b.slot).blockNotarized.None?
    requires CanNotar(st, b.slot, parent)
    ensures r == Step(st, Block(b.slot, b, parent)) && r.Tidy() && NoPending(r) && r.highest == 0
    ensures r.cast == st.cast + [Notar(b.slot, b.hash)]
    ensures r.At(b.slot) == st.At(b.slot).(voted := true, votedNotar := Some(b.hash))
    ensures forall s :: s != b.slot ==> r.At(s) == st.At(s)
  {
    hide CheckPending;
    r := CastNotar(st, b.slot, b);
    assert TryNotar(st, b.slot, b, parent) == r;
    assert st.At(b.slot).pendingBlock.None?;
    NothingToCheck(r);
  }

  /** A notarization certificate leads to a final vote iff the block is ours and the window good. */
  lemma NotarCertArrives(st: State, c: Cert) returns (r: State)
    requires st.Tidy() && NoPending(st) && st.highest == 0 && c.NotarCert?
    ensures r == Step(st, CertCreated(c)) && r.Tidy() && NoPending(r) && r.highest == 0
    ensures r.cast == st.cast +
      if st.At(c.slot).votedNotar == Some(c.hash) && !st.At(c.slot).badWindow then [Final(c.slot)] else []
    ensures forall s :: s != c.slot ==> r.At(s) == st.At(s)
  {
    r := Step(st, CertCreated(c));
  }

  /** A ready parent is recorded. */
  lemma ParentArrives(st: State, slot: nat, parent: BlockId) returns (r: State)
    requires st.Tidy() && NoPending(st) && st.highest == 0 && IsStartOfWindow(slot) && !st.At(slot).retired
    ensures r == Step(st, ParentReady(slot, parent)) && r.Tidy() && NoPending(r) && r.highest == 0
    ensures r.cast == st.cast && parent in r.At(slot).parentsReady
    ensures r.At(slot).(parentsReady := []) == st.At(slot).(parentsReady := [])
    ensures forall s :: s != slot ==> r.At(s) == st.At(s)
  {
    hide CheckPending;
    var ready := AddReady(st, slot, parent);
    NothingToCheck(ready);
    r := SetTimeouts(ready, slot);
  }

  // ---- double votes split the chain ----

  const FIRST: BlockId := BlockId(1, 11)
  const SECOND: BlockId := BlockId(2, 12)
  const LEFT: BlockId := BlockId(3, 13)
  const RIGHT: BlockId := BlockId(3, 14)
  const NEXT: BlockId := BlockId(4, 15)

  /** Two blocks compete for slot 3; the block of slot 4 extends the right one. */
  function SplitParents(): Parents {
    (b: BlockId) =>
      if b.slot == 4 then RIGHT else if b.slot == 3 then SECOND else if b.slot == 2 then FIRST else GenesisBlock()
  }

  ghost predicate SplitCerts(left: Cert, next: Cert) {
    && left.NotarCert? && left.slot == 3 && left.hash == LEFT.hash
    && next.NotarCert? && next.slot == 4 && next.hash == NEXT.hash
  }

  /** What a validator is given that sees `own` in slot 3. */
  function SplitEvents(own: BlockId, left: Cert, next: Cert): (q: seq<Event>)
    ensures |q| == 7
  {
    [Block(1, FIRST, GenesisBlock()), Block(2, SECOND, FIRST), Block(3, own, SECOND), CertCreated(left),
     ParentReady(4, RIGHT), Block(4, NEXT, RIGHT), CertCreated(next)]
  }

  lemma PrefixStep(index: nat, e: seq<Event>, k: nat, parents: Parents)
    requires k < |e| && Admissible(e, parents)
    ensures Admissible(e[..k], parents) && Admissible(e[..k + 1], parents) && ValidEvent(e[k])
    ensures Run(index, e[..k], parents).Tidy()
    ensures Run(index, e[..k + 1], parents) == Step(Run(index, e[..k], parents), e[k])
  {
    hide Step, Discipline;
    var q := e[..k + 1];
    assert q[..|q| - 1] == e[..k] && q[|q| - 1] == e[k];
    RunStep(index, q, parents);
  }

  /** The first three blocks are notarized. */
  lemma SplitStart(index: nat, e: seq<Event>, parents: Parents, own: BlockId) returns (r: State)
    requires |e| >= 3 && own.slot == 3 && Admissible(e, parents)
    requires e[0] == Block(1, FIRST, GenesisBlock()) && e[1] == Block(2, SECOND, FIRST) && e[2] == Block(3, own, SECOND)
    ensures Admissible(e[..3], parents) && r == Run(index, e[..3], parents)
    ensures r.Tidy() && NoPending(r) && r.highest == 0 && r.At(4) == FRESH
    ensures Notar(2, SECOND.hash) in r.cast && Notar(3, own.hash) in r.cast
    ensures r.At(3) == FRESH.(voted := true, votedNotar := Some(own.hash))
    ensures r.At(0).voted && r.At(1).voted && r.At(2).voted
  {
    hide Step, Run, Inv, NoPending, State.Tidy;
    PrefixStep(index, e, 0, parents);
    PrefixStep(index, e, 1, parents);
    PrefixStep(index, e, 2, parents);
    var init := InitialState(index, e, parents);
    var one := BlockIsNotarized(init, FIRST, GenesisBlock());
    var two := BlockIsNotarized(one, SECOND, FIRST);
    r := BlockIsNotarized(two, own, SECOND);
  }

  lemma InitialState(index: nat, e: seq<Event>, parents: Parents) returns (r: State)
    requires Admissible(e[..0], parents)
    ensures r == Run(index, e[..0], parents) && r.Tidy() && NoPending(r) && r.highest == 0 && r.cast == []
    ensures r.At(0).voted && r.At(0).votedNotar == Some(GENESIS_BLOCK_HASH) && forall s :: s > 0 ==> r.At(s) == FRESH
  {
    r := Init(index);
  }

  /** Whoever notarized the left block votes final for it; then the right block is announced
      as a parent. */
  lemma SplitMiddle(index: nat, e: seq<Event>, parents: Parents, own: BlockId, left: Cert, next: Cert)
    returns (four: State, r: State)
    requires e == SplitEvents(own, left, next) && own.slot == 3 && SplitCerts(left, next) && Admissible(e, parents)
    ensures Admissible(e[..4], parents) && four == Run(index, e[..4], parents) && Notar(3, own.hash) in four.cast
    ensures Admissible(e[..5], parents) && r == Run(index, e[..5], parents)
    ensures r.Tidy() && NoPending(r) && r.highest == 0
    ensures !r.At(4).retired && !r.At(4).voted && !r.At(4).badWindow && r.At(4).blockNotarized.None?
    ensures RIGHT in r.At(4).parentsReady
    ensures Notar(2, SECOND.hash) in r.cast && Notar(3, own.hash) in r.cast && (own == LEFT ==> Final(3) in r.cast)
  {
    hide Step, Run, Inv, NoPending, State.Tidy;
    var three := SplitStart(index, e, parents, own);
    PrefixStep(index, e, 3, parents);
    PrefixStep(index, e, 4, parents);
    four := NotarCertArrives(three, left);
    r := ParentArrives(four, 4, RIGHT);
    var a, b := r.At(4).(parentsReady := []), FRESH;
    assert a == b;
    assert a.retired == r.At(4).retired && a.voted == r.At(4).voted && a.badWindow == r.At(4).badWindow
        && a.blockNotarized == r.At(4).blockNotarized;
  }

  /** All notarize and finalize the block of slot 4 that extends the right one. */
  lemma SplitRun(index: nat, e: seq<Event>, parents: Parents, own: BlockId, left: Cert, next: Cert)
    returns (six: State, r: State)
    requires e == SplitEvents(own, left, next) && own.slot == 3 && SplitCerts(left, next) && Admissible(e, parents)
    ensures Admissible(e[..6], parents) && six == Run(index, e[..6], parents) && Notar(4, NEXT.hash) in six.cast
    ensures r == Run(index, e, parents) && Notar(3, own.hash) in r.cast && Notar(4, NEXT.hash) in r.cast
    ensures Final(4) in r.cast
    ensures Notar(2, SECOND.hash) in r.cast && (own == LEFT ==> Final(3) in r.cast)
  {
    hide Step, Run, Inv, NoPending, State.Tidy;
    var four, five := SplitMiddle(index, e, parents, own, left, next);
    PrefixStep(index, e, 5, parents);
    PrefixStep(index, e, 6, parents);
    six := BlockIsNotarized(five, NEXT, RIGHT);
    r := NotarCertArrives(six, next);
    assert e[..7] == e;
  }

  /** Validators 0 and 1 are honest and see the left and the right block; validator 2 votes
      twice. Their stakes are x, y and z. */
  function SplitWorld(x: nat, y: nat, z: nat): World {
    World(EpochInfo([ValidatorInfo(0, x), ValidatorInfo(1, y), ValidatorInfo(2, z)], x + y + z),
          {0, 1}, {2}, SplitParents())
  }

  lemma ThreeStakes(x: nat, y: nat, z: nat, s: set<nat>)
    ensures var ei := SplitWorld(x, y, z).ei;
      && ei.All() == {0, 1, 2} && ei.WellFormed()
      && ei.StakeOf(s) == (if 0 in s then x else 0) + (if 1 in s then y else 0) + (if 2 in s then z else 0)
  {
    var ei := SplitWorld(x, y, z).ei;
    assert StakeUpTo(ei.validators, s, 1) == if 0 in s then x else 0;
    assert StakeUpTo(ei.validators, s, 2) == StakeUpTo(ei.validators, s, 1) + if 1 in s then y else 0;
    var all := ei.All();
    assert StakeUpTo(ei.validators, all, 1) == x;
    assert StakeUpTo(ei.validators, all, 2) == x + y;
  }

  /** The stakes that make it possible: validators 0 and 2 are a quorum, and so are validator 1
      and validator 2 counted twice. */
  ghost predicate Splittable(x: nat, y: nat, z: nat) {
    && 5 * z < x + y + z
    && 5 * (x + z) >= 3 * (x + y + z)
    && 5 * (y + z + z) >= 3 * (x + y + z)
  }

  function SplitRuns(left: Cert, next: Cert): Runs {
    map[0 := SplitEvents(LEFT, left, next), 1 := SplitEvents(RIGHT, left, next)]
  }

  lemma SplitAdmissible(own: BlockId, left: Cert, next: Cert, parents: Parents)
    requires own.slot == 3 && parents == SplitParents()
    ensures Admissible(SplitEvents(own, left, next), parents)
  {
  }

  /** What a validator has cast after some of its events. */
  lemma SplitVotes(v: nat, own: BlockId, left: Cert, next: Cert, k: nat, parents: Parents)
    requires k <= 7 && own.slot == 3 && SplitCerts(left, next) && parents == SplitParents()
    ensures Admissible(Prefix(SplitEvents(own, left, next), k), parents)
    ensures var cast := Run(v, Prefix(SplitEvents(own, left, next), k), parents).cast;
      && (k >= 3 ==> Notar(2, SECOND.hash) in cast && Notar(3, own.hash) in cast)
      && (k >= 6 ==> Notar(4, NEXT.hash) in cast)
      && (k == 7 ==> Final(4) in cast && (own == LEFT ==> Final(3) in cast))
  {
    hide Run, Inv;
    var e := SplitEvents(own, left, next);
    SplitAdmissible(own, left, next, parents);
    if k >= 3 {
      var three := SplitStart(v, e, parents, own);
      PrefixCasts(v, e, 3, k, parents);
    }
    if k >= 6 {
      var six, all := SplitRun(v, e, parents, own, left, next);
      PrefixCasts(v, e, 6, k, parents);
      assert e[..7] == e;
    }
  }

  /** What the two have cast after some rounds. */
  lemma SplitCast(x: nat, y: nat, z: nat, left: Cert, next: Cert, k: nat) returns (net: Network)
    requires k <= 7 && SplitCerts(left, next)
    ensures var w, runs := SplitWorld(x, y, z), SplitRuns(left, next);
      && w.Runs(runs) && w.Runs(UpTo(runs, k)) && net == NetworkOf(w, UpTo(runs, k))
      && net.ei == w.ei && net.honest == {0, 1} && net.doubles == {2} && net.parents == SplitParents()
    ensures k >= 3 ==> net.Has(0, Notar(3, LEFT.hash)) && net.Has(1, Notar(3, RIGHT.hash))
    ensures k >= 6 ==> net.Has(0, Notar(4, NEXT.hash)) && net.Has(1, Notar(4, NEXT.hash))
    ensures k == 7 ==> net.Has(0, Final(3)) && net.Has(0, Final(4)) && net.Has(1, Final(4))
  {
    hide Run, Inv, Admissible, SplitEvents, Prefix;
    SplitAdmissible(LEFT, left, next, SplitParents());
    SplitAdmissible(RIGHT, left, next, SplitParents());
    var w, runs := SplitWorld(x, y, z), SplitRuns(left, next);
    PrefixAdmissible(w, runs, k);
    net := NetworkOf(w, UpTo(runs, k));
    SplitVotes(0, LEFT, left, next, k, SplitParents());
    SplitVotes(1, RIGHT, left, next, k, SplitParents());
  }

  lemma RightIsCertified(x: nat, y: nat, z: nat, net: Network)
    requires Splittable(x, y, z) && net.ei == SplitWorld(x, y, z).ei && net.honest == {0, 1} && net.doubles == {2}
    requires net.Has(1, Notar(3, RIGHT.hash))
    ensures net.Certified(RIGHT)
  {
    ThreeStakes(x, y, z, {1, 2});
    ThreeStakes(x, y, z, {2});
    assert net.NotarBy({1, 2}, RIGHT) && net.FallbackBy({2}, RIGHT);
  }

  /** Every round is justified by the votes of the rounds before it; that the right block is
      certified takes counting validator 2 twice. */
  lemma SplitJustified(x: nat, y: nat, z: nat, left: Cert, next: Cert, k: nat)
    requires Splittable(x, y, z) && SplitCerts(left, next) && k < 7
    ensures SplitWorld(x, y, z).Runs(UpTo(SplitRuns(left, next), k))
    ensures RoundJustified(SplitWorld(x, y, z), SplitRuns(left, next), k)
  {
    hide NetworkOf, UpTo;
    var net := SplitCast(x, y, z, left, next, k);
    if k == 3 {
      ThreeStakes(x, y, z, {0, 2});
      assert net.NotarBy({0, 2}, LEFT);
    } else if k == 4 {
      RightIsCertified(x, y, z, net);
    } else if k == 6 {
      ThreeStakes(x, y, z, {0, 1});
      assert net.NotarBy({0, 1}, NEXT);
    }
  }

  /** Double votes break agreement as soon as the stakes allow it: every event of this schedule
      is justified as pools count votes, yet two slots are finalized whose blocks do not lie
      on one chain. */
  lemma DoubleVotesSplitTheChain(x: nat, y: nat, z: nat, left: Cert, next: Cert)
    requires Splittable(x, y, z) && SplitCerts(left, next)
    ensures var w, sched := SplitWorld(x, y, z), Deal(SplitRuns(left, next), 7, 2);
      w.Assumed() && w.doubles == w.ei.All() - w.honest && Feasible(w, sched) &&
      var net := After(w, sched);
      && net.Finalized(3) && net.Notarized(LEFT) && net.Finalized(4) && net.Notarized(NEXT)
      && !Descends(w.parents, NEXT, LEFT)
  {
    hide After, Feasible, NetworkOf, UpTo, RoundJustified, Deal, Network.Finalized, Network.Notarized;
    var w, runs := SplitWorld(x, y, z), SplitRuns(left, next);
    forall j | 0 <= j < 7
      ensures w.Runs(UpTo(runs, j)) && RoundJustified(w, runs, j)
    {
      SplitJustified(x, y, z, left, next, j);
    }
    var net := SplitCast(x, y, z, left, next, 7);
    DealIsFeasible(w, runs, 7, 2);
    FeasibleIsPossible(w, Deal(runs, 7, 2));
    AfterDeal(w, runs, 7, 2);
    ThreeStakes(x, y, z, {2});
    assert w.ei.All() - w.honest == {2};
    SplitFinalized(x, y, z, net);
  }

  lemma SplitFinalized(x: nat, y: nat, z: nat, net: Network)
    requires Splittable(x, y, z) && net.ei == SplitWorld(x, y, z).ei && net.honest == {0, 1}
    requires net.Has(0, Notar(3, LEFT.hash)) && net.Has(0, Final(3))
    requires net.Has(0, Notar(4, NEXT.hash)) && net.Has(1, Notar(4, NEXT.hash)) && net.Has(0, Final(4))
    requires net.Has(1, Final(4))
    ensures net.Finalized(3) && net.Notarized(LEFT) && net.Finalized(4) && net.Notarized(NEXT)
  {
    ThreeStakes(x, y, z, {0, 2});
    ThreeStakes(x, y, z, {0, 1});
    assert net.FinalBy({0, 2}, 3) && net.NotarBy({0, 2}, LEFT) && net.FinalBy({0, 1}, 4) && net.NotarBy({0, 1}, NEXT);
  }

  /** The bound is exact for every share z of five units u of stake held by a double-voting
      adversary: agreement holds below it, and from it on the rest can be split. */
  lemma ToleranceIsExact(u: nat, z: nat)
    requires z < u
    ensures var w := SplitWorld(3 * u - z, 2 * u, z);
      && w.Assumed() && (w.Tolerable() <==> 2 * z < u)
      && (Splittable(3 * u - z, 2 * u, z) <==> !w.Tolerable())
  {
    ThreeStakes(3 * u - z, 2 * u, z, {2});
    assert SplitWorld(3 * u - z, 2 * u, z).ei.All() - {0, 1} == {2};
  }

  /** A pool that holds the notar votes of all three and the fallback vote of validator 2 takes
      the right block for certified. */
  lemma PoolCountsTwice(x: nat, y: nat, z: nat)
    requires Splittable(x, y, z)
    ensures var ei := SplitWorld(x, y, z).ei;
      var one := Store(map[], 0, Notar(3, LEFT.hash));
      var two := Store(one, 1, Notar(3, RIGHT.hash));
      var three := Store(two, 2, Notar(3, RIGHT.hash));
      var t := Count(Count(Count(NO_STAKE, Notar(3, LEFT.hash), x), Notar(3, RIGHT.hash), y), Notar(3, RIGHT.hash), z);
      && Accepts(map[], {}, 0, Notar(3, LEFT.hash)) && Accepts(one, {}, 1, Notar(3, RIGHT.hash))
      && Accepts(two, {}, 2, Notar(3, RIGHT.hash)) && Accepts(three, {}, 2, NotarFallback(3, RIGHT.hash))
      && FallbackDue(ei, Count(t, NotarFallback(3, RIGHT.hash), z), NO_CERTS, RIGHT.hash)
  {
  }

  // ---- one block notarized, another one finalized ----

  /** What a validator is given that notarizes the left block and then supports the right one. */
  function YieldEvents(left: Cert, next: Cert): seq<Event> {
    SplitEvents(LEFT, left, next)[3 := SafeToNotar(RIGHT)]
  }

  lemma {:induction false} NothingToSkip(st: State, from: nat, end: nat)
    requires from <= end && forall s :: from <= s < end ==> st.At(s).voted
    ensures SkipRange(st, from, end) == st
    decreases end - from
  {
    if from < end {
      NothingToSkip(st, from + 1, end);
    }
  }

  lemma FallbackArrives(st: State) returns (r: State)
    requires st.Tidy() && NoPending(st) && st.highest == 0 && !st.At(3).retired
    requires forall s :: 0 <= s <= 3 ==> st.At(s).voted
    ensures r == Step(st, SafeToNotar(RIGHT)) && r.Tidy() && NoPending(r) && r.highest == 0
    ensures r.cast == st.cast + [NotarFallback(3, RIGHT.hash)] && r.At(4) == st.At(4)
  {
    hide SkipRange;
    var voted := st.Vote(NotarFallback(3, RIGHT.hash));
    assert forall s :: voted.At(s) == st.At(s);
    NothingToSkip(voted, 0, 4);
    r := Fallback(st, 3, NotarFallback(3, RIGHT.hash));
    StepTidy(st, SafeToNotar(RIGHT));
  }

  lemma YieldMiddle(index: nat, e: seq<Event>, parents: Parents, left: Cert, next: Cert)
    returns (four: State, r: State)
    requires e == YieldEvents(left, next) && Admissible(e, parents)
    ensures Admissible(e[..4], parents) && four == Run(index, e[..4], parents)
    ensures NotarFallback(3, RIGHT.hash) in four.cast
    ensures Admissible(e[..5], parents) && r == Run(index, e[..5], parents)
    ensures r.Tidy() && NoPending(r) && r.highest == 0
    ensures !r.At(4).retired && !r.At(4).voted && !r.At(4).badWindow && r.At(4).blockNotarized.None?
    ensures RIGHT in r.At(4).parentsReady
    ensures Notar(2, SECOND.hash) in r.cast && Notar(3, LEFT.hash) in r.cast && NotarFallback(3, RIGHT.hash) in r.cast
  {
    hide Step, Run, Inv, NoPending, State.Tidy;
    var three := SplitStart(index, e, parents, LEFT);
    PrefixStep(index, e, 3, parents);
    PrefixStep(index, e, 4, parents);
    four := FallbackArrives(three);
    r := ParentArrives(four, 4, RIGHT);
    var a, b := r.At(4).(parentsReady := []), FRESH;
    assert a == b;
    assert a.retired == r.At(4).retired && a.voted == r.At(4).voted && a.badWindow == r.At(4).badWindow
        && a.blockNotarized == r.At(4).blockNotarized;
  }

  lemma YieldRun(index: nat, e: seq<Event>, parents: Parents, left: Cert, next: Cert)
    returns (six: State, r: State)
    requires e == YieldEvents(left, next) && SplitCerts(left, next) && Admissible(e, parents)
    ensures Admissible(e[..6], parents) && six == Run(index, e[..6], parents) && Notar(4, NEXT.hash) in six.cast
    ensures r == Run(index, e, parents) && Notar(2, SECOND.hash) in r.cast && Notar(3, LEFT.hash) in r.cast
    ensures NotarFallback(3, RIGHT.hash) in r.cast && Notar(4, NEXT.hash) in r.cast && Final(4) in r.cast
  {
    hide Step, Run, Inv, NoPending, State.Tidy;
    var four, five := YieldMiddle(index, e, parents, left, next);
    PrefixStep(index, e, 5, parents);
    PrefixStep(index, e, 6, parents);
    six := BlockIsNotarized(five, NEXT, RIGHT);
    r := NotarCertArrives(six, next);
    assert e[..7] == e;
  }

  /** Three honest validators with x, y and z stake; the outer two notarize the left block. */
  function YieldWorld(x: nat, y: nat, z: nat): World {
    SplitWorld(x, y, z).(honest := {0, 1, 2}, doubles := {})
  }

  function YieldRuns(left: Cert, next: Cert): map<nat, seq<Event>> {
    map[0 := YieldEvents(left, next), 1 := SplitEvents(RIGHT, left, next), 2 := YieldEvents(left, next)]
  }

  lemma YieldAdmissible(x: nat, y: nat, z: nat, left: Cert, next: Cert)
    ensures YieldWorld(x, y, z).Runs(YieldRuns(left, next))
  {
    SplitAdmissible(LEFT, left, next, SplitParents());
    SplitAdmissible(RIGHT, left, next, SplitParents());
  }

  /** What a validator that supports both has cast after some of its events. */
  lemma YieldVotes(v: nat, left: Cert, next: Cert, k: nat, parents: Parents)
    requires k <= 7 && SplitCerts(left, next) && Admissible(YieldEvents(left, next), parents)
    ensures Admissible(Prefix(YieldEvents(left, next), k), parents)
    ensures var cast := Run(v, Prefix(YieldEvents(left, next), k), parents).cast;
      && (k >= 3 ==> Notar(2, SECOND.hash) in cast && Notar(3, LEFT.hash) in cast)
      && (k >= 4 ==> NotarFallback(3, RIGHT.hash) in cast)
      && (k >= 6 ==> Notar(4, NEXT.hash) in cast)
      && (k == 7 ==> Final(4) in cast)
  {
    hide Run, Inv;
    var e := YieldEvents(left, next);
    PrefixIsAdmissible(e, k, parents);
    if k >= 3 {
      var three := SplitStart(v, e, parents, LEFT);
      PrefixCasts(v, e, 3, k, parents);
    }
    if k >= 4 {
      var four, five := YieldMiddle(v, e, parents, left, next);
      PrefixCasts(v, e, 4, k, parents);
    }
    if k >= 6 {
      var six, all := YieldRun(v, e, parents, left, next);
      PrefixCasts(v, e, 6, k, parents);
      assert e[..7] == e;
    }
  }

  /** The votes of one of the three after `k` rounds. */
  ghost predicate YieldCast(net: Network, v: nat, k: nat) {
    && (k >= 3 ==> net.Has(v, Notar(2, SECOND.hash)) && net.Has(v, Notar(3, if v == 1 then RIGHT.hash else LEFT.hash)))
    && (k >= 4 && v != 1 ==> net.Has(v, NotarFallback(3, RIGHT.hash)))
    && (k >= 6 ==> net.Has(v, Notar(4, NEXT.hash)))
    && (k == 7 ==> net.Has(v, Final(4)))
  }

  lemma YieldNetwork(x: nat, y: nat, z: nat, left: Cert, next: Cert, k: nat) returns (net: Network)
    requires k <= 7 && SplitCerts(left, next)
    ensures var w, runs := YieldWorld(x, y, z), YieldRuns(left, next);
      && w.Runs(runs) && w.Runs(UpTo(runs, k)) && net == NetworkOf(w, UpTo(runs, k))
      && net.ei == w.ei && net.honest == {0, 1, 2} && net.doubles == {} && net.parents == SplitParents()
    ensures YieldCast(net, 0, k) && YieldCast(net, 1, k) && YieldCast(net, 2, k)
  {
    hide Run, Inv, Admissible, SplitEvents, YieldEvents, Prefix;
    var w, runs := YieldWorld(x, y, z), YieldRuns(left, next);
    YieldAdmissible(x, y, z, left, next);
    PrefixAdmissible(w, runs, k);
    net := NetworkOf(w, UpTo(runs, k));
    YieldVotes(0, left, next, k, SplitParents());
    SplitVotes(1, RIGHT, left, next, k, SplitParents());
    YieldVotes(2, left, next, k, SplitParents());
  }

  /** The stakes that make it possible: validators 0 and 2 are a quorum, validator 1 holds 40%. */
  ghost predicate Yields(x: nat, y: nat, z: nat) {
    x + y + z > 0 && 5 * (x + z) >= 3 * (x + y + z) && 5 * y >= 2 * (x + y + z)
  }

  ghost predicate YieldTrio(net: Network, x: nat, y: nat, z: nat, k: nat) {
    && net.ei == YieldWorld(x, y, z).ei && net.honest == {0, 1, 2} && net.doubles == {} && net.parents == SplitParents()
    && YieldCast(net, 0, k) && YieldCast(net, 1, k) && YieldCast(net, 2, k)
  }

  /** After three rounds the left block is notarized, the right one supported. */
  lemma YieldSlotThree(x: nat, y: nat, z: nat, net: Network, k: nat)
    requires Yields(x, y, z) && YieldTrio(net, x, y, z, k) && k >= 3
    ensures net.Notarized(LEFT) && net.Supported(RIGHT) && net.Certified(SECOND)
  {
    ThreeStakes(x, y, z, {0, 2});
    ThreeStakes(x, y, z, {1});
    ThreeStakes(x, y, z, {0, 1, 2});
    var none: set<nat> := {};
    ThreeStakes(x, y, z, none);
    hide EpochInfo.StakeOf, EpochInfo.All;
    assert net.NotarBy({0, 2}, LEFT);
    assert net.NotarBy({1}, RIGHT) && net.SkipBy(none, 3);
    assert {1} !! none;
    assert net.NotarBy({0, 1, 2}, SECOND) && net.FallbackBy(none, SECOND);
  }

  /** After four rounds the right block is certified too. */
  lemma YieldRight(x: nat, y: nat, z: nat, net: Network, k: nat)
    requires Yields(x, y, z) && YieldTrio(net, x, y, z, k) && k >= 4
    ensures net.Certified(RIGHT)
  {
    ThreeStakes(x, y, z, {0, 2});
    ThreeStakes(x, y, z, {1});
    hide EpochInfo.StakeOf, EpochInfo.All;
    assert net.NotarBy({1}, RIGHT) && net.FallbackBy({0, 2}, RIGHT);
    assert {1} * {0, 2} == {};
  }

  lemma YieldNext(x: nat, y: nat, z: nat, net: Network, k: nat)
    requires Yields(x, y, z) && YieldTrio(net, x, y, z, k) && k >= 6
    ensures net.Notarized(NEXT) && (k == 7 ==> net.Finalized(4))
  {
    ThreeStakes(x, y, z, {0, 1, 2});
    hide EpochInfo.StakeOf, EpochInfo.All;
    assert net.NotarBy({0, 1, 2}, NEXT);
    assert k == 7 ==> net.FinalBy({0, 1, 2}, 4);
  }

  lemma YieldJustified(x: nat, y: nat, z: nat, left: Cert, next: Cert, k: nat)
    requires Yields(x, y, z) && SplitCerts(left, next) && k < 7
    ensures YieldWorld(x, y, z).Runs(UpTo(YieldRuns(left, next), k))
    ensures RoundJustified(YieldWorld(x, y, z), YieldRuns(left, next), k)
  {
    hide NetworkOf, UpTo, YieldCast, Network.Notarized, Network.Certified, Network.Supported;
    var net := YieldNetwork(x, y, z, left, next, k);
    if k == 3 {
      YieldSlotThree(x, y, z, net, k);
    } else if k == 4 {
      YieldRight(x, y, z, net, k);
    } else if k == 6 {
      YieldNext(x, y, z, net, k);
    }
  }

  function YieldSchedule(left: Cert, next: Cert): Schedule {
    Deal(YieldRuns(left, next), 7, 3)
  }

  /** With no adversary and no double votes, one block of a slot is notarized while another one
      becomes the parent of a finalized block; and every event was justified when handed over. */
  lemma NotarizedAgainstFinalized(x: nat, y: nat, z: nat, left: Cert, next: Cert)
    requires SplitCerts(left, next) && Yields(x, y, z)
    ensures var w, sched := YieldWorld(x, y, z), YieldSchedule(left, next);
      w.Assumed() && w.Tolerable() && w.honest == w.ei.All() && w.doubles == {} && Feasible(w, sched) &&
      var net := After(w, sched);
      net.Notarized(LEFT) && net.Notarized(NEXT) && net.Finalized(4) && net.parents(NEXT) == RIGHT
  {
    hide After, Feasible, NetworkOf, UpTo, RoundJustified, Deal, YieldCast, Network.Finalized, Network.Notarized;
    var w, runs := YieldWorld(x, y, z), YieldRuns(left, next);
    forall j | 0 <= j < 7
      ensures w.Runs(UpTo(runs, j)) && RoundJustified(w, runs, j)
    {
      YieldJustified(x, y, z, left, next, j);
    }
    var net := YieldNetwork(x, y, z, left, next, 7);
    DealIsFeasible(w, runs, 7, 3);
    FeasibleIsPossible(w, Deal(runs, 7, 3));
    AfterDeal(w, runs, 7, 3);
    ThreeStakes(x, y, z, {});
    assert w.ei.All() - w.honest == {};
    YieldSlotThree(x, y, z, net, 7);
    YieldNext(x, y, z, net, 7);
  }
}
