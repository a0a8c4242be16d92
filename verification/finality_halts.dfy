/** When the finality tracker panics in a network whose votes are honest: only if a directly
    finalized block is not locked, if one block of a slot is notarized while another one is on
    the finalized chain, or if a block names a parent that is not below it
    (crates/karstflow-alpenglow/src/finality_tracker.rs). */
module FinalityHalts {
  import opened Base
  import opened Finality
  import opened VotorInv
  import opened Quorums
  import opened Agreement
  import opened PoolSpec

  // ---- chains ----

  lemma {:induction false} DescendsBelow(parents: Parents, b: BlockId, a: BlockId)
    requires Descends(parents, b, a) && a != b
    ensures a.slot <= parents(b).slot < b.slot && Descends(parents, parents(b), a)
    decreases b.slot
  {
    if parents(b) != a {
      DescendsBelow(parents, parents(b), a);
    }
  }

  lemma {:induction false} DescendsTrans(parents: Parents, c: BlockId, b: BlockId, a: BlockId)
    requires Descends(parents, c, b) && Descends(parents, b, a)
    ensures Descends(parents, c, a)
    decreases c.slot
  {
    if c != b {
      DescendsBelow(parents, c, b);
      DescendsTrans(parents, parents(c), b, a);
      HigherSlot(parents, parents(c), a);
    }
  }

  /** Two blocks below one lie below each other. */
  lemma {:induction false} DescendsLinear(parents: Parents, e: BlockId, x: BlockId, y: BlockId)
    requires Descends(parents, e, x) && Descends(parents, e, y) && y.slot <= x.slot
    ensures Descends(parents, x, y)
    decreases e.slot
  {
    if e != x {
      DescendsBelow(parents, e, x);
      if e != y {
        DescendsBelow(parents, e, y);
        DescendsLinear(parents, parents(e), x, y);
      }
    }
  }

  lemma {:induction false} AncestorDescends(parents: Parents, edges: map<BlockId, BlockId>, a: BlockId, d: BlockId)
    requires Ancestor(edges, a, d) && forall x :: x in edges ==> parents(x) == edges[x]
    ensures Descends(parents, d, a) && a.slot < d.slot
    decreases d.slot
  {
    if edges[d] != a {
      AncestorDescends(parents, edges, a, edges[d]);
    }
  }

  // ---- the finalized chain ----

  /** The block is a directly finalized one or below one. */
  ghost predicate OnChain(net: Network, h: History, b: BlockId) {
    exists d :: d in h.direct && Descends(net.parents, d, b)
  }

  /** Nothing but slot 0, or locked. */
  ghost predicate Firm(net: Network, d: BlockId) {
    d.slot > 0 ==> Locked(net, d)
  }

  /** Notarized, while another block of the slot is on the finalized chain. */
  ghost predicate Rival(net: Network, h: History, a: BlockId, b: BlockId) {
    a in h.notarized && a.slot == b.slot && a != b && OnChain(net, h, b)
  }

  /** What was told is true, direct finalizations are locked, and nothing rivals them. */
  ghost predicate Calm(net: Network, h: History) {
    && ToldKnown(net, h)
    && (forall d :: d in h.direct ==> Firm(net, d))
    && (forall a, b :: !Rival(net, h, a, b))
  }

  lemma CalmAlike(net: Network, h: History, g: History)
    requires Calm(net, h)
    requires g.edges == h.edges && g.notarized == h.notarized && g.fast == h.fast && g.finals == h.finals
    requires g.direct == h.direct
    ensures Calm(net, g)
  {
    forall a, b
      ensures !Rival(net, g, a, b)
    {
      assert !Rival(net, h, a, b);
      assert OnChain(net, g, b) == OnChain(net, h, b);
    }
  }

  /** Nobody certifies a block of slot 0. */
  lemma SlotZero(net: Network, b: BlockId)
    requires net.Sound() && net.Grounded() && net.ValidParent(b) && b.slot == 0
    ensures b == GenesisBlock()
  {
    if b != GenesisBlock() {
      var n, f :| net.NotarBy(n, b) && net.FallbackBy(f, b) && n * f <= net.doubles
        && net.ei.IsQuorate(net.ei.StakeOf(n) + net.ei.StakeOf(f));
      var u := CertifiedHasNotar(net, n, f, b);
      NotarExtends(net, u, b);
      assert false;
    }
  }

  lemma SettledOnChain(net: Network, t: Tracker, h: History, b: BlockId)
    requires Working(t, h) && ToldKnown(net, h) && Settled(h, b)
    ensures OnChain(net, h, b)
  {
    if b in h.direct {
      assert Descends(net.parents, b, b);
    } else {
      assert IsImplied(h, b);
      var d :| d in h.direct && Ancestor(h.edges, b, d);
      AncestorDescends(net.parents, h.edges, b, d);
    }
  }

  /** Two blocks of the finalized chain: one per slot, and none is leapt over. */
  lemma OneFinalizedChain(net: Network, t: Tracker, h: History, x: BlockId, y: BlockId)
    requires net.Sound() && net.Grounded() && Working(t, h) && Calm(net, h)
    requires OnChain(net, h, x) && OnChain(net, h, y) && net.ValidParent(x) && net.ValidParent(y)
    requires y.slot <= x.slot
    ensures y.slot == x.slot ==> y == x
    ensures y.slot < x.slot ==> y.slot <= net.parents(x).slot || y.slot == 0
  {
    hide Working, Network.Sound, Network.Grounded, Network.Certified;
    var d :| d in h.direct && Descends(net.parents, d, x);
    var e :| e in h.direct && Descends(net.parents, e, y);
    FinalityKnown(net, t, h);
    assert Firm(net, d) && Firm(net, e);
    if y.slot == 0 {
      SlotZero(net, y);
      if x.slot == 0 {
        SlotZero(net, x);
      }
    } else {
      HigherSlot(net.parents, d, x);
      HigherSlot(net.parents, e, y);
      if d.slot <= e.slot {
        OneChain(net, d, e);
        DescendsTrans(net.parents, e, d, x);
        DescendsLinear(net.parents, e, x, y);
      } else {
        OneChain(net, e, d);
        DescendsTrans(net.parents, d, e, y);
        DescendsLinear(net.parents, d, x, y);
      }
      if x != y {
        DescendsBelow(net.parents, x, y);
      }
    }
  }

  lemma HigherSlot(parents: Parents, b: BlockId, a: BlockId)
    requires Descends(parents, b, a)
    ensures a.slot <= b.slot
  {
  }

  // ---- the walk ----

  lemma ParentOnChain(net: Network, h: History, x: BlockId)
    requires OnChain(net, h, x) && net.parents(x).slot < x.slot
    ensures OnChain(net, h, net.parents(x))
  {
    var d :| d in h.direct && Descends(net.parents, d, x);
    DescendsTrans(net.parents, d, x, net.parents(x));
  }

  /** What stands behind an entry of a settled slot. */
  lemma SettledEntry(net: Network, t: Tracker, h: History, s: nat)
    requires net.Sound() && net.Grounded() && Working(t, h) && Calm(net, h) && s in t.status
    requires t.status[s].status.Finalized? || t.status[s].status.ImplicitlyFinalized?
    ensures OnChain(net, h, BlockId(s, t.status[s].hash)) && net.ValidParent(BlockId(s, t.status[s].hash))
  {
    hide Network.Sound, Network.Grounded, Network.ValidParent, OnChain;
    var b := BlockId(s, t.status[s].hash);
    assert StatusGrounded(h, s, t.status[s]);
    SettledOnChain(net, t, h, b);
    FinalityKnown(net, t, h);
  }

  /** No slot between a block of the finalized chain and its parent resists being leapt over. */
  lemma NothingResists(net: Network, t: Tracker, h: History, x: BlockId, s: nat)
    requires net.Sound() && net.Grounded() && Working(t, h) && Calm(net, h)
    requires OnChain(net, h, x) && net.ValidParent(x) && net.parents(x).slot < s < x.slot
    ensures !Resists(t.status, s)
  {
    hide Network.Sound, Network.Grounded, Network.Skipped, Network.Finalized, Network.Certified, OnChain, Calm;
    if Resists(t.status, s) {
      if t.status[s].status.FinalPendingNotar? {
        assert StatusGrounded(h, s, t.status[s]);
        TellsFinal(net, h, s);
        ValidParentOf(net, x, net.parents(x));
        FinalizedIsNotSkipped(net, s);
      } else {
        SettledEntry(net, t, h, s);
        OneFinalizedChain(net, t, h, x, BlockId(s, t.status[s].hash));
      }
    }
  }

  lemma TellsFinal(net: Network, h: History, s: nat)
    requires Calm(net, h) && s in h.finals
    ensures net.Finalized(s)
  {
  }

  /** The parent of a block of the finalized chain meets no conflict. */
  lemma NothingConflicts(net: Network, t: Tracker, h: History, x: BlockId)
    requires net.Sound() && net.Grounded() && Working(t, h) && Calm(net, h)
    requires OnChain(net, h, x) && net.ValidParent(x) && net.parents(x).slot < x.slot
    ensures !Settle(t.status, net.parents(x)).Conflict?
  {
    hide Network.Sound, Network.Grounded, Network.Skipped, Network.Finalized, Network.Certified, Network.ValidParent,
         OnChain;
    var cur := net.parents(x);
    ParentOnChain(net, h, x);
    ValidParentOf(net, x, cur);
    assert cur.slot in t.status ==> !Rival(net, h, BlockId(cur.slot, t.status[cur.slot].hash), cur);
    if Settle(t.status, cur).Conflict? {
      var e := t.status[cur.slot];
      assert StatusGrounded(h, cur.slot, e);
      if e.status.Finalized? || e.status.ImplicitlyFinalized? {
        SettledEntry(net, t, h, cur.slot);
        OneFinalizedChain(net, t, h, cur, BlockId(cur.slot, e.hash));
      } else if e.status.ImplicitlySkipped? {
        NotLeapt(net, t, h, cur);
      }
    }
  }

  /** A block of the finalized chain was not leapt over. */
  lemma NotLeapt(net: Network, t: Tracker, h: History, b: BlockId)
    requires net.Sound() && net.Grounded() && Working(t, h) && Calm(net, h)
    requires OnChain(net, h, b) && net.ValidParent(b)
    ensures b.slot !in h.skipped
  {
    hide Network.Sound, Network.Grounded, Network.Certified, Network.ValidParent, OnChain;
    if b.slot in h.skipped {
      assert IsLeapt(h, b.slot);
      var y :| Settled(h, y) && y in h.edges && h.edges[y].slot < b.slot < y.slot;
      SettledOnChain(net, t, h, y);
      FinalityKnown(net, t, h);
      OneFinalizedChain(net, t, h, y, b);
    }
  }

  /** In a calm network the walk over the ancestors completes. */
  lemma {:induction false} WalkCompletes(net: Network, t: Tracker, h: History, x: BlockId, ev: FinEvent)
    requires net.Sound() && net.Grounded() && Working(t, Announce(h, ev)) && Calm(net, Announce(h, ev))
    requires Settled(Announce(h, ev), x) && x in h.edges && h.edges[x].slot < x.slot <= t.highest
    ensures Walk(t, x.slot, h.edges[x], ev).Done?
    decreases x.slot, 1
  {
    hide Working, Calm, Network.Sound, Network.Grounded, Network.ValidParent, OnChain, Settled, Resists, Settle;
    var g, cur := Announce(h, ev), h.edges[x];
    if cur.slot >= t.first {
      WalkFacts(net, t, h, x, ev);
      var stop := FirstSkipped(t.status, cur.slot + 1, x.slot);
      assert !exists s :: cur.slot < s < stop && Resists(t.status, s);
      var ev1 := ev.(gaps := ev.gaps + Range(cur.slot + 1, stop));
      LeapAnnounced(t, h, x, stop, ev);
      CalmAlike(net, g, Announce(h, ev1));
      if stop == x.slot && Settle(t.status, cur).Fresh? {
        ClimbCompletes(net, t.(status := SkipTo(t.status, cur.slot + 1, stop)), h, x, ev1);
      }
    }
  }

  lemma WalkFacts(net: Network, t: Tracker, h: History, x: BlockId, ev: FinEvent)
    requires net.Sound() && net.Grounded() && Working(t, Announce(h, ev)) && Calm(net, Announce(h, ev))
    requires Settled(Announce(h, ev), x) && x in h.edges && h.edges[x].slot < x.slot
    ensures forall s :: h.edges[x].slot < s < x.slot ==> !Resists(t.status, s)
    ensures !Settle(t.status, h.edges[x]).Conflict?
  {
    hide Working, Network.Sound, Network.Grounded, Network.ValidParent, OnChain, Resists, Settle;
    var g := Announce(h, ev);
    assert net.parents(x) == h.edges[x];
    SettledOnChain(net, t, g, x);
    FinalityKnown(net, t, g);
    forall s: nat | h.edges[x].slot < s < x.slot
      ensures !Resists(t.status, s)
    {
      NothingResists(net, t, g, x, s);
    }
    NothingConflicts(net, t, g, x);
  }

  lemma {:induction false} ClimbCompletes(net: Network, t: Tracker, h: History, x: BlockId, ev: FinEvent)
    requires net.Sound() && net.Grounded() && Working(t, Announce(h, ev)) && Calm(net, Announce(h, ev))
    requires Settled(Announce(h, ev), x) && x in h.edges && t.first <= h.edges[x].slot < x.slot <= t.highest
    ensures Climb(t, h.edges[x], ev).Done?
    decreases x.slot, 0
  {
    hide Calm, Network.Sound, Network.Grounded;
    var a := h.edges[x];
    var ev1 := ev.(ancestors := ev.ancestors + [a]);
    SettleAnnounced(t, h, x, ev);
    CalmAlike(net, Announce(h, ev), Announce(h, ev1));
    if a in t.parents {
      WalkCompletes(net, SetStatus(t, a.slot, ImplicitlyFinalized, a.hash), h, a, ev1);
    }
  }

  // ---- the operations ----

  /** The block an operation finalizes directly. */
  function FinalizedBy(t: Tracker, op: Op): Option<BlockId> {
    match op
    case TellParent(_, _) => None
    case TellFast(b) => Some(b)
    case TellNotar(b) =>
      if b.slot in t.status && t.status[b.slot].status.FinalPendingNotar? then Some(b) else None
    case TellFinal(s) =>
      if s in t.status && t.status[s].status.Notarized? then Some(BlockId(s, t.status[s].hash)) else None
  }

  /** What the tracker was told and announced, with the operation and its direct finalization. */
  function Claims(t: Tracker, h: History, op: Op): History {
    Announce(Note(h, op), NOTHING.(finalized := FinalizedBy(t, op)))
  }

  /** A finalized block is not locked; with few double voters it must be a fast-finalized one. */
  ghost predicate Loose(net: Network, h: History, d: BlockId) {
    d in h.direct && !Firm(net, d) && (net.Tolerable() ==> d in h.fast)
  }

  /** Why a known operation may panic. */
  ghost predicate HaltReason(net: Network, t: Tracker, h: History, op: Op) {
    || (op.TellParent? && op.block.slot <= op.parent.slot)
    || (exists d :: Loose(net, Claims(t, h, op), d))
    || (exists a, b :: Rival(net, Claims(t, h, op), a, b))
  }

  lemma ClaimsGrounded(net: Network, t: Tracker, h: History, op: Op)
    requires Working(t, h) && ToldKnown(net, h) && OpKnown(net, op)
    ensures DirectGrounded(Claims(t, h, op)) && ToldKnown(net, Claims(t, h, op))
  {
    ToldGrows(net, h, op, NOTHING.(finalized := FinalizedBy(t, op)));
    assert op.TellFinal? && op.slot in t.status ==> StatusGrounded(h, op.slot, t.status[op.slot]);
    assert op.TellNotar? && op.block.slot in t.status ==> StatusGrounded(h, op.block.slot, t.status[op.block.slot]);
  }

  /** Unless there is a reason, everything the operation claims is calm. */
  lemma NoReasonIsCalm(net: Network, t: Tracker, h: History, op: Op)
    requires net.Sound() && net.Grounded() && Working(t, h) && ToldKnown(net, h) && OpKnown(net, op)
    requires !HaltReason(net, t, h, op)
    ensures Calm(net, Claims(t, h, op))
  {
    hide Working, Rival, Claims, Network.Sound, Network.Grounded, Locked;
    ClaimsGrounded(net, t, h, op);
    var g := Claims(t, h, op);
    forall d | d in g.direct
      ensures Firm(net, d)
    {
      assert !Loose(net, g, d);
      if d.slot > 0 && net.Tolerable() && d !in g.fast {
        SlowIsLocked(net, g, d);
      }
    }
  }

  lemma SlowIsLocked(net: Network, h: History, d: BlockId)
    requires net.Sound() && net.Grounded() && net.Tolerable() && ToldKnown(net, h)
    requires d in h.notarized && d.slot in h.finals && d.slot > 0
    ensures Locked(net, d)
  {
    hide Network.Sound, Network.Tolerable;
    assert net.NotarsGrounded();
    var k := SlowFinalizationLocks(net, d.slot);
    NotarizedUnique(net, d.slot, d.hash, k);
  }

  /** A direct finalization completes. */
  lemma FinalizeCompletes(net: Network, t: Tracker, h: History, b: BlockId)
    requires net.Sound() && net.Grounded() && Working(t, h) && t.first <= b.slot
    requires b in h.fast || (b in h.notarized && b.slot in h.finals)
    requires Calm(net, Announce(h, NOTHING.(finalized := Some(b))))
    ensures Finalize(SetStatus(t, b.slot, Finalized, b.hash), b).Done?
  {
    hide Calm, Network.Sound, Network.Grounded;
    var ev := NOTHING.(finalized := Some(b));
    var t1 := SetStatus(t, b.slot, Finalized, b.hash).(highest := Max(t.highest, b.slot));
    var g := Announce(h, ev);
    assert g == h.(direct := h.direct + {b});
    ImplicitGroundedGrows(h, g);
    if b in t.parents {
      WalkCompletes(net, t1, h, b, ev);
    }
  }

  /** Two notarized blocks of a slot are one, at slot 0 too. */
  lemma NotarizedAlike(net: Network, h: History, a: BlockId, b: BlockId)
    requires net.Sound() && net.Grounded() && ToldKnown(net, h) && a in h.notarized && net.Notarized(b)
    requires a.slot == b.slot
    ensures a == b
  {
    NotarizedIsCertified(net, b);
    if b.slot == 0 {
      SlotZero(net, b);
    }
    if a == GenesisBlock() {
    } else {
      NotarizedUnique(net, b.slot, a.hash, b.hash);
    }
  }

  lemma FastCompletes(net: Network, t: Tracker, h: History, b: BlockId)
    requires net.Sound() && net.Grounded() && Working(t, h) && ToldKnown(net, h) && net.FastFinalized(b)
    requires Calm(net, Claims(t, h, TellFast(b)))
    ensures MarkFastFinalized(t, b).Done?
  {
    hide Network.Sound, Network.Grounded, Calm, Network.Notarized, Network.Certified, Network.Skipped;
    var g := Note(h, TellFast(b));
    FastKeeps(t, h, b);
    StrongIsQuorum(net, b);
    NotarizedIsCertified(net, b);
    NothingAnnounced(g);
    ImplicitGroundedGrows(h, g);
    if b.slot >= t.first {
      FastNoConflict(net, t, h, b);
      if Settle(t.status, b).Fresh? {
        FinalizeCompletes(net, t, g, b);
      }
    }
  }

  lemma FastNoConflict(net: Network, t: Tracker, h: History, b: BlockId)
    requires net.Sound() && net.Grounded() && Working(t, h) && ToldKnown(net, h) && net.Notarized(b) && net.Certified(b)
    requires Calm(net, Claims(t, h, TellFast(b)))
    ensures !Settle(t.status, b).Conflict?
  {
    hide Network.Sound, Network.Grounded, Network.Notarized, Network.Certified, Network.Skipped;
    FinalityKnown(net, t, h);
    assert b in Claims(t, h, TellFast(b)).direct && Firm(net, b);
    if b.slot == 0 {
      SlotZero(net, b);
    }
    if Settle(t.status, b).Conflict? {
      var e := t.status[b.slot];
      assert StatusGrounded(h, b.slot, e);
      if e.status.Notarized? {
        NotarizedAlike(net, h, BlockId(b.slot, e.hash), b);
      } else if e.status.ImplicitlySkipped? {
        SkippedAboveZero(h, b.slot);
      } else {
        assert net.ValidParent(BlockId(b.slot, e.hash));
        if b.slot == 0 {
          SlotZero(net, BlockId(0, e.hash));
        }
      }
    }
  }

  lemma SkippedAboveZero(h: History, s: nat)
    requires ImplicitGrounded(h) && s in h.skipped
    ensures s > 0
  {
    assert IsLeapt(h, s);
  }

  lemma NotarCompletes(net: Network, t: Tracker, h: History, b: BlockId)
    requires net.Sound() && net.Grounded() && Working(t, h) && ToldKnown(net, h) && net.Notarized(b)
    requires Calm(net, Claims(t, h, TellNotar(b)))
    ensures MarkNotarized(t, b).Done?
  {
    hide Network.Sound, Network.Grounded, Network.Notarized, Calm;
    var g := Note(h, TellNotar(b));
    NothingAnnounced(g);
    ImplicitGroundedGrows(h, g);
    if b.slot >= t.first && b.slot in t.status {
      var e := t.status[b.slot];
      assert StatusGrounded(h, b.slot, e);
      if e.status.FinalPendingNotar? {
        FinalizeCompletes(net, t, g, b);
      } else if e.status.Notarized? {
        NotarizedAlike(net, h, BlockId(b.slot, e.hash), b);
      } else if !e.status.ImplicitlySkipped? {
        NotarNoRival(net, t, h, b);
      }
    }
  }

  lemma NotarNoRival(net: Network, t: Tracker, h: History, b: BlockId)
    requires net.Sound() && net.Grounded() && Working(t, h) && ToldKnown(net, h)
    requires Calm(net, Claims(t, h, TellNotar(b))) && b.slot in t.status
    requires t.status[b.slot].status.Finalized? || t.status[b.slot].status.ImplicitlyFinalized?
    ensures t.status[b.slot].hash == b.hash
  {
    hide Network.Sound, Network.Grounded;
    var c := BlockId(b.slot, t.status[b.slot].hash);
    assert StatusGrounded(h, b.slot, t.status[b.slot]);
    SettledOnChain(net, t, h, c);
    var d :| d in h.direct && Descends(net.parents, d, c);
    assert OnChain(net, Claims(t, h, TellNotar(b)), c);
    assert !Rival(net, Claims(t, h, TellNotar(b)), b, c);
  }

  lemma FinalCompletes(net: Network, t: Tracker, h: History, s: nat)
    requires net.Sound() && net.Grounded() && Working(t, h) && ToldKnown(net, h) && net.Finalized(s)
    requires Calm(net, Claims(t, h, TellFinal(s)))
    ensures MarkFinalized(t, s).Done?
  {
    hide Network.Sound, Network.Grounded, Network.Finalized, Network.Skipped, Calm;
    var g := Note(h, TellFinal(s));
    NothingAnnounced(g);
    ImplicitGroundedGrows(h, g);
    FinalityKnown(net, t, h);
    FinalizedIsNotSkipped(net, s);
    if s >= t.first && s in t.status {
      assert StatusGrounded(h, s, t.status[s]);
      if t.status[s].status.Notarized? {
        FinalizeCompletes(net, t, g, BlockId(s, t.status[s].hash));
      }
    }
  }

  lemma ParentCompletes(net: Network, t: Tracker, h: History, b: BlockId, p: BlockId)
    requires net.Sound() && net.Grounded() && Working(t, h) && ToldKnown(net, h) && net.parents(b) == p
    requires p.slot < b.slot
    requires Calm(net, Claims(t, h, TellParent(b, p)))
    ensures AddParent(t, b, p).Done?
  {
    hide Network.Sound, Network.Grounded, Calm;
    var g := Note(h, TellParent(b, p));
    NothingAnnounced(g);
    if b !in h.edges && b.slot >= t.first && HoldsFinal(t, b) {
      EdgeKeeps(t, h, b, p);
      assert StatusGrounded(h, b.slot, t.status[b.slot]);
      WalkCompletes(net, t.(parents := t.parents[b := p]), g, b, NOTHING);
    }
  }

  /** In a sound and grounded network, a known operation panics for one of the reasons only. */
  lemma KnownHalt(net: Network, t: Tracker, h: History, op: Op)
    requires net.Sound() && net.Grounded() && Working(t, h) && ToldKnown(net, h) && OpKnown(net, op)
    requires Apply(t, op).Halt?
    ensures HaltReason(net, t, h, op)
  {
    if !HaltReason(net, t, h, op) {
      NoReasonIsCalm(net, t, h, op);
      match op
      case TellParent(b, p) => ParentCompletes(net, t, h, b, p);
      case TellFast(b) => FastCompletes(net, t, h, b);
      case TellNotar(b) => NotarCompletes(net, t, h, b);
      case TellFinal(s) => FinalCompletes(net, t, h, s);
    }
  }
}
