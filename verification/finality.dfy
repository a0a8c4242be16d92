/** How finality of a block spreads to its ancestors and to the slots they leap over
    (crates/karstflow-alpenglow/src/finality_tracker.rs). A panic is the outcome `Halt`. */
module Finality {
  import opened Base

  datatype FinStatus = Notarized | FinalPendingNotar | Finalized | ImplicitlyFinalized | ImplicitlySkipped
  {
    predicate Decided() {
      Finalized? || ImplicitlyFinalized? || ImplicitlySkipped?
    }
  }

  datatype Entry = Entry(status: FinStatus, hash: BlockHash)

  const SKIPPED: Entry := Entry(ImplicitlySkipped, GENESIS_BLOCK_HASH)

  datatype FinEvent = FinEvent(finalized: Option<BlockId>, ancestors: seq<BlockId>, gaps: seq<nat>)

  const NOTHING: FinEvent := FinEvent(None, [], [])

  datatype Tracker = Tracker(
    status: map<nat, Entry>,
    parents: map<BlockId, BlockId>,
    highest: nat,
    first: nat)

  datatype Outcome = Halt | Done(tracker: Tracker, event: FinEvent)

  function Genesis(): Tracker {
    Tracker(map[0 := Entry(Notarized, GENESIS_BLOCK_HASH)], map[], 0, 0)
  }

  // ---- the walk over the ancestors ----

  predicate IsSkipped(status: map<nat, Entry>, s: nat) {
    s in status && status[s].status.ImplicitlySkipped?
  }

  /** A finalized slot cannot be leapt over. */
  predicate Resists(status: map<nat, Entry>, s: nat) {
    s in status && !status[s].status.Notarized? && !status[s].status.ImplicitlySkipped?
  }

  /** The first slot already skipped, or the end. */
  function FirstSkipped(status: map<nat, Entry>, from: nat, end: nat): (r: nat)
    requires from <= end
    ensures from <= r <= end
    ensures forall s :: from <= s < r ==> !IsSkipped(status, s)
    ensures r < end ==> IsSkipped(status, r)
    decreases end - from
  {
    if from == end || IsSkipped(status, from) then from else FirstSkipped(status, from + 1, end)
  }

  function SkipTo(status: map<nat, Entry>, from: nat, end: nat): map<nat, Entry>
    requires from <= end
  {
    if from == end then status else SkipTo(status, from, end - 1)[end - 1 := SKIPPED]
  }

  lemma {:induction false} SkipToContents(status: map<nat, Entry>, from: nat, end: nat)
    requires from <= end
    ensures forall s :: s in SkipTo(status, from, end) <==> s in status || from <= s < end
    ensures forall s :: s in SkipTo(status, from, end) ==>
      SkipTo(status, from, end)[s] == if from <= s < end then SKIPPED else status[s]
  {
    if from < end {
      SkipToContents(status, from, end - 1);
    }
  }

  function Range(from: nat, end: nat): (q: seq<nat>)
    requires from <= end
    ensures |q| == end - from && forall i :: 0 <= i < |q| ==> q[i] == from + i
  {
    seq(end - from, i requires 0 <= i < end - from => from + i)
  }

  datatype Settling = Conflict | Already | Fresh

  /** What an ancestor's slot says to its implicit finalization. */
  function Settle(status: map<nat, Entry>, b: BlockId): Settling {
    if b.slot !in status then Fresh
    else match status[b.slot].status
      case Finalized => if status[b.slot].hash == b.hash then Already else Conflict
      case ImplicitlyFinalized => if status[b.slot].hash == b.hash then Already else Conflict
      case Notarized => if status[b.slot].hash == b.hash then Fresh else Conflict
      case FinalPendingNotar => Fresh
      case ImplicitlySkipped => Conflict
  }

  /** From a finalized block in slot `source` to its parent `cur` and on: skips the slots in
      between, finalizes the parent, and stops at the first thing already decided, at an
      unknown parent or below the watermark. */
  function Walk(t: Tracker, source: nat, cur: BlockId, ev: FinEvent): Outcome
    decreases cur.slot, 1
  {
    if source <= cur.slot then Halt
    else if cur.slot < t.first then Done(t, ev)
    else
      var stop := FirstSkipped(t.status, cur.slot + 1, source);
      if exists s :: cur.slot < s < stop && Resists(t.status, s) then Halt
      else
        var t1 := t.(status := SkipTo(t.status, cur.slot + 1, stop));
        var ev1 := ev.(gaps := ev.gaps + Range(cur.slot + 1, stop));
        if stop < source then Done(t1, ev1)
        else match Settle(t.status, cur)
          case Conflict => Halt
          case Already => Done(t1, ev1)
          case Fresh => Climb(t1, cur, ev1)
  }

  /** Finalizes an ancestor and goes on to its parent. */
  function Climb(t: Tracker, cur: BlockId, ev: FinEvent): Outcome
    decreases cur.slot, 0
  {
    var t1 := SetStatus(t, cur.slot, ImplicitlyFinalized, cur.hash);
    var ev1 := ev.(ancestors := ev.ancestors + [cur]);
    if cur !in t.parents then Done(t1, ev1)
    else if cur.slot <= t.parents[cur].slot then Halt
    else Walk(t1, cur.slot, t.parents[cur], ev1)
  }

  // ---- pruning ----

  predicate IsDecided(status: map<nat, Entry>, s: nat) {
    s in status && status[s].status.Decided()
  }

  ghost function KeysAbove(status: map<nat, Entry>, n: nat): set<nat> {
    set s | s in status && s > n
  }

  /** The last slot of the decided run that follows `n`. */
  function Watermark(status: map<nat, Entry>, n: nat): (r: nat)
    ensures n <= r && (forall s :: n < s <= r ==> IsDecided(status, s)) && !IsDecided(status, r + 1)
    decreases KeysAbove(status, n)
  {
    if IsDecided(status, n + 1) then
      assert n + 1 in KeysAbove(status, n) && n + 1 !in KeysAbove(status, n + 1);
      Watermark(status, n + 1)
    else n
  }

  function Prune(t: Tracker): Tracker {
    var root := Watermark(t.status, t.first);
    t.(first := root,
       status := map s | s in t.status && s >= root :: t.status[s],
       parents := map b | b in t.parents && b.slot >= root :: t.parents[b])
  }

  function Pruned(o: Outcome): Outcome {
    if o.Halt? then Halt else Done(Prune(o.tracker), o.event)
  }

  // ---- the operations ----

  function SetStatus(t: Tracker, s: nat, status: FinStatus, h: BlockHash): Tracker {
    t.(status := t.status[s := Entry(status, h)])
  }

  /** A block just marked finalized. */
  function Finalize(t: Tracker, b: BlockId): Outcome {
    var t1 := t.(highest := Max(t.highest, b.slot));
    var ev := NOTHING.(finalized := Some(b));
    Pruned(if b in t.parents then Walk(t1, b.slot, t.parents[b], ev) else Done(t1, ev))
  }

  predicate HoldsFinal(t: Tracker, b: BlockId) {
    && b.slot in t.status && t.status[b.slot].hash == b.hash
    && (t.status[b.slot].status.Finalized? || t.status[b.slot].status.ImplicitlyFinalized?)
  }

  function AddParent(t: Tracker, b: BlockId, p: BlockId): Outcome {
    if b.slot <= p.slot then Halt
    else if b.slot < t.first then Done(t, NOTHING)
    else if b in t.parents then (if t.parents[b] == p then Done(t, NOTHING) else Halt)
    else
      var t1 := t.(parents := t.parents[b := p]);
      if HoldsFinal(t, b) then Pruned(Walk(t1, b.slot, p, NOTHING))
      else Done(t1, NOTHING)
  }

  function MarkFastFinalized(t: Tracker, b: BlockId): Outcome {
    if b.slot < t.first then Done(t, NOTHING)
    else
      var t1 := SetStatus(t, b.slot, Finalized, b.hash);
      match Settle(t.status, b)
      case Conflict => Halt
      case Already => Done(t1, NOTHING)
      case Fresh => Finalize(t1, b)
  }

  function MarkNotarized(t: Tracker, b: BlockId): Outcome {
    if b.slot < t.first then Done(t, NOTHING)
    else if b.slot !in t.status then Done(SetStatus(t, b.slot, Notarized, b.hash), NOTHING)
    else match t.status[b.slot].status
      case FinalPendingNotar => Finalize(SetStatus(t, b.slot, Finalized, b.hash), b)
      case ImplicitlySkipped => Done(SetStatus(t, b.slot, Notarized, b.hash), NOTHING)
      case _ =>
        if t.status[b.slot].hash == b.hash then Done(SetStatus(t, b.slot, Notarized, b.hash), NOTHING) else Halt
  }

  function MarkFinalized(t: Tracker, s: nat): Outcome {
    if s < t.first then Done(t, NOTHING)
    else
      var t1 := SetStatus(t, s, FinalPendingNotar, GENESIS_BLOCK_HASH);
      if s !in t.status then Done(t1, NOTHING)
      else match t.status[s].status
        case Notarized => Finalize(SetStatus(t, s, Finalized, t.status[s].hash), BlockId(s, t.status[s].hash))
        case ImplicitlySkipped => Halt
        case _ => Done(t1, NOTHING)
  }

  datatype Op =
    | TellParent(block: BlockId, parent: BlockId)
    | TellFast(block: BlockId)
    | TellNotar(block: BlockId)
    | TellFinal(slot: nat)

  function Apply(t: Tracker, op: Op): Outcome {
    match op
    case TellParent(b, p) => AddParent(t, b, p)
    case TellFast(b) => MarkFastFinalized(t, b)
    case TellNotar(b) => MarkNotarized(t, b)
    case TellFinal(s) => MarkFinalized(t, s)
  }

  // ---- what the tracker knows, over a history ----

  /** Everything told to the tracker and everything it announced. */
  datatype History = History(
    edges: map<BlockId, BlockId>,
    fast: set<BlockId>,
    notarized: set<BlockId>,
    finals: set<nat>,
    direct: set<BlockId>,
    implicit: set<BlockId>,
    skipped: set<nat>)

  function NoHistory(): History {
    History(map[], {}, {GenesisBlock()}, {}, {}, {}, {})
  }

  function Blocks(q: seq<BlockId>): set<BlockId> {
    set b | b in q
  }

  function Slots(q: seq<nat>): set<nat> {
    set s | s in q
  }

  /** The history with what an operation says and announces. */
  function Note(h: History, op: Op): History {
    match op
    case TellParent(b, p) => if b in h.edges then h else h.(edges := h.edges[b := p])
    case TellFast(b) => h.(fast := h.fast + {b})
    case TellNotar(b) => h.(notarized := h.notarized + {b})
    case TellFinal(s) => h.(finals := h.finals + {s})
  }

  function Announce(h: History, ev: FinEvent): History {
    h.(direct := h.direct + (if ev.finalized.Some? then {ev.finalized.value} else {}),
       implicit := h.implicit + Blocks(ev.ancestors),
       skipped := h.skipped + Slots(ev.gaps))
  }

  /** `a` is a proper ancestor of `b` through recorded edges. */
  ghost predicate Ancestor(edges: map<BlockId, BlockId>, a: BlockId, b: BlockId)
    decreases b.slot
  {
    b in edges && edges[b].slot < b.slot && (edges[b] == a || Ancestor(edges, a, edges[b]))
  }

  ghost predicate Descending(edges: map<BlockId, BlockId>) {
    forall b :: b in edges ==> edges[b].slot < b.slot
  }

  ghost predicate IsImplied(h: History, a: BlockId) {
    exists d :: d in h.direct && Ancestor(h.edges, a, d)
  }

  /** Directly or implicitly finalized. */
  ghost predicate Settled(h: History, b: BlockId) {
    b in h.direct || b in h.implicit
  }

  ghost predicate IsLeapt(h: History, s: nat) {
    exists x :: Settled(h, x) && x in h.edges && h.edges[x].slot < s < x.slot
  }

  ghost predicate StatusGrounded(h: History, s: nat, e: Entry) {
    match e.status
    case Notarized => BlockId(s, e.hash) in h.notarized
    case FinalPendingNotar => s in h.finals
    case Finalized => Settled(h, BlockId(s, e.hash))
    case ImplicitlyFinalized => BlockId(s, e.hash) in h.implicit
    case ImplicitlySkipped => s in h.skipped
  }

  /** A direct finalization rests on a fast-final mark, or on a notar and a final mark. */
  ghost predicate DirectGrounded(h: History) {
    forall b :: b in h.direct ==> b in h.fast || (b in h.notarized && b.slot in h.finals)
  }

  /** Implicit finalizations are proper ancestors of direct ones, and implicit skips lie
      strictly inside an edge out of a finalized block. */
  ghost predicate ImplicitGrounded(h: History) {
    && (forall a :: a in h.implicit ==> IsImplied(h, a))
    && (forall s :: s in h.skipped ==> IsLeapt(h, s))
  }

  ghost predicate StatusesGrounded(t: Tracker, h: History) {
    forall s :: s in t.status ==>
      s >= t.first && StatusGrounded(h, s, t.status[s]) && (t.status[s].status.Decided() ==> s <= t.highest)
  }

  /** What holds in the middle of an operation; the watermark is not yet moved. */
  ghost predicate Working(t: Tracker, h: History) {
    && Descending(h.edges)
    && t.parents == (map b | b in h.edges && b.slot >= t.first :: h.edges[b])
    && StatusesGrounded(t, h)
    && DirectGrounded(h) && ImplicitGrounded(h)
    && t.first <= t.highest
  }

  lemma {:induction false} AncestorExtends(edges: map<BlockId, BlockId>, a: BlockId, b: BlockId, d: BlockId)
    requires Ancestor(edges, b, d) && b in edges && edges[b] == a && a.slot < b.slot
    ensures Ancestor(edges, a, d)
    decreases d.slot
  {
    if edges[d] != b {
      AncestorExtends(edges, a, b, edges[d]);
    }
  }

  lemma {:induction false} AncestorMonotone(edges: map<BlockId, BlockId>, more: map<BlockId, BlockId>, a: BlockId,
                                            b: BlockId)
    requires Ancestor(edges, a, b) && forall x :: x in edges ==> x in more && more[x] == edges[x]
    ensures Ancestor(more, a, b)
    decreases b.slot
  {
    if edges[b] != a {
      AncestorMonotone(edges, more, a, edges[b]);
    }
  }

  /** The history only grows. */
  ghost predicate Grows(h: History, g: History) {
    && (forall x :: x in h.edges ==> x in g.edges && g.edges[x] == h.edges[x])
    && h.fast <= g.fast && h.notarized <= g.notarized && h.finals <= g.finals
    && h.direct <= g.direct && h.implicit <= g.implicit && h.skipped <= g.skipped
  }

  lemma ImpliedGrows(h: History, g: History, a: BlockId)
    requires Grows(h, g) && IsImplied(h, a)
    ensures IsImplied(g, a)
  {
    var d :| d in h.direct && Ancestor(h.edges, a, d);
    AncestorMonotone(h.edges, g.edges, a, d);
  }

  lemma LeaptGrows(h: History, g: History, s: nat)
    requires Grows(h, g) && IsLeapt(h, s)
    ensures IsLeapt(g, s)
  {
  }

  /** Old announcements stay grounded when the history grows. */
  lemma ImplicitGroundedGrows(h: History, g: History)
    requires Grows(h, g) && ImplicitGrounded(h)
    requires forall a :: a in g.implicit - h.implicit ==> IsImplied(g, a)
    requires forall s :: s in g.skipped - h.skipped ==> IsLeapt(g, s)
    ensures ImplicitGrounded(g)
  {
    forall a | a in g.implicit
      ensures IsImplied(g, a)
    {
      if a in h.implicit {
        ImpliedGrows(h, g, a);
      }
    }
    forall s | s in g.skipped
      ensures IsLeapt(g, s)
    {
      if s in h.skipped {
        LeaptGrows(h, g, s);
      }
    }
  }

  /** The tracker stays grounded when the history grows by grounded announcements. */
  lemma WorkingGrows(t: Tracker, h: History, g: History)
    requires Working(t, h) && Grows(h, g) && g.edges == h.edges && DirectGrounded(g)
    requires forall a :: a in g.implicit - h.implicit ==> IsImplied(g, a)
    requires forall s :: s in g.skipped - h.skipped ==> IsLeapt(g, s)
    ensures Working(t, g)
  {
  }

  /** Changing the entries of grounded slots. */
  lemma WorkingRewritten(t: Tracker, h: History, status: map<nat, Entry>)
    requires Working(t, h)
    requires forall s :: s in status ==>
      || (s in t.status && status[s] == t.status[s])
      || (s >= t.first && StatusGrounded(h, s, status[s]) && (status[s].status.Decided() ==> s <= t.highest))
    ensures Working(t.(status := status), h)
  {
  }

  /** Leaping over the slots below a finalized block. */
  lemma LeapKeeps(t: Tracker, h: History, x: BlockId, stop: nat)
    requires Working(t, h) && Settled(h, x) && x in h.edges && x.slot <= t.highest
    requires t.first <= h.edges[x].slot < stop <= x.slot
    ensures Working(t.(status := SkipTo(t.status, h.edges[x].slot + 1, stop)),
                    h.(skipped := h.skipped + Slots(Range(h.edges[x].slot + 1, stop))))
  {
    var from := h.edges[x].slot + 1;
    var g := h.(skipped := h.skipped + Slots(Range(from, stop)));
    forall s: nat
      ensures s in Slots(Range(from, stop)) <==> from <= s < stop
    {
      if from <= s < stop {
        assert Range(from, stop)[s - from] == s;
      }
    }
    assert Settled(g, x);
    WorkingGrows(t, h, g);
    SkipToContents(t.status, from, stop);
    WorkingRewritten(t, g, SkipTo(t.status, from, stop));
  }

  /** Finalizing the parent of a finalized block. */
  lemma SettleKeeps(t: Tracker, h: History, x: BlockId)
    requires Working(t, h) && Settled(h, x) && x in h.edges && x.slot <= t.highest
    requires t.first <= h.edges[x].slot
    ensures var a := h.edges[x];
      Working(SetStatus(t, a.slot, ImplicitlyFinalized, a.hash), h.(implicit := h.implicit + {a}))
  {
    var a := h.edges[x];
    var g := h.(implicit := h.implicit + {a});
    assert IsImplied(g, a) by {
      if x in h.direct {
        assert Ancestor(g.edges, a, x);
      } else {
        assert IsImplied(h, x);
        var d :| d in h.direct && Ancestor(h.edges, x, d);
        AncestorExtends(h.edges, a, x, d);
        assert d in g.direct && Ancestor(g.edges, a, d);
      }
    }
    WorkingGrows(t, h, g);
    WorkingRewritten(t, g, t.status[a.slot := Entry(ImplicitlyFinalized, a.hash)]);
  }

  lemma LeapAnnounced(t: Tracker, h: History, x: BlockId, stop: nat, ev: FinEvent)
    requires Working(t, Announce(h, ev)) && Settled(Announce(h, ev), x) && x in h.edges && x.slot <= t.highest
    requires t.first <= h.edges[x].slot < stop <= x.slot
    ensures var ev1 := ev.(gaps := ev.gaps + Range(h.edges[x].slot + 1, stop));
      && Working(t.(status := SkipTo(t.status, h.edges[x].slot + 1, stop)), Announce(h, ev1))
      && Settled(Announce(h, ev1), x)
  {
    hide Working;
    LeapKeeps(t, Announce(h, ev), x, stop);
    var gap := Range(h.edges[x].slot + 1, stop);
    var ev1 := ev.(gaps := ev.gaps + gap);
    assert Slots(ev.gaps + gap) == Slots(ev.gaps) + Slots(gap);
    assert Announce(h, ev1) == Announce(h, ev).(skipped := Announce(h, ev).skipped + Slots(gap));
  }

  lemma SettleAnnounced(t: Tracker, h: History, x: BlockId, ev: FinEvent)
    requires Working(t, Announce(h, ev)) && Settled(Announce(h, ev), x) && x in h.edges && x.slot <= t.highest
    requires t.first <= h.edges[x].slot
    ensures var a := h.edges[x];
      var ev1 := ev.(ancestors := ev.ancestors + [a]);
      && Working(SetStatus(t, a.slot, ImplicitlyFinalized, a.hash), Announce(h, ev1))
      && Settled(Announce(h, ev1), a)
  {
    SettleKeeps(t, Announce(h, ev), x);
    var a := h.edges[x];
    var ev1 := ev.(ancestors := ev.ancestors + [a]);
    assert Blocks(ev.ancestors + [a]) == Blocks(ev.ancestors) + {a};
    assert Announce(h, ev1) == Announce(h, ev).(implicit := Announce(h, ev).implicit + {a});
  }

  ghost predicate WalkedWell(t: Tracker, h: History, ev: FinEvent, o: Outcome) {
    o.Done? ==>
      && Working(o.tracker, Announce(h, o.event))
      && o.tracker.first == t.first && o.tracker.highest == t.highest && o.event.finalized == ev.finalized
  }

  /** The walk announces only ancestors of finalized blocks and slots they leap over. */
  lemma {:induction false} WalkKeeps(t: Tracker, h: History, x: BlockId, ev: FinEvent)
    requires Working(t, Announce(h, ev)) && Settled(Announce(h, ev), x)
    requires x in h.edges && h.edges[x].slot < x.slot <= t.highest
    ensures WalkedWell(t, h, ev, Walk(t, x.slot, h.edges[x], ev))
    decreases x.slot, 1
  {
    hide Working, Settled, Announce;
    var cur := h.edges[x];
    if cur.slot >= t.first {
      var stop := FirstSkipped(t.status, cur.slot + 1, x.slot);
      var t1 := t.(status := SkipTo(t.status, cur.slot + 1, stop));
      var ev1 := ev.(gaps := ev.gaps + Range(cur.slot + 1, stop));
      LeapAnnounced(t, h, x, stop, ev);
      assert WalkedWell(t, h, ev, Done(t1, ev1));
      ClimbKeeps(t1, h, x, ev1);
      assert WalkedWell(t, h, ev, Climb(t1, cur, ev1));
    }
  }

  lemma {:induction false} ClimbKeeps(t: Tracker, h: History, x: BlockId, ev: FinEvent)
    requires Working(t, Announce(h, ev)) && Settled(Announce(h, ev), x)
    requires x in h.edges && t.first <= h.edges[x].slot < x.slot <= t.highest
    ensures WalkedWell(t, h, ev, Climb(t, h.edges[x], ev))
    decreases x.slot, 0
  {
    var a := h.edges[x];
    SettleAnnounced(t, h, x, ev);
    if a in t.parents {
      WalkKeeps(SetStatus(t, a.slot, ImplicitlyFinalized, a.hash), h, a, ev.(ancestors := ev.ancestors + [a]));
    }
  }

  // ---- the walk misses nothing ----

  /** Nothing is left to do for this parent: it is below the watermark or already final, or a
      slot in between was already leapt over. */
  ghost predicate Stopped(t: Tracker, source: nat, p: BlockId) {
    p.slot < t.first || HoldsFinal(t, p) || exists s :: p.slot < s < source && IsSkipped(t.status, s)
  }

  /** The block's slot names no other block and was not leapt over. */
  ghost predicate Agrees(t: Tracker, b: BlockId) {
    b.slot in t.status ==>
      && !t.status[b.slot].status.ImplicitlySkipped?
      && (t.status[b.slot].status.FinalPendingNotar? || t.status[b.slot].hash == b.hash)
  }

  /** The recorded ancestors from `cur` on, none left out, up to where the walk may stop. */
  ghost predicate IsAncestry(t: Tracker, source: nat, cur: BlockId, chain: seq<BlockId>)
    decreases |chain|
  {
    if chain == [] then Stopped(t, source, cur)
    else
      && chain[0] == cur && !Stopped(t, source, cur) && Agrees(t, cur)
      && (if cur in t.parents then IsAncestry(t, cur.slot, t.parents[cur], chain[1..]) else |chain| == 1)
  }

  /** Only what lies below matters to the ancestry. */
  lemma {:induction false} AncestryBelow(t: Tracker, u: Tracker, source: nat, cur: BlockId, chain: seq<BlockId>)
    requires u.parents == t.parents && u.first == t.first && cur.slot < source
    requires forall s :: s < source ==>
      (s in u.status <==> s in t.status) && (s in t.status ==> u.status[s] == t.status[s])
    requires forall b :: b in t.parents ==> t.parents[b].slot < b.slot
    requires IsAncestry(u, source, cur, chain)
    ensures IsAncestry(t, source, cur, chain)
    decreases |chain|
  {
    assert forall s :: cur.slot < s < source ==> IsSkipped(u.status, s) == IsSkipped(t.status, s);
    assert Stopped(u, source, cur) == Stopped(t, source, cur);
    if chain != [] && cur in t.parents {
      AncestryBelow(t, u, cur.slot, t.parents[cur], chain[1..]);
    }
  }

  ghost predicate Ancestral(t: Tracker, source: nat, cur: BlockId, ev: FinEvent, o: Outcome) {
    o.Done? ==> ev.ancestors <= o.event.ancestors && IsAncestry(t, source, cur, o.event.ancestors[|ev.ancestors|..])
  }

  /** A completed walk announces exactly the ancestry. */
  lemma {:induction false} WalkIsAncestry(t: Tracker, source: nat, cur: BlockId, ev: FinEvent)
    requires forall b :: b in t.parents ==> t.parents[b].slot < b.slot
    ensures Ancestral(t, source, cur, ev, Walk(t, source, cur, ev))
    decreases cur.slot, 1
  {
    if t.first <= cur.slot < source {
      var stop := FirstSkipped(t.status, cur.slot + 1, source);
      SkipToContents(t.status, cur.slot + 1, stop);
      if stop == source && Settle(t.status, cur).Fresh? {
        var t1 := t.(status := SkipTo(t.status, cur.slot + 1, stop));
        ClimbIsAncestry(t1, cur, ev.(gaps := ev.gaps + Range(cur.slot + 1, stop)));
        ClimbedAncestry(t, t1, source, cur, ev, Walk(t, source, cur, ev));
      }
    }
  }

  /** What a completed climb adds: the block, and the ancestry of its parent. */
  ghost predicate Climbed(t: Tracker, cur: BlockId, ev: FinEvent, o: Outcome) {
    o.Done? ==>
      var q := o.event.ancestors;
      && ev.ancestors + [cur] <= q
      && (if cur in t.parents then IsAncestry(t, cur.slot, t.parents[cur], q[|ev.ancestors| + 1..])
          else |q| == |ev.ancestors| + 1)
  }

  lemma ClimbedAncestry(t: Tracker, t1: Tracker, source: nat, cur: BlockId, ev: FinEvent, o: Outcome)
    requires forall b :: b in t.parents ==> t.parents[b].slot < b.slot
    requires t1.parents == t.parents && t1.first == t.first && cur.slot < source && !Stopped(t, source, cur)
    requires Agrees(t, cur)
    requires forall s :: s <= cur.slot ==>
        (s in t1.status <==> s in t.status) && (s in t.status ==> t1.status[s] == t.status[s])
    requires Climbed(t1, cur, ev, o)
    ensures Ancestral(t, source, cur, ev, o)
  {
    if o.Done? {
      var q := o.event.ancestors;
      assert q[|ev.ancestors|..][0] == (ev.ancestors + [cur])[|ev.ancestors|];
      assert q[|ev.ancestors|..][1..] == q[|ev.ancestors| + 1..];
      if cur in t.parents {
        AncestryBelow(t, t1, cur.slot, t.parents[cur], q[|ev.ancestors| + 1..]);
      }
    }
  }

  lemma {:induction false} ClimbIsAncestry(t: Tracker, cur: BlockId, ev: FinEvent)
    requires forall b :: b in t.parents ==> t.parents[b].slot < b.slot
    ensures Climbed(t, cur, ev, Climb(t, cur, ev))
    decreases cur.slot, 0
  {
    if cur in t.parents {
      var t1 := SetStatus(t, cur.slot, ImplicitlyFinalized, cur.hash);
      WalkIsAncestry(t1, cur.slot, t.parents[cur], ev.(ancestors := ev.ancestors + [cur]));
      var o := Climb(t, cur, ev);
      if o.Done? {
        AncestryBelow(t, t1, cur.slot, t.parents[cur], o.event.ancestors[|ev.ancestors| + 1..]);
      }
    }
  }

  /** All slots between consecutive members of a chain, starting from a slot above it. */
  ghost predicate CoversGaps(source: nat, chain: seq<BlockId>, gaps: seq<nat>)
    decreases |chain|
  {
    chain == [] ||
    ((forall s :: chain[0].slot < s < source ==> s in gaps) && CoversGaps(chain[0].slot, chain[1..], gaps))
  }

  lemma InPrefix(a: seq<nat>, b: seq<nat>, x: nat)
    requires a <= b && x in a
    ensures x in b
  {
  }

  ghost predicate Leaping(source: nat, ev: FinEvent, o: Outcome) {
    o.Done? ==>
      && ev.gaps <= o.event.gaps && ev.ancestors <= o.event.ancestors
      && CoversGaps(source, o.event.ancestors[|ev.ancestors|..], o.event.gaps)
  }

  /** A completed walk announces every slot leapt over on the way to an announced ancestor. */
  lemma {:induction false} WalkSkipsGaps(t: Tracker, source: nat, cur: BlockId, ev: FinEvent)
    ensures Leaping(source, ev, Walk(t, source, cur, ev))
    decreases cur.slot, 1
  {
    if t.first <= cur.slot < source {
      var stop := FirstSkipped(t.status, cur.slot + 1, source);
      var gap := Range(cur.slot + 1, stop);
      var ev1 := ev.(gaps := ev.gaps + gap);
      if stop == source && Settle(t.status, cur).Fresh? {
        var t1 := t.(status := SkipTo(t.status, cur.slot + 1, stop));
        forall s: nat | cur.slot < s < source
          ensures s in ev1.gaps
        {
          assert ev1.gaps[|ev.gaps| + s - cur.slot - 1] == gap[s - cur.slot - 1] == s;
        }
        ClimbSkipsGaps(t1, source, cur, ev1);
      }
    }
  }

  lemma {:induction false} ClimbSkipsGaps(t: Tracker, source: nat, cur: BlockId, ev: FinEvent)
    requires forall s :: cur.slot < s < source ==> s in ev.gaps
    ensures Leaping(source, ev, Climb(t, cur, ev))
    decreases cur.slot, 0
  {
    var o := Climb(t, cur, ev);
    if o.Done? {
      var ev1 := ev.(ancestors := ev.ancestors + [cur]);
      if cur in t.parents {
        WalkSkipsGaps(SetStatus(t, cur.slot, ImplicitlyFinalized, cur.hash), cur.slot, t.parents[cur], ev1);
      }
      var q := o.event.ancestors;
      assert ev1.ancestors <= q;
      assert q[|ev.ancestors|] == ev1.ancestors[|ev.ancestors|] == cur;
      assert q[|ev.ancestors|..][1..] == q[|ev1.ancestors|..];
      forall s: nat | cur.slot < s < source
        ensures s in o.event.gaps
      {
        InPrefix(ev.gaps, o.event.gaps, s);
      }
    }
  }

  lemma PruneKeeps(t: Tracker, h: History)
    requires Working(t, h)
    ensures Working(Prune(t), h) && t.first <= Prune(t).first && Prune(t).highest == t.highest
  {
    var root := Watermark(t.status, t.first);
    assert root > t.first ==> IsDecided(t.status, root);
  }

  ghost predicate SteppedWell(t: Tracker, h: History, o: Outcome) {
    o.Done? ==> Working(o.tracker, Announce(h, o.event)) && t.first <= o.tracker.first && t.highest <= o.tracker.highest
  }

  lemma NothingAnnounced(h: History)
    ensures Announce(h, NOTHING) == h
  {
  }

  lemma FinalizeKeeps(t: Tracker, h: History, b: BlockId)
    requires Working(t, h) && t.first <= b.slot
    requires b in h.fast || (b in h.notarized && b.slot in h.finals)
    ensures SteppedWell(t, h, Finalize(SetStatus(t, b.slot, Finalized, b.hash), b))
  {
    var ev := NOTHING.(finalized := Some(b));
    var t1 := SetStatus(t, b.slot, Finalized, b.hash).(highest := Max(t.highest, b.slot));
    var g := Announce(h, ev);
    assert g == h.(direct := h.direct + {b});
    ImplicitGroundedGrows(h, g);
    var o := if b in t.parents then Walk(t1, b.slot, t.parents[b], ev) else Done(t1, ev);
    if b in t.parents {
      WalkKeeps(t1, h, b, ev);
    }
    if o.Done? {
      PruneKeeps(o.tracker, Announce(h, o.event));
    }
  }

  lemma EdgeKeeps(t: Tracker, h: History, b: BlockId, p: BlockId)
    requires Working(t, h) && p.slot < b.slot && b !in h.edges
    ensures Working(if b.slot < t.first then t else t.(parents := t.parents[b := p]), h.(edges := h.edges[b := p]))
  {
    var g := h.(edges := h.edges[b := p]);
    ImplicitGroundedGrows(h, g);
    forall s | s in t.status
      ensures StatusGrounded(g, s, t.status[s])
    {
      assert StatusGrounded(h, s, t.status[s]);
    }
  }

  lemma ParentKeeps(t: Tracker, h: History, b: BlockId, p: BlockId)
    requires Working(t, h)
    ensures SteppedWell(t, Note(h, TellParent(b, p)), AddParent(t, b, p))
  {
    var g := Note(h, TellParent(b, p));
    NothingAnnounced(g);
    if b.slot > p.slot && b !in h.edges {
      EdgeKeeps(t, h, b, p);
      if b.slot >= t.first && HoldsFinal(t, b) {
        SpreadKeeps(t.(parents := t.parents[b := p]), g, b);
      }
    }
  }

  /** A new edge out of a finalized block spreads finality at once. */
  lemma SpreadKeeps(t: Tracker, h: History, b: BlockId)
    requires Working(t, h) && b in h.edges
    requires HoldsFinal(t, b)
    ensures SteppedWell(t, h, Pruned(Walk(t, b.slot, h.edges[b], NOTHING)))
  {
    NothingAnnounced(h);
    assert StatusGrounded(h, b.slot, t.status[b.slot]);
    WalkKeeps(t, h, b, NOTHING);
    var o := Walk(t, b.slot, h.edges[b], NOTHING);
    if o.Done? {
      PruneKeeps(o.tracker, Announce(h, o.event));
    }
  }

  lemma FastKeeps(t: Tracker, h: History, b: BlockId)
    requires Working(t, h)
    ensures SteppedWell(t, Note(h, TellFast(b)), MarkFastFinalized(t, b))
  {
    var g := Note(h, TellFast(b));
    NothingAnnounced(g);
    ImplicitGroundedGrows(h, g);
    if b.slot >= t.first {
      FinalizeKeeps(t, g, b);
    }
  }

  lemma NotarKeeps(t: Tracker, h: History, b: BlockId)
    requires Working(t, h)
    ensures SteppedWell(t, Note(h, TellNotar(b)), MarkNotarized(t, b))
  {
    var g := Note(h, TellNotar(b));
    NothingAnnounced(g);
    ImplicitGroundedGrows(h, g);
    if b.slot in t.status && t.status[b.slot].status.FinalPendingNotar? {
      FinalizeKeeps(t, g, b);
    }
  }

  lemma FinalKeeps(t: Tracker, h: History, s: nat)
    requires Working(t, h)
    ensures SteppedWell(t, Note(h, TellFinal(s)), MarkFinalized(t, s))
  {
    var g := Note(h, TellFinal(s));
    NothingAnnounced(g);
    ImplicitGroundedGrows(h, g);
    if s in t.status && t.status[s].status.Notarized? {
      FinalizeKeeps(t, g, BlockId(s, t.status[s].hash));
    }
  }

  /** Every operation keeps the announcements sound and the watermarks growing. */
  lemma StepKeeps(t: Tracker, h: History, op: Op)
    requires Working(t, h)
    ensures SteppedWell(t, Note(h, op), Apply(t, op))
  {
    match op
    case TellParent(b, p) => ParentKeeps(t, h, b, p);
    case TellFast(b) => FastKeeps(t, h, b);
    case TellNotar(b) => NotarKeeps(t, h, b);
    case TellFinal(s) => FinalKeeps(t, h, s);
  }

  /** The tracker and its history after a run that never panicked. */
  ghost function Run(ops: seq<Op>): Option<(Tracker, History)>
  {
    if ops == [] then Some((Genesis(), NoHistory()))
    else
      var last := |ops| - 1;
      var before := Run(ops[..last]);
      if before.None? then None
      else
        var o := Apply(before.value.0, ops[last]);
        if o.Halt? then None else Some((o.tracker, Announce(Note(before.value.1, ops[last]), o.event)))
  }

  /** Over every run: implicit finalizations are ancestors of direct ones, implicit skips are
      leapt over by a finalized block, direct ones are backed by marks, and the lowest
      unpruned slot never passes the highest finalized one. */
  lemma {:induction false} FinalitySound(ops: seq<Op>)
    requires Run(ops).Some?
    ensures Working(Run(ops).value.0, Run(ops).value.1)
  {
    if ops == [] {
    } else {
      var last := |ops| - 1;
      FinalitySound(ops[..last]);
      StepKeeps(Run(ops[..last]).value.0, Run(ops[..last]).value.1, ops[last]);
    }
  }
}
