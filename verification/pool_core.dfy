/** The part of a pool that decides whether a certificate makes it panic: the finality tracker,
    the children parked under their parents and the blocks the slot states know
    (crates/karstflow-alpenglow/src/pool.rs). */
module PoolCore {
  import opened Base
  import opened Epoch
  import opened Certs
  import opened SlotSpec
  import opened SlotStates
  import opened Finality
  import opened Quorums
  import opened PoolSpec
  import opened FinalityHalts

  /** `known` are the blocks whose slot state knows them, `certified` those that were told that
      their parent has a certificate. */
  datatype Core = Core(
    tracker: Tracker,
    told: History,
    waiting: map<BlockId, BlockId>,
    known: iset<BlockId>,
    certified: iset<BlockId>)

  ghost function Start(): Core {
    Core(Genesis(), NoHistory(), map[], iset{}, iset{})
  }

  /** What a certificate says, without who says it. */
  datatype Mark =
    | NotarMark(block: BlockId)
    | FallbackMark(block: BlockId)
    | SkipMark(slot: nat)
    | FastMark(block: BlockId)
    | FinalMark(slot: nat)

  function MarkOf(c: Cert): Mark {
    match c
    case NotarCert(s, h, _, _) => NotarMark(BlockId(s, h))
    case NotarFallbackCert(s, h, _, _, _) => FallbackMark(BlockId(s, h))
    case SkipCert(s, _, _, _) => SkipMark(s)
    case FastFinalCert(s, h, _, _) => FastMark(BlockId(s, h))
    case FinalCert(s, _, _) => FinalMark(s)
  }

  function MarksOf(certs: seq<Cert>): (q: seq<Mark>)
    ensures |q| == |certs| && forall i :: 0 <= i < |q| ==> q[i] == MarkOf(certs[i])
  {
    seq(|certs|, i requires 0 <= i < |certs| => MarkOf(certs[i]))
  }

  /** The blocks at or above the watermark. */
  ghost function From(known: iset<BlockId>, first: nat): iset<BlockId> {
    iset b | b in known && b.slot >= first
  }

  /** The core after a finality operation, unless it panics; what lies below the new watermark
      is forgotten. */
  ghost function Tell(core: Core, op: Op): Option<Core> {
    match Apply(core.tracker, op)
    case Halt => None
    case Done(t, ev) =>
      Some(Core(t, Announce(Note(core.told, op), ev), core.waiting, From(core.known, t.first),
                From(core.certified, t.first)))
  }

  /** A parked child learns that its parent is certified; a forgotten one makes the pool panic. */
  ghost function Notify(core: Core, b: BlockId): Option<Core> {
    if b !in core.waiting then Some(core)
    else if core.waiting[b] !in core.known then None
    else Some(core.(waiting := core.waiting - {b}, certified := core.certified + iset{core.waiting[b]}))
  }

  /** The core after a certificate, unless it makes the pool panic. */
  ghost function Take(core: Core, m: Mark): Option<Core> {
    match m
    case NotarMark(b) =>
      var told := Tell(core, TellNotar(b));
      if told.None? then None else Notify(told.value, b)
    case FallbackMark(b) => Notify(core, b)
    case SkipMark(_) => Some(core)
    case FastMark(b) => Tell(core, TellFast(b))
    case FinalMark(s) => Tell(core, TellFinal(s))
  }

  /** A new block is known, and parked unless its parent has a fallback certificate. */
  ghost function Linked(core: Core, b: BlockId, p: BlockId, certified: bool): Core {
    core.(waiting := if certified then core.waiting else core.waiting[p := b],
          known := core.known + iset{b},
          certified := if certified then core.certified + iset{b} else core.certified)
  }

  ghost function TakeAll(core: Core, marks: seq<Mark>): Option<Core> {
    if marks == [] then Some(core)
    else
      var last := |marks| - 1;
      var before := TakeAll(core, marks[..last]);
      if before.None? then None else Take(before.value, marks[last])
  }

  /** A certificate for a block reaches the child parked under it, and no other block. */
  lemma TakeTellsChild(core: Core, m: Mark, child: BlockId)
    requires Take(core, m).Some? && (m.NotarMark? || m.FallbackMark?)
    ensures var after := Take(core, m).value;
      && m.block !in after.waiting && (forall p :: p in after.waiting ==> p in core.waiting)
      && (child in after.certified <==>
            || (child in core.certified && (m.NotarMark? ==> child.slot >= after.tracker.first))
            || (m.block in core.waiting && core.waiting[m.block] == child))
  {
  }

  /** Of two blocks parked under one parent only the later is told. */
  lemma OnlyLastChildTold(core: Core, a: BlockId, b: BlockId, p: BlockId)
    requires a != b && a !in core.certified
    ensures var parked := Linked(Linked(core, a, p, false), b, p, false);
      && Take(parked, FallbackMark(p)).Some? && a in parked.known
      && b in Take(parked, FallbackMark(p)).value.certified && a !in Take(parked, FallbackMark(p)).value.certified
  {
  }

  lemma TakeAllMore(core: Core, marks: seq<Mark>, i: nat)
    requires i < |marks| && TakeAll(core, marks[..i]).Some?
    ensures TakeAll(core, marks[..i + 1]) == Take(TakeAll(core, marks[..i]).value, marks[i])
  {
    assert marks[..i + 1][..i] == marks[..i];
  }

  /** Once a certificate makes the pool panic, those after it are not reached. */
  lemma {:induction false} TakeAllStops(core: Core, marks: seq<Mark>, i: nat)
    requires i <= |marks| && TakeAll(core, marks[..i]).None?
    ensures TakeAll(core, marks).None?
    decreases |marks| - i
  {
    if i == |marks| {
      assert marks[..i] == marks;
    } else {
      assert marks[..i + 1][..i] == marks[..i];
      TakeAllStops(core, marks, i + 1);
    }
  }

  // ---- the certificates a vote completes ----

  function If(due: bool, m: Mark): seq<Mark> {
    if due then [m] else []
  }

  /** What becomes due with a ballot, in the order in which it is added. */
  function DueMarks(ei: EpochInfo, b: Ballot, t: Totals, certs: SlotCerts): seq<Mark> {
    match b
    case Notar(s, h) =>
      If(FallbackDue(ei, t, certs, h), FallbackMark(BlockId(s, h)))
      + If(NotarDue(ei, t, certs, h), NotarMark(BlockId(s, h)))
      + If(FastFinalDue(ei, t, certs, h), FastMark(BlockId(s, h)))
    case NotarFallback(s, h) => If(FallbackDue(ei, t, certs, h), FallbackMark(BlockId(s, h)))
    case Skip(s) => If(SkipDue(ei, t, certs), SkipMark(s))
    case SkipFallback(s) => If(SkipDue(ei, t, certs), SkipMark(s))
    case Final(s) => If(FinalDue(ei, t, certs), FinalMark(s))
  }

  lemma BuiltMarks(out: seq<Cert>, ei: EpochInfo, slot: nat, b: Ballot, before: Votes, after: Votes,
                   fallbacks: FallbackVotes, t: Totals, certs: SlotCerts)
    requires CertsAre(out, ei, slot, b, before, after, fallbacks, t, certs) && b.slot == slot
    ensures MarksOf(out) == DueMarks(ei, b, t, certs)
  {
    hide AggOf, OptionalAggOf, EpochInfo.IsQuorate, EpochInfo.IsStrong, NotarVoters, SkipVoters, FinalVoters,
         SkipFallbackVoters, FallbackVoters, NotarDue, FastFinalDue, FallbackDue, SkipDue, FinalDue;
    match b
    case Notar(s, h) =>
      var f, n, ff := FallbackDue(ei, t, certs, h), NotarDue(ei, t, certs, h), FastFinalDue(ei, t, certs, h);
      var q := MarksOf(out);
      assert |q| == One(f) + One(n) + One(ff);
      assert f ==> q[0] == FallbackMark(BlockId(s, h));
      assert n ==> q[One(f)] == NotarMark(BlockId(s, h));
      assert ff ==> q[One(f) + One(n)] == FastMark(BlockId(s, h));
      assert q == DueMarks(ei, b, t, certs);
    case _ =>
      assert out != [] ==> MarksOf(out)[0] == MarkOf(out[0]);
  }

  // ---- repair requests ----

  /** A certified block is asked for. */
  function RepairsOf(m: Mark): seq<BlockId> {
    match m
    case NotarMark(b) => [b]
    case FallbackMark(b) => [b]
    case _ => []
  }

  function AllRepairs(marks: seq<Mark>): seq<BlockId> {
    if marks == [] then [] else AllRepairs(marks[..|marks| - 1]) + RepairsOf(marks[|marks| - 1])
  }

  lemma AllRepairsMore(marks: seq<Mark>, i: nat)
    requires i < |marks|
    ensures AllRepairs(marks[..i + 1]) == AllRepairs(marks[..i]) + RepairsOf(marks[i])
  {
    assert marks[..i + 1][..i] == marks[..i];
  }

  /** The requests are those of the slot, in any order, and then the certified blocks. */
  ghost predicate Requests(repairs: seq<BlockId>, slot: nat, wanted: set<BlockHash>, marks: seq<Mark>) {
    exists n :: 0 <= n <= |repairs| && RepairsAre(repairs[..n], slot, wanted) && repairs[n..] == AllRepairs(marks)
  }

  lemma RequestsJoin(asked: seq<BlockId>, slot: nat, wanted: set<BlockHash>, marks: seq<Mark>)
    requires RepairsAre(asked, slot, wanted)
    ensures Requests(asked + AllRepairs(marks), slot, wanted, marks)
  {
    var q := asked + AllRepairs(marks);
    assert q[..|asked|] == asked && q[|asked|..] == AllRepairs(marks);
  }

  // ---- why a known certificate makes the pool panic ----

  /** Children above the watermark are known. */
  ghost predicate Parked(core: Core) {
    forall p :: p in core.waiting && core.waiting[p].slot >= core.tracker.first ==> core.waiting[p] in core.known
  }

  ghost predicate CoreKnown(net: Network, core: Core) {
    Working(core.tracker, core.told) && ToldKnown(net, core.told) && Parked(core)
  }

  ghost predicate MarkKnown(net: Network, m: Mark) {
    match m
    case NotarMark(b) => net.Notarized(b)
    case FallbackMark(b) => net.Certified(b)
    case SkipMark(s) => net.Skipped(s)
    case FastMark(b) => net.FastFinalized(b)
    case FinalMark(s) => net.Finalized(s)
  }

  ghost predicate OpReason(net: Network, core: Core, op: Op) {
    HaltReason(net, core.tracker, core.told, op)
  }

  /** The child parked under the block lies below the watermark. */
  ghost predicate Orphaned(core: Core, b: BlockId) {
    b in core.waiting && core.waiting[b].slot < core.tracker.first
  }

  ghost predicate TakeReason(net: Network, core: Core, m: Mark) {
    match m
    case NotarMark(b) =>
      OpReason(net, core, TellNotar(b)) ||
      (Tell(core, TellNotar(b)).Some? && Orphaned(Tell(core, TellNotar(b)).value, b))
    case FallbackMark(b) => Orphaned(core, b)
    case SkipMark(_) => false
    case FastMark(b) => OpReason(net, core, TellFast(b))
    case FinalMark(s) => OpReason(net, core, TellFinal(s))
  }

  lemma TellKeeps(net: Network, core: Core, op: Op)
    requires CoreKnown(net, core) && OpKnown(net, op) && Tell(core, op).Some?
    ensures CoreKnown(net, Tell(core, op).value)
  {
    StepKeeps(core.tracker, core.told, op);
    ToldGrows(net, core.told, op, Apply(core.tracker, op).event);
  }

  /** Parked children stay known, or fall below the watermark. */
  lemma TellKeepsParked(core: Core, op: Op)
    requires Working(core.tracker, core.told) && Parked(core) && Tell(core, op).Some?
    ensures Working(Tell(core, op).value.tracker, Tell(core, op).value.told) && Parked(Tell(core, op).value)
  {
    StepKeeps(core.tracker, core.told, op);
  }

  lemma TakeKeepsParked(core: Core, m: Mark)
    requires Working(core.tracker, core.told) && Parked(core) && Take(core, m).Some?
    ensures Working(Take(core, m).value.tracker, Take(core, m).value.told) && Parked(Take(core, m).value)
  {
    hide Working, Apply;
    match m
    case NotarMark(b) => TellKeepsParked(core, TellNotar(b));
    case FastMark(b) => TellKeepsParked(core, TellFast(b));
    case FinalMark(s) => TellKeepsParked(core, TellFinal(s));
    case _ =>
  }

  lemma {:induction false} TakeAllKeepsParked(core: Core, marks: seq<Mark>)
    requires Working(core.tracker, core.told) && Parked(core) && TakeAll(core, marks).Some?
    ensures Working(TakeAll(core, marks).value.tracker, TakeAll(core, marks).value.told)
    ensures Parked(TakeAll(core, marks).value)
  {
    if marks != [] {
      var last := |marks| - 1;
      TakeAllKeepsParked(core, marks[..last]);
      TakeKeepsParked(TakeAll(core, marks[..last]).value, marks[last]);
    }
  }

  lemma TakeKeeps(net: Network, core: Core, m: Mark)
    requires CoreKnown(net, core) && MarkKnown(net, m) && Take(core, m).Some?
    ensures CoreKnown(net, Take(core, m).value)
  {
    hide Working, ToldKnown, Apply;
    match m
    case NotarMark(b) => TellKeeps(net, core, TellNotar(b));
    case FastMark(b) => TellKeeps(net, core, TellFast(b));
    case FinalMark(s) => TellKeeps(net, core, TellFinal(s));
    case _ =>
  }

  /** A known certificate makes the pool panic for one of the reasons only. */
  lemma KnownTakeHalts(net: Network, core: Core, m: Mark)
    requires net.Sound() && net.Grounded() && CoreKnown(net, core) && MarkKnown(net, m) && Take(core, m).None?
    ensures TakeReason(net, core, m)
  {
    hide Working, ToldKnown, Apply, HaltReason, Network.Sound, Network.Grounded;
    match m
    case NotarMark(b) =>
      if Tell(core, TellNotar(b)).None? {
        KnownHalt(net, core.tracker, core.told, TellNotar(b));
      } else {
        TellKeeps(net, core, TellNotar(b));
      }
    case FallbackMark(b) =>
    case SkipMark(_) =>
    case FastMark(b) => KnownHalt(net, core.tracker, core.told, TellFast(b));
    case FinalMark(s) => KnownHalt(net, core.tracker, core.told, TellFinal(s));
  }

  /** One of the certificates meets a reason, after those before it were taken. */
  ghost predicate HaltExplained(net: Network, core: Core, marks: seq<Mark>) {
    exists i ::
      0 <= i < |marks| && TakeAll(core, marks[..i]).Some? && TakeReason(net, TakeAll(core, marks[..i]).value, marks[i])
  }

  lemma {:induction false} KnownTakeAllHalts(net: Network, core: Core, marks: seq<Mark>)
    requires net.Sound() && net.Grounded() && CoreKnown(net, core) && forall m :: m in marks ==> MarkKnown(net, m)
    ensures TakeAll(core, marks).Some? ==> CoreKnown(net, TakeAll(core, marks).value)
    ensures TakeAll(core, marks).None? ==> HaltExplained(net, core, marks)
  {
    hide Network.Sound, Network.Grounded, CoreKnown, TakeReason, MarkKnown, Take;
    if marks != [] {
      var last := |marks| - 1;
      var front := marks[..last];
      KnownTakeAllHalts(net, core, front);
      if TakeAll(core, front).Some? {
        var mid := TakeAll(core, front).value;
        assert marks[last] in marks;
        if Take(mid, marks[last]).None? {
          KnownTakeHalts(net, mid, marks[last]);
        } else {
          TakeKeeps(net, mid, marks[last]);
        }
      } else {
        var i :| 0 <= i < |front| && TakeAll(core, front[..i]).Some?
          && TakeReason(net, TakeAll(core, front[..i]).value, front[i]);
        assert front[..i] == marks[..i] && front[i] == marks[i];
      }
    }
  }
}
