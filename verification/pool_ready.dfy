/** What certificates and blocks do to the parents a pool holds ready, and which of these it
    announces (crates/karstflow-alpenglow/src/pool.rs). */
module PoolReady {
  import opened Base
  import opened Certs
  import opened ParentReadiness
  import opened Finality
  import opened VotorSpec
  import opened PoolSpec
  import opened PoolCore

  /** The parent-ready tracker as a value. */
  datatype Ready = Ready(root: nat, states: map<nat, SlotMarks>, marked: set<BlockId>, skipped: set<nat>)
  {
    ghost predicate Listed() {
      Exact(root, states, marked, skipped)
    }
  }

  /** The parents announced by a list of events, in order. */
  function ReadyIn(events: seq<Event>): seq<ReadyPair> {
    if events == [] then []
    else
      var last := events[|events| - 1];
      ReadyIn(events[..|events| - 1]) + if last.ParentReady? then [ReadyPair(last.slot, last.parent)] else []
  }

  ghost predicate NoReady(events: seq<Event>) {
    forall e :: e in events ==> !e.ParentReady?
  }

  lemma {:induction false} ReadyInJoined(a: seq<Event>, b: seq<Event>)
    ensures ReadyIn(a + b) == ReadyIn(a) + ReadyIn(b)
  {
    if b == [] {
      assert a + b == a;
    } else {
      var last := |b| - 1;
      ReadyInJoined(a, b[..last]);
      assert (a + b)[..|a + b| - 1] == a + b[..last];
    }
  }

  lemma {:induction false} NoneReady(events: seq<Event>)
    requires NoReady(events)
    ensures ReadyIn(events) == []
  {
    if events != [] {
      NoneReady(events[..|events| - 1]);
    }
  }

  /** The blocks an announcement names. */
  function Named(ev: FinEvent): seq<BlockId> {
    (if ev.finalized.Some? then [ev.finalized.value] else []) + ev.ancestors
  }

  ghost predicate BestIs(r: Ready, s: Ready, best: Option<ReadyPair>, events: seq<Event>) {
    && ReadyIn(events) == (if best.Some? then [best.value] else [])
    && BestReady(r.root, r.states, s.marked, s.skipped, best)
    && (best.Some? && best.value.slot >= s.root ==> IsNext(r.states, s.states, best.value))
  }

  /** A finality operation: exactly the announced blocks and gaps from the root up are marked, the
      root follows the watermark, and at most one parent is announced, one of the highest slot for
      which any becomes ready, the first of its list. */
  ghost predicate SpreadsReady(t: Tracker, op: Op, r: Ready, s: Ready, events: seq<Event>) {
    Apply(t, op).Done? &&
    var ev := Apply(t, op).event;
    && s.root == Apply(t, op).tracker.first
    && s.marked == r.marked + (set b | b in Named(ev) && b.slot >= r.root)
    && s.skipped == r.skipped + (set g | g in ev.gaps && g >= r.root)
    && exists best :: BestIs(r, s, best, events)
  }

  /** A block gets a certificate: it is marked, and every parent that becomes ready is announced. */
  ghost predicate MarksReady(b: BlockId, r: Ready, s: Ready, events: seq<Event>) {
    && s.root == r.root && s.skipped == r.skipped
    && s.marked == r.marked + (if b.slot >= r.root then {b} else {})
    && ReadyAnnounced(r.states, s.states, events)
  }

  /** A slot gets a skip certificate. */
  ghost predicate SkipsReady(slot: nat, r: Ready, s: Ready, events: seq<Event>) {
    && s.root == r.root && s.marked == r.marked
    && s.skipped == r.skipped + (if slot >= r.root then {slot} else {})
    && ReadyAnnounced(r.states, s.states, events)
  }

  /** First the finality operation of the notarization, then the mark of the block. */
  ghost predicate NotarReady(t: Tracker, b: BlockId, r: Ready, mid: Ready, s: Ready, events: seq<Event>, k: nat)
    requires k <= |events|
  {
    mid.Listed() && SpreadsReady(t, TellNotar(b), r, mid, events[..k]) && MarksReady(b, mid, s, events[k..])
  }

  /** What a certificate does to the ready parents, and which it announces. */
  ghost predicate TakesReady(core: Core, m: Mark, r: Ready, s: Ready, events: seq<Event>) {
    match m
    case NotarMark(b) => exists mid, k :: 0 <= k <= |events| && NotarReady(core.tracker, b, r, mid, s, events, k)
    case FallbackMark(b) => MarksReady(b, r, s, events)
    case SkipMark(slot) => SkipsReady(slot, r, s, events)
    case FastMark(b) => SpreadsReady(core.tracker, TellFast(b), r, s, events)
    case FinalMark(slot) => SpreadsReady(core.tracker, TellFinal(slot), r, s, events)
  }

  /** The same for several certificates, one after the other. */
  ghost predicate TakesAllReady(core: Core, marks: seq<Mark>, r: Ready, s: Ready, events: seq<Event>)
    decreases |marks|
  {
    if marks == [] then s == r && ReadyIn(events) == []
    else
      var last := |marks| - 1;
      TakeAll(core, marks[..last]).Some? &&
      exists mid: Ready, k ::
        && 0 <= k <= |events| && TakesAllReady(core, marks[..last], r, mid, events[..k])
        && ThenTakes(TakeAll(core, marks[..last]).value, marks[last], mid, s, events[k..])
  }

  ghost predicate ThenTakes(core: Core, m: Mark, mid: Ready, s: Ready, events: seq<Event>) {
    mid.Listed() && TakesReady(core, m, mid, s, events)
  }

  // ---- events that announce no parent ----

  lemma BestIsQuiet(r: Ready, s: Ready, best: Option<ReadyPair>, events: seq<Event>, more: seq<Event>)
    requires BestIs(r, s, best, events) && NoReady(more)
    ensures BestIs(r, s, best, events + more)
  {
    ReadyInJoined(events, more);
    NoneReady(more);
  }

  lemma SpreadsQuiet(t: Tracker, op: Op, r: Ready, s: Ready, events: seq<Event>, more: seq<Event>)
    requires SpreadsReady(t, op, r, s, events) && NoReady(more)
    ensures SpreadsReady(t, op, r, s, events + more)
  {
    hide BestIs;
    var best :| BestIs(r, s, best, events);
    BestIsQuiet(r, s, best, events, more);
  }

  lemma MarksQuiet(b: BlockId, r: Ready, s: Ready, events: seq<Event>, more: seq<Event>)
    requires MarksReady(b, r, s, events) && NoReady(more)
    ensures MarksReady(b, r, s, events + more)
  {
  }

  lemma SkipsQuiet(slot: nat, r: Ready, s: Ready, events: seq<Event>, more: seq<Event>)
    requires SkipsReady(slot, r, s, events) && NoReady(more)
    ensures SkipsReady(slot, r, s, events + more)
  {
  }

  lemma TakesQuiet(core: Core, m: Mark, r: Ready, s: Ready, events: seq<Event>, more: seq<Event>)
    requires TakesReady(core, m, r, s, events) && NoReady(more)
    ensures TakesReady(core, m, r, s, events + more)
  {
    hide SpreadsReady, MarksReady, SkipsReady;
    match m
    case NotarMark(b) =>
      var mid, k :| 0 <= k <= |events| && NotarReady(core.tracker, b, r, mid, s, events, k);
      MarksQuiet(b, mid, s, events[k..], more);
      assert (events + more)[..k] == events[..k] && (events + more)[k..] == events[k..] + more;
      assert NotarReady(core.tracker, b, r, mid, s, events + more, k);
    case FallbackMark(b) => MarksQuiet(b, r, s, events, more);
    case SkipMark(slot) => SkipsQuiet(slot, r, s, events, more);
    case FastMark(b) => SpreadsQuiet(core.tracker, TellFast(b), r, s, events, more);
    case FinalMark(slot) => SpreadsQuiet(core.tracker, TellFinal(slot), r, s, events, more);
  }

  lemma NothingTaken(core: Core, marks: seq<Mark>, r: Ready, s: Ready, events: seq<Event>)
    requires marks == []
    ensures TakesAllReady(core, marks, r, s, events) <==> s == r && ReadyIn(events) == []
  {
  }

  lemma LastTaken(core: Core, marks: seq<Mark>, r: Ready, s: Ready, events: seq<Event>) returns (mid: Ready, k: nat)
    requires marks != [] && TakesAllReady(core, marks, r, s, events)
    ensures k <= |events| && TakeAll(core, marks[..|marks| - 1]).Some?
    ensures TakesAllReady(core, marks[..|marks| - 1], r, mid, events[..k])
    ensures ThenTakes(TakeAll(core, marks[..|marks| - 1]).value, marks[|marks| - 1], mid, s, events[k..])
  {
    hide ThenTakes, TakeAll, ReadyIn;
    mid, k :|
      && 0 <= k <= |events| && TakesAllReady(core, marks[..|marks| - 1], r, mid, events[..k])
      && ThenTakes(TakeAll(core, marks[..|marks| - 1]).value, marks[|marks| - 1], mid, s, events[k..]);
  }

  /** Events before the first certificate. */
  lemma {:induction false} TakesAllAfter(core: Core, marks: seq<Mark>, r: Ready, s: Ready, events: seq<Event>,
                                         before: seq<Event>)
    requires TakesAllReady(core, marks, r, s, events) && NoReady(before)
    ensures TakesAllReady(core, marks, r, s, before + events)
    decreases |marks|
  {
    hide TakesAllReady, ThenTakes, TakeAll, ReadyIn, NoReady;
    if marks == [] {
      ReadyInJoined(before, events);
      NoneReady(before);
      NothingTaken(core, marks, r, s, events);
      NothingTaken(core, marks, r, s, before + events);
    } else {
      var mid, k := LastTaken(core, marks, r, s, events);
      TakesAllAfter(core, marks[..|marks| - 1], r, mid, events[..k], before);
      TakesAllThen(core, marks, r, mid, s, before + events[..k], events[k..]);
      assert before + events[..k] + events[k..] == before + events;
    }
  }

  /** One certificate more. */
  lemma TakesAllMore(core: Core, marks: seq<Mark>, i: nat, r: Ready, mid: Ready, s: Ready, events: seq<Event>,
                     more: seq<Event>)
    requires i < |marks| && TakeAll(core, marks[..i]).Some? && mid.Listed()
    requires TakesAllReady(core, marks[..i], r, mid, events)
    requires TakesReady(TakeAll(core, marks[..i]).value, marks[i], mid, s, more)
    ensures TakesAllReady(core, marks[..i + 1], r, s, events + more)
  {
    hide TakesReady, TakeAll, TakesAllReady;
    var front := marks[..i + 1];
    assert front[..|front| - 1] == marks[..i] && front[|front| - 1] == marks[i];
    TakesAllThen(core, front, r, mid, s, events, more);
  }

  lemma TakesAllThen(core: Core, marks: seq<Mark>, r: Ready, mid: Ready, s: Ready, events: seq<Event>,
                     more: seq<Event>)
    requires marks != [] && TakeAll(core, marks[..|marks| - 1]).Some?
    requires TakesAllReady(core, marks[..|marks| - 1], r, mid, events)
    requires ThenTakes(TakeAll(core, marks[..|marks| - 1]).value, marks[|marks| - 1], mid, s, more)
    ensures TakesAllReady(core, marks, r, s, events + more)
  {
    hide ThenTakes, TakeAll, ReadyIn;
    var k := |events|;
    assert (events + more)[..k] == events && (events + more)[k..] == more;
  }

  /** The parts of a notarization. */
  lemma NotarTakes(core: Core, b: BlockId, r: Ready, mid: Ready, s: Ready, first: seq<Event>, second: seq<Event>)
    requires mid.Listed() && SpreadsReady(core.tracker, TellNotar(b), r, mid, first) && MarksReady(b, mid, s, second)
    ensures TakesReady(core, NotarMark(b), r, s, first + second)
  {
    hide SpreadsReady, MarksReady;
    var events, k := first + second, |first|;
    assert events[..k] == first && events[k..] == second;
    assert NotarReady(core.tracker, b, r, mid, s, events, k);
  }
}
