/** What a pool may announce: which certificates count as the same announcement, and why
    every event rests on votes that were really cast
    (crates/karstflow-alpenglow/src/pool.rs). */
module PoolSpec {
  import opened Base
  import opened Epoch
  import AggSig
  import opened Certs
  import opened SlotSpec
  import opened SlotStates
  import opened SlotMeaning
  import opened ParentReadiness
  import Finality
  import opened VotorSpec
  import opened Quorums
  import opened Agreement
  import opened Schedules

  // ---- single announcement ----

  /** Certificates with one key are the same announcement. */
  datatype Key =
    | NotarKey(slot: nat)
    | FallbackKey(slot: nat, hash: BlockHash)
    | SkipKey(slot: nat)
    | FastFinalKey(slot: nat)
    | FinalKey(slot: nat)

  function KeyOf(c: Cert): Key {
    match c
    case NotarCert(s, _, _, _) => NotarKey(s)
    case NotarFallbackCert(s, h, _, _, _) => FallbackKey(s, h)
    case SkipCert(s, _, _, _) => SkipKey(s)
    case FastFinalCert(s, _, _, _) => FastFinalKey(s)
    case FinalCert(s, _, _) => FinalKey(s)
  }

  /** A certificate with this key is stored in the slot's state. */
  ghost predicate Holds(certs: SlotCerts, k: Key) {
    match k
    case NotarKey(_) => certs.notar.Some?
    case FallbackKey(_, h) => HasFallbackCert(certs, h)
    case SkipKey(_) => certs.skip.Some?
    case FastFinalKey(_) => certs.fastFinal.Some?
    case FinalKey(_) => certs.final.Some?
  }

  lemma StoreHolds(certs: SlotCerts, c: Cert, k: Key)
    requires k.slot == c.slot
    ensures Holds(StoreCert(certs, c), k) <==> Holds(certs, k) || k == KeyOf(c)
  {
  }

  lemma StoredIsHeld(certs: SlotCerts, c: Cert)
    ensures IsStored(certs, c) <==> Holds(certs, KeyOf(c))
  {
  }

  /** The certificate events of a list carry exactly the keys of `news`, each once. */
  ghost predicate Announces(events: seq<Event>, news: set<Key>) {
    && (forall i :: 0 <= i < |events| && events[i].CertCreated? ==> KeyOf(events[i].cert) in news)
    && (forall i, j :: 0 <= i < j < |events| && events[i].CertCreated? && events[j].CertCreated? ==>
          KeyOf(events[i].cert) != KeyOf(events[j].cert))
    && (forall k :: k in news ==> exists i :: 0 <= i < |events| && events[i].CertCreated? && KeyOf(events[i].cert) == k)
  }

  lemma AnnouncesAppend(a: seq<Event>, b: seq<Event>, m: set<Key>, n: set<Key>)
    requires Announces(a, m) && Announces(b, n) && m !! n
    ensures Announces(a + b, m + n)
  {
    var q := a + b;
    forall k | k in m + n
      ensures exists i :: 0 <= i < |q| && q[i].CertCreated? && KeyOf(q[i].cert) == k
    {
      if k in m {
        var i :| 0 <= i < |a| && a[i].CertCreated? && KeyOf(a[i].cert) == k;
        assert q[i] == a[i];
      } else {
        var i :| 0 <= i < |b| && b[i].CertCreated? && KeyOf(b[i].cert) == k;
        assert q[|a| + i] == b[i];
      }
    }
  }

  ghost function KeysOf(certs: seq<Cert>): set<Key> {
    set c | c in certs :: KeyOf(c)
  }

  lemma KeysOfPrefix(certs: seq<Cert>, i: nat)
    requires i < |certs| && forall i, j :: 0 <= i < j < |certs| ==> KeyOf(certs[i]) != KeyOf(certs[j])
    ensures KeysOf(certs[..i + 1]) == KeysOf(certs[..i]) + {KeyOf(certs[i])} && KeyOf(certs[i]) !in KeysOf(certs[..i])
  {
  }

  // ---- what the pool holds, slot by slot ----

  datatype SlotView = SlotView(
    votes: Votes,
    fallbacks: FallbackVotes,
    totals: Totals,
    certs: SlotCerts,
    sent: set<BlockHash>,
    fired: bool)

  const EMPTY_VIEW: SlotView := SlotView(map[], {}, NO_STAKE, NO_CERTS, {}, false)

  type Book = map<nat, SlotView>

  ghost function ViewAt(book: Book, s: nat): SlotView {
    if s in book then book[s] else EMPTY_VIEW
  }

  /** From the watermark up nothing changed. */
  ghost predicate SameAbove(before: Book, after: Book, first: nat) {
    forall s: nat :: s >= first ==> ViewAt(after, s) == ViewAt(before, s)
  }

  ghost predicate KeepsVotes(before: Book, after: Book, first: nat) {
    forall s: nat :: s >= first ==>
      && ViewAt(after, s).votes == ViewAt(before, s).votes && ViewAt(after, s).fallbacks == ViewAt(before, s).fallbacks
      && ViewAt(after, s).totals == ViewAt(before, s).totals
  }

  ghost predicate KeepsCerts(before: Book, after: Book, first: nat) {
    forall s: nat :: s >= first ==> ViewAt(after, s).certs == ViewAt(before, s).certs
  }

  /** One more certificate is stored. */
  ghost predicate StoresCert(before: Book, after: Book, c: Cert, first: nat) {
    forall s: nat :: s >= first ==>
      ViewAt(after, s).certs == if s == c.slot then StoreCert(ViewAt(before, s).certs, c) else ViewAt(before, s).certs
  }

  /** One more vote is stored and counted. */
  ghost predicate Enters(before: Book, after: Book, v: nat, b: Ballot, stake: nat, first: nat) {
    forall s: nat :: s >= first ==>
      if s == b.slot then
        && ViewAt(after, s).votes == Store(ViewAt(before, s).votes, v, b)
        && ViewAt(after, s).fallbacks == StoreFallback(ViewAt(before, s).fallbacks, v, b)
        && ViewAt(after, s).totals == Count(ViewAt(before, s).totals, b, stake)
      else
        && ViewAt(after, s).votes == ViewAt(before, s).votes
        && ViewAt(after, s).fallbacks == ViewAt(before, s).fallbacks
        && ViewAt(after, s).totals == ViewAt(before, s).totals
  }

  /** The events report exactly the blocks and slots newly recorded as reported. */
  ghost predicate Reports(before: Book, after: Book, events: seq<Event>, first: nat) {
    && (forall s: nat, h: BlockHash :: s >= first ==>
          && (h in ViewAt(before, s).sent ==> h in ViewAt(after, s).sent)
          && (SafeToNotar(BlockId(s, h)) in events <==> h in ViewAt(after, s).sent && h !in ViewAt(before, s).sent))
    && (forall s: nat :: s >= first ==>
          && (ViewAt(before, s).fired ==> ViewAt(after, s).fired)
          && (SafeToSkip(s) in events <==> ViewAt(after, s).fired && !ViewAt(before, s).fired))
  }

  ghost predicate Steady(before: Book, after: Book, events: seq<Event>, first: nat) {
    KeepsVotes(before, after, first) && KeepsCerts(before, after, first) && Reports(before, after, events, first)
  }

  ghost predicate NoSafeEvents(events: seq<Event>) {
    forall e :: e in events ==> !e.SafeToNotar? && !e.SafeToSkip?
  }

  lemma SameIsSteady(before: Book, after: Book, events: seq<Event>, first: nat)
    requires SameAbove(before, after, first) && NoSafeEvents(events)
    ensures Steady(before, after, events, first)
  {
  }

  lemma SteadyReports(before: Book, after: Book, events: seq<Event>, first: nat)
    requires Steady(before, after, events, first)
    ensures Reports(before, after, events, first)
  {
  }

  lemma ReportsAppend(a: Book, b: Book, c: Book, e: seq<Event>, f: seq<Event>, first: nat, later: nat)
    requires Reports(a, b, e, first) && Reports(b, c, f, later) && first <= later
    ensures Reports(a, c, e + f, later)
  {
  }

  lemma SteadyAppend(a: Book, b: Book, c: Book, e: seq<Event>, f: seq<Event>, first: nat, later: nat)
    requires Steady(a, b, e, first) && Steady(b, c, f, later) && first <= later
    ensures Steady(a, c, e + f, later)
  {
  }

  /** One block of one slot may be newly reported. */
  lemma ChangedSent(before: Book, after: Book, slot: nat, h: BlockHash, sent: set<BlockHash>, events: seq<Event>)
    requires slot in before && after == before[slot := before[slot].(sent := sent)]
    requires before[slot].sent <= sent <= before[slot].sent + {h}
    requires events == if h in sent && h !in before[slot].sent then [SafeToNotar(BlockId(slot, h))] else []
    ensures Steady(before, after, events, 0)
  {
  }

  lemma ChangedCerts(before: Book, after: Book, c: Cert)
    requires c.slot in before && after == before[c.slot := before[c.slot].(certs := StoreCert(before[c.slot].certs, c))]
    ensures KeepsVotes(before, after, 0) && StoresCert(before, after, c, 0) && Reports(before, after, [], 0)
  {
  }

  lemma SameIsSteadyWith(book: Book, events: seq<Event>, first: nat)
    requires NoSafeEvents(events)
    ensures Steady(book, book, events, first)
  {
  }

  lemma SteadyLater(before: Book, after: Book, events: seq<Event>, first: nat)
    requires Steady(before, after, events, 0)
    ensures Steady(before, after, events, first)
  {
  }

  /** A stored certificate and what follows from it, with its announcement. */
  lemma StoredThenSteady(a: Book, b: Book, c: Book, cert: Cert, events: seq<Event>, first: nat)
    requires KeepsVotes(a, b, 0) && StoresCert(a, b, cert, 0) && Reports(a, b, [], 0) && Steady(b, c, events, first)
    ensures KeepsVotes(a, c, first) && StoresCert(a, c, cert, first)
    ensures Reports(a, c, events + [CertCreated(cert)], first)
  {
  }

  /** The parent-ready events are exactly the pairs newly listed as ready. */
  ghost predicate ReadyAnnounced(before: map<nat, SlotMarks>, after: map<nat, SlotMarks>, events: seq<Event>) {
    forall s: nat, b: BlockId :: ParentReady(s, b) in events <==>
      b in ParentReadiness.At(after, s).ready && b !in ParentReadiness.At(before, s).ready
  }

  lemma OnlyReadyCounts(before: map<nat, SlotMarks>, after: map<nat, SlotMarks>, others: seq<Event>, ready: seq<Event>)
    requires ReadyAnnounced(before, after, ready) && forall e :: e in others ==> !e.ParentReady?
    ensures ReadyAnnounced(before, after, others + ready)
  {
  }

  lemma CertEventIsQuiet(before: map<nat, SlotMarks>, after: map<nat, SlotMarks>, events: seq<Event>, c: Cert)
    ensures ReadyAnnounced(before, after, events) ==> ReadyAnnounced(before, after, events + [CertCreated(c)])
  {
  }

  // ---- certificates that are due ----

  /** The threshold behind the key is met, by `h` where it matters, and nothing is stored. */
  ghost predicate Due(ei: EpochInfo, t: Totals, certs: SlotCerts, k: Key, h: BlockHash) {
    match k
    case NotarKey(_) => NotarDue(ei, t, certs, h)
    case FallbackKey(_, g) => g == h && FallbackDue(ei, t, certs, h)
    case SkipKey(_) => SkipDue(ei, t, certs)
    case FastFinalKey(_) => FastFinalDue(ei, t, certs, h)
    case FinalKey(_) => FinalDue(ei, t, certs)
  }

  /** From the watermark up, at most the certificates of `keys` are due. */
  ghost predicate OnlyDue(ei: EpochInfo, book: Book, first: nat, keys: set<Key>) {
    forall k: Key, h: BlockHash ::
      k.slot >= first && Due(ei, ViewAt(book, k.slot).totals, ViewAt(book, k.slot).certs, k, h) ==> k in keys
  }

  lemma DueUnlessStored(ei: EpochInfo, t: Totals, certs: SlotCerts, c: Cert, k: Key, h: BlockHash)
    requires Due(ei, t, StoreCert(certs, c), k, h) && k.slot == c.slot
    ensures Due(ei, t, certs, k, h) && k != KeyOf(c)
  {
  }

  /** Storing a certificate settles its key. */
  lemma StoredIsSettled(ei: EpochInfo, before: Book, after: Book, c: Cert, first: nat, later: nat, keys: set<Key>)
    requires OnlyDue(ei, before, first, keys) && first <= later
    requires KeepsVotes(before, after, later) && StoresCert(before, after, c, later)
    ensures OnlyDue(ei, after, later, keys - {KeyOf(c)})
  {
    forall k: Key, h: BlockHash | k.slot >= later &&
      Due(ei, ViewAt(after, k.slot).totals, ViewAt(after, k.slot).certs, k, h)
      ensures k in keys - {KeyOf(c)}
    {
      if k.slot == c.slot {
        DueUnlessStored(ei, ViewAt(before, k.slot).totals, ViewAt(before, k.slot).certs, c, k, h);
      }
    }
  }

  lemma SteadyIsSettled(ei: EpochInfo, before: Book, after: Book, first: nat, later: nat, keys: set<Key>)
    requires OnlyDue(ei, before, first, keys) && first <= later
    requires KeepsVotes(before, after, later) && KeepsCerts(before, after, later)
    ensures OnlyDue(ei, after, later, keys)
  {
  }

  /** What becomes due with a vote is among the certificates built for it. */
  lemma DueIsBuilt(out: seq<Cert>, ei: EpochInfo, slot: nat, b: Ballot, before: Votes, after: Votes,
                   fallbacks: FallbackVotes,
                   t: Totals, stake: nat, certs: SlotCerts, k: Key, h: BlockHash)
    requires CertsAre(out, ei, slot, b, before, after, fallbacks, Count(t, b, stake), certs)
    requires !Due(ei, t, certs, k, h) && Due(ei, Count(t, b, stake), certs, k, h) && k.slot == slot
    ensures k in KeysOf(out)
  {
    hide AggOf, OptionalAggOf, EpochInfo.IsQuorate, EpochInfo.IsStrong, NotarVoters, SkipVoters, FinalVoters,
         SkipFallbackVoters, FallbackVoters;
    var t' := Count(t, b, stake);
    if b.Notar? {
      assert h == b.hash;
      var f, n, ff := FallbackDue(ei, t', certs, h), NotarDue(ei, t', certs, h), FastFinalDue(ei, t', certs, h);
      match k
      case FallbackKey(_, _) => assert out[0] in out && KeyOf(out[0]) == k;
      case NotarKey(_) => assert out[One(f)] in out && KeyOf(out[One(f)]) == k;
      case FastFinalKey(_) => assert out[One(f) + One(n)] in out && KeyOf(out[One(f) + One(n)]) == k;
      case _ =>
    } else {
      assert out[0] in out && KeyOf(out[0]) == k;
    }
  }

  /** None of these was announced, and no two are the same announcement. */
  ghost predicate NotAnnounced(certs: seq<Cert>, announced: set<Key>) {
    && (forall i :: 0 <= i < |certs| ==> KeyOf(certs[i]) !in announced)
    && (forall i, j :: 0 <= i < j < |certs| ==> KeyOf(certs[i]) != KeyOf(certs[j]))
  }

  lemma KeysOfSuffix(certs: seq<Cert>, i: nat)
    requires i < |certs| && forall i, j :: 0 <= i < j < |certs| ==> KeyOf(certs[i]) != KeyOf(certs[j])
    ensures KeysOf(certs[i..]) - {KeyOf(certs[i])} == KeysOf(certs[i + 1..])
  {
  }

  lemma AllKeysLeft(certs: seq<Cert>)
    ensures KeysOf(certs[0..]) == KeysOf(certs) && KeysOf(certs[..0]) == {}
  {
  }

  lemma NoKeysLeft(certs: seq<Cert>)
    ensures KeysOf(certs[|certs|..]) == {}
  {
  }

  /** How one slot's view changes with a vote. */
  ghost predicate VotedView(ei: EpochInfo, was: SlotView, now: SlotView, v: nat, b: Ballot, stake: nat, so: Outputs) {
    && now.votes == Store(was.votes, v, b) && now.fallbacks == StoreFallback(was.fallbacks, v, b)
    && now.totals == Count(was.totals, b, stake) && now.certs == was.certs
    && was.sent <= now.sent && (was.fired ==> now.fired)
    && EventsAre(so.events, b.slot, now.sent - was.sent, !was.fired && now.fired)
    && CertsAre(so.certs, ei, b.slot, b, was.votes, now.votes, was.fallbacks, now.totals, was.certs)
  }

  /** One slot's vote, seen from the whole pool. */
  lemma Voted(ei: EpochInfo, before: Book, after: Book, now: SlotView, v: nat, b: Ballot, stake: nat, so: Outputs,
              first: nat)
    requires b.slot in before && after == before[b.slot := now]
    requires VotedView(ei, before[b.slot], now, v, b, stake, so)
    requires OnlyDue(ei, before, first, {}) && b.slot >= first
    ensures Enters(before, after, v, b, stake, 0) && KeepsCerts(before, after, 0)
    ensures Reports(before, after, AllToVotor(so.events), 0)
    ensures OnlyDue(ei, after, first, KeysOf(so.certs))
  {
    VotedReports(before, after, b.slot, before[b.slot], now, so.events);
    hide Reports, EventsAre, CertsAre, Store, StoreFallback;
    forall k: Key, h: BlockHash | k.slot >= first &&
      Due(ei, ViewAt(after, k.slot).totals, ViewAt(after, k.slot).certs, k, h)
      ensures k in KeysOf(so.certs)
    {
      var was := before[b.slot];
      assert !Due(ei, ViewAt(before, k.slot).totals, ViewAt(before, k.slot).certs, k, h);
      if k.slot == b.slot {
        DueIsBuilt(so.certs, ei, b.slot, b, was.votes, now.votes, was.fallbacks, was.totals, stake, was.certs, k, h);
      }
    }
  }

  /** A vote enters between two stretches without votes. */
  lemma EntersBetween(a: Book, b: Book, c: Book, d: Book, v: nat, ballot: Ballot, stake: nat, first: nat)
    requires SameAbove(a, b, 0) && Enters(b, c, v, ballot, stake, 0) && KeepsVotes(c, d, first)
    ensures Enters(a, d, v, ballot, stake, first)
  {
  }

  lemma VotedReports(before: Book, after: Book, slot: nat, was: SlotView, now: SlotView, events: seq<SlotEvent>)
    requires slot in before && before[slot] == was && after == before[slot := now]
    requires was.sent <= now.sent && (was.fired ==> now.fired)
    requires EventsAre(events, slot, now.sent - was.sent, !was.fired && now.fired)
    ensures Reports(before, after, AllToVotor(events), 0)
  {
    var q := AllToVotor(events);
    forall e: SlotEvent
      ensures ToVotor(e) in q <==> e in events
    {
      if e in events {
        var i :| 0 <= i < |events| && events[i] == e;
        assert q[i] == ToVotor(e);
      }
    }
    forall s: nat, h: BlockHash
      ensures SafeToNotar(BlockId(s, h)) in q <==> h in ViewAt(after, s).sent && h !in ViewAt(before, s).sent
    {
      assert SafeToNotar(BlockId(s, h)) == ToVotor(SafeNotarEvent(BlockId(s, h)));
    }
    forall s: nat
      ensures SafeToSkip(s) in q <==> ViewAt(after, s).fired && !ViewAt(before, s).fired
    {
      assert SafeToSkip(s) == ToVotor(SafeSkipEvent(s));
    }
  }

  // ---- what rests on cast votes ----

  /** The quorum a certificate stands for exists in the network. */
  ghost predicate CertKnown(net: Network, c: Cert) {
    match c
    case NotarCert(s, h, _, _) => net.Notarized(BlockId(s, h))
    case NotarFallbackCert(s, h, _, _, _) => net.Certified(BlockId(s, h))
    case SkipCert(s, _, _, _) => net.Skipped(s)
    case FastFinalCert(s, h, _, _) => net.FastFinalized(BlockId(s, h))
    case FinalCert(s, _, _) => net.Finalized(s)
  }

  /** A certified parent really is one. */
  ghost predicate ParentsKnown(net: Network, slot: nat, parents: map<BlockHash, ParentStatus>) {
    forall h :: IsCertified(parents, h) ==> net.ValidParent(net.parents(BlockId(slot, h)))
  }

  /** Whoever has a notar and a notar-fallback vote for one block is among the doubles. */
  ghost predicate DoublesNamed(doubles: set<nat>, votes: Votes, fallbacks: FallbackVotes) {
    forall p :: p in fallbacks && Of(votes, p.0).notar == Some(p.1) ==> p.0 in doubles
  }

  /** The vote makes its signer a double voter. */
  ghost predicate IsDouble(votes: Votes, fallbacks: FallbackVotes, v: nat, b: Ballot) {
    (b.Notar? && (v, b.hash) in fallbacks) || (b.NotarFallback? && Of(votes, v).notar == Some(b.hash))
  }

  /** What a slot state holds is true of the network. */
  ghost predicate EntryKnown(net: Network, slot: nat, votes: Votes, fallbacks: FallbackVotes,
                             parents: map<BlockHash, ParentStatus>) {
    && Authored(net, slot, votes, fallbacks) && DoublesNamed(net.doubles, votes, fallbacks)
    && ParentsKnown(net, slot, parents)
  }

  /** The blocks announced with a fallback certificate are certified, and the slots with a
      skip certificate skipped. */
  ghost predicate AnnouncedKnown(net: Network, announced: set<Key>) {
    && (forall k :: k in announced && k.FallbackKey? ==> net.Certified(BlockId(k.slot, k.hash)))
    && (forall k :: k in announced && k.SkipKey? ==> net.Skipped(k.slot))
  }

  ghost predicate ReadyKnown(net: Network, marked: set<BlockId>, skipped: set<nat>) {
    (forall b :: b in marked ==> net.ValidParent(b)) && (forall s :: s in skipped ==> net.Skipped(s))
  }

  /** What the finality tracker was told is true of the network. */
  ghost predicate ToldKnown(net: Network, h: Finality.History) {
    && (forall b :: b in h.edges ==> net.parents(b) == h.edges[b])
    && (forall b :: b in h.notarized ==> net.Notarized(b) || b == GenesisBlock())
    && (forall b :: b in h.fast ==> net.FastFinalized(b))
    && (forall s :: s in h.finals ==> net.Finalized(s))
  }

  ghost predicate OpKnown(net: Network, op: Finality.Op) {
    match op
    case TellParent(b, p) => net.parents(b) == p
    case TellFast(b) => net.FastFinalized(b)
    case TellNotar(b) => net.Notarized(b)
    case TellFinal(s) => net.Finalized(s)
  }

  ghost predicate AllJustified(net: Network, events: seq<Event>) {
    forall e :: e in events ==> net.Justified(e)
  }

  datatype AddError =
    SlotOutOfBounds | UnknownSigner | InvalidSignature | Duplicate | Slashable(offence: Offence) | ThresholdNotMet

  datatype AddResult = Added | Rejected(error: AddError) | Panicked

  /** Every event is one the voting process takes from a pool. */
  ghost predicate Deliverable(events: seq<Event>) {
    forall e :: e in events ==> ValidEvent(e) && (e.ParentReady? || e.SafeToNotar? || e.SafeToSkip? || e.CertCreated?)
  }

  ghost predicate NoCertEvents(events: seq<Event>) {
    forall e :: e in events ==> !e.CertCreated?
  }

  lemma AnnouncedLast(events: seq<Event>, c: Cert)
    requires NoCertEvents(events)
    ensures Announces(events + [CertCreated(c)], {KeyOf(c)})
  {
    var q := events + [CertCreated(c)];
    assert forall i :: 0 <= i < |events| ==> q[i] in events;
    assert q[|events|] == CertCreated(c);
  }

  /** The parent of a valid parent is one, and the slots leapt over are skipped. */
  lemma ValidParentOf(net: Network, b: BlockId, p: BlockId)
    requires net.Sound() && net.Grounded() && net.ValidParent(b) && net.parents(b) == p && p.slot < b.slot
    ensures net.ValidParent(p) && forall s :: p.slot < s < b.slot ==> net.Skipped(s)
  {
    ParentJustified(net, b);
  }

  lemma {:induction false} AncestorKnown(net: Network, edges: map<BlockId, BlockId>, a: BlockId, b: BlockId)
    requires net.Sound() && net.Grounded() && net.ValidParent(b)
    requires forall x :: x in edges ==> net.parents(x) == edges[x]
    requires Finality.Ancestor(edges, a, b)
    ensures net.ValidParent(a)
    decreases b.slot
  {
    ValidParentOf(net, b, edges[b]);
    if edges[b] != a {
      AncestorKnown(net, edges, a, edges[b]);
    }
  }

  lemma DirectKnown(net: Network, h: Finality.History, d: BlockId)
    requires Finality.DirectGrounded(h) && ToldKnown(net, h) && d in h.direct
    ensures net.ValidParent(d)
  {
    if d in h.fast {
      StrongIsQuorum(net, d);
    }
    if d != GenesisBlock() {
      NotarizedIsCertified(net, d);
    }
  }

  /** Everything the tracker announces is true: finalized blocks and their implicitly
      finalized ancestors are valid parents, implicitly skipped slots are skipped. */
  lemma FinalityKnown(net: Network, t: Finality.Tracker, h: Finality.History)
    requires net.Sound() && net.Grounded() && Finality.Working(t, h) && ToldKnown(net, h)
    ensures forall b :: b in h.direct || b in h.implicit ==> net.ValidParent(b)
    ensures forall s :: s in h.skipped ==> net.Skipped(s)
  {
    forall d | d in h.direct
      ensures net.ValidParent(d)
    {
      DirectKnown(net, h, d);
    }
    forall b | b in h.implicit
      ensures net.ValidParent(b)
    {
      assert Finality.IsImplied(h, b);
      var d :| d in h.direct && Finality.Ancestor(h.edges, b, d);
      AncestorKnown(net, h.edges, b, d);
    }
    forall s | s in h.skipped
      ensures net.Skipped(s)
    {
      assert Finality.IsLeapt(h, s);
      var x :| Finality.Settled(h, x) && x in h.edges && h.edges[x].slot < s < x.slot;
      ValidParentOf(net, x, h.edges[x]);
    }
  }

  lemma ToldGrows(net: Network, told: Finality.History, op: Finality.Op, ev: Finality.FinEvent)
    requires ToldKnown(net, told) && OpKnown(net, op)
    ensures ToldKnown(net, Finality.Announce(Finality.Note(told, op), ev))
  {
    hide Network.Notarized, Network.FastFinalized, Network.Finalized;
  }

  /** What a new pool holds is true of every network. */
  lemma GenesisKnown(net: Network)
    ensures ReadyKnown(net, {GenesisBlock()}, {}) && ToldKnown(net, Finality.NoHistory()) && AnnouncedKnown(net, {})
  {
  }

  lemma NothingDue(ei: EpochInfo, first: nat)
    requires ei.totalStake > 0
    ensures OnlyDue(ei, map[], first, {})
  {
  }

  /** What a finality step announces may be marked. */
  lemma SpreadKnown(net: Network, t: Finality.Tracker, told: Finality.History, op: Finality.Op, ev: Finality.FinEvent,
                    root: nat, marked: set<BlockId>, skipped: set<nat>)
    requires net.Sound() && net.Grounded() && ToldKnown(net, told) && OpKnown(net, op)
    requires ReadyKnown(net, marked, skipped)
    requires Finality.Working(t, Finality.Announce(Finality.Note(told, op), ev))
    ensures ToldKnown(net, Finality.Announce(Finality.Note(told, op), ev))
    ensures var blocks := (if ev.finalized.Some? then [ev.finalized.value] else []) + ev.ancestors;
      ReadyKnown(net, marked + AtOrAbove(root, blocks), skipped + SlotsAtOrAbove(root, ev.gaps))
  {
    hide ToldKnown, OpKnown, Finality.Working, Network.Sound, Network.Grounded, Network.ValidParent, Network.Skipped,
         Finality.Note;
    var h := Finality.Announce(Finality.Note(told, op), ev);
    ToldGrows(net, told, op, ev);
    FinalityKnown(net, t, h);
    assert forall b :: b in ev.ancestors ==> b in h.implicit;
    assert forall s :: s in ev.gaps ==> s in h.skipped;
  }

  // ---- votes entering a slot ----

  /** The vote was cast by its signer, if that signer is honest, and a signer that votes twice
      for a block is known for it. */
  ghost predicate VoteKnown(net: Network, votes: Votes, fallbacks: FallbackVotes, v: nat, b: Ballot) {
    && (v in net.honest ==> net.Has(v, b))
    && (IsDouble(votes, fallbacks, v, b) ==> v in net.doubles)
  }

  lemma StoredKnown(net: Network, slot: nat, votes: Votes, fallbacks: FallbackVotes, v: nat, b: Ballot)
    requires Authored(net, slot, votes, fallbacks) && DoublesNamed(net.doubles, votes, fallbacks)
    requires VoteKnown(net, votes, fallbacks, v, b) && b.slot == slot
    ensures Authored(net, slot, Store(votes, v, b), StoreFallback(fallbacks, v, b))
    ensures DoublesNamed(net.doubles, Store(votes, v, b), StoreFallback(fallbacks, v, b))
  {
  }

  /** The certificate's threshold is met by the totals, and none with its key is stored. */
  ghost predicate IsDue(ei: EpochInfo, slot: nat, t: Totals, certs: SlotCerts, c: Cert) {
    c.slot == slot &&
    match c
    case NotarCert(_, h, _, _) => NotarDue(ei, t, certs, h)
    case NotarFallbackCert(_, h, _, _, _) => FallbackDue(ei, t, certs, h)
    case SkipCert(_, _, _, _) => SkipDue(ei, t, certs)
    case FastFinalCert(_, h, _, _) => FastFinalDue(ei, t, certs, h)
    case FinalCert(_, _, _) => FinalDue(ei, t, certs)
  }

  /** What a slot builds is due, and no two have the same key. */
  lemma BuiltAreDue(out: seq<Cert>, ei: EpochInfo, slot: nat, b: Ballot, before: Votes, after: Votes,
                    fallbacks: FallbackVotes,
                    t: Totals, certs: SlotCerts)
    requires CertsAre(out, ei, slot, b, before, after, fallbacks, t, certs)
    ensures forall i :: 0 <= i < |out| ==> IsDue(ei, slot, t, certs, out[i])
    ensures forall i, j :: 0 <= i < j < |out| ==> KeyOf(out[i]) != KeyOf(out[j])
  {
    if b.Notar? {
      var f, n := One(FallbackDue(ei, t, certs, b.hash)), One(NotarDue(ei, t, certs, b.hash));
      forall i | 0 <= i < |out|
        ensures IsDue(ei, slot, t, certs, out[i])
        ensures out[i].NotarFallbackCert? <==> i < f
        ensures out[i].NotarCert? <==> f <= i < f + n
        ensures out[i].FastFinalCert? <==> f + n <= i
      {
      }
    }
  }

  /** Due certificates stand for quorums of cast votes. */
  lemma DueKnown(net: Network, slot: nat, votes: Votes, fallbacks: FallbackVotes, t: Totals, certs: SlotCerts, c: Cert)
    requires Compatible(net.ei, votes, fallbacks) && Accounted(net.ei, votes, fallbacks, t)
    requires Authored(net, slot, votes, fallbacks) && DoublesNamed(net.doubles, votes, fallbacks)
    requires IsDue(net.ei, slot, t, certs, c)
    ensures CertKnown(net, c)
  {
    var h := if c.NotarCert? || c.NotarFallbackCert? || c.FastFinalCert? then c.hash else 0;
    TotalsMeaning(net, slot, votes, fallbacks, t, h);
    assert forall v :: v in NotarVoters(votes, h) * FallbackVoters(fallbacks, h) ==> (v, h) in fallbacks;
  }

  lemma DueNotHeld(ei: EpochInfo, slot: nat, t: Totals, certs: SlotCerts, c: Cert)
    requires IsDue(ei, slot, t, certs, c)
    ensures !Holds(certs, KeyOf(c)) && KeyOf(c).slot == slot
  {
  }

  /** A slot that fires safe-to-skip is safe to skip once the vote is stored. */
  lemma FiredIsSafe(ei: EpochInfo, votes: Votes, v: nat, b: Ballot, t: Totals, own: nat)
    requires SkipFires(ei, b, votes, Store(votes, v, b), t, own)
    ensures SafeSkip(ei, Store(votes, v, b), t, own)
  {
  }

  function ToVotor(e: SlotEvent): Event {
    match e
    case SafeNotarEvent(b) => SafeToNotar(b)
    case SafeSkipEvent(s) => SafeToSkip(s)
  }

  function AllToVotor(events: seq<SlotEvent>): (q: seq<Event>)
    ensures |q| == |events| && forall i :: 0 <= i < |q| ==> q[i] == ToVotor(events[i])
  {
    seq(|events|, i requires 0 <= i < |events| => ToVotor(events[i]))
  }

  lemma SlotEventsDeliverable(events: seq<SlotEvent>)
    ensures Deliverable(AllToVotor(events))
  {
  }

  /** The events of a slot are justified by the votes it stores. */
  lemma SlotEventKnown(net: Network, slot: nat, own: nat, votes: Votes, fallbacks: FallbackVotes, t: Totals,
                       parents: map<BlockHash, ParentStatus>, e: SlotEvent)
    requires net.ei.WellFormed() && Compatible(net.ei, votes, fallbacks) && Accounted(net.ei, votes, fallbacks, t)
    requires Authored(net, slot, votes, fallbacks) && ParentsKnown(net, slot, parents)
    requires match e
      case SafeNotarEvent(b) => b.slot == slot && SafeNotar(net.ei, votes, t, parents, own, b.hash)
      case SafeSkipEvent(s) => s == slot && SafeSkip(net.ei, votes, t, own)
    ensures net.Justified(ToVotor(e))
  {
    match e
    case SafeNotarEvent(b) =>
      SafeNotarMeaning(net, slot, votes, fallbacks, t, parents, own, b.hash);
      assert b == BlockId(slot, b.hash);
    case SafeSkipEvent(s) =>
      forall h: BlockHash
        ensures net.Against(slot, h)
      {
        SafeSkipAgainst(net, slot, votes, fallbacks, t, own, h);
      }
  }

  /** Everything a slot reports after a vote is justified once the vote is stored. */
  lemma VoteEventsKnown(net: Network, slot: nat, own: nat, votes: Votes, v: nat, b: Ballot, fallbacks: FallbackVotes,
                        t: Totals,
                        parents: map<BlockHash, ParentStatus>, pending: set<BlockHash>, sent: set<BlockHash>,
                        events: seq<SlotEvent>, news: set<BlockHash>, fired: bool)
    requires net.ei.WellFormed() && Compatible(net.ei, Store(votes, v, b), fallbacks)
    requires Accounted(net.ei, Store(votes, v, b), fallbacks, t)
    requires Authored(net, slot, Store(votes, v, b), fallbacks) && ParentsKnown(net, slot, parents)
    requires Reported(net.ei, Store(votes, v, b), t, parents, own, pending, sent) && news <= sent
    requires fired ==> SkipFires(net.ei, b, votes, Store(votes, v, b), t, own)
    requires EventsAre(events, slot, news, fired)
    ensures AllJustified(net, AllToVotor(events))
  {
    if fired {
      FiredIsSafe(net.ei, votes, v, b, t, own);
    }
    forall i | 0 <= i < |events|
      ensures net.Justified(AllToVotor(events)[i])
    {
      assert events[i] in events;
      SlotEventKnown(net, slot, own, Store(votes, v, b), fallbacks, t, parents, events[i]);
    }
  }

  /** The certificates a vote completes were not announced before. */
  lemma BuiltAreNew(out: seq<Cert>, ei: EpochInfo, slot: nat, b: Ballot, before: Votes, after: Votes,
                    fallbacks: FallbackVotes,
                    t: Totals, certs: SlotCerts, announced: set<Key>)
    requires CertsAre(out, ei, slot, b, before, after, fallbacks, t, certs)
    requires forall k: Key :: k.slot == slot ==> (k in announced <==> Holds(certs, k))
    ensures NotAnnounced(out, announced)
  {
    hide CertsAre, Holds, IsDue;
    BuiltAreDue(out, ei, slot, b, before, after, fallbacks, t, certs);
    forall i | 0 <= i < |out|
      ensures KeyOf(out[i]) !in announced
    {
      DueNotHeld(ei, slot, t, certs, out[i]);
    }
  }

  lemma BuiltAreKnown(net: Network, out: seq<Cert>, slot: nat, b: Ballot, before: Votes, after: Votes,
                      fallbacks: FallbackVotes,
                      fallbacks': FallbackVotes, t: Totals, certs: SlotCerts)
    requires CertsAre(out, net.ei, slot, b, before, after, fallbacks, t, certs)
    requires Compatible(net.ei, after, fallbacks') && Accounted(net.ei, after, fallbacks', t)
    requires Authored(net, slot, after, fallbacks') && DoublesNamed(net.doubles, after, fallbacks')
    ensures forall c :: c in out ==> CertKnown(net, c)
  {
    hide CertsAre, IsDue, Compatible, Accounted, Authored, DoublesNamed, CertKnown;
    BuiltAreDue(out, net.ei, slot, b, before, after, fallbacks, t, certs);
    forall i | 0 <= i < |out|
      ensures CertKnown(net, out[i])
    {
      DueKnown(net, slot, after, fallbacks', t, certs, out[i]);
    }
  }

  // ---- knowledge lasts ----

  lemma EntryLasts(net: Network, later: Network, slot: nat, votes: Votes, fallbacks: FallbackVotes,
                   parents: map<BlockHash, ParentStatus>)
    requires LaterThan(later, net) && EntryKnown(net, slot, votes, fallbacks, parents)
    ensures EntryKnown(later, slot, votes, fallbacks, parents)
  {
  }

  lemma MarksLast(net: Network, later: Network, marked: set<BlockId>, skipped: set<nat>, told: Finality.History,
                  announced: set<Key>)
    requires LaterThan(later, net)
    requires ReadyKnown(net, marked, skipped) && ToldKnown(net, told) && AnnouncedKnown(net, announced)
    ensures ReadyKnown(later, marked, skipped) && ToldKnown(later, told) && AnnouncedKnown(later, announced)
  {
  }

  /** In a pool with nothing due, every notar or fast-final certificate built from votes fails
      the threshold test that a received one must pass: it lacks the vote that completed it. */
  lemma BuiltFallsShort(out: seq<Cert>, ei: EpochInfo, slot: nat, h: BlockHash, before: Votes, after: Votes,
                        fallbacks: FallbackVotes,
                        t: Totals, v: nat, certs: SlotCerts, c: Cert)
    requires ei.WellFormed() && |ei.validators| <= AggSig.MAX_SIGNERS && v < |ei.validators|
    requires Accounted(ei, before, fallbacks, t) && !NotarDue(ei, t, certs, h) && !FastFinalDue(ei, t, certs, h)
    requires CertsAre(out, ei, slot, Notar(slot, h), before, after, fallbacks,
                      Count(t, Notar(slot, h), ei.validators[v].stake), certs)
    requires c in out && (c.NotarCert? || c.FastFinalCert?)
    ensures c.Shaped() && !c.CheckThreshold(ei)
  {
    hide Accounted;
    var t' := Count(t, Notar(slot, h), ei.validators[v].stake);
    var i :| 0 <= i < |out| && out[i] == c;
    assert NotarCertOf(c, ei, slot, h, NotarVoters(before, h)) ||
           FastFinalCertOf(c, ei, slot, h, NotarVoters(before, h)) by {
      var f, n := One(FallbackDue(ei, t', certs, h)), One(NotarDue(ei, t', certs, h));
      assert i < f ==> c.NotarFallbackCert?;
    }
    NotarCertFallsShort(c, ei, slot, h, before, fallbacks, t, v);
  }
}
