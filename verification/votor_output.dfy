/** What the voting process sends: the votes on the wire are exactly the ballots it casts, signed
    by itself and in order, and certificates are passed on once
    (crates/karstflow-alpenglow/src/votor.rs). */
module VotorOutput {
  import opened Base
  import opened Certs
  import opened Sorted
  import opened VotorSpec
  import opened VotorInv
  import opened VotorRuns

  /** The votes among some messages, in order. */
  function VotesIn(msgs: seq<Message>): seq<Vote> {
    if msgs == [] then []
    else
      var last := msgs[|msgs| - 1];
      VotesIn(msgs[..|msgs| - 1]) + if last.VoteMessage? then [last.vote] else []
  }

  function CertsIn(msgs: seq<Message>): seq<Cert> {
    if msgs == [] then []
    else
      var last := msgs[|msgs| - 1];
      CertsIn(msgs[..|msgs| - 1]) + if last.CertMessage? then [last.cert] else []
  }

  /** Ballots as votes of one validator. */
  function Signed(index: nat, ballots: seq<Ballot>): (q: seq<Vote>)
    ensures |q| == |ballots| && forall i :: 0 <= i < |q| ==> q[i] == Certs.Vote(index, ballots[i])
  {
    seq(|ballots|, i requires 0 <= i < |ballots| => Certs.Vote(index, ballots[i]))
  }

  /** Since `st`, exactly the cast ballots were sent as votes, and exactly these certificates. */
  ghost predicate Sends(st: State, r: State, certs: seq<Cert>) {
    && r.index == st.index && st.cast <= r.cast && st.msgs <= r.msgs
    && VotesIn(r.msgs[|st.msgs|..]) == Signed(st.index, r.cast[|st.cast|..])
    && CertsIn(r.msgs[|st.msgs|..]) == certs
  }

  lemma {:induction false} InJoined(a: seq<Message>, b: seq<Message>)
    ensures VotesIn(a + b) == VotesIn(a) + VotesIn(b) && CertsIn(a + b) == CertsIn(a) + CertsIn(b)
  {
    if b == [] {
      assert a + b == a;
    } else {
      var last := |b| - 1;
      InJoined(a, b[..last]);
      assert (a + b)[..|a + b| - 1] == a + b[..last];
    }
  }

  lemma SendsNothing(st: State, r: State)
    requires r.index == st.index && r.cast == st.cast && r.msgs == st.msgs
    ensures Sends(st, r, [])
  {
    assert r.msgs[|st.msgs|..] == [];
  }

  lemma SendsVote(st: State, r: State, b: Ballot)
    requires r.index == st.index && r.cast == st.cast + [b]
    requires r.msgs == st.msgs + [VoteMessage(Certs.Vote(st.index, b))]
    ensures Sends(st, r, [])
  {
    assert r.msgs[|st.msgs|..] == [VoteMessage(Certs.Vote(st.index, b))] && r.cast[|st.cast|..] == [b];
  }

  lemma SendsCert(st: State, r: State, c: Cert)
    requires r.index == st.index && r.cast == st.cast && r.msgs == st.msgs + [CertMessage(c)]
    ensures Sends(st, r, [c])
  {
    assert r.msgs[|st.msgs|..] == [CertMessage(c)] && r.cast[|st.cast|..] == [];
  }

  lemma SendsBoth(a: State, b: State, c: State, q: seq<Cert>, p: seq<Cert>)
    requires Sends(a, b, q) && Sends(b, c, p)
    ensures Sends(a, c, q + p)
  {
    var first, second := b.msgs[|a.msgs|..], c.msgs[|b.msgs|..];
    assert c.msgs[|a.msgs|..] == first + second;
    InJoined(first, second);
    assert c.cast[|a.cast|..] == b.cast[|a.cast|..] + c.cast[|b.cast|..];
    assert Signed(a.index, c.cast[|a.cast|..]) ==
      Signed(a.index, b.cast[|a.cast|..]) + Signed(a.index, c.cast[|b.cast|..]);
  }

  lemma TryFinalSends(st: State, slot: nat, hash: BlockHash)
    requires slot >= st.FirstUnpruned()
    ensures Sends(st, TryFinal(st, slot, hash), [])
  {
    var r := TryFinal(st, slot, hash);
    if r != st {
      SendsVote(st, r, Final(slot));
    } else {
      SendsNothing(st, r);
    }
  }

  lemma TryNotarSends(st: State, slot: nat, block: BlockId, parent: BlockId)
    requires slot >= st.FirstUnpruned()
    ensures Sends(st, TryNotar(st, slot, block, parent), [])
  {
    var r := TryNotar(st, slot, block, parent);
    if CanNotar(st, slot, parent) {
      var voted := CastNotar(st, slot, block);
      SendsVote(st, voted, Notar(slot, block.hash));
      TryFinalSends(voted, slot, block.hash);
      SendsBoth(st, voted, r, [], []);
    } else {
      SendsNothing(st, r);
    }
  }

  lemma {:induction false} TryEachSends(st: State, pending: seq<(nat, BlockId, BlockId)>)
    requires forall t :: t in pending ==> t.0 >= st.FirstUnpruned()
    ensures Sends(st, TryEach(st, pending), [])
    decreases |pending|
  {
    if pending == [] {
      SendsNothing(st, st);
    } else {
      var (slot, block, parent) := pending[0];
      assert pending[0] in pending;
      var mid := TryNotar(st, slot, block, parent);
      TryNotarSends(st, slot, block, parent);
      TryEachSends(mid, pending[1..]);
      SendsBoth(st, mid, TryEach(mid, pending[1..]), [], []);
    }
  }

  lemma CheckPendingSends(st: State)
    requires st.Tidy()
    ensures Sends(st, CheckPending(st), [])
  {
    PendingOfElements(st.slots, Enumerate(st.slots.Keys));
    TryEachSends(st, PendingOf(st.slots, Enumerate(st.slots.Keys)));
  }

  lemma {:induction false} SkipRangeSends(st: State, s: nat, end: nat)
    requires s <= end
    ensures Sends(st, SkipRange(st, s, end), [])
    decreases end - s
  {
    if s == end {
      SendsNothing(st, st);
    } else {
      var mid := SkipOne(st, s);
      if st.At(s).voted {
        SendsNothing(st, mid);
      } else {
        SendsVote(st, mid, Skip(s));
      }
      SkipRangeSends(mid, s + 1, end);
      SendsBoth(st, mid, SkipRange(mid, s + 1, end), [], []);
    }
  }

  lemma FallbackSends(st: State, slot: nat, b: Ballot)
    requires slot >= st.FirstUnpruned()
    ensures Sends(st, Fallback(st, slot, b), [])
  {
    hide SkipRange;
    var voted := st.Vote(b);
    var skipped := TrySkipWindow(voted, slot);
    SendsVote(st, voted, b);
    SkipRangeSends(voted, FirstSlotInWindow(slot), LastSlotInWindow(slot) + 1);
    SendsBoth(st, voted, skipped, [], []);
    SendsNothing(skipped, Fallback(st, slot, b));
    SendsBoth(st, skipped, Fallback(st, slot, b), [], []);
  }

  /** A handled certificate is passed on, after the final vote it may lead to. */
  lemma HandleCertSends(st: State, cert: Cert)
    requires cert.slot >= st.FirstUnpruned()
    ensures Sends(st, HandleCert(st, cert), [cert])
    ensures var q := HandleCert(st, cert).msgs; |q| > 0 && q[|q| - 1] == CertMessage(cert)
  {
    var r := HandleCert(st, cert);
    var mid := r.(msgs := r.msgs[..|r.msgs| - 1]);
    if cert.NotarCert? {
      var put := st.Put(cert.slot, st.At(cert.slot).(blockNotarized := Some(cert.hash)));
      SendsNothing(st, put);
      TryFinalSends(put, cert.slot, cert.hash);
      SendsBoth(st, put, mid, [], []);
    } else {
      SendsNothing(st, mid);
    }
    SendsCert(mid, r, cert);
    SendsBoth(st, mid, r, [], [cert]);
  }

  lemma OnBlockSends(st: State, slot: nat, block: BlockId, parent: BlockId)
    requires st.Tidy() && slot >= st.FirstUnpruned()
    ensures Sends(st, OnBlock(st, slot, block, parent), [])
  {
    hide CheckPending, TryNotar;
    if !st.At(slot).voted && CanNotar(st, slot, parent) {
      var voted := TryNotar(st, slot, block, parent);
      TryNotarSends(st, slot, block, parent);
      TidyAfterNotar(st, slot, block, parent);
      CheckPendingSends(voted);
      SendsBoth(st, voted, CheckPending(voted), [], []);
    } else {
      SendsNothing(st, OnBlock(st, slot, block, parent));
    }
  }

  lemma ParentReadySends(st: State, slot: nat, parent: BlockId)
    requires st.Tidy() && slot >= st.FirstUnpruned() && IsStartOfWindow(slot)
    ensures AddReady(st, slot, parent).Tidy()
    ensures Sends(st, SetTimeouts(CheckPending(AddReady(st, slot, parent)), slot), [])
  {
    hide CheckPending;
    var ready := AddReady(st, slot, parent);
    var checked := CheckPending(ready);
    SendsNothing(st, ready);
    CheckPendingSends(ready);
    SendsBoth(st, ready, checked, [], []);
    SendsNothing(checked, SetTimeouts(checked, slot));
    SendsBoth(st, checked, SetTimeouts(checked, slot), [], []);
  }

  /** The certificates an event passes on: a created one, unless its slot was pruned. */
  ghost function PassedOn(st: State, e: Event): seq<Cert> {
    if e.CertCreated? && e.cert.slot >= st.FirstUnpruned() then [e.cert] else []
  }

  /** Every event but a standstill sends the ballots it casts, in order and signed by this
      validator, and passes on the certificate it brings. */
  lemma StepSends(st: State, e: Event)
    requires st.Tidy() && ValidEvent(e) && !e.Standstill?
    ensures Sends(st, Step(st, e), PassedOn(st, e))
  {
    hide CheckPending, HandleCert, Fallback, SkipRange, OnBlock, AddReady;
    if Ignored(st, e) {
      SendsNothing(st, st);
    } else {
      match e
      case ParentReady(slot, parent) => ParentReadySends(st, slot, parent);
      case SafeToNotar(b) => FallbackSends(st, b.slot, NotarFallback(b.slot, b.hash));
      case SafeToSkip(slot) => FallbackSends(st, slot, SkipFallback(slot));
      case CertCreated(cert) => HandleCertSends(st, cert);
      case FirstShred(_) => SendsNothing(st, Step(st, e));
      case InvalidBlock(slot) => SkipRangeSends(st, FirstSlotInWindow(slot), LastSlotInWindow(slot) + 1);
      case Block(slot, block, parent) => OnBlockSends(st, slot, block, parent);
      case Fired(alarm) =>
        SendsNothing(st, st);
        SkipRangeSends(st, FirstSlotInWindow(alarm.slot), LastSlotInWindow(alarm.slot) + 1);
    }
  }

  /** A standstill sends its bundle and casts nothing. */
  lemma StandstillSends(st: State, bundle: seq<Message>)
    requires st.Tidy()
    ensures Step(st, Standstill(bundle)) == st.(msgs := st.msgs + bundle)
  {
  }

  // ---- whole runs ----

  /** What a run sends of its own: all messages but the bundles of standstills. */
  ghost function OwnMessages(index: nat, events: seq<Event>, parents: Parents): seq<Message>
    requires Admissible(events, parents)
  {
    if events == [] then []
    else
      var front := events[..|events| - 1];
      var before, after := Run(index, front, parents), Run(index, events, parents);
      OwnMessages(index, front, parents) +
        if events[|events| - 1].Standstill? || |after.msgs| < |before.msgs| then [] else after.msgs[|before.msgs|..]
  }

  /** The certificates a run is told of in slots it has not pruned. */
  ghost function Handled(index: nat, events: seq<Event>, parents: Parents): seq<Cert>
    requires Admissible(events, parents)
  {
    if events == [] then []
    else
      var front := events[..|events| - 1];
      Handled(index, front, parents) + PassedOn(Run(index, front, parents), events[|events| - 1])
  }

  /** Over every run: the votes sent are exactly the ballots cast, signed and in order, and each
      handled certificate is passed on once. */
  lemma {:induction false} RunSends(index: nat, events: seq<Event>, parents: Parents)
    requires Admissible(events, parents)
    ensures VotesIn(OwnMessages(index, events, parents)) == Signed(index, Run(index, events, parents).cast)
    ensures CertsIn(OwnMessages(index, events, parents)) == Handled(index, events, parents)
    ensures Run(index, events, parents).index == index
  {
    hide Step, Run, Inv, Admissible;
    if events == [] {
      NothingSent(index, events, parents);
    } else {
      FrontAdmissible(events, parents);
      var front, e := events[..|events| - 1], events[|events| - 1];
      RunSends(index, front, parents);
      RunStep(index, events, parents);
      var before, after := Run(index, front, parents), Run(index, events, parents);
      RunIsTidy(index, front, parents);
      if e.Standstill? {
        StandstillSends(before, e.bundle);
        assert OwnMessages(index, events, parents) == OwnMessages(index, front, parents);
      } else {
        StepSends(before, e);
        InJoined(OwnMessages(index, front, parents), after.msgs[|before.msgs|..]);
        assert after.cast == before.cast + after.cast[|before.cast|..];
        assert Signed(index, after.cast) == Signed(index, before.cast) + Signed(index, after.cast[|before.cast|..]);
      }
    }
  }

  lemma NothingSent(index: nat, events: seq<Event>, parents: Parents)
    requires events == []
    ensures Admissible(events, parents) && Run(index, events, parents) == Init(index)
  {
  }

  lemma FrontAdmissible(events: seq<Event>, parents: Parents)
    requires events != [] && Admissible(events, parents)
    ensures Admissible(events[..|events| - 1], parents) && ValidEvent(events[|events| - 1])
  {
  }

  lemma RunIsTidy(index: nat, events: seq<Event>, parents: Parents)
    requires Admissible(events, parents)
    ensures Run(index, events, parents).Tidy()
  {
  }
}
