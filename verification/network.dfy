/** Agreement across a network of validators. The honest ones obey the voting
    process; the others hold strictly less than 20% of the stake and may sign
    anything; signatures cannot be forged; a block's hash fixes its parent.

    Pools add up notar and notar-fallback votes for a block without noticing that
    one validator may have cast both. The network therefore names the validators
    that pools may have counted twice. */
module Quorums {
  import opened Base
  import opened Epoch
  import opened Certs
  import opened VotorSpec
  import opened VotorInv

  /** `cast` and `seen` hold, for every honest validator, the votes it has cast and
      the events it has been given; `doubles` are the validators of which some pool
      may hold a notar and a notar-fallback vote for one block. */
  datatype Network = MakeNetwork(
    ei: EpochInfo,
    honest: set<nat>,
    doubles: set<nat>,
    cast: map<nat, seq<Ballot>>,
    seen: map<nat, seq<Event>>,
    parents: Parents)
  {
    ghost predicate Has(v: nat, b: Ballot) {
      v in cast && b in cast[v]
    }

    ghost predicate Saw(v: nat, e: Event) {
      v in seen && e in seen[v]
    }

    ghost function Adversary(): set<nat> {
      ei.All() - honest
    }

    /** The standing assumptions on stake and behaviour. */
    ghost predicate Sound() {
      && ei.WellFormed() && ei.totalStake > 0
      && honest <= ei.All()
      && !ei.IsWeakest(ei.StakeOf(Adversary()))
      && (forall v :: v in honest ==> v in cast && v in seen && Discipline(cast[v], seen[v], parents))
    }

    /** The adversary and the double voters hold less than 20% in sum, so that an
        adversary that votes twice weighs twice. */
    ghost predicate Tolerable() {
      !ei.IsWeakest(ei.StakeOf(Adversary()) + ei.StakeOf(doubles))
    }

    // ---- who signed what: honest members of the set really cast the vote ----

    ghost predicate NotarBy(s: set<nat>, b: BlockId) {
      forall v :: v in s && v in honest ==> Has(v, Notar(b.slot, b.hash))
    }

    ghost predicate FallbackBy(s: set<nat>, b: BlockId) {
      forall v :: v in s && v in honest ==> Has(v, NotarFallback(b.slot, b.hash))
    }

    ghost predicate NotarOrFallbackBy(s: set<nat>, b: BlockId) {
      forall v :: v in s && v in honest ==> Has(v, Notar(b.slot, b.hash)) || Has(v, NotarFallback(b.slot, b.hash))
    }

    ghost predicate SkipBy(s: set<nat>, slot: nat) {
      forall v :: v in s && v in honest ==> Has(v, Skip(slot))
    }

    ghost predicate SkipOrFallbackBy(s: set<nat>, slot: nat) {
      forall v :: v in s && v in honest ==> Has(v, Skip(slot)) || Has(v, SkipFallback(slot))
    }

    ghost predicate FinalBy(s: set<nat>, slot: nat) {
      forall v :: v in s && v in honest ==> Has(v, Final(slot))
    }

    // ---- quorums ----

    ghost predicate Notarized(b: BlockId) {
      exists s :: NotarBy(s, b) && ei.IsQuorate(ei.StakeOf(s))
    }

    /** The block has the votes of a notarization-fallback certificate, every signer
        counted once. */
    ghost predicate Endorsed(b: BlockId) {
      exists s :: NotarOrFallbackBy(s, b) && ei.IsQuorate(ei.StakeOf(s))
    }

    /** The block has the votes of a notarization-fallback certificate as pools count
        them, double voters twice. */
    ghost predicate Certified(b: BlockId) {
      exists n, f :: NotarBy(n, b) && FallbackBy(f, b) && n * f <= doubles
        && ei.IsQuorate(ei.StakeOf(n) + ei.StakeOf(f))
    }

    ghost predicate Skipped(slot: nat) {
      exists s :: SkipOrFallbackBy(s, slot) && ei.IsQuorate(ei.StakeOf(s))
    }

    ghost predicate Finalized(slot: nat) {
      exists s :: FinalBy(s, slot) && ei.IsQuorate(ei.StakeOf(s))
    }

    ghost predicate FastFinalized(b: BlockId) {
      exists s :: NotarBy(s, b) && ei.IsStrong(ei.StakeOf(s))
    }

    // ---- what the events given to honest validators rest on ----

    ghost predicate ValidParent(b: BlockId) {
      Certified(b) || b == GenesisBlock()
    }

    /** Enough notar stake for the block, alone or together with skip stake. */
    ghost predicate Supported(b: BlockId) {
      exists a, k :: a !! k && NotarBy(a, b) && SkipBy(k, b.slot)
        && ei.IsWeakest(ei.StakeOf(a))
        && (ei.IsWeak(ei.StakeOf(a)) || ei.IsQuorate(ei.StakeOf(a) + ei.StakeOf(k)))
    }

    /** Every honest member voted skip, or notar for another hash. */
    ghost predicate AgainstBy(s: set<nat>, slot: nat, h: BlockHash) {
      forall v :: v in s && v in honest ==> Has(v, Skip(slot)) || exists g :: g != h && Has(v, Notar(slot, g))
    }

    ghost predicate Against(slot: nat, h: BlockHash) {
      exists s :: AgainstBy(s, slot, h) && ei.IsWeak(ei.StakeOf(s))
    }

    ghost predicate Justified(e: Event) {
      match e
      case CertCreated(NotarCert(s, h, _, _)) => Notarized(BlockId(s, h))
      case ParentReady(s, p) => p.slot < s && ValidParent(p) && forall t :: p.slot < t < s ==> Skipped(t)
      case SafeToNotar(b) => Supported(b) && ValidParent(parents(b))
      case SafeToSkip(s) => forall h :: Against(s, h)
      case _ => true
    }

    /** Honest validators' pools only report what the votes of the network support. */
    ghost predicate Grounded() {
      forall v, e :: v in honest && Saw(v, e) ==> Justified(e)
    }

    /** At least their notarization certificates are supported. */
    ghost predicate NotarsGrounded() {
      forall v, e :: v in honest && Saw(v, e) && e.CertCreated? && e.cert.NotarCert? ==> Justified(e)
    }
  }

  // ---- stake arguments ----

  /** A set with more stake than the adversary has an honest member. */
  lemma HonestMember(net: Network, s: set<nat>) returns (v: nat)
    requires net.Sound()
    requires net.ei.IsWeakest(net.ei.StakeOf(s)) || net.ei.StakeOf(s) > net.ei.StakeOf(net.Adversary())
    ensures v in s && v in net.honest
  {
    if forall v :: v in s ==> v !in net.honest {
      Monotone(net.ei, s, net.Adversary());
      assert false;
    }
    v :| v in s && v in net.honest;
  }

  /** Two quorums share an honest validator. */
  lemma QuorumsMeet(net: Network, a: set<nat>, b: set<nat>) returns (v: nat)
    requires net.Sound()
    requires net.ei.IsQuorate(net.ei.StakeOf(a)) && net.ei.IsQuorate(net.ei.StakeOf(b))
    ensures v in a && v in b && v in net.honest
  {
    InclusionExclusion(net.ei, a, b);
    AtMostTotal(net.ei, a + b);
    v := HonestMember(net, a * b);
  }

  /** A quorum shares an honest validator with one that counts double voters twice. */
  lemma QuorumMeetsCount(net: Network, a: set<nat>, n: set<nat>, f: set<nat>) returns (v: nat)
    requires net.Sound() && net.Tolerable() && n * f <= net.doubles
    requires net.ei.IsQuorate(net.ei.StakeOf(a)) && net.ei.IsQuorate(net.ei.StakeOf(n) + net.ei.StakeOf(f))
    ensures v in a && v in n + f && v in net.honest
  {
    InclusionExclusion(net.ei, n, f);
    Monotone(net.ei, n * f, net.doubles);
    InclusionExclusion(net.ei, a, n + f);
    AtMostTotal(net.ei, a + (n + f));
    v := HonestMember(net, a * (n + f));
  }

  lemma CountedIsWeak(net: Network, n: set<nat>, f: set<nat>)
    requires net.Tolerable() && n * f <= net.doubles
    requires net.ei.IsQuorate(net.ei.StakeOf(n) + net.ei.StakeOf(f))
    ensures net.ei.IsWeak(net.ei.StakeOf(n + f))
  {
    InclusionExclusion(net.ei, n, f);
    Monotone(net.ei, n * f, net.doubles);
  }

  /** Even double counting leaves an honest voter behind every certificate. */
  lemma HonestCounted(net: Network, n: set<nat>, f: set<nat>) returns (v: nat)
    requires net.Sound() && net.ei.IsQuorate(net.ei.StakeOf(n) + net.ei.StakeOf(f))
    ensures v in n + f && v in net.honest
  {
    Monotone(net.ei, n, n + f);
    Monotone(net.ei, f, n + f);
    v := HonestMember(net, n + f);
  }

  /** Who votes for a block one way or the other splits into two sets that do not overlap. */
  lemma EndorsedIsCertified(net: Network, b: BlockId)
    requires net.Endorsed(b)
    ensures net.Certified(b)
  {
    var s :| net.NotarOrFallbackBy(s, b) && net.ei.IsQuorate(net.ei.StakeOf(s));
    var n := set v | v in s && (v in net.honest ==> net.Has(v, Notar(b.slot, b.hash)));
    assert net.NotarBy(n, b) && net.FallbackBy(s - n, b);
    assert n * (s - n) == {} && n + (s - n) == s;
    Disjoint(net.ei, n, s - n);
  }

  /** When 80% voted for a block, a set without its honest voters stays under 40%. */
  lemma OutsideIsSmall(net: Network, w: set<nat>, c: set<nat>)
    requires net.Sound() && net.ei.IsStrong(net.ei.StakeOf(w))
    requires forall v :: v in c && v in net.honest ==> v !in w
    ensures !net.ei.IsWeak(net.ei.StakeOf(c))
  {
    InclusionExclusion(net.ei, w, c);
    AtMostTotal(net.ei, w + c);
    Monotone(net.ei, w * c, net.Adversary());
  }

  // ---- one notarized block per slot ----

  lemma OneNotar(net: Network, v: nat, s: nat, g: BlockHash, h: BlockHash)
    requires net.Sound() && v in net.honest
    requires net.Has(v, Notar(s, g)) && net.Has(v, Notar(s, h))
    ensures g == h
  {
  }

  lemma NotarizedUnique(net: Network, s: nat, g: BlockHash, h: BlockHash)
    requires net.Sound()
    requires net.Notarized(BlockId(s, g)) && net.Notarized(BlockId(s, h))
    ensures g == h
  {
    var a :| net.NotarBy(a, BlockId(s, g)) && net.ei.IsQuorate(net.ei.StakeOf(a));
    var b :| net.NotarBy(b, BlockId(s, h)) && net.ei.IsQuorate(net.ei.StakeOf(b));
    var v := QuorumsMeet(net, a, b);
    OneNotar(net, v, s, g, h);
  }

  // ---- locked slots ----

  /** At most this block of the slot can be certified, and the slot cannot be skipped. */
  ghost predicate Locked(net: Network, b: BlockId) {
    && !net.Skipped(b.slot)
    && forall h :: net.Certified(BlockId(b.slot, h)) ==> h == b.hash
  }

  /** The same for certificates that count every signer once. */
  ghost predicate Sealed(net: Network, b: BlockId) {
    && !net.Skipped(b.slot)
    && forall h :: net.Endorsed(BlockId(b.slot, h)) ==> h == b.hash
  }

  /** A final vote of an honest validator names a notarized block it voted for. */
  lemma FinalNamesNotarized(net: Network, v: nat, s: nat) returns (h: BlockHash)
    requires net.Sound() && net.NotarsGrounded() && v in net.honest && s > 0
    requires net.Has(v, Final(s))
    ensures net.Has(v, Notar(s, h)) && net.Notarized(BlockId(s, h))
  {
    assert Backed(Final(s), net.cast[v], net.seen[v], net.parents);
    h :| Notar(s, h) in net.cast[v] && NotarSeen(net.seen[v], s, h);
    var e :| e in net.seen[v] && e.CertCreated? && e.cert.NotarCert? && e.cert.slot == s && e.cert.hash == h;
    assert net.Saw(v, e);
    assert net.Justified(e);
  }

  lemma FinalVoterAgainstSkip(net: Network, v: nat, s: nat)
    requires net.Sound() && v in net.honest && net.Has(v, Final(s))
    ensures !net.Has(v, Skip(s)) && !net.Has(v, SkipFallback(s))
    ensures forall h :: !net.Has(v, NotarFallback(s, h))
  {
  }

  /** An honest final voter cast no vote that could certify another block of the slot. */
  lemma FinalVoterAgainstOther(net: Network, v: nat, s: nat, g: BlockHash, h: BlockHash)
    requires net.Sound() && net.NotarsGrounded() && v in net.honest && s > 0 && net.Has(v, Final(s))
    requires net.Notarized(BlockId(s, h))
    requires net.Has(v, Notar(s, g)) || net.Has(v, NotarFallback(s, g))
    ensures g == h
  {
    FinalVoterAgainstSkip(net, v, s);
    var k := FinalNamesNotarized(net, v, s);
    NotarizedUnique(net, s, h, k);
    OneNotar(net, v, s, k, g);
  }

  lemma FinalizedIsNotSkipped(net: Network, s: nat)
    requires net.Sound() && net.Finalized(s)
    ensures !net.Skipped(s)
  {
    var f :| net.FinalBy(f, s) && net.ei.IsQuorate(net.ei.StakeOf(f));
    if net.Skipped(s) {
      var c :| net.SkipOrFallbackBy(c, s) && net.ei.IsQuorate(net.ei.StakeOf(c));
      var v := QuorumsMeet(net, f, c);
      FinalVoterAgainstSkip(net, v, s);
      assert false;
    }
  }

  /** Slow finalization seals its slot, whoever votes twice: one hash is notarized, and no
      quorum of signers stands behind another or behind a skip. */
  lemma SlowFinalizationSeals(net: Network, s: nat) returns (h: BlockHash)
    requires net.Sound() && net.NotarsGrounded() && s > 0
    requires net.Finalized(s)
    ensures Sealed(net, BlockId(s, h)) && net.Notarized(BlockId(s, h))
  {
    var f :| net.FinalBy(f, s) && net.ei.IsQuorate(net.ei.StakeOf(f));
    var u := HonestMember(net, f);
    h := FinalNamesNotarized(net, u, s);
    FinalizedIsNotSkipped(net, s);
    forall g | net.Endorsed(BlockId(s, g))
      ensures g == h
    {
      var c :| net.NotarOrFallbackBy(c, BlockId(s, g)) && net.ei.IsQuorate(net.ei.StakeOf(c));
      var v := QuorumsMeet(net, f, c);
      FinalVoterAgainstOther(net, v, s, g, h);
    }
  }

  /** Slow finalization locks its slot against double counting too, as long as the
      adversary and the double voters hold less than 20% in sum. */
  lemma SlowFinalizationLocks(net: Network, s: nat) returns (h: BlockHash)
    requires net.Sound() && net.Tolerable() && net.NotarsGrounded() && s > 0
    requires net.Finalized(s)
    ensures Locked(net, BlockId(s, h)) && net.Notarized(BlockId(s, h))
  {
    h := SlowFinalizationSeals(net, s);
    var a :| net.FinalBy(a, s) && net.ei.IsQuorate(net.ei.StakeOf(a));
    forall g | net.Certified(BlockId(s, g))
      ensures g == h
    {
      var n, f :| net.NotarBy(n, BlockId(s, g)) && net.FallbackBy(f, BlockId(s, g)) && n * f <= net.doubles
        && net.ei.IsQuorate(net.ei.StakeOf(n) + net.ei.StakeOf(f));
      var v := QuorumMeetsCount(net, a, n, f);
      FinalVoterAgainstOther(net, v, s, g, h);
    }
  }

  /** No honest validator casts both a skip and a notar vote in the slot. */
  ghost predicate NoMixedVotes(net: Network, s: nat) {
    forall v, h :: v in net.honest ==> !(net.Has(v, Skip(s)) && net.Has(v, Notar(s, h)))
  }

  /** An honest notar-fallback vote rests on a safe-to-notar event. */
  lemma NotarFallbackSupported(net: Network, v: nat, b: BlockId)
    requires net.Sound() && net.Grounded() && v in net.honest
    ensures net.Has(v, NotarFallback(b.slot, b.hash)) ==> net.Supported(b) && net.ValidParent(net.parents(b))
  {
    if net.Has(v, NotarFallback(b.slot, b.hash)) {
      assert Backed(NotarFallback(b.slot, b.hash), net.cast[v], net.seen[v], net.parents);
      assert net.Saw(v, SafeToNotar(b));
      assert net.Justified(SafeToNotar(b));
    }
  }

  /** An honest skip-fallback vote rests on a safe-to-skip event. */
  lemma SkipFallbackAgainst(net: Network, v: nat, s: nat, h: BlockHash)
    requires net.Sound() && net.Grounded() && v in net.honest
    ensures net.Has(v, SkipFallback(s)) ==> net.Against(s, h)
  {
    if net.Has(v, SkipFallback(s)) {
      assert Backed(SkipFallback(s), net.cast[v], net.seen[v], net.parents);
      assert net.Saw(v, SafeToSkip(s));
      assert net.Justified(SafeToSkip(s));
    }
  }

  /** With 80% behind a block, an event in favour of another block of the slot is impossible. */
  lemma FastExcludesSupport(net: Network, w: set<nat>, b: BlockId, g: BlockHash)
    requires net.Sound() && NoMixedVotes(net, b.slot) && g != b.hash
    requires net.NotarBy(w, b) && net.ei.IsStrong(net.ei.StakeOf(w))
    ensures !net.Supported(BlockId(b.slot, g))
  {
    if net.Supported(BlockId(b.slot, g)) {
      var a, k :| a !! k && net.NotarBy(a, BlockId(b.slot, g)) && net.SkipBy(k, b.slot)
        && net.ei.IsWeakest(net.ei.StakeOf(a))
        && (net.ei.IsWeak(net.ei.StakeOf(a)) || net.ei.IsQuorate(net.ei.StakeOf(a) + net.ei.StakeOf(k)));
      forall v | v in a + k && v in net.honest
        ensures v !in w
      {
        if v in w && v in a {
          OneNotar(net, v, b.slot, b.hash, g);
        }
      }
      OutsideIsSmall(net, w, a + k);
      Disjoint(net.ei, a, k);
    }
  }

  lemma FastExcludesAgainst(net: Network, w: set<nat>, b: BlockId)
    requires net.Sound() && NoMixedVotes(net, b.slot)
    requires net.NotarBy(w, b) && net.ei.IsStrong(net.ei.StakeOf(w))
    ensures !net.Against(b.slot, b.hash)
  {
    if net.Against(b.slot, b.hash) {
      var c :| net.AgainstBy(c, b.slot, b.hash) && net.ei.IsWeak(net.ei.StakeOf(c));
      forall v | v in c && v in net.honest
        ensures v !in w
      {
        if v in w && !net.Has(v, Skip(b.slot)) {
          var g :| g != b.hash && net.Has(v, Notar(b.slot, g));
          OneNotar(net, v, b.slot, b.hash, g);
        }
      }
      OutsideIsSmall(net, w, c);
      assert false;
    }
  }

  lemma FastExcludesOther(net: Network, w: set<nat>, b: BlockId, g: BlockHash)
    requires net.Sound() && net.Tolerable() && net.Grounded() && NoMixedVotes(net, b.slot)
    requires net.NotarBy(w, b) && net.ei.IsStrong(net.ei.StakeOf(w))
    requires net.Certified(BlockId(b.slot, g))
    ensures g == b.hash
  {
    if g != b.hash {
      var n, f :| net.NotarBy(n, BlockId(b.slot, g)) && net.FallbackBy(f, BlockId(b.slot, g)) && n * f <= net.doubles
        && net.ei.IsQuorate(net.ei.StakeOf(n) + net.ei.StakeOf(f));
      FastExcludesSupport(net, w, b, g);
      forall v | v in n + f && v in net.honest
        ensures v !in w
      {
        NotarFallbackSupported(net, v, BlockId(b.slot, g));
        if v in w {
          OneNotar(net, v, b.slot, b.hash, g);
        }
      }
      OutsideIsSmall(net, w, n + f);
      CountedIsWeak(net, n, f);
      assert false;
    }
  }

  /** Fast finalization locks its slot as soon as no honest validator mixes skip and notar. */
  lemma FastFinalizationLocks(net: Network, b: BlockId)
    requires net.Sound() && net.Tolerable() && net.Grounded()
    requires net.FastFinalized(b) && NoMixedVotes(net, b.slot)
    ensures Locked(net, b) && net.Notarized(b)
  {
    var w :| net.NotarBy(w, b) && net.ei.IsStrong(net.ei.StakeOf(w));
    forall g | net.Certified(BlockId(b.slot, g))
      ensures g == b.hash
    {
      FastExcludesOther(net, w, b, g);
    }
    FastExcludesSkip(net, w, b);
  }

  lemma FastExcludesSkip(net: Network, w: set<nat>, b: BlockId)
    requires net.Sound() && net.Grounded() && NoMixedVotes(net, b.slot)
    requires net.NotarBy(w, b) && net.ei.IsStrong(net.ei.StakeOf(w))
    ensures !net.Skipped(b.slot)
  {
    if net.Skipped(b.slot) {
      var c :| net.SkipOrFallbackBy(c, b.slot) && net.ei.IsQuorate(net.ei.StakeOf(c));
      FastExcludesAgainst(net, w, b);
      forall v | v in c && v in net.honest
        ensures v !in w
      {
        SkipFallbackAgainst(net, v, b.slot, b.hash);
      }
      OutsideIsSmall(net, w, c);
      assert false;
    }
  }

  // ---- mixed votes within the adversary's bound ----

  ghost predicate IsMixed(net: Network, v: nat, s: nat) {
    net.Has(v, Skip(s)) && exists h :: net.Has(v, Notar(s, h))
  }

  ghost function MixedVoters(net: Network, s: nat): set<nat> {
    set v | v in net.honest && IsMixed(net, v, s)
  }

  /** The network in which some honest validators are no longer counted as such. */
  ghost function Without(net: Network, m: set<nat>): Network {
    net.(honest := net.honest - m)
  }

  lemma WithoutKeepsQuorums(net: Network, m: set<nat>, b: BlockId, s: nat)
    ensures net.Notarized(b) ==> Without(net, m).Notarized(b)
    ensures net.FastFinalized(b) ==> Without(net, m).FastFinalized(b)
    ensures net.Certified(b) ==> Without(net, m).Certified(b)
    ensures net.Skipped(s) ==> Without(net, m).Skipped(s)
  {
  }

  lemma WithoutKeepsSupport(net: Network, m: set<nat>, b: BlockId, h: BlockHash)
    ensures net.Supported(b) ==> Without(net, m).Supported(b)
    ensures net.Against(b.slot, h) ==> Without(net, m).Against(b.slot, h)
  {
    if net.Supported(b) {
      var a, k :| a !! k && net.NotarBy(a, b) && net.SkipBy(k, b.slot)
        && net.ei.IsWeakest(net.ei.StakeOf(a))
        && (net.ei.IsWeak(net.ei.StakeOf(a)) || net.ei.IsQuorate(net.ei.StakeOf(a) + net.ei.StakeOf(k)));
      assert Without(net, m).NotarBy(a, b) && Without(net, m).SkipBy(k, b.slot);
    }
  }

  lemma WithoutKeepsJustified(net: Network, m: set<nat>, e: Event)
    requires net.Justified(e)
    ensures Without(net, m).Justified(e)
  {
    match e
    case CertCreated(c) =>
      if c.NotarCert? {
        WithoutKeepsQuorums(net, m, BlockId(c.slot, c.hash), 0);
      }
    case ParentReady(s, p) =>
      forall t | p.slot < t < s
        ensures Without(net, m).Skipped(t)
      {
        WithoutKeepsQuorums(net, m, p, t);
      }
      WithoutKeepsQuorums(net, m, p, 0);
    case SafeToNotar(b) =>
      WithoutKeepsSupport(net, m, b, 0);
      WithoutKeepsQuorums(net, m, net.parents(b), 0);
    case SafeToSkip(s) =>
      forall h: BlockHash
        ensures Without(net, m).Against(s, h)
      {
        WithoutKeepsSupport(net, m, BlockId(s, 0), h);
      }
    case _ =>
  }

  lemma WithoutIsSound(net: Network, m: set<nat>)
    requires net.Sound() && net.Grounded() && m <= net.honest
    requires !net.ei.IsWeakest(net.ei.StakeOf(net.Adversary() + m) + net.ei.StakeOf(net.doubles))
    ensures Without(net, m).Sound() && Without(net, m).Tolerable() && Without(net, m).Grounded()
  {
    var net' := Without(net, m);
    assert net'.Adversary() == net.Adversary() + m;
    forall v, e | v in net'.honest && net'.Saw(v, e)
      ensures net'.Justified(e)
    {
      assert net.Saw(v, e);
      WithoutKeepsJustified(net, m, e);
    }
  }

  lemma WithoutMixed(net: Network, s: nat)
    ensures NoMixedVotes(Without(net, MixedVoters(net, s)), s)
  {
    var m := MixedVoters(net, s);
    forall v, h | v in net.honest - m
      ensures !(net.Has(v, Skip(s)) && net.Has(v, Notar(s, h)))
    {
      assert v !in m;
    }
  }

  /** The adversary, the validators that voted both ways in the slot and the double voters
      hold less than 20%. */
  ghost predicate FewMixed(net: Network, s: nat) {
    !net.ei.IsWeakest(net.ei.StakeOf(net.Adversary() + MixedVoters(net, s)) + net.ei.StakeOf(net.doubles))
  }

  /** Fast finalization locks its slot as long as the adversary and the honest validators
      that voted both ways hold less than 20%, with the double voters: a conflict takes
      more of them. */
  lemma FastFinalizationTolerates(net: Network, b: BlockId)
    requires net.Sound() && net.Grounded() && net.FastFinalized(b) && FewMixed(net, b.slot)
    ensures Locked(net, b) && net.Notarized(b)
  {
    hide Network.Sound, Network.Grounded, Network.Certified, Network.Skipped, StakeUpTo;
    var m := MixedVoters(net, b.slot);
    WithoutIsSound(net, m);
    WithoutKeepsQuorums(net, m, b, b.slot);
    WithoutMixed(net, b.slot);
    FastFinalizationLocks(Without(net, m), b);
    forall h | net.Certified(BlockId(b.slot, h))
      ensures h == b.hash
    {
      WithoutKeepsQuorums(net, m, BlockId(b.slot, h), 0);
    }
    var w :| net.NotarBy(w, b) && net.ei.IsStrong(net.ei.StakeOf(w));
  }

  // ---- one chain ----

  /** `a` is `b` or an ancestor of `b`, following parents to strictly smaller slots. */
  ghost predicate Descends(parents: Parents, b: BlockId, a: BlockId)
    decreases b.slot
  {
    b == a || (a.slot < b.slot && parents(b).slot < b.slot && Descends(parents, parents(b), a))
  }

  lemma NotarExtends(net: Network, v: nat, b: BlockId)
    requires net.Sound() && v in net.honest && net.Has(v, Notar(b.slot, b.hash))
    ensures ExtendsOwnVote(net.cast[v], net.seen[v], net.parents, b.slot, b.hash)
  {
  }

  /** Past the first slot of a window, the voters of a block voted for its parent too. */
  lemma VotersOfParent(net: Network, s: set<nat>, b: BlockId)
    requires net.Sound() && net.NotarBy(s, b) && net.ei.IsQuorate(net.ei.StakeOf(s))
    requires !IsStartOfWindow(b.slot)
    ensures net.parents(b).slot == b.slot - 1
    ensures b.slot > 1 ==> net.NotarBy(s, net.parents(b))
  {
    var u := HonestMember(net, s);
    NotarExtends(net, u, b);
    if b.slot > 1 {
      forall v | v in s && v in net.honest
        ensures net.Has(v, Notar(net.parents(b).slot, net.parents(b).hash))
      {
        NotarExtends(net, v, b);
      }
    }
  }

  /** Any two notarized blocks of one leader window lie on one chain. */
  lemma {:induction false} WindowChain(net: Network, a: BlockId, b: BlockId)
    requires net.Sound()
    requires net.Notarized(a) && net.Notarized(b)
    requires a.slot <= b.slot && FirstSlotInWindow(a.slot) == FirstSlotInWindow(b.slot)
    ensures Descends(net.parents, b, a)
    decreases b.slot
  {
    hide Network.Sound, StakeUpTo;
    if a.slot == b.slot {
      NotarizedUnique(net, a.slot, a.hash, b.hash);
    } else {
      var s :| net.NotarBy(s, b) && net.ei.IsQuorate(net.ei.StakeOf(s));
      var t :| net.NotarBy(t, a) && net.ei.IsQuorate(net.ei.StakeOf(t));
      var u := HonestMember(net, t);
      NotarExtends(net, u, a);
      VotersOfParent(net, s, b);
      assert net.Notarized(net.parents(b));
      WindowChain(net, a, net.parents(b));
    }
  }

  /** Behind every certified block stands an honest notar vote. */
  lemma CertifiedHasNotar(net: Network, n: set<nat>, f: set<nat>, b: BlockId) returns (u: nat)
    requires net.Sound() && net.Grounded()
    requires net.NotarBy(n, b) && net.FallbackBy(f, b) && net.ei.IsQuorate(net.ei.StakeOf(n) + net.ei.StakeOf(f))
    ensures u in net.honest && net.Has(u, Notar(b.slot, b.hash))
  {
    u := HonestCounted(net, n, f);
    if !net.Has(u, Notar(b.slot, b.hash)) {
      NotarFallbackSupported(net, u, b);
      var a, k :| a !! k && net.NotarBy(a, b) && net.SkipBy(k, b.slot)
        && net.ei.IsWeakest(net.ei.StakeOf(a))
        && (net.ei.IsWeak(net.ei.StakeOf(a)) || net.ei.IsQuorate(net.ei.StakeOf(a) + net.ei.StakeOf(k)));
      u := HonestMember(net, a);
    }
  }

  /** Inside a window, a certified block's parent is the block of the slot before and is
      a valid parent itself. */
  lemma ParentInsideWindow(net: Network, b: BlockId)
    requires net.Sound() && net.Grounded() && net.Certified(b) && !IsStartOfWindow(b.slot)
    ensures net.parents(b).slot == b.slot - 1 && net.ValidParent(net.parents(b))
  {
    var p := net.parents(b);
    var n, f :| net.NotarBy(n, b) && net.FallbackBy(f, b) && n * f <= net.doubles
      && net.ei.IsQuorate(net.ei.StakeOf(n) + net.ei.StakeOf(f));
    var u := CertifiedHasNotar(net, n, f, b);
    NotarExtends(net, u, b);
    if v :| v in f && v in net.honest {
      NotarFallbackSupported(net, v, b);
    } else {
      if p != GenesisBlock() {
        forall v | v in n && v in net.honest
          ensures net.Has(v, Notar(p.slot, p.hash))
        {
          NotarExtends(net, v, b);
        }
        assert net.NotarBy(n, p) && net.FallbackBy(f, p);
      }
    }
  }

  /** At the start of a window, a certified block's parent is a valid parent with only
      skipped slots in between. */
  lemma ParentAcrossWindows(net: Network, b: BlockId)
    requires net.Sound() && net.Grounded() && net.Certified(b) && IsStartOfWindow(b.slot)
    ensures net.parents(b).slot < b.slot && net.ValidParent(net.parents(b))
    ensures forall t :: net.parents(b).slot < t < b.slot ==> net.Skipped(t)
  {
    var n, f :| net.NotarBy(n, b) && net.FallbackBy(f, b) && n * f <= net.doubles
      && net.ei.IsQuorate(net.ei.StakeOf(n) + net.ei.StakeOf(f));
    var u := CertifiedHasNotar(net, n, f, b);
    NotarExtends(net, u, b);
    assert net.Saw(u, ParentReady(b.slot, net.parents(b)));
    assert net.Justified(ParentReady(b.slot, net.parents(b)));
  }

  /** The parent of a certified block is a valid parent, and the slots in between are
      skipped: what finalizing a block implicitly decides about its ancestors is true. */
  lemma ParentJustified(net: Network, b: BlockId)
    requires net.Sound() && net.Grounded() && net.Certified(b)
    ensures net.parents(b).slot < b.slot && net.ValidParent(net.parents(b))
    ensures forall t :: net.parents(b).slot < t < b.slot ==> net.Skipped(t)
  {
    if IsStartOfWindow(b.slot) {
      ParentAcrossWindows(net, b);
    } else {
      ParentInsideWindow(net, b);
    }
  }

  /** Every certified block at or above a locked slot descends from the locked block. */
  lemma {:induction false} OneChain(net: Network, a: BlockId, b: BlockId)
    requires net.Sound() && net.Grounded()
    requires Locked(net, a) && a.slot > 0
    requires net.Certified(b) && b.slot >= a.slot
    ensures Descends(net.parents, b, a)
    decreases b.slot
  {
    if b.slot == a.slot {
      assert BlockId(a.slot, b.hash) == b;
    } else {
      ParentJustified(net, b);
      var p := net.parents(b);
      assert p.slot >= a.slot;
      OneChain(net, a, p);
    }
  }

  /** Two finalized slots, however far apart and whoever observed them, are on one chain. */
  lemma FinalizedAgree(net: Network, s: nat, t: nat) returns (a: BlockId, b: BlockId)
    requires net.Sound() && net.Tolerable() && net.Grounded() && 0 < s <= t
    requires net.Finalized(s) && net.Finalized(t)
    ensures a.slot == s && b.slot == t
    ensures Locked(net, a) && net.Notarized(a) && Locked(net, b) && net.Notarized(b)
    ensures Descends(net.parents, b, a)
  {
    var g := SlowFinalizationLocks(net, s);
    var h := SlowFinalizationLocks(net, t);
    a, b := BlockId(s, g), BlockId(t, h);
    NotarizedIsCertified(net, b);
    OneChain(net, a, b);
  }

  /** Every certified block at or above a fast-finalized one descends from it, as long as few
      voted both ways in its slot. */
  lemma FastFinalizedAgree(net: Network, a: BlockId, b: BlockId)
    requires net.Sound() && net.Grounded() && net.FastFinalized(a) && FewMixed(net, a.slot)
    requires net.Certified(b) && 0 < a.slot <= b.slot
    ensures Descends(net.parents, b, a)
  {
    FastFinalizationTolerates(net, a);
    OneChain(net, a, b);
  }

  lemma NotarizedIsCertified(net: Network, b: BlockId)
    requires net.Notarized(b)
    ensures net.Endorsed(b) && net.Certified(b)
  {
    var s :| net.NotarBy(s, b) && net.ei.IsQuorate(net.ei.StakeOf(s));
    assert net.NotarOrFallbackBy(s, b);
    EndorsedIsCertified(net, b);
  }
}
