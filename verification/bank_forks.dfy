/** The tree of forks: an index from parents to children that replaces ancestor scans,
    death that cascades to descendants, and eviction of dead banks in order
    (crates/karstflow-consensus/src/bank_forks.rs).

    A bank is the slot of its parent, which is lower than its own; the banks that other
    parts of the program hold on to are a parameter. */
module Forks {
  import opened Base

  type Banks = map<nat, Option<nat>>
  type Index = map<nat, seq<nat>>

  datatype ForkError =
    | SlotBelowRoot(slot: nat, root: nat)
    | SlotAlreadyExists(slot: nat)
    | ParentNotFound(slot: nat, parent: nat)
    | ParentIsDead(slot: nat, parent: nat)
    | RootNotAdvancing(current: nat, proposed: nat)
    | RootBankNotFound(slot: nat)
    | BankNotRooted(slot: nat)

  datatype Report = Report(dead: set<nat>, pruned: set<nat>)

  datatype RootResult = Advanced(report: Report) | Refused(error: ForkError)

  function Children(index: Index, s: nat): seq<nat> {
    if s in index then index[s] else []
  }

  /** Walking up the parents of present banks from `s` meets `a`. */
  predicate IsAncestor(banks: Banks, a: nat, s: nat)
    decreases s
  {
    && a < s && s in banks && banks[s].Some? && banks[s].value < s
    && (banks[s].value == a || IsAncestor(banks, a, banks[s].value))
  }

  /** Following the index down from `a` meets `s`. */
  ghost predicate IsBelow(banks: Banks, index: Index, a: nat, s: nat)
    decreases s
  {
    && s in banks && banks[s].Some? && banks[s].value < s && s in Children(index, banks[s].value)
    && (banks[s].value == a || IsBelow(banks, index, a, banks[s].value))
  }

  // ---- the invariant ----

  ghost predicate Rising(banks: Banks) {
    forall s :: s in banks && banks[s].Some? ==> banks[s].value < s
  }

  /** The index lists only real parent links between present banks, each once. */
  ghost predicate IndexSound(banks: Banks, index: Index) {
    && (forall p :: p in index ==> p in banks && index[p] != [] && NoRepeats(index[p]))
    && (forall p, c :: p in index && c in index[p] ==> c in banks && banks[c] == Some(p))
  }

  /** A live bank is listed under its parent, which is live too, or lies below the root. */
  ghost predicate LiveLinked(banks: Banks, root: nat, dead: set<nat>, index: Index, c: nat) {
    c in banks && c !in dead && banks[c].Some? ==>
      var p := banks[c].value;
      if p in banks then p !in dead && c in Children(index, p) else p < root
  }

  ghost predicate WellLinked(banks: Banks, root: nat, dead: set<nat>, index: Index) {
    forall c :: LiveLinked(banks, root, dead, index, c)
  }

  ghost predicate Tree(banks: Banks, root: nat, dead: set<nat>, index: Index) {
    && Rising(banks) && IndexSound(banks, index) && WellLinked(banks, root, dead, index)
    && dead <= banks.Keys && (forall s :: s in banks ==> s >= root)
  }

  /** The queue lists the dead slots, each once. */
  ghost predicate Queued(dead: set<nat>, queue: seq<nat>) {
    NoRepeats(queue) && forall s :: s in queue <==> s in dead
  }

  // ---- the index refines the ancestor scan ----

  lemma {:induction false} BelowIsAncestor(banks: Banks, index: Index, a: nat, s: nat)
    requires IndexSound(banks, index) && Rising(banks) && IsBelow(banks, index, a, s)
    ensures IsAncestor(banks, a, s)
    decreases s
  {
    if banks[s].value != a {
      BelowIsAncestor(banks, index, a, banks[s].value);
    }
  }

  lemma {:induction false} AncestorIsBelow(banks: Banks, root: nat, dead: set<nat>, index: Index, a: nat, s: nat)
    requires Tree(banks, root, dead, index) && a in banks && s in banks && s !in dead && IsAncestor(banks, a, s)
    ensures IsBelow(banks, index, a, s) && a !in dead
    decreases s
  {
    assert LiveLinked(banks, root, dead, index, s);
    if banks[s].value != a {
      AncestorIsBelow(banks, root, dead, index, a, banks[s].value);
    }
  }

  /** For a present slot and a live bank, the index and the scan agree. */
  lemma IndexRefinesScan(banks: Banks, root: nat, dead: set<nat>, index: Index, a: nat, s: nat)
    requires Tree(banks, root, dead, index) && a in banks && s in banks && s !in dead
    ensures IsBelow(banks, index, a, s) <==> IsAncestor(banks, a, s)
  {
    if IsBelow(banks, index, a, s) {
      BelowIsAncestor(banks, index, a, s);
    }
    if IsAncestor(banks, a, s) {
      AncestorIsBelow(banks, root, dead, index, a, s);
    }
  }

  lemma {:induction false} BelowIsHigher(banks: Banks, index: Index, a: nat, s: nat)
    requires IsBelow(banks, index, a, s)
    ensures a < s
    decreases s
  {
    if banks[s].value != a {
      BelowIsHigher(banks, index, a, banks[s].value);
    }
  }

  // ---- the breadth-first walk ----

  /** What a walk below `a` has done and has still to do: everything met lies below `a`, and
      the parent of everything met but `a` was visited. */
  ghost predicate Walking(banks: Banks, index: Index, a: nat, visited: set<nat>, queue: seq<nat>) {
    && NoRepeats(queue) && (forall x :: x in queue ==> x !in visited)
    && (forall x {:trigger IsBelow(banks, index, a, x)} ::
          (x in visited || x in queue) && x != a ==> IsBelow(banks, index, a, x))
    && (forall x {:trigger banks[x]} ::
          x in banks && banks[x].Some? && (x in visited || x in queue) && x != a ==> banks[x].value in visited)
  }

  lemma NewChild(banks: Banks, index: Index, a: nat, visited: set<nat>, queue: seq<nat>, x: nat)
    requires IndexSound(banks, index) && Rising(banks)
    requires queue != [] && Walking(banks, index, a, visited, queue) && x in Children(index, queue[0])
    ensures x in banks && banks[x] == Some(queue[0]) && x != a && x !in visited && x !in queue
    ensures IsBelow(banks, index, a, x)
  {
    assert queue[0] in queue;
    if queue[0] != a {
      BelowIsHigher(banks, index, a, queue[0]);
    }
  }

  /** Visiting the head of the queue and queueing some of its children keeps the walk going. */
  lemma WalkStep(banks: Banks, index: Index, a: nat, visited: set<nat>, queue: seq<nat>, more: seq<nat>)
    requires IndexSound(banks, index) && Rising(banks)
    requires queue != [] && Walking(banks, index, a, visited, queue)
    requires NoRepeats(more) && forall x :: x in more ==> x in Children(index, queue[0])
    ensures Walking(banks, index, a, visited + {queue[0]}, queue[1..] + more)
    ensures queue[0] !in visited
  {
    hide IndexSound, Rising, IsBelow, Children;
    var cur, rest := queue[0], queue[1..];
    assert queue == [cur] + rest && cur !in rest;
    forall x | x in more
      ensures x in banks && banks[x] == Some(cur) && x != a && x !in visited && x !in queue
      ensures IsBelow(banks, index, a, x)
    {
      NewChild(banks, index, a, visited, queue, x);
    }
    NoRepeatsJoin(rest, more);
    forall x | x in rest
      ensures x in queue
    {
    }
  }

  /** When a walk that queued every child ends, it has visited everything below `a`. */
  lemma {:induction false} WalkCovers(banks: Banks, index: Index, a: nat, visited: set<nat>, s: nat)
    requires a in visited
    requires forall x, c :: x in visited && c in Children(index, x) ==> c in visited
    requires IsBelow(banks, index, a, s)
    ensures s in visited
    decreases s
  {
    if banks[s].value != a {
      WalkCovers(banks, index, a, visited, banks[s].value);
    }
  }

  /** Ends a walk that queued the live children only: below a live bank everything else was
      dead already. */
  lemma {:induction false} CascadeCovers(banks: Banks, root: nat, dead: set<nat>, index: Index, a: nat,
                                         visited: set<nat>, s: nat)
    requires Tree(banks, root, dead, index) && a in banks && a in visited
    requires forall x, c :: x in visited && c in Children(index, x) ==> c in dead || c in visited
    requires s in banks && s !in dead && IsAncestor(banks, a, s)
    ensures s in visited
    decreases s
  {
    assert LiveLinked(banks, root, dead, index, s);
    if banks[s].value != a {
      CascadeCovers(banks, root, dead, index, a, visited, banks[s].value);
    }
  }

  /** Killing a walk's worth of banks keeps the tree. */
  lemma CascadeKeeps(banks: Banks, root: nat, dead: set<nat>, index: Index, visited: set<nat>)
    requires Tree(banks, root, dead, index) && visited <= banks.Keys
    requires forall x, c :: x in visited && c in Children(index, x) ==> c in dead || c in visited
    ensures Tree(banks, root, dead + visited, index)
  {
    forall c
      ensures LiveLinked(banks, root, dead + visited, index, c)
    {
      assert LiveLinked(banks, root, dead, index, c);
    }
  }

  // ---- pruning the index ----

  function Keep(q: seq<nat>, s: set<nat>): (r: seq<nat>)
    ensures forall x :: x in r <==> x in q && x in s
  {
    if q == [] then [] else (if q[0] in s then [q[0]] else []) + Keep(q[1..], s)
  }

  lemma {:induction false} KeepNoRepeats(q: seq<nat>, s: set<nat>)
    requires NoRepeats(q)
    ensures NoRepeats(Keep(q, s))
  {
    if q != [] {
      KeepNoRepeats(q[1..], s);
      assert forall i :: 0 <= i < |q[1..]| ==> q[1..][i] == q[i + 1];
      assert q[0] !in q[1..];
      NoRepeatsJoin(if q[0] in s then [q[0]] else [], Keep(q[1..], s));
    }
  }

  /** The index restricted to the banks that stay. */
  function Restrict(index: Index, stay: set<nat>): Index {
    map p | p in index && p in stay && Keep(index[p], stay) != [] :: Keep(index[p], stay)
  }

  function Staying(banks: Banks, dead: set<nat>, root: nat): set<nat> {
    set s | s in banks && s >= root && s !in dead
  }

  function Kept(banks: Banks, stay: set<nat>): Banks {
    map s | s in banks && s in stay :: banks[s]
  }

  lemma RestrictSound(banks: Banks, index: Index, stay: set<nat>)
    requires IndexSound(banks, index) && stay <= banks.Keys
    ensures IndexSound(Kept(banks, stay), Restrict(index, stay))
  {
    forall p | p in Restrict(index, stay)
      ensures NoRepeats(Restrict(index, stay)[p])
    {
      KeepNoRepeats(index[p], stay);
    }
  }

  /** Dropping the dead banks and those below the new root keeps the tree. */
  lemma RestrictKeeps(banks: Banks, root: nat, dead: set<nat>, index: Index, root': nat)
    requires Tree(banks, root, dead, index) && root <= root'
    ensures var stay := Staying(banks, dead, root');
      Tree(Kept(banks, stay), root', {}, Restrict(index, stay))
  {
    var stay := Staying(banks, dead, root');
    var banks' := Kept(banks, stay);
    RestrictSound(banks, index, stay);
    forall c
      ensures LiveLinked(banks', root', {}, Restrict(index, stay), c)
    {
      assert LiveLinked(banks, root, dead, index, c);
      if c in banks' && banks[c].Some? && banks[c].value in banks' {
        assert c in Keep(index[banks[c].value], stay);
      }
    }
  }

  /** The index without one child of a parent; an empty list is dropped. */
  function Unlink(index: Index, parent: Option<nat>, s: nat): Index {
    if parent.None? || parent.value !in index then index
    else
      var others := Keep(index[parent.value], set x | x in index[parent.value] && x != s);
      if others == [] then index - {parent.value} else index[parent.value := others]
  }

  lemma UnlinkContents(banks: Banks, index: Index, s: nat)
    requires IndexSound(banks, index) && s in banks
    ensures var index' := Unlink(index, banks[s], s);
      && (forall p :: p in index' ==> p in index && index'[p] != [] && NoRepeats(index'[p]))
      && (forall p, c :: p in index' && c in index'[p] ==> c != s && c in index[p])
      && (forall p, c :: p in index && c in index[p] && c != s ==> p in index' && c in index'[p])
  {
    if banks[s].Some? && banks[s].value in index {
      KeepNoRepeats(index[banks[s].value], set x | x in index[banks[s].value] && x != s);
    }
  }

  /** Evicting one dead bank keeps the tree. */
  lemma EvictKeeps(banks: Banks, root: nat, dead: set<nat>, index: Index, s: nat)
    requires Tree(banks, root, dead, index) && s in dead
    ensures Tree(banks - {s}, root, dead - {s}, Unlink(index, banks[s], s) - {s})
  {
    UnlinkContents(banks, index, s);
    var index' := Unlink(index, banks[s], s) - {s};
    EvictSound(banks, index, Unlink(index, banks[s], s), s);
    hide Unlink, IndexSound;
    var banks', dead' := banks - {s}, dead - {s};
    forall c
      ensures LiveLinked(banks', root, dead', index', c)
    {
      assert LiveLinked(banks, root, dead, index, c);
    }
  }

  lemma EvictSound(banks: Banks, index: Index, less: Index, s: nat)
    requires IndexSound(banks, index)
    requires forall p :: p in less ==> p in index && less[p] != [] && NoRepeats(less[p])
    requires forall p, c :: p in less && c in less[p] ==> c != s && c in index[p]
    ensures IndexSound(banks - {s}, less - {s})
  {
  }

  /** A new bank under a live parent keeps the tree. */
  lemma InsertKeeps(banks: Banks, root: nat, dead: set<nat>, index: Index, s: nat, parent: Option<nat>)
    requires Tree(banks, root, dead, index) && s > root && s !in banks
    requires parent.Some? ==> parent.value < s && parent.value in banks && parent.value !in dead
    ensures Tree(banks[s := parent], root, dead,
                 if parent.Some? then index[parent.value := Children(index, parent.value) + [s]] else index)
  {
    var index' := if parent.Some? then index[parent.value := Children(index, parent.value) + [s]] else index;
    var banks' := banks[s := parent];
    forall c
      ensures LiveLinked(banks', root, dead, index', c)
    {
      assert LiveLinked(banks, root, dead, index, c);
    }
  }
}
