/** The fork tree as it runs (crates/karstflow-consensus/src/bank_forks.rs). */
module ForksImpl {
  import opened Base
  import opened Forks

  class BankForks {
    var banks: Banks
    var root: nat
    var deadSlots: set<nat>
    var deadQueue: seq<nat>
    var childIndex: Index

    constructor (rootSlot: nat, parent: Option<nat>)
      requires parent.Some? ==> parent.value < rootSlot
      ensures Valid() && banks == map[rootSlot := parent] && root == rootSlot && deadSlots == {} && childIndex == map[]
    {
      banks := map[rootSlot := parent];
      root := rootSlot;
      deadSlots := {};
      deadQueue := [];
      childIndex := map[];
    }

    ghost predicate Valid()
      reads this
    {
      Tree(banks, root, deadSlots, childIndex) && Queued(deadSlots, deadQueue)
    }

    /** Inserts a bank under a present, live parent. */
    method Insert(slot: nat, parent: Option<nat>) returns (error: Option<ForkError>)
      requires Valid() && (parent.Some? ==> parent.value < slot)
      modifies this`banks, this`childIndex
      ensures Valid()
      ensures error == InsertError(old(banks), root, deadSlots, slot, parent)
      ensures banks == if error.None? then old(banks)[slot := parent] else old(banks)
      ensures error.Some? ==> childIndex == old(childIndex)
    {
      if slot <= root {
        return Some(SlotBelowRoot(slot, root));
      }
      if slot in banks {
        return Some(SlotAlreadyExists(slot));
      }
      if parent.Some? {
        if parent.value !in banks {
          return Some(ParentNotFound(slot, parent.value));
        }
        if parent.value in deadSlots {
          return Some(ParentIsDead(slot, parent.value));
        }
      }
      InsertKeeps(banks, root, deadSlots, childIndex, slot, parent);
      if parent.Some? {
        childIndex := childIndex[parent.value := Children(childIndex, parent.value) + [slot]];
      }
      banks := banks[slot := parent];
      return None;
    }

    /** Everything below a slot, each bank once; for a present slot and live banks this is
        what the ancestor scan says. */
    method Descendants(slot: nat) returns (result: seq<nat>)
      requires Valid()
      ensures NoRepeats(result) && forall c :: c in result <==> IsBelow(banks, childIndex, slot, c)
      ensures slot in banks ==>
        forall c :: c in banks && c !in deadSlots ==> (c in result <==> IsAncestor(banks, slot, c))
    {
      hide IsBelow, IsAncestor, Tree, IndexSound, Rising, WellLinked, Children;
      TreeParts(banks, root, deadSlots, childIndex);
      result := [];
      var queue := Children(childIndex, slot);
      ghost var visited := {slot};
      WalkStarts(banks, childIndex, slot);
      while queue != []
        invariant Walking(banks, childIndex, slot, visited, queue)
        invariant NoRepeats(result) && (forall x :: x in visited <==> x == slot || x in result) && slot !in result
        invariant forall x, c :: x in visited && c in Children(childIndex, x) ==> c in visited || c in queue
        decreases banks.Keys - visited
      {
        var current := queue[0];
        WalkStep(banks, childIndex, slot, visited, queue, Children(childIndex, current));
        QueuedIsBank(banks, childIndex, slot, visited, queue);
        assert queue == [current] + queue[1..];
        NoRepeatsJoin(result, [current]);
        result := result + [current];
        visited := visited + {current};
        queue := queue[1..] + Children(childIndex, current);
      }
      WalkEnds(banks, root, deadSlots, childIndex, slot, visited, result);
    }

    /** The ancestor scan itself. */
    method Scan(ancestor: nat, slot: nat) returns (r: bool)
      requires Valid()
      ensures r <==> IsAncestor(banks, ancestor, slot)
    {
      var current: nat := slot;
      while current > ancestor
        invariant IsAncestor(banks, ancestor, slot) <==> IsAncestor(banks, ancestor, current)
        decreases current
      {
        if current !in banks || banks[current].None? {
          return false;
        }
        if banks[current].value == ancestor {
          return true;
        }
        current := banks[current].value;
      }
      r := false;
    }

    /** Kills a bank and every live bank below it; returns the newly dead in queue order. */
    method MarkDead(slot: nat) returns (newly: seq<nat>)
      requires Valid()
      modifies this`deadSlots, this`deadQueue
      ensures Valid() && deadQueue == old(deadQueue) + newly
      ensures slot !in banks ==> newly == []
      ensures slot in banks ==>
          forall c :: c in newly <==> c in banks && c !in old(deadSlots) && (c == slot || IsAncestor(banks, slot, c))
    {
      hide IsBelow, IsAncestor, Tree, IndexSound, Rising, WellLinked, Children;
      newly := [];
      if slot !in banks {
        return;
      }
      TreeParts(banks, root, deadSlots, childIndex);
      var queue := [slot];
      ghost var visited: set<nat> := {};
      while queue != []
        invariant Walking(banks, childIndex, slot, visited, queue) && visited <= banks.Keys
        invariant deadSlots == old(deadSlots) + visited && deadQueue == old(deadQueue) + newly
        invariant NoRepeats(newly) && forall x :: x in newly <==> x in visited && x !in old(deadSlots)
        invariant slot in visited || queue == [slot]
        invariant forall x, c :: x in visited && c in Children(childIndex, x) ==> c in deadSlots || c in queue
        decreases banks.Keys - visited
      {
        var current := queue[0];
        assert queue == [current] + queue[1..];
        if slot in visited {
          QueuedIsBank(banks, childIndex, slot, visited, queue);
        }
        ghost var before := queue;
        if current !in deadSlots {
          NoRepeatsJoin(newly, [current]);
          deadSlots := deadSlots + {current};
          newly := newly + [current];
          deadQueue := deadQueue + [current];
        }
        var children := Children(childIndex, current);
        var live := Keep(children, (set c | c in children) - deadSlots);
        KeepNoRepeats(children, (set c | c in children) - deadSlots);
        WalkStep(banks, childIndex, slot, visited, queue, live);
        visited := visited + {current};
        queue := queue[1..] + live;
        assert forall c :: c in before ==> c == current || c in queue;
      }
      CascadeEnds(banks, root, old(deadSlots), childIndex, slot, visited, old(deadQueue), newly);
    }

    /** Evicts dead banks in queue order up to the first one still held. */
    method TryPruneDead(held: set<nat>) returns (pruned: nat)
      requires Valid()
      modifies this`banks, this`deadSlots, this`deadQueue, this`childIndex
      ensures Valid() && pruned <= |old(deadQueue)| && deadQueue == old(deadQueue)[pruned..]
      ensures forall i :: 0 <= i < pruned ==> old(deadQueue)[i] !in held
      ensures deadQueue != [] ==> deadQueue[0] in held
      ensures banks == old(banks) - Prefix(old(deadQueue), pruned)
    {
      pruned := 0;
      assert banks == banks - Prefix(deadQueue, 0);
      while deadQueue != []
        invariant Valid() && pruned <= |old(deadQueue)| && deadQueue == old(deadQueue)[pruned..]
        invariant forall i :: 0 <= i < pruned ==> old(deadQueue)[i] !in held
        invariant banks == old(banks) - Prefix(old(deadQueue), pruned)
        decreases |deadQueue|
      {
        var slot := deadQueue[0];
        if slot in held {
          break;
        }
        EvictFront(slot);
        pruned := pruned + 1;
      }
    }

    method EvictFront(slot: nat)
      requires Valid() && deadQueue != [] && deadQueue[0] == slot
      modifies this`banks, this`deadSlots, this`deadQueue, this`childIndex
      ensures Valid() && deadQueue == old(deadQueue)[1..] && banks == old(banks) - {slot}
    {
      hide Tree;
      assert slot in deadQueue;
      assert slot in banks by {
        DeadIsBank(banks, root, deadSlots, childIndex, slot);
      }
      EvictKeeps(banks, root, deadSlots, childIndex, slot);
      PopQueued(deadSlots, deadQueue);
      childIndex := Unlink(childIndex, banks[slot], slot) - {slot};
      deadQueue := deadQueue[1..];
      deadSlots := deadSlots - {slot};
      banks := banks - {slot};
    }

    method MarkDeadAndEvict(slot: nat, held: set<nat>) returns (newly: seq<nat>)
      requires Valid()
      modifies this`banks, this`deadSlots, this`deadQueue, this`childIndex
      ensures Valid()
      ensures slot !in old(banks) ==> newly == [] && banks == old(banks) && deadQueue == old(deadQueue)
      ensures slot in old(banks) ==>
        && (forall c :: c in newly <==>
              c in old(banks) && c !in old(deadSlots) && (c == slot || IsAncestor(old(banks), slot, c)))
        && (exists k :: 0 <= k <= |old(deadQueue) + newly| && deadQueue == (old(deadQueue) + newly)[k..]
              && banks == old(banks) - Prefix(old(deadQueue) + newly, k)
              && (forall i :: 0 <= i < k ==> (old(deadQueue) + newly)[i] !in held)
              && (k < |old(deadQueue) + newly| ==> (old(deadQueue) + newly)[k] in held))
    {
      hide IsAncestor, Tree, Queued;
      newly := [];
      if slot in banks {
        newly := MarkDead(slot);
        var k := TryPruneDead(held);
      }
    }

    /** Drops the dead banks and those below a slot, from the index too. */
    method DropBelow(newRoot: nat)
      requires Valid() && root <= newRoot
      modifies this
      ensures Valid() && root == newRoot && deadSlots == {} && deadQueue == []
      ensures banks == map s | s in old(banks) && s >= newRoot && s !in old(deadSlots) :: old(banks)[s]
    {
      hide Tree, Restrict;
      RestrictKeeps(banks, root, deadSlots, childIndex, newRoot);
      var stay := Staying(banks, deadSlots, newRoot);
      banks := Kept(banks, stay);
      childIndex := Restrict(childIndex, stay);
      NoneKept(deadSlots, deadQueue, banks.Keys);
      deadSlots := set s | s in deadSlots && s in banks;
      assert deadSlots == {};
      deadQueue := Keep(deadQueue, banks.Keys);
      root := newRoot;
    }

    /** Evicts every dead bank, held or not. */
    method PruneDead() returns (evicted: nat)
      requires Valid()
      modifies this
      ensures Valid() && root == old(root) && deadSlots == {} && deadQueue == []
      ensures banks == map s | s in old(banks) && s !in old(deadSlots) :: old(banks)[s]
      ensures evicted == |old(deadSlots)|
    {
      var before := |banks.Keys|;
      DropBelow(root);
      assert banks.Keys == old(banks.Keys) - old(deadSlots);
      evicted := before - |banks.Keys|;
    }

    /** Advances the root to a rooted bank and evicts what lies below it or is dead. */
    method SetRoot(newRoot: nat, isRooted: bool) returns (r: RootResult)
      requires Valid()
      modifies this
      ensures Valid()
      ensures r.Refused? <==> newRoot <= old(root) || newRoot !in old(banks) || !isRooted
      ensures r.Refused? ==> r.error == (if newRoot <= old(root) then RootNotAdvancing(old(root), newRoot)
                                         else if newRoot !in old(banks) then RootBankNotFound(newRoot)
                                         else BankNotRooted(newRoot))
      ensures r.Refused? ==> unchanged(this)
      ensures r.Advanced? ==>
        && root == newRoot && deadSlots == {} && deadQueue == []
        && banks == (map s | s in old(banks) && s >= newRoot && s !in old(deadSlots) :: old(banks)[s])
        && r.report.pruned == (set s | s in old(banks) && s < newRoot)
        && r.report.dead == (set s | s in old(deadSlots) && s >= newRoot)
    {
      if newRoot <= root {
        return Refused(RootNotAdvancing(root, newRoot));
      }
      if newRoot !in banks {
        return Refused(RootBankNotFound(newRoot));
      }
      if !isRooted {
        return Refused(BankNotRooted(newRoot));
      }
      var pruned := set s | s in banks && s < newRoot;
      var dead := set s | s in banks && s >= newRoot && s in deadSlots;
      DropBelow(newRoot);
      r := Advanced(Report(dead, pruned));
    }
  }

  ghost function Prefix(q: seq<nat>, k: nat): set<nat>
    requires k <= |q|
  {
    set x | x in q[..k]
  }

  lemma DeadIsBank(banks: Banks, root: nat, dead: set<nat>, index: Index, s: nat)
    requires Tree(banks, root, dead, index) && s in dead
    ensures s in banks
  {
  }

  lemma PopQueued(dead: set<nat>, queue: seq<nat>)
    requires Queued(dead, queue) && queue != []
    ensures Queued(dead - {queue[0]}, queue[1..])
  {
  }

  lemma NoneKept(dead: set<nat>, queue: seq<nat>, stay: set<nat>)
    requires Queued(dead, queue) && dead !! stay
    ensures Keep(queue, stay) == []
  {
    if Keep(queue, stay) != [] {
      assert Keep(queue, stay)[0] in Keep(queue, stay);
    }
  }

  /** One bank at the end of a cascade: newly dead iff it was live and is at or below the start. */
  lemma CascadeDecides(banks: Banks, root: nat, dead: set<nat>, index: Index, a: nat, visited: set<nat>, c: nat)
    requires Tree(banks, root, dead, index)
    requires Walking(banks, index, a, visited, []) && a in banks && a in visited && visited <= banks.Keys
    requires forall x, c :: x in visited && c in Children(index, x) ==> c in dead || c in visited
    ensures c in visited && c !in dead <==> c in banks && c !in dead && (c == a || IsAncestor(banks, a, c))
  {
    if c in visited && c != a {
      assert IsBelow(banks, index, a, c);
      BelowIsAncestor(banks, index, a, c);
    } else if c in banks && c !in dead && IsAncestor(banks, a, c) {
      CascadeCovers(banks, root, dead, index, a, visited, c);
    }
  }

  lemma CascadeEnds(banks: Banks, root: nat, dead: set<nat>, index: Index, a: nat, visited: set<nat>, queue: seq<nat>,
                    newly: seq<nat>)
    requires Tree(banks, root, dead, index) && Queued(dead, queue)
    requires Walking(banks, index, a, visited, []) && a in banks && a in visited && visited <= banks.Keys
    requires forall x, c :: x in visited && c in Children(index, x) ==> c in dead || c in visited
    requires NoRepeats(newly) && forall x :: x in newly <==> x in visited && x !in dead
    ensures Tree(banks, root, dead + visited, index) && Queued(dead + visited, queue + newly)
    ensures forall c :: c in newly <==> c in banks && c !in dead && (c == a || IsAncestor(banks, a, c))
  {
    hide Tree, Walking, IsAncestor, Children;
    CascadeKeeps(banks, root, dead, index, visited);
    NoRepeatsJoin(queue, newly);
    forall c
      ensures c in newly <==> c in banks && c !in dead && (c == a || IsAncestor(banks, a, c))
    {
      CascadeDecides(banks, root, dead, index, a, visited, c);
    }
  }

  function InsertError(banks: Banks, root: nat, dead: set<nat>, slot: nat, parent: Option<nat>): Option<ForkError> {
    if slot <= root then Some(SlotBelowRoot(slot, root))
    else if slot in banks then Some(SlotAlreadyExists(slot))
    else if parent.Some? && parent.value !in banks then Some(ParentNotFound(slot, parent.value))
    else if parent.Some? && parent.value in dead then Some(ParentIsDead(slot, parent.value))
    else None
  }

  lemma TreeParts(banks: Banks, root: nat, dead: set<nat>, index: Index)
    requires Tree(banks, root, dead, index)
    ensures IndexSound(banks, index) && Rising(banks) && forall x :: NoRepeats(Children(index, x))
  {
  }

  lemma WalkStarts(banks: Banks, index: Index, a: nat)
    requires IndexSound(banks, index) && Rising(banks) && NoRepeats(Children(index, a))
    ensures Walking(banks, index, a, {a}, Children(index, a))
  {
  }

  /** What is queued beside the start is a present bank. */
  lemma QueuedIsBank(banks: Banks, index: Index, a: nat, visited: set<nat>, queue: seq<nat>)
    requires queue != [] && a in visited && Walking(banks, index, a, visited, queue)
    ensures queue[0] in banks && queue[0] != a && queue[0] !in visited
  {
    assert queue[0] in queue;
    assert IsBelow(banks, index, a, queue[0]);
  }

  lemma WalkEnds(banks: Banks, root: nat, dead: set<nat>, index: Index, a: nat, visited: set<nat>, result: seq<nat>)
    requires Tree(banks, root, dead, index) && Walking(banks, index, a, visited, [])
    requires forall x, c :: x in visited && c in Children(index, x) ==> c in visited
    requires (forall x :: x in visited <==> x == a || x in result) && a !in result
    ensures forall c :: c in result <==> IsBelow(banks, index, a, c)
    ensures a in banks ==> forall c :: c in banks && c !in dead ==> (c in result <==> IsAncestor(banks, a, c))
  {
    forall c
      ensures c in result <==> IsBelow(banks, index, a, c)
    {
      if IsBelow(banks, index, a, c) {
        WalkCovers(banks, index, a, visited, c);
        BelowIsHigher(banks, index, a, c);
      }
    }
    if a in banks {
      forall c | c in banks && c !in dead
        ensures IsBelow(banks, index, a, c) <==> IsAncestor(banks, a, c)
      {
        IndexRefinesScan(banks, root, dead, index, a, c);
      }
    }
  }
}
