/** Runs dealt out round by round: first everybody's first event, then everybody's second, and so
    on. If the events of every round are justified by the votes of the rounds before, this is a
    feasible schedule. */
module Rounds {
  import opened Base
  import opened Certs
  import opened VotorSpec
  import opened VotorInv
  import opened VotorRuns
  import opened Quorums
  import opened Agreement
  import opened Schedules

  type Runs = map<nat, seq<Event>>

  function Prefix(events: seq<Event>, k: nat): seq<Event> {
    if k <= |events| then events[..k] else events
  }

  /** What everybody was given in the first `k` rounds. */
  ghost function UpTo(runs: Runs, k: nat): Runs {
    map v | v in runs :: Prefix(runs[v], k)
  }

  /** Event number `k` of every validator below `n`. */
  function Round(runs: Runs, k: nat, n: nat): Schedule {
    if n == 0 then []
    else Round(runs, k, n - 1) + if n - 1 in runs && k < |runs[n - 1]| then [(n - 1, runs[n - 1][k])] else []
  }

  function Deal(runs: Runs, k: nat, n: nat): Schedule {
    if k == 0 then [] else Deal(runs, k - 1, n) + Round(runs, k - 1, n)
  }

  lemma EventsOfMore(sched: Schedule, u: nat, e: Event, v: nat)
    ensures EventsOf(sched + [(u, e)], v) == EventsOf(sched, v) + if u == v then [e] else []
  {
    var more := sched + [(u, e)];
    assert more[..|more| - 1] == sched && more[|more| - 1] == (u, e);
  }

  lemma {:induction false} EventsOfRound(sched: Schedule, runs: Runs, k: nat, n: nat, v: nat)
    ensures EventsOf(sched + Round(runs, k, n), v)
         == EventsOf(sched, v) + if v < n && v in runs && k < |runs[v]| then [runs[v][k]] else []
  {
    if n == 0 {
      assert sched + [] == sched;
    } else {
      EventsOfRound(sched, runs, k, n - 1, v);
      var front := sched + Round(runs, k, n - 1);
      if n - 1 in runs && k < |runs[n - 1]| {
        EventsOfMore(front, n - 1, runs[n - 1][k], v);
        assert sched + Round(runs, k, n) == front + [(n - 1, runs[n - 1][k])];
      } else {
        assert sched + Round(runs, k, n) == front;
      }
    }
  }

  lemma {:induction false} EventsOfDeal(runs: Runs, k: nat, n: nat, v: nat)
    requires v < n && v in runs
    ensures EventsOf(Deal(runs, k, n), v) == Prefix(runs[v], k)
  {
    hide EventsOf, Round, Prefix;
    if k == 0 {
      NoEvents([], v);
      EmptyPrefix(runs[v]);
    } else {
      EventsOfDeal(runs, k - 1, n, v);
      EventsOfRound(Deal(runs, k - 1, n), runs, k - 1, n, v);
      PrefixGrows(runs[v], k - 1);
    }
  }

  lemma EmptyPrefix(events: seq<Event>)
    ensures Prefix(events, 0) == []
  {
  }

  lemma NoEvents(sched: Schedule, v: nat)
    requires sched == []
    ensures EventsOf(sched, v) == []
  {
  }

  lemma PrefixGrows(events: seq<Event>, k: nat)
    ensures Prefix(events, k + 1) == Prefix(events, k) + if k < |events| then [events[k]] else []
  {
  }

  lemma PrefixAdmissible(w: World, runs: Runs, k: nat)
    requires w.Runs(runs)
    ensures w.Runs(UpTo(runs, k))
  {
  }

  /** Dealing out some rounds leaves the network of the runs so far. */
  lemma AfterDeal(w: World, runs: Runs, k: nat, n: nat)
    requires w.Runs(runs) && runs.Keys == w.honest && forall v :: v in w.honest ==> v < n
    requires Possible(Deal(runs, k, n), w.parents)
    ensures w.Runs(UpTo(runs, k)) && After(w, Deal(runs, k, n)) == NetworkOf(w, UpTo(runs, k))
  {
    hide Run, Inv, Admissible, EventsOf, Deal;
    PrefixAdmissible(w, runs, k);
    forall v | v in w.honest
      ensures EventsOf(Deal(runs, k, n), v) == Prefix(runs[v], k)
    {
      EventsOfDeal(runs, k, n, v);
    }
    var dealt := map v | v in w.honest :: EventsOf(Deal(runs, k, n), v);
    assert dealt == UpTo(runs, k);
  }

  /** The votes of the first `k` rounds justify the next one. */
  ghost predicate RoundJustified(w: World, runs: Runs, k: nat)
    requires w.Runs(UpTo(runs, k))
  {
    forall v :: v in runs && k < |runs[v]| ==> NetworkOf(w, UpTo(runs, k)).Justified(runs[v][k])
  }

  lemma {:induction false} RoundIsFeasible(w: World, runs: Runs, k: nat, n: nat, sched: Schedule) returns (r: Schedule)
    requires w.Runs(runs) && runs.Keys == w.honest && Possible(sched, w.parents) && Feasible(w, sched)
    requires forall v :: v in runs && k < |runs[v]| ==> After(w, sched).Justified(runs[v][k])
    ensures r == sched + Round(runs, k, n) && Possible(r, w.parents) && Feasible(w, r)
    ensures LaterThan(After(w, r), After(w, sched))
  {
    hide Feasible, After, Network.Justified, LaterThan, Possible, Admissible;
    if n == 0 {
      r := sched;
      SameTime(After(w, sched));
    } else {
      r := RoundIsFeasible(w, runs, k, n - 1, sched);
      if n - 1 in runs && k < |runs[n - 1]| {
        RunEvent(w, runs, n - 1, k);
        r := HandOverLater(w, sched, r, n - 1, runs[n - 1][k]);
      }
    }
  }

  lemma SameTime(net: Network)
    ensures LaterThan(net, net)
  {
  }

  lemma RunEvent(w: World, runs: Runs, v: nat, k: nat)
    requires w.Runs(runs) && v in w.honest && k < |runs[v]|
    ensures ValidEvent(runs[v][k]) && Truthful(runs[v][k], w.parents)
  {
  }

  /** An event justified some time ago may be handed over now. */
  lemma HandOverLater(w: World, sched: Schedule, front: Schedule, v: nat, e: Event) returns (more: Schedule)
    requires Possible(sched, w.parents) && Possible(front, w.parents) && Feasible(w, front)
    requires ValidEvent(e) && Truthful(e, w.parents)
    requires LaterThan(After(w, front), After(w, sched)) && After(w, sched).Justified(e)
    ensures more == front + [(v, e)] && Possible(more, w.parents) && Feasible(w, more)
    ensures LaterThan(After(w, more), After(w, sched))
  {
    hide Feasible, After, Network.Justified, LaterThan, Possible;
    JustifiedLasts(After(w, sched), After(w, front), e);
    HandOver(w, front, v, e);
    more := front + [(v, e)];
    FeasibleIsPossible(w, more);
    LaterTwice(After(w, sched), After(w, front), After(w, more));
  }

  lemma LaterTwice(a: Network, b: Network, c: Network)
    requires LaterThan(b, a) && LaterThan(c, b)
    ensures LaterThan(c, a)
  {
  }

  lemma NothingIsFeasible(w: World, sched: Schedule)
    requires sched == []
    ensures Feasible(w, sched)
  {
  }

  /** Rounds that are justified one after the other make a feasible schedule. */
  lemma {:induction false} DealIsFeasible(w: World, runs: Runs, k: nat, n: nat)
    requires w.Runs(runs) && runs.Keys == w.honest && forall v :: v in w.honest ==> v < n
    requires forall j :: 0 <= j < k ==> w.Runs(UpTo(runs, j)) && RoundJustified(w, runs, j)
    ensures Feasible(w, Deal(runs, k, n))
  {
    hide Feasible, After, NetworkOf, Network.Justified, LaterThan, Possible, Round, UpTo, World.Runs;
    if k == 0 {
      NothingIsFeasible(w, []);
    } else {
      DealIsFeasible(w, runs, k - 1, n);
      FeasibleIsPossible(w, Deal(runs, k - 1, n));
      AfterDeal(w, runs, k - 1, n);
      assert RoundJustified(w, runs, k - 1);
      var r := RoundIsFeasible(w, runs, k - 1, n, Deal(runs, k - 1, n));
    }
  }

  // ---- votes along a run ----

  /** What a prefix of a run casts, the run casts. */
  lemma {:induction false} PrefixCasts(v: nat, events: seq<Event>, j: nat, k: nat, parents: Parents)
    requires j <= k && Admissible(events, parents)
    ensures Admissible(Prefix(events, j), parents) && Admissible(Prefix(events, k), parents)
    ensures KeepsCast(Run(v, Prefix(events, j), parents), Run(v, Prefix(events, k), parents))
    decreases k - j
  {
    hide Run, Inv, KeepsCast, Admissible, Prefix;
    PrefixIsAdmissible(events, j, parents);
    PrefixIsAdmissible(events, k, parents);
    if j == k {
      SameCast(Run(v, Prefix(events, j), parents));
    } else {
      PrefixCasts(v, events, j, k - 1, parents);
      OneMoreCast(v, events, k - 1, parents);
      CastTwice(Run(v, Prefix(events, j), parents), Run(v, Prefix(events, k - 1), parents),
                Run(v, Prefix(events, k), parents));
    }
  }

  lemma PrefixIsAdmissible(events: seq<Event>, k: nat, parents: Parents)
    requires Admissible(events, parents)
    ensures Admissible(Prefix(events, k), parents)
  {
  }

  lemma OneMoreCast(v: nat, events: seq<Event>, k: nat, parents: Parents)
    requires Admissible(events, parents) && Admissible(Prefix(events, k), parents)
    requires Admissible(Prefix(events, k + 1), parents)
    ensures KeepsCast(Run(v, Prefix(events, k), parents), Run(v, Prefix(events, k + 1), parents))
  {
    hide Run, Inv;
    PrefixGrows(events, k);
    if k < |events| {
      RunGrows(v, events[..k], events[k], parents);
    } else {
      assert Prefix(events, k) == Prefix(events, k + 1);
    }
  }

  lemma SameCast(st: State)
    ensures KeepsCast(st, st)
  {
  }

  lemma CastTwice(a: State, b: State, c: State)
    requires KeepsCast(a, b) && KeepsCast(b, c)
    ensures KeepsCast(a, c)
  {
  }
}
