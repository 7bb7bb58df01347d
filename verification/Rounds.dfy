// What a pass over the hash map does to each agent, and when it is cut short.
module Rounds {
  import opened Words
  import opened Switch
  import opened Agents
  import opened Refusals
  import opened Registry
  import opened Daemon

  ghost predicate Distinct(order: seq<int>) {
    forall i, j :: 0 <= i < j < |order| ==> order[i] != order[j]
  }

  // The agents that come before `id`.
  function Before(order: seq<int>, id: int): (b: seq<int>)
    ensures forall k :: k in b ==> k in order
  {
    if order == [] then []
    else
      var n := |order| - 1;
      if order[n] == id then order[..n] else Before(order[..n], id)
  }

  lemma PrefixOfOrder(order: seq<int>)
    requires order != [] && Distinct(order)
    ensures var init, last := order[..|order| - 1], order[|order| - 1];
            Distinct(init) && last !in init && forall k :: k in order <==> k in init || k == last
  {
    assert order == order[..|order| - 1] + [order[|order| - 1]];
  }

  lemma {:induction false} NotBefore(order: seq<int>, id: int)
    requires Distinct(order)
    ensures id !in Before(order, id) && Distinct(Before(order, id))
  {
    if order != [] {
      PrefixOfOrder(order);
      if order[|order| - 1] != id {
        NotBefore(order[..|order| - 1], id);
      }
    }
  }

  // ---------- every member of the group has at most one turn ----------

  // The world as the turn of `id` finds it.
  function WorldAt(agents: Roster, w: World, order: seq<int>, p: I32, limit: PortLimit, noted: set<int>, id: int): World
    requires AllWellFormed(agents) && forall k :: k in order ==> k in agents
  {
    PollGroup(agents, w, Before(order, id), p, limit, noted).world
  }

  // The pass gets as far as `id`, and `id` is in the group.
  predicate HasTurn(agents: Roster, w: World, order: seq<int>, p: I32, limit: PortLimit, noted: set<int>, id: int)
    requires AllWellFormed(agents) && forall k :: k in order ==> k in agents
  {
    && id in order && agents[id].pollTime == p
    && !PollGroup(agents, w, Before(order, id), p, limit, noted).aborted
  }

  lemma {:induction false} NotYetPolled(agents: Roster, w: World, order: seq<int>, p: I32, limit: PortLimit,
                                        noted: set<int>, id: int)
    requires AllWellFormed(agents) && (forall k :: k in order ==> k in agents)
    requires id !in order && id in agents
    ensures var r := PollGroup(agents, w, order, p, limit, noted);
            id in r.agents && r.agents[id] == agents[id]
  {
    hide PollOne;
    if order != [] {
      var init := order[..|order| - 1];
      assert order == init + [order[|order| - 1]];
      NotYetPolled(agents, w, init, p, limit, noted, id);
    }
  }

  // What is left of `id` after its turn, or without one.
  ghost predicate Outcome(agents: Roster, more: Roster, id: int, has: bool, t: Turn)
    requires id in agents
  {
    if has && t.dropped then id !in more
    else id in more && more[id] == if has then t.agent else agents[id]
  }

  // A pass cut short or not: whoever it reaches in the group has exactly one turn and
  // nobody else changes.
  lemma {:induction false} OneTurnEach(agents: Roster, w: World, order: seq<int>, p: I32, limit: PortLimit,
                                       noted: set<int>, id: int)
    requires AllWellFormed(agents) && Distinct(order) && (forall k :: k in order ==> k in agents) && id in agents
    ensures Outcome(agents, PollGroup(agents, w, order, p, limit, noted).agents, id,
                    HasTurn(agents, w, order, p, limit, noted, id),
                    PollAgent(agents[id], WorldAt(agents, w, order, p, limit, noted, id), limit, id in noted))
  {
    hide PollAgent, PollOne, AllWellFormed, SameMember, Distinct, Lost;
    if order != [] {
      var init, last := order[..|order| - 1], order[|order| - 1];
      PrefixOfOrder(order);
      var r := PollGroup(agents, w, init, p, limit, noted);
      if last == id {
        NotYetPolled(agents, w, init, p, limit, noted, id);
        if !r.aborted {
          OwnTurn(r, id, p, limit, noted);
        }
      } else {
        OneTurnEach(agents, w, init, p, limit, noted, id);
      }
    }
  }

  lemma OwnTurn(r: Round, id: int, p: I32, limit: PortLimit, noted: set<int>)
    requires !r.aborted && id in r.agents && AllWellFormed(r.agents)
    ensures Outcome(r.agents, PollOne(r, id, p, limit, noted).agents, id, r.agents[id].pollTime == p,
                    PollAgent(r.agents[id], r.world, limit, id in noted))
  {
    hide PollAgent;
  }

  // ---------- when a pass is cut short ----------

  // How many entries the pass asks for if none is refused.
  ghost function RoundInstalls(agents: Roster, order: seq<int>, p: I32): nat
    requires AllWellFormed(agents) && forall k :: k in order ==> k in agents
  {
    if order == [] then 0
    else
      var last := order[|order| - 1];
      assert last in agents;
      RoundInstalls(agents, order[..|order| - 1], p) + if agents[last].pollTime == p then Installs(agents[last]) else 0
  }

  lemma PollOneDropsIff(r: Round, id: int, p: I32, limit: PortLimit, noted: set<int>)
    requires !r.aborted && id in r.agents && AllWellFormed(r.agents)
    ensures var q, n := PollOne(r, id, p, limit, noted), if r.agents[id].pollTime == p then Installs(r.agents[id]) else 0;
            Asked(r.world.hw, q.world.hw, n, q.aborted)
  {
    hide PollAgent, Installs;
    if r.agents[id].pollTime == p {
      TurnDropsIff(r.agents[id], r.world, limit, id in noted);
    }
  }

  // The switch's answers and the order decide it: the pass is cut short exactly when one of
  // the entries that its members ask for is refused.
  lemma {:induction false} RoundAbortsIff(agents: Roster, w: World, order: seq<int>, p: I32, limit: PortLimit, noted: set<int>)
    requires AllWellFormed(agents) && Distinct(order) && forall k :: k in order ==> k in agents
    ensures var r, n := PollGroup(agents, w, order, p, limit, noted), RoundInstalls(agents, order, p);
            && (r.aborted <==> Refuses(w.hw, n))
            && Asked(w.hw, r.world.hw, n, r.aborted)
  {
    hide PollOne, Installs, Advanced, JustRefused, Refuses, SameMember, Lost, Distinct, WellFormed;
    AskedNothing(w.hw);
    if order != [] {
      var init, last := order[..|order| - 1], order[|order| - 1];
      PrefixOfOrder(order);
      RoundAbortsIff(agents, w, init, p, limit, noted);
      var r, n := PollGroup(agents, w, init, p, limit, noted), RoundInstalls(agents, init, p);
      if r.aborted {
        AskedBefore(w.hw, r.world.hw, n, RoundInstalls(agents, order, p));
      } else {
        NotYetPolled(agents, w, init, p, limit, noted, last);
        PollOneDropsIff(r, last, p, limit, noted);
        var q := PollOne(r, last, p, limit, noted);
        AskedMore(w.hw, r.world.hw, q.world.hw, n, if agents[last].pollTime == p then Installs(agents[last]) else 0, q.aborted);
      }
    }
  }

  // No entry is refused to the members before `id`.
  ghost predicate Reaches(agents: Roster, hw: Hw, order: seq<int>, p: I32, id: int)
    requires AllWellFormed(agents) && forall k :: k in order ==> k in agents
  {
    id in order && !Refuses(hw, RoundInstalls(agents, Before(order, id), p))
  }

  // And one is refused to `id` itself.
  ghost predicate Drops(agents: Roster, hw: Hw, order: seq<int>, p: I32, id: int)
    requires AllWellFormed(agents) && forall k :: k in order ==> k in agents
  {
    && Reaches(agents, hw, order, p, id) && agents[id].pollTime == p
    && Refuses(hw, RoundInstalls(agents, Before(order, id), p) + Installs(agents[id]))
  }

  lemma DroppedIff(agents: Roster, w: World, order: seq<int>, p: I32, limit: PortLimit, noted: set<int>, id: int)
    requires AllWellFormed(agents) && Distinct(order) && (forall k :: k in order ==> k in agents) && id in agents
    ensures HasTurn(agents, w, order, p, limit, noted, id)
            <==> agents[id].pollTime == p && Reaches(agents, w.hw, order, p, id)
    ensures id !in PollGroup(agents, w, order, p, limit, noted).agents <==> Drops(agents, w.hw, order, p, id)
  {
    hide PollAgent, PollGroup, Installs, Refuses, RoundInstalls, Before;
    NotBefore(order, id);
    var at := WorldAt(agents, w, order, p, limit, noted, id);
    var n := RoundInstalls(agents, Before(order, id), p);
    RoundAbortsIff(agents, w, Before(order, id), p, limit, noted);
    OneTurnEach(agents, w, order, p, limit, noted, id);
    if HasTurn(agents, w, order, p, limit, noted, id) {
      TurnDropsIff(agents[id], at, limit, id in noted);
      RefusesLater(w.hw, at.hw, n, Installs(agents[id]));
    }
  }
}
