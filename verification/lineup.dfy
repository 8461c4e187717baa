/** The lineup optimizer and the efficiency ratio built on it: a greedy
    assignment of the roster's best fully-played players to the starting
    slots, narrow slots first and the superflex slot last. */
module Lineup {
  import opened Roster
  import opened Sequences

  /** A player may fill `slot` in the optimal lineup: the slot is among its
      eligible slots, its game is fully played and it is not on a bye. */
  predicate Eligible(p: Player, slot: Slot) {
    slot in p.eligibleSlots && p.gamePlayed == 100 && !p.onByeWeek
  }

  function Points(p: Player): real {
    p.points
  }

  /** The eligible players of `pool`, in pool order. */
  function Eligibles(pool: seq<Player>, slot: Slot): (r: seq<Player>)
    ensures forall p :: p in r <==> p in pool && Eligible(p, slot)
  {
    FilterMembers(pool, (x: Player) => Eligible(x, slot));
    Filter(pool, (x: Player) => Eligible(x, slot))
  }

  /** The comprehension keeps pool order and repetition: filtering a
      concatenation filters each part in turn, and one player is kept
      exactly when it is eligible. */
  lemma EligiblesAppend(a: seq<Player>, b: seq<Player>, slot: Slot)
    ensures Eligibles(a + b, slot) == Eligibles(a, slot) + Eligibles(b, slot)
    ensures forall p :: Eligibles([p], slot) == if Eligible(p, slot) then [p] else []
  {
    FilterAppend(a, b, (x: Player) => Eligible(x, slot));
    forall p ensures Eligibles([p], slot) == if Eligible(p, slot) then [p] else [] {
      FilterOne(p, (x: Player) => Eligible(x, slot));
    }
  }

  /** The player `get_best_by_skill` picks: the last of the eligible players
      sorted by points, or None when no player is eligible. */
  function BestBySkill(pool: seq<Player>, slot: Slot): Option<Player> {
    var eligible := Eligibles(pool, slot);
    if eligible == [] then None else Some(Last(SortBy(eligible, Points)))
  }

  /** The pool after the pick: the chosen player is removed, if any. */
  function After(pool: seq<Player>, best: Option<Player>): seq<Player> {
    if best.None? then pool else RemoveFirst(pool, best.value)
  }

  /** The copy of the roster that the greedy pass consumes in place. */
  class PlayerList {
    var items: seq<Player>

    /** `lineup.copy()` */
    constructor (players: seq<Player>)
      ensures items == players
    {
      items := players;
    }

    /** `list.remove(x)`: the first element equal to `x` goes. */
    method Remove(x: Player)
      requires x in items
      modifies this
      ensures items == RemoveFirst(old(items), x)
    {
      var i := 0;
      while items[i] != x
        invariant 0 <= i < |items|
        invariant x in items[i..]
        invariant x !in items[..i]
        decreases |items| - i
      {
        assert items[i..] == [items[i]] + items[i + 1..];
        assert items[..i + 1] == items[..i] + [items[i]];
        i := i + 1;
      }
      FirstIndexUnique(items, x, i);
      RemoveFirstAt(items, x);
      items := items[..i] + items[i + 1..];
    }
  }

  /** `get_best_by_skill`: takes the best eligible player for `slot` out of
      `lineupCopy` and returns it; leaves the list alone when there is none. */
  method GetBestBySkill(lineupCopy: PlayerList, slot: Slot) returns (best: Option<Player>)
    modifies lineupCopy
    ensures best == BestBySkill(old(lineupCopy.items), slot)
    ensures lineupCopy.items == After(old(lineupCopy.items), best)
  {
    var eligiblePlayers, top := EligiblePlayers(lineupCopy.items, slot);
    if eligiblePlayers == [] {
      best := None;
    } else {
      BestIsLastMax(lineupCopy.items, slot);
      ghost var k :| IsLastMax(eligiblePlayers, Points, k) && eligiblePlayers[k] == BestBySkill(lineupCopy.items, slot).value;
      LastMaxUnique(eligiblePlayers, Points, k, top);
      best := Some(eligiblePlayers[top]);
      lineupCopy.Remove(eligiblePlayers[top]);
    }
  }

  /** The filtering loop of `get_best_by_skill`, which also tracks where the
      last player with the most points sits (the one that ends up last
      after sorting by points). */
  method EligiblePlayers(players: seq<Player>, slot: Slot) returns (eligiblePlayers: seq<Player>, top: nat)
    ensures eligiblePlayers == Eligibles(players, slot)
    ensures eligiblePlayers != [] ==> IsLastMax(eligiblePlayers, Points, top)
  {
    eligiblePlayers := [];
    top := 0;
    for i := 0 to |players|
      invariant eligiblePlayers == Eligibles(players[..i], slot)
      invariant eligiblePlayers != [] ==> IsLastMax(eligiblePlayers, Points, top)
    {
      assert players[..i + 1][..i] == players[..i];
      var p := players[i];
      if Eligible(p, slot) {
        LastMaxAppend(eligiblePlayers, p, Points, top);
        if eligiblePlayers == [] || eligiblePlayers[top].points <= p.points {
          top := |eligiblePlayers|;
        }
        eligiblePlayers := eligiblePlayers + [p];
      }
    }
    assert players[..|players|] == players;
  }

  /** What `get_best_by_skill` promises: None exactly when no player of the
      pool is eligible, and then the pool is kept; otherwise an eligible pool
      player whose points are the highest among the eligible ones, the last
      such in pool order, and the pool loses exactly its first occurrence. */
  lemma BestBySkillFacts(pool: seq<Player>, slot: Slot)
    ensures BestBySkill(pool, slot).None? <==> forall p :: p in pool ==> !Eligible(p, slot)
    ensures BestBySkill(pool, slot).None? ==> After(pool, BestBySkill(pool, slot)) == pool
    ensures BestBySkill(pool, slot).Some? ==>
      var best := BestBySkill(pool, slot).value;
      var eligible := Eligibles(pool, slot);
      && best in pool && Eligible(best, slot)
      && (exists k :: IsLastMax(eligible, Points, k) && eligible[k] == best)
      && After(pool, Some(best)) == pool[..FirstIndex(pool, best)] + pool[FirstIndex(pool, best) + 1..]
      && multiset(After(pool, Some(best))) == multiset(pool) - multiset{best}
  {
    BestBySkillNone(pool, slot);
    if BestBySkill(pool, slot).Some? {
      BestIsLastMax(pool, slot);
      var best := BestBySkill(pool, slot).value;
      assert best in pool && Eligible(best, slot);
      RemoveFirstAt(pool, best);
      RemoveFirstMultiset(pool, best);
    }
  }

  /** No pick exactly when no pool player is eligible. */
  lemma BestBySkillNone(pool: seq<Player>, slot: Slot)
    ensures BestBySkill(pool, slot).None? <==> forall p :: p in pool ==> !Eligible(p, slot)
  {
    var eligible := Eligibles(pool, slot);
    if eligible != [] {
      assert eligible[0] in eligible;
    }
  }

  /** With some player eligible, the pick is the last eligible player with
      the most points. */
  lemma BestIsLastMax(pool: seq<Player>, slot: Slot)
    requires Eligibles(pool, slot) != []
    ensures BestBySkill(pool, slot).Some?
    ensures exists k :: IsLastMax(Eligibles(pool, slot), Points, k)
                     && Eligibles(pool, slot)[k] == BestBySkill(pool, slot).value
    ensures BestBySkill(pool, slot).value in Eligibles(pool, slot)
  {
    var eligible := Eligibles(pool, slot);
    LastOfSortBy(eligible, Points);
    var k :| IsLastMax(eligible, Points, k) && Last(SortBy(eligible, Points)) == eligible[k];
    assert eligible[k] == BestBySkill(pool, slot).value;
  }

  /** All slot labels of the lineup, in lineup order. */
  function SlotsOf(lineup: seq<Player>): (r: seq<Slot>)
    ensures |r| == |lineup|
  {
    if lineup == [] then []
    else SlotsOf(lineup[..|lineup| - 1]) + [lineup[|lineup| - 1].slotPosition]
  }

  /** The labels that are neither bench nor injured reserve. */
  function Starting(slots: seq<Slot>): seq<Slot> {
    Filter(slots, (s: Slot) => s != BENCH && s != INJURED_RESERVE)
  }

  /** The length of a label: the specificity rank used to order slots. */
  function Length(s: Slot): real {
    |s| as real
  }

  /** The order in which the greedy pass fills slots: starters' labels,
      stably sorted by length, with the first "OP" moved to the end. */
  function SlotOrder(lineup: seq<Player>): seq<Slot> {
    MoveLast(SortBy(Starting(SlotsOf(lineup)), Length), SUPERFLEX)
  }

  /** Filtering the labels gives one label per starter, duplicates kept. */
  lemma {:induction false} StartingSlots(lineup: seq<Player>)
    ensures Starting(SlotsOf(lineup)) == SlotsOf(Starters(lineup))
  {
    if lineup != [] {
      var n := |lineup| - 1;
      var p := lineup[n];
      StartingSlots(lineup[..n]);
      var slots := SlotsOf(lineup);
      assert slots[..n] == SlotsOf(lineup[..n]);
      var before := Starters(lineup[..n]);
      if IsStarter(p) {
        assert (before + [p])[..|before|] == before;
      } else {
        assert before + [] == before;
      }
    }
  }

  /** The slot order is a permutation of the starters' labels: one label
      per starter, duplicates kept. */
  lemma SlotOrderPermutation(lineup: seq<Player>)
    ensures multiset(SlotOrder(lineup)) == multiset(SlotsOf(Starters(lineup)))
    ensures |SlotOrder(lineup)| == |Starters(lineup)|
  {
    var slots := SlotsOf(Starters(lineup));
    StartingSlots(lineup);
    SortByMultiset(slots, Length);
    MoveLastMultiset(SortBy(slots, Length), SUPERFLEX);
  }

  /** The slot order is the starters' labels sorted by length, stable within
      a length, except that when "OP" occurs its first occurrence is taken
      out and appended last. */
  lemma SlotOrderSorted(lineup: seq<Player>)
    ensures var sorted := SortBy(SlotsOf(Starters(lineup)), Length);
      && SortedBy(sorted, Length)
      && (forall v :: WithKey(sorted, Length, v) == WithKey(SlotsOf(Starters(lineup)), Length, v))
      && (SUPERFLEX !in sorted ==> SlotOrder(lineup) == sorted)
      && (SUPERFLEX in sorted ==>
            && SlotOrder(lineup) == RemoveFirst(sorted, SUPERFLEX) + [SUPERFLEX]
            && Last(SlotOrder(lineup)) == SUPERFLEX
            && SlotOrder(lineup)[..|SlotOrder(lineup)| - 1] == RemoveFirst(sorted, SUPERFLEX)
            && SortedBy(SlotOrder(lineup)[..|SlotOrder(lineup)| - 1], Length))
  {
    StartingSlots(lineup);
    var starting := SlotsOf(Starters(lineup));
    var sorted := SortBy(starting, Length);
    SortByFacts(starting, Length);
    if SUPERFLEX in sorted {
      RemoveFirstSorted(sorted, SUPERFLEX, Length);
      var r := RemoveFirst(sorted, SUPERFLEX);
      assert SlotOrder(lineup) == r + [SUPERFLEX];
      assert (r + [SUPERFLEX])[..|r|] == r;
    }
  }

  /** The greedy pass: for each label in order, the pick `get_best_by_skill`
      makes from what is left of the pool (None for an unfilled slot). */
  function Picks(pool: seq<Player>, slots: seq<Slot>): (r: seq<Option<Player>>)
    ensures |r| == |slots|
    decreases |slots|
  {
    if slots == [] then []
    else
      var best := BestBySkill(pool, slots[0]);
      [best] + Picks(After(pool, best), slots[1..])
  }

  /** One greedy pick taken off the front of the remaining labels. */
  lemma PicksStep(pool: seq<Player>, slots: seq<Slot>, i: nat)
    requires i < |slots|
    ensures Picks(pool, slots[i..])
         == [BestBySkill(pool, slots[i])] + Picks(After(pool, BestBySkill(pool, slots[i])), slots[i + 1..])
  {
    assert slots[i..][1..] == slots[i + 1..];
  }

  /** The players actually picked. */
  function Chosen(picks: seq<Option<Player>>): (r: seq<Player>)
    ensures |r| <= |picks|
  {
    if picks == [] then []
    else (if picks[0].Some? then [picks[0].value] else []) + Chosen(picks[1..])
  }

  function TotalPoints(players: seq<Player>): real {
    if players == [] then 0.0 else players[0].points + TotalPoints(players[1..])
  }

  /** The score of the greedy optimal lineup. */
  function OptimalScore(lineup: seq<Player>): real {
    TotalPoints(Chosen(Picks(lineup, SlotOrder(lineup))))
  }

  /** Every pick fits the slot it fills. */
  lemma {:induction false} PicksEligible(pool: seq<Player>, slots: seq<Slot>)
    ensures forall i :: 0 <= i < |slots| && Picks(pool, slots)[i].Some? ==>
      Eligible(Picks(pool, slots)[i].value, slots[i])
  {
    if slots != [] {
      var best := BestBySkill(pool, slots[0]);
      var rest := After(pool, best);
      var picks := Picks(pool, slots);
      BestBySkillFacts(pool, slots[0]);
      PicksEligible(rest, slots[1..]);
      forall i | 0 < i < |slots| && picks[i].Some? ensures Eligible(picks[i].value, slots[i]) {
        assert picks[i] == Picks(rest, slots[1..])[i - 1];
        assert slots[i] == slots[1..][i - 1];
      }
    }
  }

  /** The picked players are drawn from the pool without repetition:
      together they form a sub-multiset of the pool. */
  lemma {:induction false} PicksDistinct(pool: seq<Player>, slots: seq<Slot>)
    ensures multiset(Chosen(Picks(pool, slots))) <= multiset(pool)
  {
    if slots != [] {
      var best := BestBySkill(pool, slots[0]);
      var rest := After(pool, best);
      var picks := Picks(pool, slots);
      var later := Picks(rest, slots[1..]);
      BestBySkillFacts(pool, slots[0]);
      PicksDistinct(rest, slots[1..]);
      assert picks == [best] + later;
      assert picks[1..] == later;
      if best.Some? {
        assert Chosen(picks) == [best.value] + Chosen(later);
        assert multiset(Chosen(picks)) == multiset{best.value} + multiset(Chosen(later));
      } else {
        assert Chosen(picks) == [] + Chosen(later);
      }
    }
  }

  /** The optimal score adds up the points of distinct roster players, at
      most one per starting slot and so at most as many as there are
      starters, each eligible for the slot it fills. */
  lemma OptimalScoreFacts(lineup: seq<Player>)
    ensures var picks := Picks(lineup, SlotOrder(lineup));
      && OptimalScore(lineup) == TotalPoints(Chosen(picks))
      && multiset(Chosen(picks)) <= multiset(lineup)
      && |Chosen(picks)| <= |Starters(lineup)|
      && (forall i :: 0 <= i < |picks| && picks[i].Some? ==> Eligible(picks[i].value, SlotOrder(lineup)[i]))
  {
    SlotOrderPermutation(lineup);
    PicksEligible(lineup, SlotOrder(lineup));
    PicksDistinct(lineup, SlotOrder(lineup));
  }

  /** The first half of `get_optimal_lineup`: collects the lineup's slot
      labels, drops bench and injured reserve, sorts them by length and
      moves the first "OP" to the end. */
  method LineupSlots(lineup: seq<Player>) returns (lineupSlots: seq<Slot>)
    ensures lineupSlots == SlotOrder(lineup)
  {
    lineupSlots := [];
    for i := 0 to |lineup|
      invariant lineupSlots == SlotsOf(lineup[..i])
    {
      assert lineup[..i + 1][..i] == lineup[..i];
      lineupSlots := lineupSlots + [lineup[i].slotPosition];
    }
    assert lineup[..|lineup|] == lineup;
    lineupSlots := Starting(lineupSlots);
    lineupSlots := SortBy(lineupSlots, Length);
    if SUPERFLEX in lineupSlots {
      lineupSlots := RemoveFirst(lineupSlots, SUPERFLEX);
      lineupSlots := lineupSlots + [SUPERFLEX];
    }
  }

  /** The closing loop of `get_optimal_lineup`: adds up the points of the
      picks, skipping the slots nobody could fill. */
  method PickedPoints(optimalLineup: seq<Option<Player>>) returns (optimalScore: real)
    ensures optimalScore == TotalPoints(Chosen(optimalLineup))
  {
    optimalScore := 0.0;
    for i := 0 to |optimalLineup|
      invariant optimalScore + TotalPoints(Chosen(optimalLineup[i..])) == TotalPoints(Chosen(optimalLineup))
    {
      PickedPointsStep(optimalLineup, i);
      match optimalLineup[i]
      case Some(p) =>
        optimalScore := optimalScore + p.points;
      case None =>
    }
    assert optimalLineup[|optimalLineup|..] == [];
  }

  /** `get_optimal_lineup`: orders the starting labels, fills them greedily
      from a copy of the roster and adds up the picked players' points. */
  method OptimalLineup(lineup: seq<Player>) returns (optimalScore: real)
    ensures optimalScore == OptimalScore(lineup)
  {
    var lineupSlots := LineupSlots(lineup);
    var lineupCopy := new PlayerList(lineup);
    var optimalLineup := FillSlots(lineupCopy, lineupSlots);
    optimalScore := PickedPoints(optimalLineup);
  }

  /** The middle loop of `get_optimal_lineup`: one greedy pick per slot
      label, in order, each taken out of the roster copy. */
  method FillSlots(lineupCopy: PlayerList, lineupSlots: seq<Slot>) returns (optimalLineup: seq<Option<Player>>)
    modifies lineupCopy
    ensures optimalLineup == Picks(old(lineupCopy.items), lineupSlots)
  {
    optimalLineup := [];
    for i := 0 to |lineupSlots|
      invariant optimalLineup + Picks(lineupCopy.items, lineupSlots[i..]) == Picks(old(lineupCopy.items), lineupSlots)
    {
      ghost var pool := lineupCopy.items;
      var best := GetBestBySkill(lineupCopy, lineupSlots[i]);
      FillStep(optimalLineup, pool, lineupSlots, i, Picks(old(lineupCopy.items), lineupSlots));
      optimalLineup := optimalLineup + [best];
    }
    assert lineupSlots[|lineupSlots|..] == [];
  }

  /** One pass of the slot loop: the pick for label `i` joins the picks made
      so far, and the later picks come from the pool it leaves. */
  lemma FillStep(done: seq<Option<Player>>, pool: seq<Player>, slots: seq<Slot>, i: nat, whole: seq<Option<Player>>)
    requires i < |slots|
    requires done + Picks(pool, slots[i..]) == whole
    ensures done + [BestBySkill(pool, slots[i])] + Picks(After(pool, BestBySkill(pool, slots[i])), slots[i + 1..]) == whole
  {
    var best := BestBySkill(pool, slots[i]);
    var later := Picks(After(pool, best), slots[i + 1..]);
    PicksStep(pool, slots, i);
    assert done + [best] + later == done + ([best] + later);
  }

  /** Peeling one pick off the front of the sum. */
  lemma PickedPointsStep(picks: seq<Option<Player>>, i: nat)
    requires i < |picks|
    ensures TotalPoints(Chosen(picks[i..]))
         == (if picks[i].Some? then picks[i].value.points else 0.0) + TotalPoints(Chosen(picks[i + 1..]))
  {
    var rest := Chosen(picks[i + 1..]);
    assert picks[i..][1..] == picks[i + 1..];
    if picks[i].Some? {
      assert Chosen(picks[i..]) == [picks[i].value] + rest;
      assert ([picks[i].value] + rest)[1..] == rest;
    } else {
      assert Chosen(picks[i..]) == [] + rest;
      assert [] + rest == rest;
    }
  }

  /** The `(score, optimal_score, effeciency)` triple of one team-week. */
  datatype Efficiency = Efficiency(score: real, optimal: real, ratio: real)

  /** `get_roster_effeciency`: the score as given, the optimal score rounded
      by `round2`, and their rounded ratio, which is 0 when the rounded
      optimal score is 0. */
  function RosterEfficiency(lineup: seq<Player>, score: real, round2: real -> real): (r: Efficiency)
    ensures r.score == score
    ensures r.optimal == round2(OptimalScore(lineup))
    ensures r.optimal == 0.0 ==> r.ratio == 0.0
    ensures r.optimal != 0.0 ==> r.ratio == round2(score / r.optimal)
  {
    var optimal := round2(OptimalScore(lineup));
    Efficiency(score, optimal, if optimal == 0.0 then 0.0 else round2(score / optimal))
  }

  /** `get_roster_effeciency` as the program runs it: the optimizer pass,
      then the rounding and the guarded division. */
  method GetRosterEfficiency(lineup: seq<Player>, score: real, round2: real -> real) returns (r: Efficiency)
    ensures r == RosterEfficiency(lineup, score, round2)
  {
    var optimalScore := OptimalLineup(lineup);
    optimalScore := round2(optimalScore);
    var effeciency;
    if optimalScore == 0.0 {
      effeciency := 0.0;
    } else {
      effeciency := round2(score / optimalScore);
    }
    r := Efficiency(score, optimalScore, effeciency);
  }
}
