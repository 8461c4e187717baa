/** The whole week's awards: the six team awards, the two manager awards
    and the three player awards, in that order. */
module Accolades {
  import opened Roster
  import opened Records
  import TeamAwards
  import ManagerAwards
  import PlayerAwards

  /** The eleven records of a week, as values: the team awards, the
      manager awards, then the player awards. */
  function WeekAwards(box: seq<Matchup>, round2: real -> real): (r: seq<Award>)
    requires |box| > 0
    ensures |r| == 11
  {
    TeamAwards.TeamAwardValues(box) + ManagerAwards.ManagerAwardValues(box, round2) + PlayerAwards.PlayerAwardValues(box)
  }

  /** `get_accolades`: eleven records holding the week's award values, in
      order. */
  method GetAccolades(box: seq<Matchup>, round2: real -> real) returns (awards: seq<Accolade>)
    requires |box| > 0
    ensures Holds(awards, WeekAwards(box, round2))
  {
    var teamAwards := TeamAwards.GetTeamAwards(box);
    var lineupAwards := ManagerAwards.GetLineupAwards(box, round2);
    var playerAwards := PlayerAwards.GetPlayerAwards(box);
    HoldsAppend(teamAwards, lineupAwards, TeamAwards.TeamAwardValues(box), ManagerAwards.ManagerAwardValues(box, round2));
    HoldsAppend(teamAwards + lineupAwards, playerAwards,
                TeamAwards.TeamAwardValues(box) + ManagerAwards.ManagerAwardValues(box, round2),
                PlayerAwards.PlayerAwardValues(box));
    awards := teamAwards + lineupAwards + playerAwards;
  }

  /** The eleven titles in the order `get_accolades` returns them: Most
      Dominant Win, Closest Win, Toughest Loss, Luckiest Win, Highest
      Scorer, Lowest Scorer, Best Manager, Worst Manager, Biggest Boom,
      Biggest Bust, Biggest Mistake. */
  const TITLES: seq<string> := TeamAwards.TITLES + ManagerAwards.TITLES + PlayerAwards.TITLES

  /** Whatever the week, the eleven records carry the eleven titles in the
      fixed order. */
  lemma WeekTitles(box: seq<Matchup>, round2: real -> real)
    requires |box| > 0
    ensures Titles(WeekAwards(box, round2)) == TITLES
  {
    var teamValues := TeamAwards.TeamAwardValues(box);
    var managerValues := ManagerAwards.ManagerAwardValues(box, round2);
    var playerValues := PlayerAwards.PlayerAwardValues(box);
    TeamAwards.TeamAwardTitles(box);
    ManagerAwards.ManagerAwardTitles(box, round2);
    PlayerAwards.PlayerAwardTitles(box);
    TitlesAppend(teamValues, managerValues);
    TitlesAppend(teamValues + managerValues, playerValues);
  }
}
