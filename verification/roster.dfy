/** The box-score data one week of the awards engine reads: teams, players
    and head-to-head matchups, as the league provider hands them over. */
module Roster {
  import opened Sequences

  datatype Option<+T> = None | Some(value: T)

  /** A lineup slot label: a single position ("QB"), a flex list
      ("RB/WR/TE"), the superflex "OP", the bench "BE" or injured reserve "IR". */
  type Slot = string

  const BENCH: Slot := "BE"
  const INJURED_RESERVE: Slot := "IR"
  const SUPERFLEX: Slot := "OP"

  /** A franchise; `id` stands for the object identity the source compares by. */
  datatype Team = Team(id: nat, name: string)

  /** One rostered player for one week. `gamePlayed` is the completion
      percentage of the player's game (only 100 counts as fully played). */
  datatype Player = Player(
    id: nat,
    name: string,
    points: real,
    projectedPoints: real,
    slotPosition: Slot,
    eligibleSlots: seq<Slot>,
    gamePlayed: int,
    onByeWeek: bool)

  /** One box score: both teams, their scores and their full lineups. */
  datatype Matchup = Matchup(
    home: Team,
    away: Team,
    homeScore: real,
    awayScore: real,
    homeLineup: seq<Player>,
    awayLineup: seq<Player>)

  /** A started player: neither on the bench nor on injured reserve. */
  predicate IsStarter(p: Player) {
    p.slotPosition != BENCH && p.slotPosition != INJURED_RESERVE
  }

  /** A benched player: in slot "BE" (injured reserve is not the bench). */
  predicate IsBenched(p: Player) {
    p.slotPosition == BENCH
  }

  /** The started players of a lineup, in lineup order. */
  function Starters(lineup: seq<Player>): (r: seq<Player>)
    ensures |r| <= |lineup|
    ensures forall p :: p in r <==> p in lineup && IsStarter(p)
  {
    FilterMembers(lineup, IsStarter);
    Filter(lineup, IsStarter)
  }

  /** The benched players of a lineup, in lineup order (injured reserve excluded). */
  function Benched(lineup: seq<Player>): (r: seq<Player>)
    ensures forall p :: p in r <==> p in lineup && IsBenched(p)
  {
    FilterMembers(lineup, IsBenched);
    Filter(lineup, IsBenched)
  }

  /** The comprehension keeps lineup order and repetition: filtering a
      concatenation filters each part in turn, and one player is kept
      exactly when it started. */
  lemma StartersAppend(a: seq<Player>, b: seq<Player>)
    ensures Starters(a + b) == Starters(a) + Starters(b)
    ensures forall p :: Starters([p]) == if IsStarter(p) then [p] else []
  {
    FilterAppend(a, b, IsStarter);
    forall p ensures Starters([p]) == if IsStarter(p) then [p] else [] {
      FilterOne(p, IsStarter);
    }
  }

  /** The bench comprehension keeps lineup order and repetition in the
      same way. */
  lemma BenchedAppend(a: seq<Player>, b: seq<Player>)
    ensures Benched(a + b) == Benched(a) + Benched(b)
    ensures forall p :: Benched([p]) == if IsBenched(p) then [p] else []
  {
    FilterAppend(a, b, IsBenched);
    forall p ensures Benched([p]) == if IsBenched(p) then [p] else [] {
      FilterOne(p, IsBenched);
    }
  }

  /** The team a player of matchup `m` is credited to: the home team when the
      player occurs in the home lineup, the away team otherwise. */
  function TeamOf(m: Matchup, p: Player): Team {
    if p in m.homeLineup then m.home else m.away
  }
}
