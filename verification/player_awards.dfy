/** The player pass: over every lineup of the week, the started player who
    most beat (Biggest Boom) and most missed (Biggest Bust) its projection,
    and the benched player whose lowest-scoring started position mate
    scored least against it (Biggest Mistake). */
module PlayerAwards {
  import opened Roster
  import opened Extremum
  import opened Records
  import opened Sequences

  datatype Kind = BiggestBoom | BiggestBust | BiggestMistake

  function Title(k: Kind): string {
    match k
    case BiggestBoom => "Biggest Boom"
    case BiggestBust => "Biggest Bust"
    case BiggestMistake => "Biggest Mistake"
  }

  /** The initial `points` of each record. */
  function Sentinel(k: Kind): real {
    if k == BiggestBoom then 0.0 else 999.0
  }

  function Dir(k: Kind): Direction {
    if k == BiggestBoom then Higher else Lower
  }

  /** How far a player's points beat the projection (negative when they fell short). */
  function Performance(p: Player): real {
    p.points - p.projectedPoints
  }

  /** One candidate a record is offered: the team it would be credited to,
      the player it would name, the benched player (Biggest Mistake only)
      and the value compared with the record's `points`. */
  datatype Sighting = Sighting(team: Team, player: Player, benched: Option<Player>, value: real)

  /** The record after candidate `s` takes it. */
  function Crown(k: Kind, s: Sighting, a: Award): Award {
    if k == BiggestMistake then
      a.(player := Some(s.player), points := s.value, benchedPlayer := s.benched, team := Some(s.team))
    else
      a.(player := Some(s.player), points := s.value, team := Some(s.team))
  }

  /** Candidate `s` takes the record exactly when its value strictly beats
      the record's points. */
  function Offer(k: Kind, s: Sighting, a: Award): Award {
    if Beats(Dir(k), s.value, a.points) then Crown(k, s, a) else a
  }

  /** Record `k`, starting from `a`, after the candidates `ss` in order. */
  function Record(k: Kind, a: Award, ss: seq<Sighting>): Award {
    if ss == [] then a else Offer(k, ss[|ss| - 1], Record(k, a, ss[..|ss| - 1]))
  }

  /** Offering two runs of candidates one after the other. */
  lemma {:induction false} RecordAppend(k: Kind, a: Award, ss: seq<Sighting>, tt: seq<Sighting>)
    ensures Record(k, a, ss + tt) == Record(k, Record(k, a, ss), tt)
  {
    if tt == [] {
      assert ss + tt == ss;
    } else {
      var n := |tt| - 1;
      RecordAppend(k, a, ss, tt[..n]);
      assert (ss + tt)[..|ss + tt| - 1] == ss + tt[..n];
    }
  }

  /** No candidate's value, nor the starting points, strictly beats the
      record's points: the record holds the extremum. */
  lemma {:induction false} RecordUnbeaten(k: Kind, a: Award, ss: seq<Sighting>)
    ensures !Beats(Dir(k), a.points, Record(k, a, ss).points)
    ensures forall j :: 0 <= j < |ss| ==> !Beats(Dir(k), ss[j].value, Record(k, a, ss).points)
  {
    if ss != [] {
      var n := |ss| - 1;
      RecordUnbeaten(k, a, ss[..n]);
      assert forall j :: 0 <= j < n ==> ss[..n][j] == ss[j];
    }
  }

  /** No candidate offered, and not the start, beats the record. */
  lemma RecordUnbeatenBy(k: Kind, a: Award, ss: seq<Sighting>, s: Sighting)
    requires s in ss
    ensures !Beats(Dir(k), a.points, Record(k, a, ss).points)
    ensures !Beats(Dir(k), s.value, Record(k, a, ss).points)
  {
    RecordUnbeaten(k, a, ss);
  }

  /** Who holds the record: nobody beat the start and the record is as it
      started, or it is crowned by the candidate whose value beats the
      start and strictly beats every earlier candidate's value (the first
      of equals keeps it). */
  lemma {:induction false} RecordHolder(k: Kind, a: Award, ss: seq<Sighting>)
    ensures var r := Record(k, a, ss);
      || r == a
      || (exists i :: 0 <= i < |ss| && r == Crown(k, ss[i], a) && r.points == ss[i].value
            && Beats(Dir(k), ss[i].value, a.points)
            && forall j :: 0 <= j < i ==> Beats(Dir(k), ss[i].value, ss[j].value))
  {
    if ss != [] {
      var n := |ss| - 1;
      var prefix := ss[..n];
      var prev := Record(k, a, prefix);
      var s := ss[n];
      RecordHolder(k, a, prefix);
      RecordUnbeaten(k, a, prefix);
      if Beats(Dir(k), s.value, prev.points) {
        var d := Dir(k);
        if prev == a {
          assert Beats(d, s.value, a.points);
        } else {
          var i :| 0 <= i < n && prev == Crown(k, prefix[i], a) && prev.points == prefix[i].value
            && Beats(d, prefix[i].value, a.points);
          assert Crown(k, s, prev) == Crown(k, s, a);
          BeatsPast(d, s.value, prefix[i].value, a.points);
        }
        forall j | 0 <= j < n ensures Beats(d, s.value, ss[j].value) {
          assert prefix[j] == ss[j];
          BeatsPast(d, s.value, prev.points, prefix[j].value);
        }
      } else {
        if prev != a {
          var i :| 0 <= i < n && prev == Crown(k, prefix[i], a) && prev.points == prefix[i].value
            && Beats(Dir(k), prefix[i].value, a.points)
            && forall j :: 0 <= j < i ==> Beats(Dir(k), prefix[i].value, prefix[j].value);
          assert forall j :: 0 <= j < i ==> prefix[j] == ss[j];
          assert ss[i] == prefix[i];
        }
      }
    }
  }

  /** The candidates of the whole week: those of each matchup's home
      lineup, then of its away lineup, matchup by matchup. */
  function Gather(box: seq<Matchup>, f: (Matchup, seq<Player>) -> seq<Sighting>): seq<Sighting> {
    if box == [] then []
    else
      var m := box[|box| - 1];
      Gather(box[..|box| - 1], f) + f(m, m.homeLineup) + f(m, m.awayLineup)
  }

  /** Every candidate of the week comes from one lineup of one matchup. */
  lemma {:induction false} GatherSound(box: seq<Matchup>, f: (Matchup, seq<Player>) -> seq<Sighting>, s: Sighting)
    requires s in Gather(box, f)
    ensures exists i :: 0 <= i < |box| && (s in f(box[i], box[i].homeLineup) || s in f(box[i], box[i].awayLineup))
  {
    var n := |box| - 1;
    if s in Gather(box[..n], f) {
      GatherSound(box[..n], f, s);
      var i :| 0 <= i < n && (s in f(box[..n][i], box[..n][i].homeLineup) || s in f(box[..n][i], box[..n][i].awayLineup));
      assert box[..n][i] == box[i];
    }
  }

  /** Every candidate of every lineup is a candidate of the week. */
  lemma {:induction false} GatherComplete(box: seq<Matchup>, f: (Matchup, seq<Player>) -> seq<Sighting>, i: int, s: Sighting)
    requires 0 <= i < |box| && (s in f(box[i], box[i].homeLineup) || s in f(box[i], box[i].awayLineup))
    ensures s in Gather(box, f)
  {
    var n := |box| - 1;
    if i < n {
      assert box[..n][i] == box[i];
      GatherComplete(box[..n], f, i, s);
    }
  }

  // Biggest Boom and Biggest Bust

  /** The candidates a lineup's started players make, in lineup order:
      each credited to its side and valued at its performance. */
  function Starts(m: Matchup, lineup: seq<Player>): (r: seq<Sighting>)
    ensures |r| == |Starters(lineup)|
  {
    StartsOf(m, Starters(lineup))
  }

  /** The candidate a started player makes. */
  function Start1(m: Matchup, p: Player): Sighting {
    Sighting(TeamOf(m, p), p, None, Performance(p))
  }

  /** The candidates of the players `played`, in order. */
  function StartsOf(m: Matchup, played: seq<Player>): (r: seq<Sighting>)
    ensures |r| == |played|
  {
    seq(|played|, j requires 0 <= j < |played| => Start1(m, played[j]))
  }

  /** A lineup's Boom/Bust candidates are exactly its started players
      (never a benched player, never one on injured reserve). */
  lemma StartsExact(m: Matchup, lineup: seq<Player>)
    ensures forall s :: s in Starts(m, lineup) ==>
      s.player in lineup && IsStarter(s.player) && s == Start1(m, s.player)
    ensures forall p :: p in lineup && IsStarter(p) ==> Start1(m, p) in Starts(m, lineup)
  {
    var played := Starters(lineup);
    var r := Starts(m, lineup);
    forall p | p in lineup && IsStarter(p) ensures Start1(m, p) in r {
      var j :| 0 <= j < |played| && played[j] == p;
      assert r[j] == Start1(m, p);
    }
    forall s | s in r ensures s.player in lineup && IsStarter(s.player) {
      var j :| 0 <= j < |r| && r[j] == s;
      assert played[j] in played;
    }
  }

  // Biggest Mistake

  /** `position_mates`: the started players whose slot is one the benched
      player is eligible for, in lineup order. */
  function Mates(played: seq<Player>, benched: Player): (r: seq<Player>)
    ensures forall q :: q in r <==> q in played && q.slotPosition in benched.eligibleSlots
  {
    FilterMembers(played, (x: Player) => x.slotPosition in benched.eligibleSlots);
    Filter(played, (x: Player) => x.slotPosition in benched.eligibleSlots)
  }

  /** The comprehension keeps the started players' order and repetition:
      filtering a concatenation filters each part in turn, and one player
      is kept exactly when its slot is one the benched player may fill. */
  lemma MatesAppend(a: seq<Player>, b: seq<Player>, benched: Player)
    ensures Mates(a + b, benched) == Mates(a, benched) + Mates(b, benched)
    ensures forall q :: Mates([q], benched) == if q.slotPosition in benched.eligibleSlots then [q] else []
  {
    FilterAppend(a, b, (x: Player) => x.slotPosition in benched.eligibleSlots);
    forall q ensures Mates([q], benched) == if q.slotPosition in benched.eligibleSlots then [q] else [] {
      FilterOne(q, (x: Player) => x.slotPosition in benched.eligibleSlots);
    }
  }

  function PointsOf(players: seq<Player>): (r: seq<real>)
    ensures |r| == |players|
  {
    seq(|players|, i requires 0 <= i < |players| => players[i].points)
  }

  /** `min(position_mates, key=points)`: the first mate with the fewest
      points. */
  function LowestMate(mates: seq<Player>): (r: Player)
    requires mates != []
    ensures r in mates
    ensures forall q :: q in mates ==> r.points <= q.points
    ensures exists i :: 0 <= i < |mates| && mates[i] == r && forall j :: 0 <= j < i ==> mates[j].points > r.points
  {
    var ps := PointsOf(mates);
    var i := FirstBest(ps, Lower);
    assert forall j :: 0 <= j < |mates| ==> ps[j] == mates[j].points;
    mates[i]
  }

  /** The candidate a benched player makes when it has a started position
      mate: credited to its side, naming its lowest-scoring mate, valued at
      that mate's points less its own. */
  function Blunder(m: Matchup, played: seq<Player>, b: Player): Sighting
    requires Mates(played, b) != []
  {
    var mate := LowestMate(Mates(played, b));
    Sighting(TeamOf(m, b), mate, Some(b), mate.points - b.points)
  }

  /** The candidates among `benched`: one per benched player that has a
      started position mate, in lineup order. */
  function BlundersAmong(m: Matchup, played: seq<Player>, benched: seq<Player>): seq<Sighting> {
    if benched == [] then []
    else
      var b := benched[|benched| - 1];
      BlundersAmong(m, played, benched[..|benched| - 1]) + (if Mates(played, b) != [] then [Blunder(m, played, b)] else [])
  }

  /** A lineup's Biggest Mistake candidates. */
  function Blunders(m: Matchup, lineup: seq<Player>): seq<Sighting> {
    BlundersAmong(m, Starters(lineup), Benched(lineup))
  }

  /** `s` is the candidate of a benched player of `lineup`. */
  ghost predicate BlunderIn(m: Matchup, lineup: seq<Player>, s: Sighting) {
    && s.benched.Some? && s.benched.value in Benched(lineup)
    && Mates(Starters(lineup), s.benched.value) != []
    && s == Blunder(m, Starters(lineup), s.benched.value)
  }

  lemma {:induction false} BlundersAmongSound(m: Matchup, played: seq<Player>, benched: seq<Player>)
    ensures forall s :: s in BlundersAmong(m, played, benched) ==>
      && s.benched.Some? && s.benched.value in benched
      && Mates(played, s.benched.value) != [] && s == Blunder(m, played, s.benched.value)
  {
    if benched != [] {
      BlundersAmongSound(m, played, benched[..|benched| - 1]);
    }
  }

  lemma {:induction false} BlundersAmongComplete(m: Matchup, played: seq<Player>, benched: seq<Player>, b: Player)
    requires b in benched && Mates(played, b) != []
    ensures Blunder(m, played, b) in BlundersAmong(m, played, benched)
  {
    var n := |benched| - 1;
    if benched[n] != b {
      assert b in benched[..n];
      BlundersAmongComplete(m, played, benched[..n], b);
    }
  }

  /** A lineup's Biggest Mistake candidates are exactly its benched players
      that have a started position mate, each with its lowest-scoring mate. */
  lemma BlundersExact(m: Matchup, lineup: seq<Player>)
    ensures forall s :: s in Blunders(m, lineup) ==> BlunderIn(m, lineup, s)
    ensures forall b :: b in Benched(lineup) && Mates(Starters(lineup), b) != [] ==>
      Blunder(m, Starters(lineup), b) in Blunders(m, lineup)
  {
    BlundersAmongSound(m, Starters(lineup), Benched(lineup));
    forall b | b in Benched(lineup) && Mates(Starters(lineup), b) != []
      ensures Blunder(m, Starters(lineup), b) in Blunders(m, lineup)
    {
      BlundersAmongComplete(m, Starters(lineup), Benched(lineup), b);
    }
  }

  // The three records

  /** The record as constructed, credited to the first home team. */
  function Start(box: seq<Matchup>, k: Kind): Award
    requires |box| > 0
  {
    NewAward(Title(k), Some(box[0].home), Sentinel(k))
  }

  /** The candidates record `k` is offered. */
  function Candidates(box: seq<Matchup>, k: Kind): seq<Sighting> {
    if k == BiggestMistake then Gather(box, Blunders) else Gather(box, Starts)
  }

  /** Record `k` after the pass over the week. */
  function PlayerAward(box: seq<Matchup>, k: Kind): Award
    requires |box| > 0
  {
    Record(k, Start(box, k), Candidates(box, k))
  }

  /** The three player records after the scan, in the order the pass
      returns them. */
  function PlayerAwardValues(box: seq<Matchup>): (r: seq<Award>)
    requires |box| > 0
    ensures |r| == 3
  {
    [PlayerAward(box, BiggestBoom), PlayerAward(box, BiggestBust), PlayerAward(box, BiggestMistake)]
  }

  /** Offering candidates never changes a record's title. */
  lemma {:induction false} RecordTitle(k: Kind, a: Award, ss: seq<Sighting>)
    ensures Record(k, a, ss).title == a.title
  {
    if ss != [] {
      RecordTitle(k, a, ss[..|ss| - 1]);
    }
  }

  /** Each player record keeps the title it was constructed with. */
  lemma PlayerAwardTitle(box: seq<Matchup>, k: Kind)
    requires |box| > 0
    ensures PlayerAward(box, k).title == Title(k)
  {
    RecordTitle(k, Start(box, k), Candidates(box, k));
  }

  /** The titles of the three player records, in the order of the pass. */
  const TITLES: seq<string> := ["Biggest Boom", "Biggest Bust", "Biggest Mistake"]

  /** The three player records carry their titles in the order of the pass. */
  lemma PlayerAwardTitles(box: seq<Matchup>)
    requires |box| > 0
    ensures Titles(PlayerAwardValues(box)) == TITLES
  {
    PlayerAwardTitle(box, BiggestBoom);
    PlayerAwardTitle(box, BiggestBust);
    PlayerAwardTitle(box, BiggestMistake);
    TitlesThree(PlayerAward(box, BiggestBoom), PlayerAward(box, BiggestBust), PlayerAward(box, BiggestMistake));
  }

  /** Boom is at least 0 and Bust and Mistake at most 999; Boom is at least
      and Bust at most the performance of every started player of every
      lineup of the week (benched and injured-reserve players do not
      count). */
  lemma BoomBustBounds(box: seq<Matchup>, i: int, p: Player)
    requires |box| > 0 && 0 <= i < |box|
    requires p in box[i].homeLineup || p in box[i].awayLineup
    requires IsStarter(p)
    ensures PlayerAward(box, BiggestBoom).points >= 0.0
    ensures PlayerAward(box, BiggestBust).points <= 999.0
    ensures Performance(p) <= PlayerAward(box, BiggestBoom).points
    ensures PlayerAward(box, BiggestBust).points <= Performance(p)
  {
    var m := box[i];
    StartsExact(m, m.homeLineup);
    StartsExact(m, m.awayLineup);
    GatherComplete(box, Starts, i, Start1(m, p));
    RecordUnbeatenBy(BiggestBoom, Start(box, BiggestBoom), Gather(box, Starts), Start1(m, p));
    RecordUnbeatenBy(BiggestBust, Start(box, BiggestBust), Gather(box, Starts), Start1(m, p));
  }

  /** Boom or Bust either kept its sentinel and names nobody, or names a
      started player of one of the matchups (never benched, never on
      injured reserve), credited to its side, with its performance as the
      points, that beat the sentinel. */
  lemma BoomBustHolder(box: seq<Matchup>, k: Kind)
    requires |box| > 0 && k != BiggestMistake
    ensures var r := PlayerAward(box, k);
      || r == Start(box, k)
      || (&& r.player.Some? && IsStarter(r.player.value)
          && r.points == Performance(r.player.value)
          && Beats(Dir(k), r.points, Sentinel(k))
          && r == Start(box, k).(player := r.player, points := r.points, team := r.team)
          && exists i :: 0 <= i < |box|
               && (r.player.value in box[i].homeLineup || r.player.value in box[i].awayLineup)
               && r.team == Some(TeamOf(box[i], r.player.value)))
  {
    var ss := Gather(box, Starts);
    RecordHolder(k, Start(box, k), ss);
    var r := PlayerAward(box, k);
    if r != Start(box, k) {
      var j :| 0 <= j < |ss| && r == Crown(k, ss[j], Start(box, k)) && r.points == ss[j].value
        && Beats(Dir(k), ss[j].value, Start(box, k).points);
      GatherSound(box, Starts, ss[j]);
      var i :| 0 <= i < |box| && (ss[j] in Starts(box[i], box[i].homeLineup) || ss[j] in Starts(box[i], box[i].awayLineup));
      StartsExact(box[i], box[i].homeLineup);
      StartsExact(box[i], box[i].awayLineup);
    }
  }

  /** For every benched player and every started player of the same lineup
      in a slot the benched player is eligible for, Mistake's points are at
      most the started player's points less the benched player's. */
  lemma MistakeBound(box: seq<Matchup>, i: int, lineup: seq<Player>, b: Player, q: Player)
    requires |box| > 0 && 0 <= i < |box| && (lineup == box[i].homeLineup || lineup == box[i].awayLineup)
    requires b in lineup && b.slotPosition == BENCH
    requires q in lineup && IsStarter(q) && q.slotPosition in b.eligibleSlots
    ensures PlayerAward(box, BiggestMistake).points <= 999.0
    ensures PlayerAward(box, BiggestMistake).points <= q.points - b.points
  {
    var played := Starters(lineup);
    assert q in played;
    var mates := Mates(played, b);
    assert q in mates;
    var s := Blunder(box[i], played, b);
    assert s.value <= q.points - b.points by {
      assert LowestMate(mates).points <= q.points;
    }
    MistakeCandidate(box, i, lineup, b);
    RecordUnbeatenBy(BiggestMistake, Start(box, BiggestMistake), Gather(box, Blunders), s);
  }

  /** A benched player with a started position mate is offered to Mistake. */
  lemma MistakeCandidate(box: seq<Matchup>, i: int, lineup: seq<Player>, b: Player)
    requires 0 <= i < |box| && (lineup == box[i].homeLineup || lineup == box[i].awayLineup)
    requires b in lineup && b.slotPosition == BENCH && Mates(Starters(lineup), b) != []
    ensures Blunder(box[i], Starters(lineup), b) in Gather(box, Blunders)
  {
    assert b in Benched(lineup);
    BlundersExact(box[i], lineup);
    GatherComplete(box, Blunders, i, Blunder(box[i], Starters(lineup), b));
  }

  /** Mistake either kept its sentinel and names nobody, or names a benched
      player, credited to its side, and its lowest-scoring started position
      mate in the same lineup, with the mate's points less its own as the
      points, below the sentinel. */
  lemma MistakeHolder(box: seq<Matchup>)
    requires |box| > 0
    ensures var r := PlayerAward(box, BiggestMistake);
      || r == Start(box, BiggestMistake)
      || (&& r.benchedPlayer.Some? && r.player.Some?
          && r.benchedPlayer.value.slotPosition == BENCH
          && IsStarter(r.player.value) && r.player.value.slotPosition in r.benchedPlayer.value.eligibleSlots
          && r.points == r.player.value.points - r.benchedPlayer.value.points
          && r.points < 999.0
          && r == Start(box, BiggestMistake).(player := r.player, points := r.points,
                                              benchedPlayer := r.benchedPlayer, team := r.team)
          && exists i :: 0 <= i < |box| && r.team == Some(TeamOf(box[i], r.benchedPlayer.value))
               && (|| (r.benchedPlayer.value in box[i].homeLineup && BlunderIn(box[i], box[i].homeLineup, Sighting(r.team.value, r.player.value, r.benchedPlayer, r.points)))
                   || (r.benchedPlayer.value in box[i].awayLineup && BlunderIn(box[i], box[i].awayLineup, Sighting(r.team.value, r.player.value, r.benchedPlayer, r.points)))))
  {
    var a := Start(box, BiggestMistake);
    var ss := Gather(box, Blunders);
    RecordHolder(BiggestMistake, a, ss);
    var r := PlayerAward(box, BiggestMistake);
    if r != a {
      var j :| 0 <= j < |ss| && r == Crown(BiggestMistake, ss[j], a) && r.points == ss[j].value
        && Beats(Dir(BiggestMistake), ss[j].value, a.points);
      var s := ss[j];
      GatherSound(box, Blunders, s);
      var i :| 0 <= i < |box| && (s in Blunders(box[i], box[i].homeLineup) || s in Blunders(box[i], box[i].awayLineup));
      BlundersExact(box[i], box[i].homeLineup);
      BlundersExact(box[i], box[i].awayLineup);
      assert s == Sighting(r.team.value, r.player.value, r.benchedPlayer, r.points);
    }
  }

  /** Lowest mate's points compared with every position mate. */
  lemma BlunderFacts(m: Matchup, lineup: seq<Player>, s: Sighting)
    requires BlunderIn(m, lineup, s)
    ensures s.benched.value in lineup && s.benched.value.slotPosition == BENCH
    ensures s.player in lineup && IsStarter(s.player) && s.player.slotPosition in s.benched.value.eligibleSlots
    ensures s.value == s.player.points - s.benched.value.points
    ensures forall q :: q in lineup && IsStarter(q) && q.slotPosition in s.benched.value.eligibleSlots ==> s.player.points <= q.points
    ensures s.team == TeamOf(m, s.benched.value)
  {
    var b := s.benched.value;
    forall q | q in lineup && IsStarter(q) && q.slotPosition in b.eligibleSlots ensures s.player.points <= q.points {
      assert q in Mates(Starters(lineup), b);
    }
  }

  // The pass

  /** Boom and Bust offered one started player, as the loop body does it. */
  method ConsiderStarter(acc: Accolade, k: Kind, matchup: Matchup, player: Player)
    requires k != BiggestMistake
    modifies acc
    ensures acc.Snapshot() == Offer(k, Start1(matchup, player), old(acc.Snapshot()))
  {
    var performance := player.points - player.projectedPoints;
    var improves := if k == BiggestBoom then performance > acc.points else performance < acc.points;
    if improves {
      acc.player := Some(player);
      acc.points := performance;
      if player in matchup.homeLineup {
        acc.team := Some(matchup.home);
      } else {
        acc.team := Some(matchup.away);
      }
    }
  }

  /** Mistake offered one benched player and its lowest-scoring mate. */
  method ConsiderBenched(acc: Accolade, matchup: Matchup, lowestScoringMate: Player, benchedPlayer: Player)
    modifies acc
    ensures acc.Snapshot() == Offer(BiggestMistake,
      Sighting(TeamOf(matchup, benchedPlayer), lowestScoringMate, Some(benchedPlayer), lowestScoringMate.points - benchedPlayer.points),
      old(acc.Snapshot()))
  {
    var mistakeValue := lowestScoringMate.points - benchedPlayer.points;
    if mistakeValue < acc.points {
      acc.player := Some(lowestScoringMate);
      acc.points := mistakeValue;
      acc.benchedPlayer := Some(benchedPlayer);
      if benchedPlayer in matchup.homeLineup {
        acc.team := Some(matchup.home);
      } else {
        acc.team := Some(matchup.away);
      }
    }
  }

  /** The boom/bust loop over one lineup's started players. */
  method BoomBustPass(matchup: Matchup, playedPlayers: seq<Player>, boomPlayer: Accolade, bustPlayer: Accolade)
    requires boomPlayer != bustPlayer
    modifies boomPlayer, bustPlayer
    ensures boomPlayer.Snapshot() == Record(BiggestBoom, old(boomPlayer.Snapshot()), StartsOf(matchup, playedPlayers))
    ensures bustPlayer.Snapshot() == Record(BiggestBust, old(bustPlayer.Snapshot()), StartsOf(matchup, playedPlayers))
  {
    ghost var starts := StartsOf(matchup, playedPlayers);
    for j := 0 to |playedPlayers|
      invariant boomPlayer.Snapshot() == Record(BiggestBoom, old(boomPlayer.Snapshot()), starts[..j])
      invariant bustPlayer.Snapshot() == Record(BiggestBust, old(bustPlayer.Snapshot()), starts[..j])
    {
      var player := playedPlayers[j];
      assert starts[..j + 1][..j] == starts[..j];
      ConsiderStarter(boomPlayer, BiggestBoom, matchup, player);
      ConsiderStarter(bustPlayer, BiggestBust, matchup, player);
    }
    assert starts[..|starts|] == starts;
  }

  /** The mistake loop over one lineup's benched players. */
  method MistakePass(matchup: Matchup, playedPlayers: seq<Player>, benchedPlayers: seq<Player>, mistakePlayer: Accolade)
    modifies mistakePlayer
    ensures mistakePlayer.Snapshot()
         == Record(BiggestMistake, old(mistakePlayer.Snapshot()), BlundersAmong(matchup, playedPlayers, benchedPlayers))
  {
    for j := 0 to |benchedPlayers|
      invariant mistakePlayer.Snapshot()
             == Record(BiggestMistake, old(mistakePlayer.Snapshot()), BlundersAmong(matchup, playedPlayers, benchedPlayers[..j]))
    {
      var benchedPlayer := benchedPlayers[j];
      assert benchedPlayers[..j + 1][..j] == benchedPlayers[..j];
      ghost var before := BlundersAmong(matchup, playedPlayers, benchedPlayers[..j]);
      var positionMates := Mates(playedPlayers, benchedPlayer);
      if positionMates != [] {
        var lowestScoringMate := LowestMate(positionMates);
        ConsiderBenched(mistakePlayer, matchup, lowestScoringMate, benchedPlayer);
        assert BlundersAmong(matchup, playedPlayers, benchedPlayers[..j + 1])
            == before + [Blunder(matchup, playedPlayers, benchedPlayer)];
      } else {
        assert BlundersAmong(matchup, playedPlayers, benchedPlayers[..j + 1]) == before + [];
        assert before + [] == before;
      }
    }
    assert benchedPlayers[..|benchedPlayers|] == benchedPlayers;
  }

  /** The body of the lineup loop: the started and benched players are
      split out, then boom/bust and mistake passes run over them. */
  method ScanLineup(matchup: Matchup, lineup: seq<Player>, boomPlayer: Accolade, bustPlayer: Accolade, mistakePlayer: Accolade)
    requires boomPlayer != bustPlayer && boomPlayer != mistakePlayer && bustPlayer != mistakePlayer
    modifies boomPlayer, bustPlayer, mistakePlayer
    ensures boomPlayer.Snapshot() == Record(BiggestBoom, old(boomPlayer.Snapshot()), Starts(matchup, lineup))
    ensures bustPlayer.Snapshot() == Record(BiggestBust, old(bustPlayer.Snapshot()), Starts(matchup, lineup))
    ensures mistakePlayer.Snapshot() == Record(BiggestMistake, old(mistakePlayer.Snapshot()), Blunders(matchup, lineup))
  {
    var playedPlayers := Starters(lineup);
    var benchedPlayers := Benched(lineup);
    BoomBustPass(matchup, playedPlayers, boomPlayer, bustPlayer);
    MistakePass(matchup, playedPlayers, benchedPlayers, mistakePlayer);
  }

  /** One more matchup: its home lineup's candidates, then its away
      lineup's. */
  lemma GatherStep(box: seq<Matchup>, f: (Matchup, seq<Player>) -> seq<Sighting>, i: int)
    requires 0 <= i < |box|
    ensures Gather(box[..i + 1], f) == Gather(box[..i], f) + f(box[i], box[i].homeLineup) + f(box[i], box[i].awayLineup)
  {
    assert box[..i + 1][..i] == box[..i];
  }

  /** Two runs of candidates offered after the first `i` matchups. */
  lemma RecordStep(k: Kind, a: Award, g: seq<Sighting>, x: seq<Sighting>, y: seq<Sighting>)
    ensures Record(k, a, g + x + y) == Record(k, Record(k, Record(k, a, g), x), y)
  {
    RecordAppend(k, a, g + x, y);
    RecordAppend(k, a, g, x);
  }

  /** The matchup loop of `get_player_awards` on the three records. */
  method ScanPlayers(box: seq<Matchup>, boomPlayer: Accolade, bustPlayer: Accolade, mistakePlayer: Accolade)
    requires |box| > 0
    requires boomPlayer != bustPlayer && boomPlayer != mistakePlayer && bustPlayer != mistakePlayer
    requires boomPlayer.Snapshot() == Start(box, BiggestBoom)
    requires bustPlayer.Snapshot() == Start(box, BiggestBust)
    requires mistakePlayer.Snapshot() == Start(box, BiggestMistake)
    modifies boomPlayer, bustPlayer, mistakePlayer
    ensures boomPlayer.Snapshot() == PlayerAward(box, BiggestBoom)
    ensures bustPlayer.Snapshot() == PlayerAward(box, BiggestBust)
    ensures mistakePlayer.Snapshot() == PlayerAward(box, BiggestMistake)
  {
    for i := 0 to |box|
      invariant boomPlayer.Snapshot() == Record(BiggestBoom, Start(box, BiggestBoom), Gather(box[..i], Starts))
      invariant bustPlayer.Snapshot() == Record(BiggestBust, Start(box, BiggestBust), Gather(box[..i], Starts))
      invariant mistakePlayer.Snapshot() == Record(BiggestMistake, Start(box, BiggestMistake), Gather(box[..i], Blunders))
    {
      var matchup := box[i];
      GatherStep(box, Starts, i);
      GatherStep(box, Blunders, i);
      RecordStep(BiggestBoom, Start(box, BiggestBoom), Gather(box[..i], Starts), Starts(matchup, matchup.homeLineup), Starts(matchup, matchup.awayLineup));
      RecordStep(BiggestBust, Start(box, BiggestBust), Gather(box[..i], Starts), Starts(matchup, matchup.homeLineup), Starts(matchup, matchup.awayLineup));
      RecordStep(BiggestMistake, Start(box, BiggestMistake), Gather(box[..i], Blunders), Blunders(matchup, matchup.homeLineup), Blunders(matchup, matchup.awayLineup));
      ScanLineup(matchup, matchup.homeLineup, boomPlayer, bustPlayer, mistakePlayer);
      ScanLineup(matchup, matchup.awayLineup, boomPlayer, bustPlayer, mistakePlayer);
    }
    assert box[..|box|] == box;
  }

  /** The three records as `get_player_awards` constructs them. */
  method NewPlayerRecords(box: seq<Matchup>) returns (boomPlayer: Accolade, bustPlayer: Accolade, mistakePlayer: Accolade)
    requires |box| > 0
    ensures fresh(boomPlayer) && fresh(bustPlayer) && fresh(mistakePlayer)
    ensures boomPlayer != bustPlayer && boomPlayer != mistakePlayer && bustPlayer != mistakePlayer
    ensures boomPlayer.Snapshot() == Start(box, BiggestBoom)
    ensures bustPlayer.Snapshot() == Start(box, BiggestBust)
    ensures mistakePlayer.Snapshot() == Start(box, BiggestMistake)
  {
    boomPlayer := new Accolade("Biggest Boom", Some(box[0].home), 0.0);
    bustPlayer := new Accolade("Biggest Bust", Some(box[0].home), 999.0);
    mistakePlayer := new Accolade("Biggest Mistake", Some(box[0].home), 999.0);
  }

  /** `get_player_awards`: Biggest Boom, Biggest Bust and Biggest Mistake,
      in that order. */
  method GetPlayerAwards(box: seq<Matchup>) returns (awards: seq<Accolade>)
    requires |box| > 0
    ensures Holds(awards, PlayerAwardValues(box))
  {
    var boomPlayer, bustPlayer, mistakePlayer := NewPlayerRecords(box);
    ScanPlayers(box, boomPlayer, bustPlayer, mistakePlayer);
    awards := [boomPlayer, bustPlayer, mistakePlayer];
    HoldsThree(boomPlayer, bustPlayer, mistakePlayer,
               PlayerAward(box, BiggestBoom), PlayerAward(box, BiggestBust), PlayerAward(box, BiggestMistake));
  }
}
