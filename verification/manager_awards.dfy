/** The manager pass: every team-week's efficiency goes into a dictionary
    keyed by team (a later write replaces an earlier one), then the best and
    the worst ratio in that dictionary are awarded. */
module ManagerAwards {
  import opened Roster
  import opened Extremum
  import opened Records
  import opened Lineup

  /** One team-week as the pass sees it: the team, the lineup it fielded
      and the score it made. */
  datatype Side = Side(team: Team, lineup: seq<Player>, score: real)

  /** The team-weeks in the order the pass writes them: home, then away,
      for each matchup. */
  function Sides(box: seq<Matchup>): (r: seq<Side>)
    ensures |r| == 2 * |box|
  {
    if box == [] then []
    else
      var m := box[|box| - 1];
      Sides(box[..|box| - 1]) + [Side(m.home, m.homeLineup, m.homeScore), Side(m.away, m.awayLineup, m.awayScore)]
  }

  /** Team-week `2 i` is matchup `i`'s home side and `2 i + 1` its away side. */
  lemma {:induction false} SidesOfMatchup(box: seq<Matchup>, i: int)
    requires 0 <= i < |box|
    ensures Sides(box)[2 * i] == Side(box[i].home, box[i].homeLineup, box[i].homeScore)
    ensures Sides(box)[2 * i + 1] == Side(box[i].away, box[i].awayLineup, box[i].awayScore)
  {
    var n := |box| - 1;
    if i < n {
      var prev := box[..n];
      SidesOfMatchup(prev, i);
      assert prev[i] == box[i];
    }
  }

  /** One write into the dictionary: a team and the efficiency triple
      computed for it. */
  datatype Write = Write(team: Team, value: Efficiency)

  /** The writes of the pass, one per team-week, in order. */
  function Writes(box: seq<Matchup>, round2: real -> real): (r: seq<Write>)
    ensures |r| == |Sides(box)|
  {
    var sides := Sides(box);
    seq(|sides|, i requires 0 <= i < |sides| => Write(sides[i].team, RosterEfficiency(sides[i].lineup, sides[i].score, round2)))
  }

  /** One more matchup adds its home write, then its away write. */
  lemma WritesStep(box: seq<Matchup>, round2: real -> real, i: int)
    requires 0 <= i < |box|
    ensures Writes(box[..i + 1], round2) == Writes(box[..i], round2)
      + [Write(box[i].home, RosterEfficiency(box[i].homeLineup, box[i].homeScore, round2)),
         Write(box[i].away, RosterEfficiency(box[i].awayLineup, box[i].awayScore, round2))]
  {
    assert box[..i + 1][..i] == box[..i];
    var before := Sides(box[..i]);
    assert Sides(box[..i + 1]) == before + [Side(box[i].home, box[i].homeLineup, box[i].homeScore), Side(box[i].away, box[i].awayLineup, box[i].awayScore)];
  }

  /** The efficiency dictionary: its keys in insertion order and its entries. */
  datatype Table = Table(keys: seq<Team>, entries: map<Team, Efficiency>)

  /** The keys are distinct and are exactly the dictionary's keys. */
  ghost predicate WellFormed(t: Table) {
    && (forall i, j :: 0 <= i < j < |t.keys| ==> t.keys[i] != t.keys[j])
    && (forall k :: k in t.entries <==> k in t.keys)
  }

  /** `d[k] = v`: a new key goes last; a key already present keeps its place
      and takes the new value. */
  function Put(t: Table, w: Write): (r: Table)
    ensures r.entries == t.entries[w.team := w.value]
    ensures w.team in t.entries ==> r.keys == t.keys
    ensures w.team !in t.entries ==> r.keys == t.keys + [w.team]
  {
    Table(if w.team in t.entries then t.keys else t.keys + [w.team], t.entries[w.team := w.value])
  }

  /** A write keeps the dictionary well formed. */
  lemma PutWellFormed(t: Table, w: Write)
    requires WellFormed(t)
    ensures WellFormed(Put(t, w))
  {
  }

  /** The dictionary after the writes `writes`. */
  function TableOf(writes: seq<Write>): Table {
    if writes == [] then Table([], map[])
    else
      var n := |writes| - 1;
      Put(TableOf(writes[..n]), writes[n])
  }

  /** The dictionary is well formed, and its keys are exactly the teams
      written. */
  lemma {:induction false} TableKeys(writes: seq<Write>)
    ensures WellFormed(TableOf(writes))
    ensures forall k :: k in TableOf(writes).entries <==> exists i :: 0 <= i < |writes| && writes[i].team == k
  {
    if writes != [] {
      var n := |writes| - 1;
      var prev := writes[..n];
      TableKeys(prev);
      PutWellFormed(TableOf(prev), writes[n]);
      forall k | k in TableOf(writes).entries
        ensures exists i :: 0 <= i < |writes| && writes[i].team == k
      {
        if k != writes[n].team {
          var i :| 0 <= i < n && prev[i].team == k;
          assert writes[i].team == k;
        }
      }
      forall k | exists i :: 0 <= i < |writes| && writes[i].team == k
        ensures k in TableOf(writes).entries
      {
        var i :| 0 <= i < |writes| && writes[i].team == k;
        if i < n {
          assert prev[i].team == k;
        }
      }
    }
  }

  /** Last write wins: a team's entry is the value of its last write. */
  lemma {:induction false} LastWriteWins(writes: seq<Write>, i: int)
    requires 0 <= i < |writes|
    requires forall j :: i < j < |writes| ==> writes[j].team != writes[i].team
    ensures writes[i].team in TableOf(writes).entries
    ensures TableOf(writes).entries[writes[i].team] == writes[i].value
  {
    var n := |writes| - 1;
    if i < n {
      var prev := writes[..n];
      assert forall j :: i < j < n ==> prev[j] == writes[j];
      LastWriteWins(prev, i);
    }
  }

  /** Two writes appended to the dictionary. */
  lemma TableStep(writes: seq<Write>, a: Write, b: Write)
    ensures TableOf(writes + [a, b]) == Put(Put(TableOf(writes), a), b)
  {
    assert (writes + [a, b])[..|writes| + 1] == writes + [a];
    assert (writes + [a])[..|writes|] == writes;
  }

  /** The ratios of the entries, in key order. */
  function Ratios(t: Table): (r: seq<real>)
    requires forall k :: k in t.keys ==> k in t.entries
    ensures |r| == |t.keys|
  {
    seq(|t.keys|, i requires 0 <= i < |t.keys| => t.entries[t.keys[i]].ratio)
  }

  /** The record after `max` (Higher) or `min` (Lower) over the dictionary
      by ratio: the first key in insertion order with the best ratio, and
      that key's score, optimal score and ratio. */
  function Appoint(a: Award, t: Table, d: Direction): (r: Award)
    requires t.keys != [] && forall k :: k in t.keys ==> k in t.entries
  {
    var k := t.keys[FirstBest(Ratios(t), d)];
    var e := t.entries[k];
    a.(team := Some(k), points := e.score, optimalScore := e.optimal, efficiency := e.ratio)
  }

  /** The dictionary `get_lineup_awards` builds from the week's matchups. */
  function WeekTable(box: seq<Matchup>, round2: real -> real): (t: Table)
    requires |box| > 0
    ensures t.keys != [] && WellFormed(t)
  {
    var writes := Writes(box, round2);
    TableKeys(writes);
    assert writes[0].team in TableOf(writes).entries;
    TableOf(writes)
  }

  function BestManager(box: seq<Matchup>, round2: real -> real): Award
    requires |box| > 0
  {
    Appoint(NewAward("Best Manager", None, 0.0), WeekTable(box, round2), Higher)
  }

  function WorstManager(box: seq<Matchup>, round2: real -> real): Award
    requires |box| > 0
  {
    Appoint(NewAward("Worst Manager", None, 9999.0), WeekTable(box, round2), Lower)
  }

  /** The appointed key is a dictionary key whose entry is copied into the
      record; no entry's ratio beats it, and every key inserted before it
      has a strictly worse ratio. */
  lemma AppointFacts(a: Award, t: Table, d: Direction)
    requires t.keys != [] && WellFormed(t)
    ensures var r := Appoint(a, t, d);
      && r.team.Some? && r.team.value in t.entries
      && r.points == t.entries[r.team.value].score
      && r.optimalScore == t.entries[r.team.value].optimal
      && r.efficiency == t.entries[r.team.value].ratio
      && r == a.(team := r.team, points := r.points, optimalScore := r.optimalScore, efficiency := r.efficiency)
      && (forall k :: k in t.entries ==> !Beats(d, t.entries[k].ratio, r.efficiency))
      && (exists i :: 0 <= i < |t.keys| && t.keys[i] == r.team.value
            && forall j :: 0 <= j < i ==> Beats(d, r.efficiency, t.entries[t.keys[j]].ratio))
  {
    var ratios := Ratios(t);
    var i := FirstBest(ratios, d);
    forall k | k in t.entries ensures !Beats(d, t.entries[k].ratio, Appoint(a, t, d).efficiency) {
      var j :| 0 <= j < |t.keys| && t.keys[j] == k;
      assert ratios[j] == t.entries[k].ratio;
    }
    assert forall j :: 0 <= j < i ==> ratios[j] == t.entries[t.keys[j]].ratio;
  }

  /** Best Manager's efficiency is at least, and Worst Manager's at most,
      the final entry of every team that played, and each copies its
      team's final entry. */
  lemma ManagerBounds(box: seq<Matchup>, round2: real -> real)
    requires |box| > 0
    ensures var t := WeekTable(box, round2);
      var best := BestManager(box, round2);
      var worst := WorstManager(box, round2);
      && best.title == "Best Manager" && worst.title == "Worst Manager"
      && best.team.Some? && best.team.value in t.entries && worst.team.Some? && worst.team.value in t.entries
      && best.points == t.entries[best.team.value].score && best.optimalScore == t.entries[best.team.value].optimal
      && best.efficiency == t.entries[best.team.value].ratio
      && worst.points == t.entries[worst.team.value].score && worst.optimalScore == t.entries[worst.team.value].optimal
      && worst.efficiency == t.entries[worst.team.value].ratio
      && (forall k :: k in t.entries ==> worst.efficiency <= t.entries[k].ratio <= best.efficiency)
  {
    var t := WeekTable(box, round2);
    AppointFacts(NewAward("Best Manager", None, 0.0), t, Higher);
    AppointFacts(NewAward("Worst Manager", None, 9999.0), t, Lower);
  }

  /** In terms of the writes: for every team-week that is its team's last
      write, Best Manager's efficiency is at least, and Worst Manager's at
      most, that team-week's ratio. */
  lemma ManagerBoundsByWrite(box: seq<Matchup>, round2: real -> real, i: int)
    requires |box| > 0 && 0 <= i < |Writes(box, round2)|
    requires forall j :: i < j < |Writes(box, round2)| ==> Writes(box, round2)[j].team != Writes(box, round2)[i].team
    ensures WorstManager(box, round2).efficiency <= Writes(box, round2)[i].value.ratio
    ensures Writes(box, round2)[i].value.ratio <= BestManager(box, round2).efficiency
  {
    LastWriteWins(Writes(box, round2), i);
    ManagerBounds(box, round2);
  }

  /** The dictionary-filling loop of `get_lineup_awards`. */
  method EfficiencyTable(box: seq<Matchup>, round2: real -> real) returns (keys: seq<Team>, entries: map<Team, Efficiency>)
    ensures Table(keys, entries) == TableOf(Writes(box, round2))
  {
    keys, entries := [], map[];
    for i := 0 to |box|
      invariant Table(keys, entries) == TableOf(Writes(box[..i], round2))
    {
      var matchup := box[i];
      WritesStep(box, round2, i);
      ghost var before := Table(keys, entries);
      var e := GetRosterEfficiency(matchup.homeLineup, matchup.homeScore, round2);
      if matchup.home !in entries {
        keys := keys + [matchup.home];
      }
      entries := entries[matchup.home := e];
      var f := GetRosterEfficiency(matchup.awayLineup, matchup.awayScore, round2);
      if matchup.away !in entries {
        keys := keys + [matchup.away];
      }
      entries := entries[matchup.away := f];
      TableStep(Writes(box[..i], round2), Write(matchup.home, e), Write(matchup.away, f));
      assert Table(keys, entries) == Put(Put(before, Write(matchup.home, e)), Write(matchup.away, f));
    }
    assert box[..|box|] == box;
  }

  /** The two manager records, in the order the pass returns them. */
  function ManagerAwardValues(box: seq<Matchup>, round2: real -> real): (r: seq<Award>)
    requires |box| > 0
    ensures |r| == 2
  {
    [BestManager(box, round2), WorstManager(box, round2)]
  }

  /** The titles of the two manager records, in the order of the pass. */
  const TITLES: seq<string> := ["Best Manager", "Worst Manager"]

  /** The two manager records carry their titles in the order of the pass. */
  lemma ManagerAwardTitles(box: seq<Matchup>, round2: real -> real)
    requires |box| > 0
    ensures Titles(ManagerAwardValues(box, round2)) == TITLES
  {
  }

  /** `get_lineup_awards`: Best Manager and Worst Manager, in that order. */
  method GetLineupAwards(box: seq<Matchup>, round2: real -> real) returns (awards: seq<Accolade>)
    requires |box| > 0
    ensures Holds(awards, ManagerAwardValues(box, round2))
  {
    var bestManager := new Accolade("Best Manager", None, 0.0);
    var worstManager := new Accolade("Worst Manager", None, 9999.0);
    var keys, entries := EfficiencyTable(box, round2);
    ghost var t := WeekTable(box, round2);
    Fill(bestManager, keys, entries, Higher);
    Fill(worstManager, keys, entries, Lower);
    awards := [bestManager, worstManager];
    HoldsTwo(bestManager, worstManager, BestManager(box, round2), WorstManager(box, round2));
  }

  /** The four assignments after `max`/`min` over the dictionary. */
  method Fill(acc: Accolade, keys: seq<Team>, entries: map<Team, Efficiency>, d: Direction)
    requires keys != [] && forall k :: k in keys ==> k in entries
    modifies acc
    ensures acc.Snapshot() == Appoint(old(acc.Snapshot()), Table(keys, entries), d)
  {
    var team := keys[FirstBest(Ratios(Table(keys, entries)), d)];
    acc.team := Some(team);
    acc.points := entries[team].score;
    acc.optimalScore := entries[team].optimal;
    acc.efficiency := entries[team].ratio;
  }
}
