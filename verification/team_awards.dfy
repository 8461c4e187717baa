/** The team-level pass: one scan over the matchups that keeps six running
    records (biggest and smallest margin, best losing and worst winning
    score, best winning and worst losing score). */
module TeamAwards {
  import opened Roster
  import opened Extremum
  import opened Records

  /** Who won a matchup, who lost, and with which scores. */
  datatype Outcome = Outcome(winner: Team, loser: Team, winningScore: real, losingScore: real)

  /** The home team wins only with a strictly higher score: a tie goes to
      the away team. */
  function Decide(m: Matchup): Outcome {
    if m.homeScore > m.awayScore then Outcome(m.home, m.away, m.homeScore, m.awayScore)
    else Outcome(m.away, m.home, m.awayScore, m.homeScore)
  }

  function Abs(x: real): real {
    if x < 0.0 then -x else x
  }

  /** The winning score is never below the losing one and exceeds it by
      exactly the score difference; the two scores are the matchup's two
      scores; the home side wins exactly on a strictly higher score. */
  lemma DecideFacts(m: Matchup)
    ensures var o := Decide(m);
      && o.winningScore >= o.losingScore
      && o.winningScore - o.losingScore == Abs(m.homeScore - m.awayScore)
      && multiset{o.winningScore, o.losingScore} == multiset{m.homeScore, m.awayScore}
      && (m.homeScore > m.awayScore ==> o.winner == m.home && o.loser == m.away)
      && (m.homeScore <= m.awayScore ==> o.winner == m.away && o.loser == m.home)
  {
  }

  datatype Category = MostDominantWin | ClosestWin | ToughestLoss | LuckiestWin | HighestScorer | LowestScorer

  function Title(c: Category): string {
    match c
    case MostDominantWin => "Most Dominant Win"
    case ClosestWin => "Closest Win"
    case ToughestLoss => "Toughest Loss"
    case LuckiestWin => "Luckiest Win"
    case HighestScorer => "Highest Scorer"
    case LowestScorer => "Lowest Scorer"
  }

  /** The initial `points` of each record. */
  function Sentinel(c: Category): real {
    match c
    case MostDominantWin => 0.0
    case ClosestWin => 9999.0
    case ToughestLoss => 0.0
    case LuckiestWin => 9999.0
    case HighestScorer => 0.0
    case LowestScorer => 9999.0
  }

  function Dir(c: Category): Direction {
    if c in {MostDominantWin, ToughestLoss, HighestScorer} then Higher else Lower
  }

  /** The quantity each record compares: the score difference for the two
      margin awards, otherwise the losing or the winning score (Highest
      Scorer sees winning scores only, Lowest Scorer losing scores only). */
  function Metric(c: Category, m: Matchup): real {
    var o := Decide(m);
    match c
    case MostDominantWin => Abs(m.homeScore - m.awayScore)
    case ClosestWin => Abs(m.homeScore - m.awayScore)
    case ToughestLoss => o.losingScore
    case LuckiestWin => o.winningScore
    case HighestScorer => o.winningScore
    case LowestScorer => o.losingScore
  }

  /** The record value a new observation is compared with: `points -
      opp_score` for the margin awards, `points` for the others. */
  function Tracked(c: Category, a: Award): real {
    if c == MostDominantWin || c == ClosestWin then a.points - a.oppScore else a.points
  }

  /** The record after matchup `m` takes it. */
  function Crown(c: Category, m: Matchup, a: Award): Award {
    var o := Decide(m);
    match c
    case ToughestLoss =>
      a.(team := Some(o.loser), points := o.losingScore, oppScore := o.winningScore, opponent := Some(o.winner))
    case HighestScorer => a.(team := Some(o.winner), points := o.winningScore)
    case LowestScorer => a.(team := Some(o.loser), points := o.losingScore)
    case _ =>
      a.(team := Some(o.winner), points := o.winningScore, oppScore := o.losingScore, opponent := Some(o.loser))
  }

  /** The record as constructed, credited to the first home team. */
  function Start(box: seq<Matchup>, c: Category): Award
    requires |box| > 0
  {
    NewAward(Title(c), Some(box[0].home), Sentinel(c))
  }

  /** Matchup `m` takes record `c` over exactly when its metric strictly
      beats the value the record holds. */
  function Offer(c: Category, m: Matchup, a: Award): Award {
    if Beats(Dir(c), Metric(c, m), Tracked(c, a)) then Crown(c, m, a) else a
  }

  /** The record after the first `n` matchups. */
  function TeamAward(box: seq<Matchup>, c: Category, n: nat): Award
    requires 0 < |box| && n <= |box|
  {
    if n == 0 then Start(box, c) else Offer(c, box[n - 1], TeamAward(box, c, n - 1))
  }

  /** A crowned record compares with its matchup's metric. */
  lemma TrackedCrown(c: Category, m: Matchup, a: Award)
    ensures Tracked(c, Crown(c, m, a)) == Metric(c, m)
  {
    DecideFacts(m);
  }

  /** A new holder overwrites everything the previous holder set. */
  lemma CrownOver(c: Category, m: Matchup, m': Matchup, a: Award)
    ensures Crown(c, m, Crown(c, m', a)) == Crown(c, m, a)
  {
  }

  /** One of the six `if` blocks of the scan: the matchup takes record `c`
      when its metric strictly beats the value the record holds. */
  method Contest(acc: Accolade, c: Category, matchup: Matchup)
    modifies acc
    ensures acc.Snapshot() == Offer(c, matchup, old(acc.Snapshot()))
  {
    var winner, loser, winningScore, losingScore;
    if matchup.homeScore > matchup.awayScore {
      winner, loser := matchup.home, matchup.away;
      winningScore, losingScore := matchup.homeScore, matchup.awayScore;
    } else {
      winner, loser := matchup.away, matchup.home;
      winningScore, losingScore := matchup.awayScore, matchup.homeScore;
    }
    var scoreDiff := Abs(matchup.homeScore - matchup.awayScore);
    match c
    case MostDominantWin =>
      if scoreDiff > acc.points - acc.oppScore {
        acc.team, acc.points, acc.oppScore, acc.opponent := Some(winner), winningScore, losingScore, Some(loser);
      }
    case ClosestWin =>
      if scoreDiff < acc.points - acc.oppScore {
        acc.team, acc.points, acc.oppScore, acc.opponent := Some(winner), winningScore, losingScore, Some(loser);
      }
    case ToughestLoss =>
      if losingScore > acc.points {
        acc.team, acc.points, acc.oppScore, acc.opponent := Some(loser), losingScore, winningScore, Some(winner);
      }
    case LuckiestWin =>
      if winningScore < acc.points {
        acc.team, acc.points, acc.oppScore, acc.opponent := Some(winner), winningScore, losingScore, Some(loser);
      }
    case HighestScorer =>
      if winningScore > acc.points {
        acc.team, acc.points := Some(winner), winningScore;
      }
    case LowestScorer =>
      if losingScore < acc.points {
        acc.team, acc.points := Some(loser), losingScore;
      }
  }

  /** The loop of `get_team_awards` over the week's matchups, on the six
      records the pass constructed (six distinct objects). */
  method ScanMatchups(box: seq<Matchup>, dominantWinner: Accolade, narrowestWinner: Accolade,
                      highestLoser: Accolade, lowestWinner: Accolade, highestScorer: Accolade, lowestScorer: Accolade)
    requires |box| > 0
    requires dominantWinner != narrowestWinner && dominantWinner != highestLoser && dominantWinner != lowestWinner
    requires dominantWinner != highestScorer && dominantWinner != lowestScorer
    requires narrowestWinner != highestLoser && narrowestWinner != lowestWinner && narrowestWinner != highestScorer
    requires narrowestWinner != lowestScorer && highestLoser != lowestWinner && highestLoser != highestScorer
    requires highestLoser != lowestScorer && lowestWinner != highestScorer && lowestWinner != lowestScorer
    requires highestScorer != lowestScorer
    requires dominantWinner.Snapshot() == Start(box, MostDominantWin)
    requires narrowestWinner.Snapshot() == Start(box, ClosestWin)
    requires highestLoser.Snapshot() == Start(box, ToughestLoss)
    requires lowestWinner.Snapshot() == Start(box, LuckiestWin)
    requires highestScorer.Snapshot() == Start(box, HighestScorer)
    requires lowestScorer.Snapshot() == Start(box, LowestScorer)
    modifies dominantWinner, narrowestWinner, highestLoser, lowestWinner, highestScorer, lowestScorer
    ensures dominantWinner.Snapshot() == TeamAward(box, MostDominantWin, |box|)
    ensures narrowestWinner.Snapshot() == TeamAward(box, ClosestWin, |box|)
    ensures highestLoser.Snapshot() == TeamAward(box, ToughestLoss, |box|)
    ensures lowestWinner.Snapshot() == TeamAward(box, LuckiestWin, |box|)
    ensures highestScorer.Snapshot() == TeamAward(box, HighestScorer, |box|)
    ensures lowestScorer.Snapshot() == TeamAward(box, LowestScorer, |box|)
  {
    for i := 0 to |box|
      invariant dominantWinner.Snapshot() == TeamAward(box, MostDominantWin, i)
      invariant narrowestWinner.Snapshot() == TeamAward(box, ClosestWin, i)
      invariant highestLoser.Snapshot() == TeamAward(box, ToughestLoss, i)
      invariant lowestWinner.Snapshot() == TeamAward(box, LuckiestWin, i)
      invariant highestScorer.Snapshot() == TeamAward(box, HighestScorer, i)
      invariant lowestScorer.Snapshot() == TeamAward(box, LowestScorer, i)
    {
      var matchup := box[i];
      Contest(dominantWinner, MostDominantWin, matchup);
      Contest(narrowestWinner, ClosestWin, matchup);
      Contest(highestLoser, ToughestLoss, matchup);
      Contest(lowestWinner, LuckiestWin, matchup);
      Contest(highestScorer, HighestScorer, matchup);
      Contest(lowestScorer, LowestScorer, matchup);
    }
  }

  /** The six records as `get_team_awards` constructs them: distinct new
      objects, each credited to the first home team with its sentinel. */
  method NewRecords(box: seq<Matchup>)
    returns (dominantWinner: Accolade, narrowestWinner: Accolade, highestLoser: Accolade,
             lowestWinner: Accolade, highestScorer: Accolade, lowestScorer: Accolade)
    requires |box| > 0
    ensures fresh(dominantWinner) && fresh(narrowestWinner) && fresh(highestLoser)
    ensures fresh(lowestWinner) && fresh(highestScorer) && fresh(lowestScorer)
    ensures dominantWinner != narrowestWinner && dominantWinner != highestLoser && dominantWinner != lowestWinner
    ensures dominantWinner != highestScorer && dominantWinner != lowestScorer
    ensures narrowestWinner != highestLoser && narrowestWinner != lowestWinner && narrowestWinner != highestScorer
    ensures narrowestWinner != lowestScorer && highestLoser != lowestWinner && highestLoser != highestScorer
    ensures highestLoser != lowestScorer && lowestWinner != highestScorer && lowestWinner != lowestScorer
    ensures highestScorer != lowestScorer
    ensures dominantWinner.Snapshot() == Start(box, MostDominantWin)
    ensures narrowestWinner.Snapshot() == Start(box, ClosestWin)
    ensures highestLoser.Snapshot() == Start(box, ToughestLoss)
    ensures lowestWinner.Snapshot() == Start(box, LuckiestWin)
    ensures highestScorer.Snapshot() == Start(box, HighestScorer)
    ensures lowestScorer.Snapshot() == Start(box, LowestScorer)
  {
    dominantWinner := new Accolade("Most Dominant Win", Some(box[0].home), 0.0);
    narrowestWinner := new Accolade("Closest Win", Some(box[0].home), 9999.0);
    highestLoser := new Accolade("Toughest Loss", Some(box[0].home), 0.0);
    lowestWinner := new Accolade("Luckiest Win", Some(box[0].home), 9999.0);
    highestScorer := new Accolade("Highest Scorer", Some(box[0].home), 0.0);
    lowestScorer := new Accolade("Lowest Scorer", Some(box[0].home), 9999.0);
  }

  /** The six team records after the scan, in the order the pass returns
      them. */
  function TeamAwardValues(box: seq<Matchup>): (r: seq<Award>)
    requires |box| > 0
    ensures |r| == 6
  {
    [TeamAward(box, MostDominantWin, |box|), TeamAward(box, ClosestWin, |box|),
     TeamAward(box, ToughestLoss, |box|), TeamAward(box, LuckiestWin, |box|),
     TeamAward(box, HighestScorer, |box|), TeamAward(box, LowestScorer, |box|)]
  }

  /** `get_team_awards`: the six records, in the order the source returns
      them, each the result of the scan over all matchups. */
  method GetTeamAwards(box: seq<Matchup>) returns (awards: seq<Accolade>)
    requires |box| > 0
    ensures Holds(awards, TeamAwardValues(box))
  {
    var dominantWinner, narrowestWinner, highestLoser, lowestWinner, highestScorer, lowestScorer := NewRecords(box);
    ScanMatchups(box, dominantWinner, narrowestWinner, highestLoser, lowestWinner, highestScorer, lowestScorer);
    awards := [dominantWinner, narrowestWinner, highestLoser, lowestWinner, highestScorer, lowestScorer];
    HoldsSix(dominantWinner, narrowestWinner, highestLoser, lowestWinner, highestScorer, lowestScorer,
             TeamAward(box, MostDominantWin, |box|), TeamAward(box, ClosestWin, |box|),
             TeamAward(box, ToughestLoss, |box|), TeamAward(box, LuckiestWin, |box|),
             TeamAward(box, HighestScorer, |box|), TeamAward(box, LowestScorer, |box|));
  }

  /** After the first `n` matchups no matchup's metric strictly beats the
      value the record holds: the record is the extremum of its metric
      over those matchups. */
  lemma {:induction false} TeamAwardUnbeaten(box: seq<Matchup>, c: Category, n: nat)
    requires 0 < |box| && n <= |box|
    ensures forall j :: 0 <= j < n ==> !Beats(Dir(c), Metric(c, box[j]), Tracked(c, TeamAward(box, c, n)))
  {
    if n > 0 {
      TeamAwardUnbeaten(box, c, n - 1);
      var prev := TeamAward(box, c, n - 1);
      var m := box[n - 1];
      if Beats(Dir(c), Metric(c, m), Tracked(c, prev)) {
        TrackedCrown(c, m, prev);
        assert Tracked(c, TeamAward(box, c, n)) == Metric(c, m);
      }
    }
  }

  /** Who holds the record after the first `n` matchups: either no matchup
      beat the sentinel and the record is as constructed, or it is crowned
      by the one matchup whose metric beats the sentinel and strictly beats
      every earlier metric (so the earliest matchup keeps a tie). */
  lemma {:induction false} TeamAwardHolder(box: seq<Matchup>, c: Category, n: nat)
    requires 0 < |box| && n <= |box|
    ensures var a := TeamAward(box, c, n);
      || (a == Start(box, c) && Tracked(c, a) == Sentinel(c))
      || (exists i :: 0 <= i < n && a == Crown(c, box[i], Start(box, c))
            && Tracked(c, a) == Metric(c, box[i])
            && Beats(Dir(c), Metric(c, box[i]), Sentinel(c))
            && (forall j :: 0 <= j < i ==> Beats(Dir(c), Metric(c, box[i]), Metric(c, box[j]))))
  {
    if n > 0 {
      TeamAwardHolder(box, c, n - 1);
      TeamAwardUnbeaten(box, c, n - 1);
      var start := Start(box, c);
      var prev := TeamAward(box, c, n - 1);
      var m := box[n - 1];
      if Beats(Dir(c), Metric(c, m), Tracked(c, prev)) {
        TrackedCrown(c, m, prev);
        TrackedCrown(c, m, start);
        var d := Dir(c);
        if prev == start {
          assert Beats(d, Metric(c, m), Sentinel(c));
        } else {
          var i :| 0 <= i < n - 1 && prev == Crown(c, box[i], start)
            && Tracked(c, prev) == Metric(c, box[i])
            && Beats(d, Metric(c, box[i]), Sentinel(c));
          CrownOver(c, m, box[i], start);
          BeatsPast(d, Metric(c, m), Metric(c, box[i]), Sentinel(c));
        }
        forall j | 0 <= j < n - 1 ensures Beats(d, Metric(c, m), Metric(c, box[j])) {
          BeatsPast(d, Metric(c, m), Tracked(c, prev), Metric(c, box[j]));
        }
        assert TeamAward(box, c, n) == Crown(c, m, start);
        assert m == box[n - 1];
      } else {
        assert TeamAward(box, c, n) == prev;
      }
    }
  }

  /** The metrics of award `c` over the matchups, in order. */
  function Metrics(box: seq<Matchup>, c: Category): (r: seq<real>)
    ensures |r| == |box|
    ensures forall j :: 0 <= j < |box| ==> r[j] == Metric(c, box[j])
  {
    seq(|box|, j requires 0 <= j < |box| => Metric(c, box[j]))
  }

  /** The record that the shared running record `Leader` over the first
      `n` metrics describes: as constructed when it names no matchup, and
      crowned by the matchup it names otherwise. */
  function LeaderAward(box: seq<Matchup>, c: Category, n: nat): Award
    requires 0 < |box| && n <= |box|
  {
    match Leader(Metrics(box[..n], c), Dir(c), Sentinel(c))
    case None => Start(box, c)
    case Some(i) => Crown(c, box[i], Start(box, c))
  }

  /** The team pass is the shared running record over the metrics: after
      the first `n` matchups the record is the one `Leader` describes, and
      it tracks the value `Held` gives. */
  lemma {:induction false} TeamAwardLeader(box: seq<Matchup>, c: Category, n: nat)
    requires 0 < |box| && n <= |box|
    ensures TeamAward(box, c, n) == LeaderAward(box, c, n)
    ensures Tracked(c, TeamAward(box, c, n)) == Held(Metrics(box[..n], c), Dir(c), Sentinel(c))
  {
    if n == 0 {
      LeaderNone(box, c);
    } else {
      TeamAwardLeader(box, c, n - 1);
      LeaderOffer(box, c, n - 1);
    }
  }

  /** Before any matchup, `Leader` names nobody and the sentinel is tracked. */
  lemma LeaderNone(box: seq<Matchup>, c: Category)
    requires 0 < |box|
    ensures TeamAward(box, c, 0) == LeaderAward(box, c, 0)
    ensures Tracked(c, TeamAward(box, c, 0)) == Held(Metrics(box[..0], c), Dir(c), Sentinel(c))
  {
    assert Metrics(box[..0], c) == [];
  }

  /** One more matchup, offered to a record that agrees with `Leader`. */
  lemma LeaderOffer(box: seq<Matchup>, c: Category, n: nat)
    requires 0 < |box| && n < |box|
    requires TeamAward(box, c, n) == LeaderAward(box, c, n)
    requires Tracked(c, TeamAward(box, c, n)) == Held(Metrics(box[..n], c), Dir(c), Sentinel(c))
    ensures TeamAward(box, c, n + 1) == LeaderAward(box, c, n + 1)
    ensures Tracked(c, TeamAward(box, c, n + 1)) == Held(Metrics(box[..n + 1], c), Dir(c), Sentinel(c))
  {
    var vals := Metrics(box[..n], c);
    var v := Metric(c, box[n]);
    assert Metrics(box[..n + 1], c) == vals + [v];
    LeaderStep(vals, v, Dir(c), Sentinel(c));
    if Beats(Dir(c), v, Tracked(c, TeamAward(box, c, n))) {
      LeaderTaken(box, c, n);
    } else {
      LeaderKept(box, c, n);
    }
  }

  /** The matchup beats the record: both take it over. */
  lemma LeaderTaken(box: seq<Matchup>, c: Category, n: nat)
    requires 0 < |box| && n < |box|
    requires TeamAward(box, c, n) == LeaderAward(box, c, n)
    requires Beats(Dir(c), Metric(c, box[n]), Tracked(c, TeamAward(box, c, n)))
    requires Leader(Metrics(box[..n + 1], c), Dir(c), Sentinel(c)) == Some(n)
    requires |Metrics(box[..n + 1], c)| == n + 1
    ensures TeamAward(box, c, n + 1) == LeaderAward(box, c, n + 1)
    ensures Tracked(c, TeamAward(box, c, n + 1)) == Held(Metrics(box[..n + 1], c), Dir(c), Sentinel(c))
  {
    var start := Start(box, c);
    var m := box[n];
    var prev := TeamAward(box, c, n);
    assert TeamAward(box, c, n + 1) == Crown(c, m, prev);
    assert Crown(c, m, prev) == Crown(c, m, start) by {
      match Leader(Metrics(box[..n], c), Dir(c), Sentinel(c))
      case None =>
      case Some(i) => CrownOver(c, m, box[i], start);
    }
    TrackedCrown(c, m, prev);
  }

  /** The matchup does not beat the record: neither changes. */
  lemma LeaderKept(box: seq<Matchup>, c: Category, n: nat)
    requires 0 < |box| && n < |box|
    requires TeamAward(box, c, n) == LeaderAward(box, c, n)
    requires Tracked(c, TeamAward(box, c, n)) == Held(Metrics(box[..n], c), Dir(c), Sentinel(c))
    requires !Beats(Dir(c), Metric(c, box[n]), Tracked(c, TeamAward(box, c, n)))
    requires Metrics(box[..n + 1], c) == Metrics(box[..n], c) + [Metric(c, box[n])]
    requires Leader(Metrics(box[..n + 1], c), Dir(c), Sentinel(c)) == Leader(Metrics(box[..n], c), Dir(c), Sentinel(c))
    ensures TeamAward(box, c, n + 1) == LeaderAward(box, c, n + 1)
    ensures Tracked(c, TeamAward(box, c, n + 1)) == Held(Metrics(box[..n + 1], c), Dir(c), Sentinel(c))
  {
    var vals := Metrics(box[..n], c);
    assert TeamAward(box, c, n + 1) == TeamAward(box, c, n);
    match Leader(vals, Dir(c), Sentinel(c))
    case None =>
    case Some(i) =>
      assert (vals + [Metric(c, box[n])])[i] == vals[i];
  }

  /** The scan never changes a record's title. */
  lemma {:induction false} TeamAwardTitle(box: seq<Matchup>, c: Category, n: nat)
    requires 0 < |box| && n <= |box|
    ensures TeamAward(box, c, n).title == Title(c)
  {
    if n > 0 {
      TeamAwardTitle(box, c, n - 1);
    }
  }

  /** The titles of the six team records, in the order of the pass. */
  const TITLES: seq<string> :=
    ["Most Dominant Win", "Closest Win", "Toughest Loss", "Luckiest Win", "Highest Scorer", "Lowest Scorer"]

  /** The six team records carry their titles in the order of the pass. */
  lemma TeamAwardTitles(box: seq<Matchup>)
    requires |box| > 0
    ensures Titles(TeamAwardValues(box)) == TITLES
  {
    TeamAwardTitle(box, MostDominantWin, |box|);
    TeamAwardTitle(box, ClosestWin, |box|);
    TeamAwardTitle(box, ToughestLoss, |box|);
    TeamAwardTitle(box, LuckiestWin, |box|);
    TeamAwardTitle(box, HighestScorer, |box|);
    TeamAwardTitle(box, LowestScorer, |box|);
  }
}
