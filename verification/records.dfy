/** The award record: a mutable running-best object the detector passes
    update in place, and the value it holds at any moment. */
module Records {
  import opened Roster

  /** The fields of an accolade at one moment. `benchedPlayer` is only ever
      set by the Biggest Mistake award. */
  datatype Award = Award(
    title: string,
    team: Option<Team>,
    points: real,
    oppScore: real,
    efficiency: real,
    projected: real,
    opponent: Option<Team>,
    optimalScore: real,
    player: Option<Player>,
    benchedPlayer: Option<Player>)

  /** A freshly constructed accolade: everything but title, team and points
      at its default. */
  function NewAward(title: string, team: Option<Team>, points: real): Award {
    Award(title, team, points, 0.0, 0.0, 0.0, None, 0.0, None, None)
  }

  /** The titles of a list of records, in order. */
  function Titles(values: seq<Award>): (r: seq<string>)
    ensures |r| == |values|
  {
    seq(|values|, k requires 0 <= k < |values| => values[k].title)
  }

  /** The titles of two lists, one after the other. */
  lemma TitlesAppend(a: seq<Award>, b: seq<Award>)
    ensures Titles(a + b) == Titles(a) + Titles(b)
  {
  }

  lemma TitlesThree(a: Award, b: Award, c: Award)
    ensures Titles([a, b, c]) == [a.title, b.title, c.title]
  {
  }

  class Accolade {
    var title: string
    var team: Option<Team>
    var points: real
    var oppScore: real
    var efficiency: real
    var projected: real
    var opponent: Option<Team>
    var optimalScore: real
    var player: Option<Player>
    var benchedPlayer: Option<Player>

    constructor (title: string, team: Option<Team>, points: real)
      ensures Snapshot() == NewAward(title, team, points)
    {
      this.title := title;
      this.team := team;
      this.points := points;
      oppScore := 0.0;
      efficiency := 0.0;
      projected := 0.0;
      opponent := None;
      optimalScore := 0.0;
      player := None;
      benchedPlayer := None;
    }

    /** The record's current fields as a value. */
    function Snapshot(): Award
      reads this
    {
      Award(title, team, points, oppScore, efficiency, projected, opponent, optimalScore, player, benchedPlayer)
    }
  }

  /** The records `awards` hold the values `values`, one for one. */
  ghost predicate Holds(awards: seq<Accolade>, values: seq<Award>)
    reads set a | a in awards
  {
    |awards| == |values| && forall k :: 0 <= k < |awards| ==> awards[k].Snapshot() == values[k]
  }

  /** Concatenating two lists of records concatenates what they hold. */
  lemma HoldsAppend(a: seq<Accolade>, b: seq<Accolade>, va: seq<Award>, vb: seq<Award>)
    requires Holds(a, va) && Holds(b, vb)
    ensures Holds(a + b, va + vb)
  {
    forall k | 0 <= k < |a + b| ensures (a + b)[k].Snapshot() == (va + vb)[k] {
      if k >= |a| {
        assert (a + b)[k] == b[k - |a|] && (va + vb)[k] == vb[k - |a|];
      }
    }
  }

  /** Two records holding two values, one for one. */
  lemma HoldsTwo(a: Accolade, b: Accolade, va: Award, vb: Award)
    requires a.Snapshot() == va && b.Snapshot() == vb
    ensures Holds([a, b], [va, vb])
  {
  }

  /** Three records holding three values, one for one. */
  lemma HoldsThree(a: Accolade, b: Accolade, c: Accolade, va: Award, vb: Award, vc: Award)
    requires a.Snapshot() == va && b.Snapshot() == vb && c.Snapshot() == vc
    ensures Holds([a, b, c], [va, vb, vc])
  {
  }

  /** Six records holding six values, one for one. */
  lemma HoldsSix(a: Accolade, b: Accolade, c: Accolade, d: Accolade, e: Accolade, f: Accolade,
                 va: Award, vb: Award, vc: Award, vd: Award, ve: Award, vf: Award)
    requires a.Snapshot() == va && b.Snapshot() == vb && c.Snapshot() == vc
    requires d.Snapshot() == vd && e.Snapshot() == ve && f.Snapshot() == vf
    ensures Holds([a, b, c, d, e, f], [va, vb, vc, vd, ve, vf])
  {
    HoldsThree(a, b, c, va, vb, vc);
    HoldsThree(d, e, f, vd, ve, vf);
    HoldsAppend([a, b, c], [d, e, f], [va, vb, vc], [vd, ve, vf]);
    assert [a, b, c] + [d, e, f] == [a, b, c, d, e, f];
    assert [va, vb, vc] + [vd, ve, vf] == [va, vb, vc, vd, ve, vf];
  }
}
