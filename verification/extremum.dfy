/** Running records. Every award is a record that starts at a sentinel and
    is handed to a new holder only on a strict improvement, so the earliest
    observation keeps a tie; the builtin `max`/`min` with a key behave the
    same way with the first element as the starting holder. */
module Extremum {
  import opened Roster

  datatype Direction = Higher | Lower

  /** Strict improvement of `x` over `y` in direction `d`. */
  predicate Beats(d: Direction, x: real, y: real) {
    if d == Higher then x > y else x < y
  }

  /** Strictly beating a value that is not itself beaten by `z` beats `z`. */
  lemma BeatsPast(d: Direction, x: real, y: real, z: real)
    requires Beats(d, x, y) && !Beats(d, z, y)
    ensures Beats(d, x, z)
  {
  }

  /** The holder's index after scanning `vals` left to right from `sentinel`,
      or None when no value ever beat the sentinel. The holder is the best
      value, beats the sentinel, and strictly beats every value before it. */
  function Leader(vals: seq<real>, d: Direction, sentinel: real): (r: Option<nat>)
    ensures r.None? ==> forall j :: 0 <= j < |vals| ==> !Beats(d, vals[j], sentinel)
    ensures r.Some? ==> r.value < |vals| && Beats(d, vals[r.value], sentinel)
    ensures r.Some? ==> forall j :: 0 <= j < |vals| ==> !Beats(d, vals[j], vals[r.value])
    ensures r.Some? ==> forall j :: 0 <= j < r.value ==> Beats(d, vals[r.value], vals[j])
    decreases |vals|
  {
    if vals == [] then None
    else
      var n := |vals| - 1;
      var prev := Leader(vals[..n], d, sentinel);
      var held := if prev.None? then sentinel else vals[..n][prev.value];
      if Beats(d, vals[n], held) then Some(n) else prev
  }

  /** The value the record holds after the scan. */
  function Held(vals: seq<real>, d: Direction, sentinel: real): real {
    match Leader(vals, d, sentinel)
    case None => sentinel
    case Some(i) => vals[i]
  }

  /** One more observation: it takes the record exactly when it strictly
      beats the value currently held. */
  lemma LeaderStep(vals: seq<real>, v: real, d: Direction, sentinel: real)
    ensures Leader(vals + [v], d, sentinel)
         == if Beats(d, v, Held(vals, d, sentinel)) then Some(|vals|) else Leader(vals, d, sentinel)
  {
    assert (vals + [v])[..|vals|] == vals;
  }

  /** `max(xs, key=...)` (Higher) or `min(xs, key=...)` (Lower) on a
      non-empty list: the index of the first best value. */
  function FirstBest(vals: seq<real>, d: Direction): (r: nat)
    requires |vals| > 0
    ensures r < |vals|
    ensures forall j :: 0 <= j < |vals| ==> !Beats(d, vals[j], vals[r])
    ensures forall j :: 0 <= j < r ==> Beats(d, vals[r], vals[j])
  {
    match Leader(vals[1..], d, vals[0])
    case None => 0
    case Some(i) => i + 1
  }
}
