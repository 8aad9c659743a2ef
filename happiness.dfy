/** The happiness score of the coding companion and the rule that moves it on
    every tick: a reward of one point when the user was active within the last
    second, otherwise a decay of one point per idle minute, capped at two
    points per tick. The score lives in [0, 100]. */
module Happiness {

  /** The score a new companion starts with. */
  const Initial: real := 80.0

  /** Upper and lower clamps of the score. */
  const Ceiling: real := 100.0
  const Floor: real := 0.0

  /** Idle time, in seconds, below which the last tick counts as active. */
  const ActiveWindow: real := 1.0

  /** The largest decay one tick can apply. */
  const MaxDecay: real := 2.0

  /** Python's two-argument `min` and `max` on numbers. */
  function Min(a: real, b: real): (r: real)
    ensures r <= a && r <= b && (r == a || r == b)
  {
    if a <= b then a else b
  }

  function Max(a: real, b: real): (r: real)
    ensures r >= a && r >= b && (r == a || r == b)
  {
    if a >= b then a else b
  }

  predicate InRange(h: real) {
    Floor <= h <= Ceiling
  }

  /** The decay applied after `inactive` seconds without input: the idle time
      in minutes, but never more than `MaxDecay`. */
  function Decay(inactive: real): (d: real)
    ensures inactive >= ActiveWindow ==> 0.0 < d <= MaxDecay
    ensures inactive <= 120.0 ==> d == inactive / 60.0
    ensures inactive >= 120.0 ==> d == MaxDecay
  {
    Min(MaxDecay, inactive / 60.0)
  }

  /** One tick of the score, given the time in seconds since the last input.
      The tick rewards recent activity and punishes idleness, never leaves
      [0, 100] once inside it, never moves by more than one point up or two
      points down, and an idle tick strictly lowers a positive score. */
  function Step(h: real, inactive: real): (r: real)
    ensures InRange(h) ==> InRange(r)
    ensures inactive < ActiveWindow && h <= Ceiling ==> h <= r <= h + 1.0
    ensures inactive < ActiveWindow && h + 1.0 >= Ceiling ==> r == Ceiling
    ensures inactive >= ActiveWindow && h >= Floor ==> h - MaxDecay <= r <= h
    ensures inactive >= ActiveWindow && h > Floor ==> r < h
    ensures inactive >= ActiveWindow && h <= Decay(inactive) ==> r == Floor
  {
    if inactive < ActiveWindow then Min(Ceiling, h + 1.0)
    else Max(Floor, h - Decay(inactive))
  }

  /** The score after a run of ticks, the i-th of which saw `inactives[i]`
      seconds of idleness. A run that starts in range stays in range. */
  function Run(h: real, inactives: seq<real>): (r: real)
    ensures InRange(h) ==> InRange(r)
    decreases |inactives|
  {
    if inactives == [] then h else Run(Step(h, inactives[0]), inactives[1..])
  }

  /** Ticking once more after a run is the same as a run one tick longer. */
  lemma {:induction false} RunAppend(h: real, inactives: seq<real>, inactive: real)
    ensures Run(h, inactives + [inactive]) == Step(Run(h, inactives), inactive)
    decreases |inactives|
  {
    if inactives != [] {
      assert (inactives + [inactive])[1..] == inactives[1..] + [inactive];
      RunAppend(Step(h, inactives[0]), inactives[1..], inactive);
    }
  }

  /** Without any activity (for instance when no input events ever arrive) the
      score never rises, falls strictly while it is positive, and loses at most
      two points per tick. */
  lemma {:induction false} IdleRunDecays(h: real, inactives: seq<real>)
    requires Floor <= h
    requires forall i | 0 <= i < |inactives| :: inactives[i] >= ActiveWindow
    ensures Max(Floor, h - MaxDecay * |inactives| as real) <= Run(h, inactives) <= h
    ensures h > Floor && inactives != [] ==> Run(h, inactives) < h
    decreases |inactives|
  {
    if inactives != [] {
      var h' := Step(h, inactives[0]);
      IdleRunDecays(h', inactives[1..]);
      assert MaxDecay * |inactives| as real == MaxDecay + MaxDecay * |inactives[1..]| as real;
    }
  }

  /** With activity before every tick, the score climbs one point per tick
      until it reaches the ceiling. */
  lemma {:induction false} ActiveRunClimbs(h: real, inactives: seq<real>)
    requires InRange(h)
    requires forall i | 0 <= i < |inactives| :: inactives[i] < ActiveWindow
    ensures Run(h, inactives) == Min(Ceiling, h + |inactives| as real)
    decreases |inactives|
  {
    if inactives != [] {
      ActiveRunClimbs(Step(h, inactives[0]), inactives[1..]);
    }
  }
}
