/** The coding companion itself: the happiness score and the time of the last
    input, updated in place. Clock readings arrive as the parameter `now`
    (seconds), the running process names as `apps` and the random pick of a
    default message as `pick`. */
module Pet {
  import opened Happiness
  import opened Status

  class CodingCompanion {
    var happiness: real
    var lastKeystroke: real
    /** The idle time each tick so far has seen, oldest first. */
    ghost var history: seq<real>

    /** The score is what the ticks so far made of the initial score, and so
        it lies in [0, 100]. */
    ghost predicate Valid()
      reads this
    {
      happiness == Run(Initial, history) && InRange(happiness)
    }

    /** A new companion, created at time `now` with score 80. When the pet
        images load, creation ends with the first tick, its idle time measured
        at `firstNow` and its display at `displayNow`. When they fail to load,
        no tick runs and the score stays at 80. */
    constructor (now: real, imagesLoaded: bool, firstNow: real, displayNow: real, apps: seq<string>, pick: nat)
      requires pick < 3
      ensures Valid()
      ensures lastKeystroke == now
      ensures imagesLoaded ==> history == [firstNow - now] && happiness == Step(Initial, firstNow - now)
      ensures !imagesLoaded ==> history == [] && happiness == Initial
    {
      happiness := Initial;
      lastKeystroke := now;
      history := [];
      new;
      if imagesLoaded {
        var _ := UpdateState(firstNow, displayNow, apps, pick);
      }
    }

    /** An input event at time `now`: only the last-activity time changes. */
    method RegisterActivity(now: real)
      requires Valid()
      modifies this`lastKeystroke
      ensures Valid()
      ensures lastKeystroke == now
    {
      lastKeystroke := now;
    }

    /** The mood and status line shown for the current state, with the clock
        read again at `now`. It reads the state and changes nothing. */
    method UpdateDisplay(now: real, apps: seq<string>, pick: nat) returns (d: Display)
      requires pick < 3
      ensures d == Select(happiness, now - lastKeystroke, apps, pick)
      ensures d.mood == MoodOf(happiness) && d.status in Vocabulary(d.mood)
    {
      d := Select(happiness, now - lastKeystroke, apps, pick);
    }

    /** One tick: the score moves by the idle time measured at `now`, then the
        display is refreshed with the clock read again at `displayNow`. */
    method UpdateState(now: real, displayNow: real, apps: seq<string>, pick: nat) returns (d: Display)
      requires Valid() && pick < 3
      modifies this`happiness, this`history
      ensures Valid()
      ensures history == old(history) + [now - lastKeystroke]
      ensures happiness == Step(old(happiness), now - lastKeystroke)
      ensures d == Select(happiness, displayNow - lastKeystroke, apps, pick)
    {
      var inactive := now - lastKeystroke;
      if inactive < ActiveWindow {
        happiness := Min(Ceiling, happiness + 1.0);
      } else {
        var decay := Min(MaxDecay, inactive / 60.0);
        happiness := Max(Floor, happiness - decay);
      }
      RunAppend(Initial, history, inactive);
      history := history + [inactive];
      d := UpdateDisplay(displayNow, apps, pick);
    }
  }

  /** A tick moves a score in range by at most one rung of the mood ladder,
      since it changes the score by at most two points and each rung spans
      twenty-five. */
  lemma TickMovesOneRung(h: real, inactive: real)
    requires InRange(h)
    ensures -1 <= Rank(MoodOf(Step(h, inactive))) - Rank(MoodOf(h)) <= 1
  {
  }
}
