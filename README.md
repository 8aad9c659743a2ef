# Coding Companion: happiness and mood model

A Dafny model of the decision logic of the Coding Companion, a desktop pet
whose mood follows the user's activity. The pet keeps a happiness score in
[0, 100], starting at 80. Every five seconds a tick:

1. moves the score: up one point (capped at 100) if there was input within the
   last second, otherwise down by the idle time in minutes, at most two points,
   and never below 0;
2. picks a mood from the score (happy above 75, neutral above 50, sad above 25,
   very sad otherwise) and a status line. Each mood has a fixed-priority chain
   of two rules over the running process names and the idle time. When no rule
   fires, one of three default messages is picked at random.

Keystrokes only reset the time of the last input.

Files:

- `happiness.dfy`, module `Happiness`: the tick arithmetic (`Step`), a run of
  ticks (`Run`) and what runs of idle or active ticks do to the score.
- `status.dfy`, module `Status`: the mood ladder (`MoodOf`), the status
  selection (`Select`) and the rule-priority lemmas for each mood.
- `companion.dfy`, module `Pet`: the class `CodingCompanion`. It holds the
  fields `happiness` and `lastKeystroke`, which are updated in place. A ghost
  `history` records the idle time each tick saw. Its invariant `Valid()` says
  that the score equals `Run(80, history)` and lies in [0, 100].

Clock readings are the parameter `now` (seconds). `UpdateState` and
`UpdateDisplay` each read the clock separately, as the source does, so a tick
takes two readings: `now` and `displayNow`. The running process names are a
`seq<string>` parameter. The random choice of a default message is the
parameter `pick < 3`, an index into the three-message pool.

## Model

| member | source | states |
|---|---|---|
| Happiness.Step | virtual_pet.py:86-94 | A tick keeps a score in [0, 100]. After activity within one second, the score rises by at most one point, and reaches exactly 100 when one point would pass it. Otherwise the score never rises and falls by at most two points. A positive score falls strictly, and a score no larger than the decay drops to 0. |
| Happiness.Decay | virtual_pet.py:93 | Idle decay is positive once idle for a second or more. It equals the idle minutes up to two minutes and is capped at 2 beyond that. |
| Happiness.Run | virtual_pet.py:83-99 | A run of ticks that starts in [0, 100] ends in [0, 100]. Starting from 80, the score stays in range over any sequence of idle times. |
| Happiness.RunAppend | virtual_pet.py:97-99 | One more tick after a run equals the run extended by that tick's idle time. |
| Happiness.IdleRunDecays | virtual_pet.py:91-94 | Ticks with no activity never raise the score. They lower a positive score strictly and take off at most two points per tick, stopping at 0. |
| Happiness.ActiveRunClimbs | virtual_pet.py:89-90 | Ticks that each follow activity raise the score by exactly one point per tick, up to 100. |
| Status.MoodOf | virtual_pet.py:109-149 | Every score has exactly one mood: happy above 75, neutral in (50, 75], sad in (25, 50], very sad at or below 25. |
| Status.Select | virtual_pet.py:101-159 | The shown mood is the score's mood. The status line is always one of that mood's two rule messages or three defaults. |
| Status.MoodMonotone | virtual_pet.py:109-149 | A higher score never gives a sadder mood. |
| Status.ThresholdsFallLow | virtual_pet.py:109-149 | Scores of exactly 75, 50 and 25 fall into the lower mood; scores just above them fall into the upper one. |
| Status.HappyRules | virtual_pet.py:109-120 | Happy: the research message appears exactly when chrome.exe runs, whether or not python.exe runs. The coding message appears exactly when python.exe runs without chrome.exe. Otherwise the picked default appears. The idle time has no effect. |
| Status.NeutralRules | virtual_pet.py:122-133 | Neutral: the boredom message appears exactly when idle for more than 300 s, even with discord or slack running. The messaging message appears exactly when idle for at most 300 s with one of them running. Otherwise the picked default appears. |
| Status.SadRules | virtual_pet.py:135-146 | Sad: the games message appears exactly when steam, dota2 or csgo runs, even when idle for more than 600 s. The loneliness message appears exactly when idle for more than 600 s with no game running. Otherwise the picked default appears. |
| Status.VerySadRules | virtual_pet.py:148-159 | Very sad: the abandonment message appears exactly when idle for more than 1800 s, even with netflix or spotify running. The entertainment message appears exactly when idle for at most 1800 s with one of them running. Otherwise the picked default appears. |
| Status.NoAppsNoProcessRules | virtual_pet.py:106-159 | With an empty process list, no process-based message is ever shown. Only the time rules or the defaults fire. |
| Status.OnlyWatchedAppsMatter | virtual_pet.py:106-159 | Two process lists that agree on which watched names they contain give the same mood and status. Order, duplicates and other names have no effect. |
| Status.VocabulariesDisjoint | virtual_pet.py:109-159 | No status message belongs to two moods, so the status line determines the mood. |
| Status.ReferenceScenarios | virtual_pet.py:109-159 | Score 90, idle 10 s, chrome.exe running shows happy with the research message. Score 90, idle 10 s, nothing running shows happy with a default. Score 10, idle 2000 s, nothing running shows very sad with the abandonment message. |
| Pet.CodingCompanion.constructor | virtual_pet.py:11-40 | A new companion starts at score 80 with last activity at the creation time, and its invariant holds. When the images load, creation ends with the first tick: the score is one tick from 80 for the idle time at the first clock reading. When loading fails, creation returns before any tick and the score stays 80. |
| Pet.CodingCompanion.RegisterActivity | virtual_pet.py:79-81 | Only the last-activity time changes, to `now`. The score and the invariant are untouched. |
| Pet.CodingCompanion.UpdateDisplay | virtual_pet.py:101-159 | Returns the selection for the current score and the idle time at its own clock reading. It changes no field. |
| Pet.CodingCompanion.UpdateState | virtual_pet.py:83-99 | The new score is one tick of the old score for the idle time at `now`. The invariant (score equals the run of all ticks from 80, and lies in [0, 100]) is kept. The display is then refreshed from the new score. |
| Pet.TickMovesOneRung | virtual_pet.py:86-149 | One tick moves the mood by at most one rung of the ladder. |

## Left out

- Window, label and image setup, image loading and the text-only fallback screen (virtual_pet.py:42-68, 161-165): GUI and image-library calls. The integer formatting of the happiness meter is display only.
- Pet.CodingCompanion.constructor: the success or failure of image loading (virtual_pet.py:22-33) is the parameter `imagesLoaded`. The display computed by the first tick is not kept, because a constructor has no result; `UpdateDisplay` with the same clock reading gives it. After a failed load the source never starts the keystroke hook or the tick loop. The model does not stop a caller from calling `RegisterActivity` or `UpdateState` on such a companion.
- The keyboard hook and its daemon thread (virtual_pet.py:70-77): OS input hooking and concurrency. Input events are modelled as calls to `RegisterActivity`, which run one at a time. Races between the hook thread and the tick are not modelled.
- Process enumeration through psutil (virtual_pet.py:106): a foreign call. Its result is the `apps` parameter.
- Clock reads (virtual_pet.py:18, 81, 86, 104): real time. They are the `now` and `displayNow` parameters. No requirement that the clock is monotonic is imposed: a negative idle time takes the activity branch, as in the source.
- The five-second rescheduling through the GUI event loop (virtual_pet.py:99): real-time scheduling. One tick is one `UpdateState` call, and a run of ticks is `Run` over a sequence of idle times.
- `random.choice` (virtual_pet.py:116, 129, 142, 155): ambient randomness. It is the `pick` index into the three-message pool.
- Error recovery inside a tick: the source has none. If process enumeration raises, `update_state` ends before rescheduling and the ticks stop. The model follows the code: its operations cannot fail, and there is no skip-and-continue recovery and no fallback to an empty process list.
- Python integer/float mixing of the score (it starts as the integer 80 and becomes a float after the first decay): the model uses exact `real` throughout.
