# Moral compass game: session and results model

A Dafny model of the game logic in `script.js` of the moral-compass quiz. The
player works through seven ethical-dilemma scenarios. Each scenario offers
three doors, one per ethical framework (`deontology`, `consequentialism`,
`virtue`). Each choice is recorded. The doors stay blocked until a deferred
callback moves to the next scenario. After the last scenario the results
screen shows each framework's tally and a summary. The summary is either the
"balanced" message, when several frameworks share the highest tally, or the
message of the dominant framework.

Files:

- `framework.dfy`, module `Frameworks`: the three frameworks and their
  declaration order.
- `results.dfy`, module `Results`: the results screen (`showResults`). It has
  the counting loop (`Tally`), the running maximum with strict `>`
  (`Dominant`) and the tie list built with `push` (`TopFrameworks`). Each is
  proved against a pure specification (`CountsOf`, `MaxCount`/`FirstMax`,
  `TopFrameworksOf`). Lemmas then relate those specifications to the summary
  choice.
- `session.dfy`, module `Game`: the session state (`currentScenarioIndex`,
  `choices`, whether the doors take clicks). It has pure transitions
  (`AfterChoice`, `AfterAdvance`, `Click`, `Step`, `Run`), the invariant
  `Inv` that they keep, and the class `Session`, whose methods update the
  fields in place and are proved to follow the pure transitions.

## Model

| member | source | states |
|---|---|---|
| `Results.Counts.Increment` | script.js:167 | `counts[choice]++` raises the chosen framework's tally by one and leaves the other two unchanged |
| `Results.CountAppend` | script.js:166-168 | appending a choice adds one to that framework's count and zero to every other count |
| `Results.RecordingIncrementsOwnCount` | script.js:166-168 | the tallies of `choices + [f]` are the tallies of `choices` with only `f` incremented |
| `Results.CountsSumToLength` | script.js:160-168 | the three tallies sum to the number of choices (`total = choices.length`) |
| `Results.CountIsMultiplicity` | script.js:166-168 | a framework's tally equals its multiplicity in the multiset of choices |
| `Results.Tally` | script.js:160-168 | the `forEach` loop, starting from all-zero counts, yields exactly the specified tally of every framework |
| `Results.MaxCount` | script.js:187-198 | the maximum count is at least every tally and equals some tally |
| `Results.FirstMax` | script.js:187-198 | the dominant framework reaches the maximum, and every framework declared before it is strictly below the maximum |
| `Results.Dominant` | script.js:187-198 | the running maximum with strict `>` ends with `maxCount` equal to the maximum tally and `dominant` equal to the first framework reaching it, so the earlier framework wins ties |
| `Results.Reaching` | script.js:201-204 | a framework is in the filtered list exactly when it is in the input list and its tally equals the given value |
| `Results.ReachingKeepsOrder` | script.js:201-204 | filtering an ordered list of frameworks keeps declaration order, with no repeats |
| `Results.TopFrameworks` | script.js:201-204 | the three `push` tests give the declaration-order list of frameworks whose tally equals `maxCount` |
| `Results.TopFrameworksAreTheArgmax` | script.js:187-204 | `topFrameworks` holds exactly the frameworks at the maximum tally, in declaration order. It is never empty and its first element is `dominant`, so a one-element list is `[dominant]` |
| `Results.BalancedIffTie` | script.js:206-210 | the summary is the balanced message if and only if two different frameworks share the maximum tally |
| `Results.LeaningIffUniqueMax` | script.js:206-210 | the summary is framework `f`'s message if and only if every other framework's tally is strictly below `f`'s |
| `Results.TieGivesBalanced` | script.js:160-210 | seven choices with tallies (3, 3, 1) give the balanced summary |
| `Results.SingleDominance` | script.js:160-210 | seven choices with tallies (5, 1, 1) give the deontology summary |
| `Results.ShowResults` | script.js:154-211 | tally, running maximum, tie list and summary choice together give the specified report; its tallies sum to the number of choices |
| `Game.AfterChoice` | script.js:123-132 | recording a choice keeps the session invariant, appends exactly the chosen framework, leaves the index alone and blocks the doors |
| `Game.AfterAdvance` | script.js:135-147 | the deferred advance keeps the invariant, re-enables the doors, leaves the choices alone and raises the index by exactly one, after which there is one choice per passed scenario |
| `Game.Click` | script.js:93-97 | a door click keeps the invariant and the index, keeps every earlier choice, appends exactly the chosen framework when the doors are clickable and changes nothing otherwise |
| `Game.Step` | script.js:93-148 | every event (door click, timer firing, play again) keeps the session invariant |
| `Game.Run` | script.js:93-148 | any sequence of events from a valid state ends in a valid state |
| `Game.SecondClickIgnored` | script.js:132-137 | once a click has been recorded, a further click before the advance changes nothing, so no scenario gets two choices |
| `Game.PlayAgainIdempotent` | script.js:216-219 | pressing "play again" twice gives the same state as pressing it once |
| `Game.RunWithoutResetOnlyGrows` | script.js:125-139 | without a reset the index never decreases, and earlier choices stay a prefix of the later choices |
| `Game.RoundsAdvanceOnePerChoice` | script.js:125-147 | k rounds of click-then-advance raise the index by exactly k and append exactly the k picks in order |
| `Game.FullPlayThrough` | script.js:139-147 | seven rounds from the initial state reach the results screen, with the seven picks recorded in order |
| `Game.Session.constructor` | script.js:87-89 | `initGame` starts at index 0 with no choices and the doors enabled |
| `Game.Session.Reset` | script.js:216-231 | `resetGame` returns to index 0 with no choices from any valid state with no advance pending (so resetting twice equals resetting once), and shows scenario 0 |
| `Game.Session.HandleChoice` | script.js:123-132 | `handleChoice` appends the choice and blocks the doors, as `AfterChoice` specifies |
| `Game.Session.ClickDoor` | script.js:93-97 | a door click reaches `handleChoice` exactly when the doors are enabled and the game screen is shown, otherwise nothing changes |
| `Game.Session.Advance` | script.js:135-147 | the callback moves to `AfterAdvance` of the old state. It shows the scenario at the new index when that index is below 7, and otherwise the results report of the recorded choices |

## Left out

- DOM access and rendering: element lookups, `classList`, `textContent`/`innerHTML`, bar widths and listener registration. Views are returned as `View` values.
- The 2000 ms delay. The callback body is the method `Session.Advance`, and the timer firing is the event `TimerFires`.
- Percentages (script.js:176-179). They are floating point, and at zero choices the unguarded division gives NaN. `showResults` only runs after seven choices, so that case is not reached.
- Scenario prompts, feedback explanations and summary texts. These are static content. A scenario is named by its index, and a summary by `Summary` (`Balanced` or `Leaning(f)`).
- `handleChoice` shows `frameworkExplanations[frameworkKey]` as feedback. This is text only and is not modelled.
- Unknown `data-framework` values. The doors only carry the three keys, so a choice is always a `Framework`.
- `Session.Reset` requires that no advance is pending: `resetGame` (script.js:216-232) does not cancel the timer, and it is reached only from the play-again button on the results screen.
- `DoorsClickable`, `ClickDoor` and `Step`: the model assumes that the stylesheet's `hidden` class on the game screen (script.js:156) makes its doors unclickable once the results are shown, although script.js:137 sets their `pointerEvents` back to `auto` first. It also assumes that the play-again button can only be pressed on the results screen. Both facts come from the page's markup and stylesheet, which are not part of this model; the invariant `index <= 7` of `Inv` rests on the first.
