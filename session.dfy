/** The progression of one play-through in script.js: the scenario index,
    the list of recorded choices, and the doors that are blocked while a
    choice waits for its deferred advance. */
module Game {
  import opened Frameworks
  import opened Results

  /** `scenarios.length`: the game has seven scenarios. */
  const ScenarioCount: nat := 7

  /** The session variables: `currentScenarioIndex`, `choices`, and whether
      the doors accept clicks (their `pointerEvents` style). */
  datatype State = State(index: nat, choices: seq<Framework>, inputEnabled: bool)

  /** What the page shows after a step: the scenario at an index, or the
      results screen. */
  datatype View = Scenario(index: nat) | ResultsScreen(report: Report)

  /** Every scenario before the current one has exactly one choice, and the
      current one has a choice exactly while the advance is pending; a
      pending advance only exists on the game screen. */
  predicate Inv(s: State)
  {
    && s.index <= ScenarioCount
    && |s.choices| == s.index + (if s.inputEnabled then 0 else 1)
    && (!s.inputEnabled ==> s.index < ScenarioCount)
  }

  /** The state `initGame` and `resetGame` set up. */
  function Initial(): State
  {
    State(0, [], true)
  }

  /** The results screen replaces the game screen once the index has run
      past the last scenario. */
  predicate OnResultsScreen(s: State)
  {
    s.index >= ScenarioCount
  }

  /** The doors take clicks while they are enabled and on screen. */
  predicate DoorsClickable(s: State)
  {
    s.inputEnabled && !OnResultsScreen(s)
  }

  /** `handleChoice`: record the choice for the scenario on screen and block
      the doors until the deferred advance runs. */
  function AfterChoice(s: State, f: Framework): (t: State)
    requires Inv(s) && DoorsClickable(s)
    ensures Inv(t) && !t.inputEnabled
    ensures t.index == s.index && t.choices == s.choices + [f]
  {
    State(s.index, s.choices + [f], false)
  }

  /** The body of the `setTimeout` callback: unblock the doors and move to
      the next scenario. */
  function AfterAdvance(s: State): (t: State)
    requires Inv(s) && !s.inputEnabled
    ensures Inv(t) && t.inputEnabled
    ensures t.index == s.index + 1 && t.choices == s.choices
    ensures |t.choices| == t.index
  {
    State(s.index + 1, s.choices, true)
  }

  /** A click on a door: it reaches `handleChoice` only when the doors are
      clickable, and does nothing otherwise. */
  function Click(s: State, f: Framework): (t: State)
    requires Inv(s)
    ensures Inv(t)
    ensures t.index == s.index && s.choices <= t.choices
    ensures DoorsClickable(s) ==> t.choices == s.choices + [f]
    ensures !DoorsClickable(s) ==> t == s
  {
    if DoorsClickable(s) then AfterChoice(s, f) else s
  }

  /** While a choice waits for its advance, a second click records nothing:
      no scenario gets two choices. */
  lemma SecondClickIgnored(s: State, f: Framework, g: Framework)
    requires Inv(s)
    ensures Click(Click(s, f), g) == Click(s, f)
  {
  }

  // ---------------------------------------------------------------------
  // Runs of events
  // ---------------------------------------------------------------------

  /** What can happen to a session: a click on a door, the deferred advance
      firing, or the "play again" button. */
  datatype Event = Door(framework: Framework) | TimerFires | PlayAgain

  /** One event. The timer fires only when one is pending; the "play again"
      button is on the results screen and does nothing elsewhere. */
  function Step(s: State, e: Event): (t: State)
    requires Inv(s)
    ensures Inv(t)
  {
    match e
    case Door(f) => Click(s, f)
    case TimerFires => if s.inputEnabled then s else AfterAdvance(s)
    case PlayAgain => if OnResultsScreen(s) then Initial() else s
  }

  /** A sequence of events, in order. */
  function Run(s: State, events: seq<Event>): (t: State)
    requires Inv(s)
    ensures Inv(t)
    decreases |events|
  {
    if events == [] then s else Run(Step(s, events[0]), events[1..])
  }

  /** Pressing "play again" twice is the same as pressing it once. */
  lemma PlayAgainIdempotent(s: State)
    requires Inv(s)
    ensures Step(Step(s, PlayAgain), PlayAgain) == Step(s, PlayAgain)
  {
  }

  /** Without a reset the index never goes back and recorded choices are
      never changed or removed. */
  lemma {:induction false} RunWithoutResetOnlyGrows(s: State, events: seq<Event>)
    requires Inv(s)
    requires PlayAgain !in events
    ensures Run(s, events).index >= s.index
    ensures s.choices <= Run(s, events).choices
    decreases |events|
  {
    if events != [] {
      assert events[0] in events;
      var next := Step(s, events[0]);
      assert s.choices <= next.choices;
      assert forall e :: e in events[1..] ==> e in events;
      RunWithoutResetOnlyGrows(next, events[1..]);
    }
  }

  /** The events of a play-through that picks `picks` in order: a door click
      followed by the timer, once per scenario. */
  function Rounds(picks: seq<Framework>): (events: seq<Event>)
    ensures |events| == 2 * |picks|
  {
    if picks == [] then [] else [Door(picks[0]), TimerFires] + Rounds(picks[1..])
  }

  /** Each round records exactly one choice and advances the index by exactly
      one: after k rounds the index is k and the choices are the k picks. */
  lemma {:induction false} RoundsAdvanceOnePerChoice(s: State, picks: seq<Framework>)
    requires Inv(s) && s.inputEnabled
    requires s.index + |picks| <= ScenarioCount
    ensures Run(s, Rounds(picks)) == State(s.index + |picks|, s.choices + picks, true)
    decreases |picks|
  {
    if picks != [] {
      var events := Rounds(picks);
      var mid := Step(s, Door(picks[0]));
      var next := Step(mid, TimerFires);
      assert events[1..][1..] == Rounds(picks[1..]);
      assert Run(s, events) == Run(next, Rounds(picks[1..]));
      RoundsAdvanceOnePerChoice(next, picks[1..]);
      assert s.choices + [picks[0]] + picks[1..] == s.choices + picks;
    }
  }

  /** A full play-through from the start ends on the results screen with one
      choice per scenario, in the order they were made. */
  lemma FullPlayThrough(picks: seq<Framework>)
    requires |picks| == ScenarioCount
    ensures OnResultsScreen(Run(Initial(), Rounds(picks)))
    ensures Run(Initial(), Rounds(picks)).choices == picks
  {
    RoundsAdvanceOnePerChoice(Initial(), picks);
  }

  // ---------------------------------------------------------------------
  // The session object
  // ---------------------------------------------------------------------

  /** The module-level game state of script.js as one object. */
  class Session {
    var index: nat
    var choices: seq<Framework>
    var inputEnabled: bool

    function Abs(): State
      reads this
    {
      State(index, choices, inputEnabled)
    }

    ghost predicate Valid()
      reads this
    {
      Inv(Abs())
    }

    /** `initGame`: index 0, no choices, doors enabled. */
    constructor ()
      ensures Valid() && Abs() == Initial()
    {
      index, choices, inputEnabled := 0, [], true;
    }

    /** `resetGame`: back to the first scenario with no choices. It is only
        reachable when no advance is pending. */
    method Reset() returns (view: View)
      requires Valid() && inputEnabled
      modifies this
      ensures Valid() && Abs() == Initial()
      ensures view == Scenario(0)
    {
      index := 0;
      choices := [];
      view := Scenario(0);
    }

    /** `handleChoice`: append the chosen framework and block the doors. */
    method HandleChoice(f: Framework)
      requires Valid() && DoorsClickable(Abs())
      modifies this
      ensures Valid() && Abs() == AfterChoice(old(Abs()), f)
    {
      choices := choices + [f];
      inputEnabled := false;
    }

    /** A click on a door, which reaches `handleChoice` only while the doors
        are clickable. */
    method ClickDoor(f: Framework) returns (accepted: bool)
      requires Valid()
      modifies this
      ensures accepted == DoorsClickable(old(Abs()))
      ensures Valid() && Abs() == Click(old(Abs()), f)
    {
      accepted := inputEnabled && index < ScenarioCount;
      if accepted {
        HandleChoice(f);
      }
    }

    /** The deferred callback of `handleChoice`: re-enable the doors, move
        to the next scenario, and show it, or show the results once the
        last scenario is done. */
    method Advance() returns (view: View)
      requires Valid() && !inputEnabled
      modifies this
      ensures Valid() && Abs() == AfterAdvance(old(Abs()))
      ensures index < ScenarioCount ==> view == Scenario(index)
      ensures index >= ScenarioCount ==> view == ResultsScreen(ReportOf(choices))
    {
      inputEnabled := true;
      index := index + 1;
      if index < ScenarioCount {
        view := Scenario(index);
      } else {
        var report := ShowResults(choices);
        view := ResultsScreen(report);
      }
    }
  }
}
