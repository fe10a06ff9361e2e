/** The top-level screen routing of the app component (src/App.jsx): two
    flags choose among the start screen, the game and the "void" ending;
    each screen's callbacks move to the next. */
module Router {

  /** A score report at or above this shows the void screen. */
  const ExitThreshold: int := 67

  datatype State = State(started: bool, showExitModal: bool)

  datatype Screen = StartScreen | Game | Void

  const Initial: State := State(false, false)

  /** The `onStart` callback of the start screen. */
  function OnStart(s: State): (r: State)
    ensures r.started
    ensures r.showExitModal == s.showExitModal
  {
    s.(started := true)
  }

  /** `handleScoreUpdate`: a report of 67 or more raises the exit flag; a
      lower one (including the 0 a reset sends) changes nothing. */
  function HandleScoreUpdate(s: State, score: int): (r: State)
    ensures score >= ExitThreshold ==> r.showExitModal
    ensures score < ExitThreshold ==> r == s
    ensures r.started == s.started
    ensures s.showExitModal ==> r.showExitModal
  {
    if score >= ExitThreshold then s.(showExitModal := true) else s
  }

  /** `handleEscape`: clears both flags, back to the start screen. */
  function HandleEscape(s: State): (r: State)
    ensures !r.started && !r.showExitModal
    ensures r == Initial
  {
    State(false, false)
  }

  /** Whether the render mounts `screen` in state `s`. */
  predicate Mounted(s: State, screen: Screen) {
    match screen
    case StartScreen => !s.started
    case Game => s.started && !s.showExitModal
    case Void => s.started && s.showExitModal
  }

  /** The screens the render mounts. */
  function Rendered(s: State): set<Screen> {
    (if Mounted(s, StartScreen) then {StartScreen} else {})
    + (if Mounted(s, Game) then {Game} else {})
    + (if Mounted(s, Void) then {Void} else {})
  }

  /** The screen on show: the one screen the render mounts. */
  function Current(s: State): (screen: Screen)
    ensures Mounted(s, screen)
    ensures forall other :: Mounted(s, other) ==> other == screen
    ensures screen == StartScreen <==> !s.started
    ensures screen == Game <==> s.started && !s.showExitModal
    ensures screen == Void <==> s.started && s.showExitModal
  {
    if !s.started then StartScreen
    else if s.showExitModal then Void
    else Game
  }

  /** Exactly one screen is rendered in every state. */
  lemma ExactlyOneScreen(s: State)
    ensures Rendered(s) == {Current(s)}
    ensures |Rendered(s)| == 1
  {
    var c := Current(s);
    forall x | x in Rendered(s) ensures x == c {
      assert Mounted(s, x);
    }
    assert c in Rendered(s) by {
      assert Mounted(s, c);
    }
    assert Rendered(s) == {c};
  }

  /** What the screens can ask for; each callback exists only while its
      screen is mounted. */
  datatype Event = StartPressed | ScoreReported(score: int) | EscapePressed

  function Step(s: State, e: Event): (r: State)
    ensures Consistent(s) ==> Consistent(r)
  {
    match e
    case StartPressed => if Current(s) == StartScreen then OnStart(s) else s
    case ScoreReported(n) => if Current(s) == Game then HandleScoreUpdate(s, n) else s
    case EscapePressed => if Current(s) == Void then HandleEscape(s) else s
  }

  /** The exit flag is never raised while the app is not started. */
  predicate Consistent(s: State) {
    s.showExitModal ==> s.started
  }

  /** Screens follow the cycle start -> game -> void -> start: every event
      keeps the screen or moves it one step along the cycle. */
  lemma StepFollowsCycle(s: State, e: Event)
    requires Consistent(s)
    ensures var from, to := Current(s), Current(Step(s, e));
            from == to
            || (from == StartScreen && to == Game)
            || (from == Game && to == Void)
            || (from == Void && to == StartScreen)
  {
  }

  /** Each step of the cycle is taken by exactly its screen's callback. */
  lemma CycleSteps(s: State, e: Event)
    requires Consistent(s)
    ensures Current(s) == StartScreen && Current(Step(s, e)) == Game <==>
              Current(s) == StartScreen && e == StartPressed
    ensures Current(s) == Game && Current(Step(s, e)) == Void <==>
              Current(s) == Game && e.ScoreReported? && e.score >= ExitThreshold
    ensures Current(s) == Void && Current(Step(s, e)) == StartScreen <==>
              Current(s) == Void && e == EscapePressed
  {
  }
}
