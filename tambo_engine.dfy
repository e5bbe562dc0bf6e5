/**
 * The adaptive-interface switch (frontend/lib/tambo/tamboEngine.ts): each
 * mood has one interface configuration, and the engine holds the current
 * and previous mood and a lock that stays set while a transition animates.
 *
 * The source clears the lock from a timer; here `SwitchUI` returns the
 * timer's delay and `EndTransition` is the timer firing. Animation
 * durations are in milliseconds (the source's seconds times 1000).
 */
module TamboEngine {
  import opened Text
  import opened Types

  datatype AnimationKind = Fade | Slide | Scale | Blur

  datatype Animation = Animation(kind: AnimationKind, durationMs: nat, ease: string)

  datatype PropValue = Str(s: string) | Flag(b: bool)

  datatype UIConfig = UIConfig(component: string, props: map<string, PropValue>, animation: Animation)

  const FunnyUI := UIConfig("RoastPanel",
    map["variant" := Str("playful"), "color" := Str("#FF7AC6"), "intensity" := Str("funny")],
    Animation(Slide, 400, "easeOut"))

  const NeutralUI := UIConfig("StrengthCard",
    map["variant" := Str("balanced"), "color" := Str("#A3A9B8")],
    Animation(Fade, 300, "easeInOut"))

  const ReflectiveUI := UIConfig("WeaknessRadar",
    map["variant" := Str("introspective"), "color" := Str("#9D7FFF"), "showInsights" := Flag(true)],
    Animation(Scale, 500, "easeOut"))

  const SadUI := UIConfig("AdviceGenerator",
    map["variant" := Str("calm"), "color" := Str("#6B7DFF"), "supportive" := Flag(true)],
    Animation(Blur, 600, "easeInOut"))

  const ConfidentUI := UIConfig("SigmaMode",
    map["variant" := Str("bold"), "color" := Str("#1FD6FF"), "intensity" := Str("high")],
    Animation(Slide, 300, "easeOut"))

  /** `MOOD_UI_MAP[mood]`. */
  function MoodUI(m: Mood): UIConfig
  {
    match m
    case Funny => FunnyUI
    case Neutral => NeutralUI
    case Reflective => ReflectiveUI
    case Sad => SadUI
    case Confident => ConfidentUI
  }

  /** The five moods show five different components, and every transition
   *  animates for a positive time of at most 0.6 seconds. */
  lemma MoodUIDistinct(m1: Mood, m2: Mood)
    ensures m1 != m2 ==> MoodUI(m1).component != MoodUI(m2).component
    ensures 0 < MoodUI(m1).animation.durationMs <= 600
  {
    assert FunnyUI.component[0] == 'R' && NeutralUI.component[0] == 'S' && ReflectiveUI.component[0] == 'W';
    assert SadUI.component[0] == 'A' && ConfidentUI.component[0] == 'S';
    assert NeutralUI.component[1] == 't' && ConfidentUI.component[1] == 'i';
  }

  /** The engine's three fields as a value. */
  datatype EngineState = EngineState(current: Mood, previous: Mood, transitioning: bool)

  const Initial := EngineState(Mood.Neutral, Mood.Neutral, false)

  /** `switchUI(newMood)` on the fields: nothing while a transition runs,
   *  otherwise the old current mood becomes the previous one, the new mood
   *  the current one, and the lock is taken. */
  function Switched(s: EngineState, newMood: Mood): EngineState
  {
    if s.transitioning then s else EngineState(newMood, s.current, true)
  }

  /** The timer callback: the lock is released. */
  function Ended(s: EngineState): EngineState
  {
    s.(transitioning := false)
  }

  /** `shouldTransition(newMood)`. */
  predicate ShouldTransition(s: EngineState, newMood: Mood)
  {
    newMood != s.current && !s.transitioning
  }

  /** A switch request changes the shown mood exactly when `shouldTransition`
   *  says so; while the lock is held every request is ignored, and only the
   *  timer's release lets the next one through. */
  lemma SwitchRules(s: EngineState, m1: Mood, m2: Mood)
    ensures ShouldTransition(s, m1) <==> Switched(s, m1).current != s.current
    ensures s.transitioning ==> Switched(s, m1) == s
    ensures !s.transitioning ==> Switched(Switched(s, m1), m2) == Switched(s, m1)
    ensures !s.transitioning ==> Switched(Ended(Switched(s, m1)), m2).current == m2
    ensures !s.transitioning ==> Switched(Ended(Switched(s, m1)), m2).previous == m1
  {
  }

  class TamboEngine {
    var currentMood: Mood
    var previousMood: Mood
    var transitionInProgress: bool

    function State(): EngineState
      reads this
    {
      EngineState(currentMood, previousMood, transitionInProgress)
    }

    constructor()
      ensures State() == Initial
    {
      currentMood := Mood.Neutral;
      previousMood := Mood.Neutral;
      transitionInProgress := false;
    }

    function GetCurrentUI(): UIConfig
      reads this
    {
      MoodUI(currentMood)
    }

    /** `switchUI(newMood)`: returns the interface now shown and, when a
     *  transition starts, the delay after which its timer releases the lock. */
    method SwitchUI(newMood: Mood) returns (ui: UIConfig, timerMs: Option<nat>)
      modifies this
      ensures State() == Switched(old(State()), newMood)
      ensures ui == MoodUI(currentMood)
      ensures old(transitionInProgress) ==> timerMs.None? && ui == MoodUI(old(currentMood))
      ensures !old(transitionInProgress) ==> timerMs == Some(MoodUI(newMood).animation.durationMs) && ui == MoodUI(newMood)
    {
      if transitionInProgress {
        return GetCurrentUI(), None;
      }
      previousMood := currentMood;
      currentMood := newMood;
      transitionInProgress := true;
      timerMs := Some(MoodUI(newMood).animation.durationMs);
      ui := GetCurrentUI();
    }

    /** The timer callback of `switchUI`. */
    method EndTransition()
      modifies this
      ensures State() == Ended(old(State()))
    {
      transitionInProgress := false;
    }

    function GetCurrentMood(): Mood reads this { currentMood }

    function GetPreviousMood(): Mood reads this { previousMood }

    function IsTransitioning(): bool reads this { transitionInProgress }

    function ShouldTransitionTo(newMood: Mood): (r: bool)
      reads this
      ensures r <==> ShouldTransition(State(), newMood)
    {
      newMood != currentMood && !transitionInProgress
    }

    function GetTransitionAnimation(m: Mood): Animation { MoodUI(m).animation }

    function GetComponentProps(m: Mood): map<string, PropValue> { MoodUI(m).props }

    /** `reset()`: back to the initial state. */
    method Reset()
      modifies this
      ensures State() == Initial
    {
      currentMood := Mood.Neutral;
      previousMood := Mood.Neutral;
      transitionInProgress := false;
    }
  }
}
