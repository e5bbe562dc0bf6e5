/**
 * The advice lookup (backend/src/services/advice/adviceGenerator.ts): a
 * table of one advice text and four tips for each of four categories and
 * five moods, read by category and mood with the neutral entry as the
 * fallback for a mood the category does not list.
 *
 * Requests arrive as JSON, so category and mood are plain strings here; a
 * category outside the table makes the source's lookup throw, which is the
 * `UnknownCategory` error.
 */
module AdviceGenerator {
  import opened Text
  import opened Types

  datatype Template = Template(advice: string, tips: seq<string>)

  datatype Category = Career | Discipline | Focus | Social

  datatype AdviceError = UnknownCategory

  const CareerConfident := Template(
    "Channel your confidence into strategic career moves. Focus on high-impact projects that showcase your abilities.",
    ["Document your wins and maintain a success portfolio",
    "Seek leadership opportunities in critical projects",
    "Network with industry leaders and mentors",
    "Build your personal brand through thought leadership"])

  const CareerReflective := Template(
    "Use your introspective nature to align career choices with your core values and long-term vision.",
    ["Define your career purpose beyond titles and salary",
    "Seek roles that offer growth and learning",
    "Reflect on past experiences to identify patterns",
    "Create a vision board for your ideal career path"])

  const CareerSad := Template(
    "Career struggles are temporary. Focus on small wins and remember why you started this journey.",
    ["Break big goals into manageable daily tasks",
    "Celebrate small achievements to build momentum",
    "Seek support from mentors or career coaches",
    "Consider what aspects of work bring you joy"])

  const CareerFunny := Template(
    "Your positive energy is a career asset. Use it to build relationships and navigate challenges with grace.",
    ["Bring creativity to problem-solving at work",
    "Build a network through genuine connections",
    "Don't take setbacks too seriously - learn and move on",
    "Use humor to diffuse tense workplace situations"])

  const CareerNeutral := Template(
    "Your balanced approach allows for rational career decisions. Focus on consistent progress and skill building.",
    ["Set clear quarterly goals and track progress",
    "Invest in continuous learning and skill development",
    "Build a diverse professional network",
    "Maintain work-life balance for sustainable growth"])

  const DisciplineConfident := Template(
    "Your confidence is strong - now pair it with consistent daily habits that compound over time.",
    ["Create a morning routine that sets the tone",
    "Use the two-minute rule for starting tasks",
    "Track your habits with a simple system",
    "Stack new habits onto existing ones"])

  const DisciplineReflective := Template(
    "Transform your reflective nature into disciplined action. Plan deeply, execute consistently.",
    ["Journal about your why before starting new habits",
    "Review your progress weekly and adjust",
    "Build systems instead of relying on motivation",
    "Use reflection time to plan the next day"])

  const DisciplineSad := Template(
    "Start incredibly small. One pushup, one page, one minute. Momentum beats perfection.",
    ["Focus on showing up, not achieving perfection",
    "Use the 5-minute rule to overcome resistance",
    "Find an accountability partner for support",
    "Celebrate consistency over intensity"])

  const DisciplineFunny := Template(
    "Make discipline fun. Gamify your habits and reward yourself for consistency.",
    ["Create a streak tracker and compete with yourself",
    "Use fun apps or physical trackers",
    "Reward milestones with things you enjoy",
    "Share progress with friends for social motivation"])

  const DisciplineNeutral := Template(
    "Build discipline through systems and routines. Remove decision fatigue with automation.",
    ["Design your environment to support good habits",
    "Use implementation intentions: if-then plans",
    "Batch similar tasks to reduce friction",
    "Review and optimize your systems monthly"])

  const FocusConfident := Template(
    "Your drive is clear. Now eliminate distractions ruthlessly and protect your deep work time.",
    ["Use time blocking for focused work sessions",
    "Turn off all notifications during deep work",
    "Create a dedicated focus environment",
    "Practice single-tasking on high-priority items"])

  const FocusReflective := Template(
    "Mindful focus is your strength. Use meditation and intentional breaks to sustain concentration.",
    ["Start work sessions with a brief meditation",
    "Use the Pomodoro technique with reflection breaks",
    "Journal about what pulls your focus",
    "Practice mindfulness throughout the day"])

  const FocusSad := Template(
    "When focus feels impossible, start with five minutes. Build from there with compassion.",
    ["Lower the barrier: just show up for 5 minutes",
    "Use background music or ambient sounds",
    "Take frequent breaks to reset mentally",
    "Be kind to yourself on difficult days"])

  const FocusFunny := Template(
    "Make focus engaging. Use timers, challenges, and variety to keep your brain interested.",
    ["Gamify focus sessions with challenges",
    "Change your environment to stay engaged",
    "Use fun tools and apps to track focus time",
    "Reward yourself after focused work blocks"])

  const FocusNeutral := Template(
    "Systematic focus techniques will serve you well. Build a sustainable focus practice.",
    ["Use the Eisenhower matrix for prioritization",
    "Schedule focus blocks like important meetings",
    "Minimize context switching between tasks",
    "Track your focus patterns to optimize timing"])

  const SocialConfident := Template(
    "Your social confidence is magnetic. Use it to build genuine connections and lift others up.",
    ["Lead group activities and bring people together",
    "Mentor others who are building confidence",
    "Practice active listening despite confidence",
    "Use your energy to make others feel welcome"])

  const SocialReflective := Template(
    "Quality over quantity in relationships. Your depth creates meaningful connections.",
    ["Have deep one-on-one conversations",
    "Share your thoughts and vulnerabilities",
    "Listen actively and ask thoughtful questions",
    "Create space for others to be reflective too"])

  const SocialSad := Template(
    "Connection heals. Reach out even when it feels hard. You don't have to go through this alone.",
    ["Send a message to someone you trust",
    "Join supportive online or local communities",
    "Be honest about how you're feeling",
    "Accept help when others offer it"])

  const SocialFunny := Template(
    "Your humor is a social superpower. Use it to create joy and authentic connections.",
    ["Host gatherings or game nights",
    "Share memes and content that brings joy",
    "Use humor to make others feel comfortable",
    "Balance jokes with genuine conversation"])

  const SocialNeutral := Template(
    "Build social connections systematically. Regular touchpoints create strong relationships.",
    ["Schedule regular catch-ups with friends",
    "Join clubs or groups aligned with interests",
    "Practice small talk to build rapport",
    "Follow up after meeting new people"])

  /** `ADVICE_DATABASE[category][mood]`. */
  function Table(c: Category, m: Mood): Template
  {
    match c
    case Career => (
      match m
      case Funny => CareerFunny
      case Sad => CareerSad
      case Confident => CareerConfident
      case Reflective => CareerReflective
      case Neutral => CareerNeutral
    )
    case Discipline => (
      match m
      case Funny => DisciplineFunny
      case Sad => DisciplineSad
      case Confident => DisciplineConfident
      case Reflective => DisciplineReflective
      case Neutral => DisciplineNeutral
    )
    case Focus => (
      match m
      case Funny => FocusFunny
      case Sad => FocusSad
      case Confident => FocusConfident
      case Reflective => FocusReflective
      case Neutral => FocusNeutral
    )
    case Social => (
      match m
      case Funny => SocialFunny
      case Sad => SocialSad
      case Confident => SocialConfident
      case Reflective => SocialReflective
      case Neutral => SocialNeutral
    )
  }

  /** Every one of the twenty templates carries exactly four tips. */
  lemma EveryTemplateHasFourTips(c: Category, m: Mood)
    ensures |Table(c, m).tips| == 4
  {
    assert |CareerConfident.tips| == 4 && |CareerReflective.tips| == 4 && |CareerSad.tips| == 4 && |CareerFunny.tips| == 4 && |CareerNeutral.tips| == 4 && |DisciplineConfident.tips| == 4 && |DisciplineReflective.tips| == 4 && |DisciplineSad.tips| == 4 && |DisciplineFunny.tips| == 4 && |DisciplineNeutral.tips| == 4 && |FocusConfident.tips| == 4 && |FocusReflective.tips| == 4 && |FocusSad.tips| == 4 && |FocusFunny.tips| == 4 && |FocusNeutral.tips| == 4 && |SocialConfident.tips| == 4 && |SocialReflective.tips| == 4 && |SocialSad.tips| == 4 && |SocialFunny.tips| == 4 && |SocialNeutral.tips| == 4;
  }

  function CategoryName(c: Category): string
  {
    match c
    case Career => "career"
    case Discipline => "discipline"
    case Focus => "focus"
    case Social => "social"
  }

  /** The category a request string names, if it is one of the four keys. */
  function ParseCategory(s: string): (r: Option<Category>)
    ensures r.Some? ==> CategoryName(r.value) == s
    ensures r.None? ==> forall c :: CategoryName(c) != s
  {
    if s == "career" then Some(Career)
    else if s == "discipline" then Some(Discipline)
    else if s == "focus" then Some(Focus)
    else if s == "social" then Some(Social)
    else None
  }

  /** The mood a request string names, if it is one of the five keys. */
  function ParseMood(s: string): (r: Option<Mood>)
    ensures r.Some? ==> MoodName(r.value) == s
    ensures r.None? ==> forall m :: MoodName(m) != s
  {
    if s == "funny" then Some(Mood.Funny)
    else if s == "sad" then Some(Mood.Sad)
    else if s == "confident" then Some(Mood.Confident)
    else if s == "reflective" then Some(Mood.Reflective)
    else if s == "neutral" then Some(Mood.Neutral)
    else None
  }

  /** `generateAdvice({category, mood})`. */
  function GenerateAdvice(category: string, mood: string): Result<AdviceResponse, AdviceError>
  {
    match ParseCategory(category)
    case None => Err(UnknownCategory)
    case Some(c) =>
      var t := match ParseMood(mood) {
        case Some(m) => Table(c, m)
        case None => Table(c, Mood.Neutral)
      };
      Ok(AdviceResponse(category, t.advice, t.tips, mood))
  }

  /** The lookup fails exactly for a category outside the table; otherwise
   *  the response echoes the request's category and mood, and its advice
   *  and four tips come from one template: the one for that mood, or the
   *  neutral one when the mood is not a key. */
  lemma GenerateAdviceSpec(category: string, mood: string)
    ensures GenerateAdvice(category, mood).Err? <==> forall c :: CategoryName(c) != category
    ensures forall c: Category :: CategoryName(c) == category ==>
      var r := GenerateAdvice(category, mood);
      r.Ok? && r.value.category == category && r.value.mood == mood && |r.value.tips| == 4
      && (forall m: Mood :: MoodName(m) == mood ==> r.value == AdviceResponse(category, Table(c, m).advice, Table(c, m).tips, mood))
      && ((forall m: Mood :: MoodName(m) != mood) ==>
            r.value == AdviceResponse(category, Table(c, Mood.Neutral).advice, Table(c, Mood.Neutral).tips, mood))
  {
    CategoryNamesDistinct();
    MoodNamesDistinct();
    match ParseCategory(category)
    case None =>
    case Some(c) =>
      match ParseMood(mood)
      case Some(m) => EveryTemplateHasFourTips(c, m);
      case None => EveryTemplateHasFourTips(c, Mood.Neutral);
  }

  /** Different categories have different keys. */
  lemma CategoryNamesDistinct()
    ensures forall c1: Category, c2: Category :: CategoryName(c1) == CategoryName(c2) ==> c1 == c2
  {
    forall c1: Category, c2: Category | c1 != c2 ensures CategoryName(c1) != CategoryName(c2) {
      assert CategoryName(c1)[0] != CategoryName(c2)[0];
    }
  }

  /** Different moods have different keys. */
  lemma MoodNamesDistinct()
    ensures forall m1: Mood, m2: Mood :: MoodName(m1) == MoodName(m2) ==> m1 == m2
  {
    forall m1: Mood, m2: Mood | m1 != m2 ensures MoodName(m1) != MoodName(m2) {
      assert MoodName(m1)[0] != MoodName(m2)[0];
    }
  }
}
