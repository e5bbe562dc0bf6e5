/**
 * The personality profile (backend/src/services/personality/personalityAnalyzer.ts):
 * seven trait scores from keyword matches over a user's messages, the most
 * frequent mood of the mood history, the strongest and weakest traits, and
 * a one-line summary.
 */
module PersonalityAnalyzer {
  import opened Text
  import opened Ranking
  import opened Types
  import MoodEngine

  const TraitNames: seq<string> := [
    "Humor", "Emotional Intelligence", "Analytical Thinking", "Ambition",
    "Social Connection", "Creativity", "Resilience"
  ]

  const TraitDescriptions: seq<string> := [
    "Your ability to find humor and make others laugh",
    "Your awareness and expression of emotions",
    "Your logical and critical thinking abilities",
    "Your drive and determination to succeed",
    "Your engagement with others and community",
    "Your imaginative and innovative mindset",
    "Your mental toughness and perseverance"
  ]

  /** The keyword list of each trait, in the order of `TraitNames`. */
  const TraitKeywords: seq<seq<string>> := [
    ["laugh", "funny", "joke", "lol", "haha", "meme", "roast"],
    ["sad", "happy", "feel", "love", "hate", "emotion", "heart"],
    ["think", "analyze", "reason", "logic", "understand", "why", "how"],
    ["goal", "success", "achieve", "win", "focus", "drive", "sigma"],
    ["friend", "people", "together", "bro", "we", "us", "everyone"],
    ["create", "idea", "imagine", "dream", "art", "design", "new"],
    ["strong", "overcome", "fight", "never", "keep", "persist", "continue"]
  ]

  datatype Trait = Trait(name: string, score: int, description: string)

  datatype Profile = Profile(
    overall: string, traits: seq<Trait>, strengths: seq<string>, weaknesses: seq<string>,
    moodHistory: seq<Mood>, dominantMood: Mood)

  /** All messages joined by spaces and lower-cased. */
  function AllText(messages: seq<string>): string
  {
    Lower(Join(messages, " "))
  }

  /** `calculateTraitScore`: 10 points per keyword match, at most 100. */
  function TraitScore(messages: seq<string>, keywords: seq<string>): (score: int)
    ensures 0 <= score <= 100 && score % 10 == 0
    ensures score == 100 <==> MoodEngine.KeywordScore(AllText(messages), keywords) >= 10
    ensures score == 0 <==> MoodEngine.KeywordScore(AllText(messages), keywords) == 0
  {
    Min(MoodEngine.KeywordScore(AllText(messages), keywords) * 10, 100)
  }

  /** The counting loop of `calculateTraitScore`. */
  method CalculateTraitScore(messages: seq<string>, keywords: seq<string>) returns (score: int)
    ensures score == TraitScore(messages, keywords)
  {
    var allText := AllText(messages);
    var matches := 0;
    var i := 0;
    while i < |keywords|
      invariant 0 <= i <= |keywords|
      invariant matches == MoodEngine.KeywordScore(allText, keywords[..i])
    {
      assert keywords[..i + 1][..i] == keywords[..i];
      matches := matches + WordMatches(allText, keywords[i]);
      i := i + 1;
    }
    assert keywords[..i] == keywords;
    score := Min(matches * 10, 100);
  }

  /** The seven traits, in declaration order. */
  function Traits(messages: seq<string>): (ts: seq<Trait>)
    ensures |ts| == 7
  {
    seq(7, i requires 0 <= i < 7 =>
      Trait(TraitNames[i], TraitScore(messages, TraitKeywords[i]), TraitDescriptions[i]))
  }

  // ---------------------------------------------------------------------
  // The mood tally and the dominant mood

  /** `moodCounts`, in the key order funny, sad, confident, reflective, neutral. */
  datatype MoodTally = MoodTally(funny: nat, sad: nat, confident: nat, reflective: nat, neutral: nat)

  /** How often each mood occurs in `history`. */
  function TallyOf(history: seq<Mood>): MoodTally
  {
    var m := multiset(history);
    MoodTally(m[Mood.Funny], m[Mood.Sad], m[Mood.Confident], m[Mood.Reflective], m[Mood.Neutral])
  }

  function CountIn(t: MoodTally, m: Mood): nat
  {
    match m
    case Funny => t.funny
    case Sad => t.sad
    case Confident => t.confident
    case Reflective => t.reflective
    case Neutral => t.neutral
  }

  function Bump(t: MoodTally, m: Mood): (r: MoodTally)
    ensures CountIn(r, m) == CountIn(t, m) + 1
    ensures forall o :: o != m ==> CountIn(r, o) == CountIn(t, o)
  {
    match m
    case Funny => t.(funny := t.funny + 1)
    case Sad => t.(sad := t.sad + 1)
    case Confident => t.(confident := t.confident + 1)
    case Reflective => t.(reflective := t.reflective + 1)
    case Neutral => t.(neutral := t.neutral + 1)
  }

  /** The `forEach` that increments `moodCounts[mood]`. */
  method CountMoods(history: seq<Mood>) returns (tally: MoodTally)
    ensures tally == TallyOf(history)
  {
    tally := MoodTally(0, 0, 0, 0, 0);
    var i := 0;
    while i < |history|
      invariant 0 <= i <= |history|
      invariant tally == TallyOf(history[..i])
    {
      assert history[..i + 1] == history[..i] + [history[i]];
      tally := Bump(tally, history[i]);
      i := i + 1;
    }
    assert history[..i] == history;
  }

  function TallyEntries(t: MoodTally): seq<(Mood, int)>
  {
    [(Mood.Funny, t.funny as int), (Mood.Sad, t.sad as int), (Mood.Confident, t.confident as int),
     (Mood.Reflective, t.reflective as int), (Mood.Neutral, t.neutral as int)]
  }

  function EntryCount(e: (Mood, int)): int { e.1 }

  /** The position of a mood in the key order funny, sad, confident,
   *  reflective, neutral. */
  function MoodIndex(m: Mood): nat
  {
    match m
    case Funny => 0
    case Sad => 1
    case Confident => 2
    case Reflective => 3
    case Neutral => 4
  }

  /** The head of the tally's entries sorted by count, descending and stable. */
  function DominantMood(t: MoodTally): Mood
  {
    SortDesc(TallyEntries(t), EntryCount)[0].0
  }

  /** The dominant mood is the earliest entry with the greatest count. */
  lemma DominantIsFirstMax(t: MoodTally)
    ensures DominantMood(t) == TallyEntries(t)[FirstMaxIndex(TallyEntries(t), EntryCount)].0
  {
    SortHead(TallyEntries(t), EntryCount);
  }

  /** The entry at a first-greatest position `i` of the tally: its count is
   *  the greatest, and every mood before it has a strictly smaller one. */
  lemma {:induction false} TopOfTally(t: MoodTally, i: nat)
    requires i < 5
    requires forall j :: 0 <= j < 5 ==> EntryCount(TallyEntries(t)[j]) <= EntryCount(TallyEntries(t)[i])
    requires forall j :: 0 <= j < i ==> EntryCount(TallyEntries(t)[j]) < EntryCount(TallyEntries(t)[i])
    ensures var c := CountIn(t, TallyEntries(t)[i].0);
      t.funny <= c && t.sad <= c && t.confident <= c && t.reflective <= c && t.neutral <= c
    ensures var d := TallyEntries(t)[i].0;
      (d == Mood.Sad ==> t.funny < t.sad)
      && (d == Mood.Confident ==> t.funny < t.confident && t.sad < t.confident)
      && (d == Mood.Reflective ==> t.funny < t.reflective && t.sad < t.reflective && t.confident < t.reflective)
      && (d == Mood.Neutral ==> t.funny < t.neutral && t.sad < t.neutral && t.confident < t.neutral
                                && t.reflective < t.neutral)
  {
    var e := TallyEntries(t);
    assert EntryCount(e[0]) == t.funny && EntryCount(e[1]) == t.sad && EntryCount(e[2]) == t.confident;
    assert EntryCount(e[3]) == t.reflective && EntryCount(e[4]) == t.neutral;
    var top := EntryCount(e[i]);
    assert t.funny <= top && t.sad <= top && t.confident <= top && t.reflective <= top && t.neutral <= top;
    if i == 0 {
      assert top == t.funny;
    } else if i == 1 {
      assert top == t.sad && t.funny < top;
    } else if i == 2 {
      assert top == t.confident && t.funny < top && t.sad < top;
    } else if i == 3 {
      assert top == t.reflective && t.funny < top && t.sad < top && t.confident < top;
    } else {
      assert top == t.neutral && t.funny < top && t.sad < top && t.confident < top && t.reflective < top;
    }
  }

  /** The dominant mood of a tally has the greatest count, and every mood
   *  before it in the order funny, sad, confident, reflective, neutral has
   *  a strictly smaller one. */
  lemma DominantIsTop(t: MoodTally)
    ensures var c := CountIn(t, DominantMood(t));
      t.funny <= c && t.sad <= c && t.confident <= c && t.reflective <= c && t.neutral <= c
    ensures var d := DominantMood(t);
      (d == Mood.Sad ==> t.funny < t.sad)
      && (d == Mood.Confident ==> t.funny < t.confident && t.sad < t.confident)
      && (d == Mood.Reflective ==> t.funny < t.reflective && t.sad < t.reflective && t.confident < t.reflective)
      && (d == Mood.Neutral ==> t.funny < t.neutral && t.sad < t.neutral && t.confident < t.neutral
                                && t.reflective < t.neutral)
  {
    DominantIsFirstMax(t);
    TopOfTally(t, FirstMaxIndex(TallyEntries(t), EntryCount));
  }

  /** `dominantMood` is a most frequent mood of the history, ties going to
   *  the earliest of funny, sad, confident, reflective, neutral; an empty
   *  history gives funny. */
  lemma DominantIsMostFrequent(history: seq<Mood>)
    ensures forall m: Mood :: multiset(history)[m] <= multiset(history)[DominantMood(TallyOf(history))]
    ensures forall m: Mood :: multiset(history)[m] == multiset(history)[DominantMood(TallyOf(history))]
              ==> MoodIndex(DominantMood(TallyOf(history))) <= MoodIndex(m)
    ensures history == [] ==> DominantMood(TallyOf(history)) == Mood.Funny
  {
    DominantIsTop(TallyOf(history));
    TopIsMostFrequent(history, DominantMood(TallyOf(history)));
  }

  /** A mood whose tally count is the greatest and strictly beats every mood
   *  before it is a most frequent mood of the history, and the earliest. */
  lemma TopIsMostFrequent(history: seq<Mood>, d: Mood)
    requires var t := TallyOf(history); var c := CountIn(t, d);
      t.funny <= c && t.sad <= c && t.confident <= c && t.reflective <= c && t.neutral <= c
    requires var t := TallyOf(history);
      (d == Mood.Sad ==> t.funny < t.sad)
      && (d == Mood.Confident ==> t.funny < t.confident && t.sad < t.confident)
      && (d == Mood.Reflective ==> t.funny < t.reflective && t.sad < t.reflective && t.confident < t.reflective)
      && (d == Mood.Neutral ==> t.funny < t.neutral && t.sad < t.neutral && t.confident < t.neutral
                                && t.reflective < t.neutral)
    ensures forall m: Mood :: multiset(history)[m] <= multiset(history)[d]
    ensures forall m: Mood :: multiset(history)[m] == multiset(history)[d] ==> MoodIndex(d) <= MoodIndex(m)
    ensures history == [] ==> d == Mood.Funny
  {
    TallyCounts(history, d);
    forall m: Mood
      ensures multiset(history)[m] <= multiset(history)[d]
      ensures multiset(history)[m] == multiset(history)[d] ==> MoodIndex(d) <= MoodIndex(m)
    {
      TallyCounts(history, m);
    }
  }

  lemma TallyCounts(history: seq<Mood>, m: Mood)
    ensures CountIn(TallyOf(history), m) == multiset(history)[m]
  {
  }

  // ---------------------------------------------------------------------
  // Strengths, weaknesses and the summary

  function TraitKey(t: Trait): int { t.score }

  function Names(ts: seq<Trait>): (ns: seq<string>)
    ensures |ns| == |ts|
    ensures forall i :: 0 <= i < |ts| ==> ns[i] == ts[i].name
  {
    seq(|ts|, i requires 0 <= i < |ts| => ts[i].name)
  }

  const BalancedSummary := "Balanced Individual"

  /** The profile built from computed traits: ranked by score (descending,
   *  ties in declaration order), the top three named as strengths, the
   *  bottom two as weaknesses, and the summary from the top trait. */
  function ProfileFrom(traits: seq<Trait>, history: seq<Mood>): Profile
    requires |traits| == 7
  {
    var top := SortDesc(traits, TraitKey);
    var overall := if top[0].score > 70 then top[0].name + "-Driven Personality" else BalancedSummary;
    Profile(overall, traits, Names(top[..3]), Names(top[5..]), LastN(history, 10),
            DominantMood(TallyOf(history)))
  }

  /** `analyzePersonality(messages, moodHistory)`. */
  function ProfileOf(messages: seq<string>, history: seq<Mood>): Profile
  {
    ProfileFrom(Traits(messages), history)
  }

  method AnalyzePersonality(messages: seq<string>, history: seq<Mood>) returns (p: Profile)
    ensures p == ProfileOf(messages, history)
  {
    var humor := CalculateTraitScore(messages, TraitKeywords[0]);
    var emotional := CalculateTraitScore(messages, TraitKeywords[1]);
    var analytical := CalculateTraitScore(messages, TraitKeywords[2]);
    var ambitious := CalculateTraitScore(messages, TraitKeywords[3]);
    var social := CalculateTraitScore(messages, TraitKeywords[4]);
    var creative := CalculateTraitScore(messages, TraitKeywords[5]);
    var resilient := CalculateTraitScore(messages, TraitKeywords[6]);
    var traits := [Trait(TraitNames[0], humor, TraitDescriptions[0]),
                   Trait(TraitNames[1], emotional, TraitDescriptions[1]),
                   Trait(TraitNames[2], analytical, TraitDescriptions[2]),
                   Trait(TraitNames[3], ambitious, TraitDescriptions[3]),
                   Trait(TraitNames[4], social, TraitDescriptions[4]),
                   Trait(TraitNames[5], creative, TraitDescriptions[5]),
                   Trait(TraitNames[6], resilient, TraitDescriptions[6])];
    assert traits == Traits(messages);

    var tally := CountMoods(history);
    var dominantMood := DominantMood(tally);

    var topTraits := SortDesc(traits, TraitKey);
    var strengths := Names(topTraits[..3]);
    var weaknesses := Names(topTraits[|topTraits| - 2..]);
    var overall := BalancedSummary;
    if topTraits[0].score > 70 {
      overall := topTraits[0].name + "-Driven Personality";
    }
    p := Profile(overall, traits, strengths, weaknesses, LastN(history, 10), dominantMood);
  }

  /** The seven traits come in declaration order, each with its name and
   *  description and its keyword score. */
  lemma TraitsSpec(messages: seq<string>)
    ensures var ts := Traits(messages);
      forall i :: 0 <= i < 7 ==>
        ts[i] == Trait(TraitNames[i], TraitScore(messages, TraitKeywords[i]), TraitDescriptions[i])
        && |ts[i].name| > 0
  {
  }

  /** How the profile ranks its traits: the ranking is a stable descending
   *  sort of the seven traits, and the three strengths and two weaknesses
   *  are its first three and last two names, so every strength scores at
   *  least as high as every weakness. */
  lemma ProfileRanking(traits: seq<Trait>, history: seq<Mood>)
    requires |traits| == 7
    ensures var p := ProfileFrom(traits, history);
      var top := SortDesc(traits, TraitKey);
      p.traits == traits
      && SortedDesc(top, TraitKey) && multiset(top) == multiset(traits)
      && |p.strengths| == 3 && |p.weaknesses| == 2
      && p.strengths == Names(top[..3]) && p.weaknesses == Names(top[5..])
      && (forall i, j :: 0 <= i < 3 && 5 <= j < 7 ==> top[i].score >= top[j].score)
  {
    SortDescIsSorted(traits, TraitKey);
    TopBeatsBottom(SortDesc(traits, TraitKey));
  }

  /** In a ranking of seven traits the first three score at least as high
   *  as the last two. */
  lemma TopBeatsBottom(top: seq<Trait>)
    requires |top| == 7 && SortedDesc(top, TraitKey)
    ensures forall i, j :: 0 <= i < 3 && 5 <= j < 7 ==> top[i].score >= top[j].score
  {
    forall i, j | 0 <= i < 3 && 5 <= j < 7
      ensures top[i].score >= top[j].score
    {
      assert TraitKey(top[i]) >= TraitKey(top[j]);
    }
  }

  /** The first strength is the earliest trait with the highest score; the
   *  summary names that trait exactly when its score exceeds 70; the last
   *  ten moods are kept, and the dominant mood is that of the history. */
  lemma ProfileSummary(traits: seq<Trait>, history: seq<Mood>)
    requires |traits| == 7 && forall i :: 0 <= i < 7 ==> |traits[i].name| > 0
    ensures var p := ProfileFrom(traits, history);
      var best := traits[FirstMaxIndex(traits, TraitKey)];
      p.strengths[0] == best.name
      && (best.score > 70 <==> p.overall == best.name + "-Driven Personality")
      && (best.score <= 70 <==> p.overall == BalancedSummary)
    ensures ProfileFrom(traits, history).moodHistory == LastN(history, 10)
    ensures ProfileFrom(traits, history).dominantMood == DominantMood(TallyOf(history))
  {
    var p := ProfileFrom(traits, history);
    SortHead(traits, TraitKey);
    var best := traits[FirstMaxIndex(traits, TraitKey)];
    assert SortDesc(traits, TraitKey)[0] == best;
    if best.score > 70 {
      assert p.overall == best.name + "-Driven Personality";
      assert |p.overall| > |BalancedSummary|;
    }
  }
}
