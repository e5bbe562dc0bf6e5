/**
 * The chat's mood detector (frontend/lib/mood/moodEngine.ts): keyword and
 * sentiment counts, punctuation and length bonuses, combined into five
 * mood scores; the top score after a stable descending sort decides the
 * mood, and its share of the total is the confidence.
 *
 * The source's weights are decimals with one digit (0.7, 0.8, 1.2, 1.5):
 * every score here is the source's score multiplied by 10, so all scores
 * are integers and the thresholds 1 and 2 become 10 and 20.
 */
module MoodEngine {
  import opened Text
  import opened Ranking
  import opened Types

  const FunnyKeywords: seq<string> := [
    "laugh", "lol", "haha", "lmao", "joke", "roast", "funny", "bro",
    "savage", "meme", "hilarious", "comedy", "humor", "ridiculous",
    "insane", "wild", "crazy", "epic", "bruh", "dead", "dying"
  ]

  const SadKeywords: seq<string> := [
    "sad", "tired", "alone", "lost", "broken", "fail", "depressed",
    "pain", "give up", "stress", "anxiety", "worry", "hopeless",
    "empty", "hurt", "crying", "tears", "suffering", "miserable",
    "unhappy", "difficult", "hard", "struggle"
  ]

  const ConfidentKeywords: seq<string> := [
    "win", "strong", "ready", "powerful", "focus", "success", "sigma",
    "control", "dominate", "confident", "achieve", "master", "boss",
    "champion", "leader", "unstoppable", "determined", "motivated",
    "crushing", "killing", "winning", "best", "top", "great"
  ]

  const ReflectiveKeywords: seq<string> := [
    "think", "why", "meaning", "improve", "change", "learn", "growth",
    "reflect", "understand", "wonder", "curious", "question", "ponder",
    "consider", "realize", "insight", "wisdom", "deep", "philosophy",
    "perspective", "introspect", "contemplate", "analyze"
  ]

  const PositiveWords: seq<string> := [
    "good", "great", "awesome", "amazing", "excellent", "wonderful",
    "fantastic", "perfect", "love", "happy", "joy", "glad", "nice",
    "beautiful", "brilliant", "outstanding", "superb", "terrific"
  ]

  const NegativeWords: seq<string> := [
    "bad", "terrible", "awful", "horrible", "worst", "hate", "suck",
    "disgusting", "pathetic", "miserable", "dreadful", "poor", "weak",
    "useless", "pointless", "waste", "failure", "wrong"
  ]

  /** The five scores, each ten times the source's value. */
  datatype MoodScores = MoodScores(funny: int, sad: int, confident: int, reflective: int, neutral: int)

  datatype MoodResult = MoodResult(mood: Mood, scores: MoodScores, confidence: real)

  /** `normalizeText`: lower-cased and trimmed. */
  function Normalize(text: string): string
  {
    Trim(Lower(text))
  }

  /** Total number of `\bkw\b` matches, over every keyword of `keywords`. */
  function KeywordScore(normalized: string, keywords: seq<string>): nat
  {
    if keywords == [] then 0
    else KeywordScore(normalized, keywords[..|keywords| - 1]) + WordMatches(normalized, keywords[|keywords| - 1])
  }

  /** `calculateKeywordScore(text, keywords)`: the counting loop. */
  method CalculateKeywordScore(text: string, keywords: seq<string>) returns (score: nat)
    ensures score == KeywordScore(Normalize(text), keywords)
  {
    var normalized := Normalize(text);
    score := 0;
    var i := 0;
    while i < |keywords|
      invariant 0 <= i <= |keywords|
      invariant score == KeywordScore(normalized, keywords[..i])
    {
      assert keywords[..i + 1][..i] == keywords[..i];
      score := score + WordMatches(normalized, keywords[i]);
      i := i + 1;
    }
    assert keywords[..i] == keywords;
  }

  /** `getSentimentWeight(text)`: the positive and negative word counts. */
  method GetSentimentWeight(text: string) returns (positive: nat, negative: nat)
    ensures positive == KeywordScore(Normalize(text), PositiveWords)
    ensures negative == KeywordScore(Normalize(text), NegativeWords)
  {
    positive := CalculateKeywordScore(text, PositiveWords);
    negative := CalculateKeywordScore(text, NegativeWords);
  }

  /** Everything `calculateMoodScores` measures in a text. */
  datatype Signals = Signals(
    funny: nat, sad: nat, confident: nat, reflective: nat,
    positive: nat, negative: nat, exclamations: nat, questions: nat,
    wordCount: nat, length: nat)

  function SignalsOf(text: string): Signals
  {
    var n := Normalize(text);
    Signals(
      KeywordScore(n, FunnyKeywords), KeywordScore(n, SadKeywords),
      KeywordScore(n, ConfidentKeywords), KeywordScore(n, ReflectiveKeywords),
      KeywordScore(n, PositiveWords), KeywordScore(n, NegativeWords),
      Occurrences(text, '!'), Occurrences(text, '?'),
      |SplitWs(text)|, |text|)
  }

  /** The long-text bonus: more than 20 words whose average length
   *  `length / wordCount` exceeds 5. */
  predicate LongAndWordy(g: Signals)
  {
    g.wordCount > 20 && g.length > 5 * g.wordCount
  }

  /** The scores as a closed formula over the signals: 1 per keyword, 1.5
   *  and 0.8 per positive word, 2 per negative word, 0.7 and 0.5 per `!`
   *  when there is more than one, 1.2 per `?`, 2 for a long wordy text, and
   *  a neutral base of 1, doubled for a short text without `!`. */
  function Combine(g: Signals): MoodScores
  {
    var excited := if g.exclamations > 1 then g.exclamations else 0;
    MoodScores(
      10 * g.funny + 8 * g.positive + 7 * excited,
      10 * g.sad + 20 * g.negative,
      10 * g.confident + 15 * g.positive + 5 * excited,
      10 * g.reflective + 12 * g.questions + (if LongAndWordy(g) then 20 else 0),
      if g.wordCount < 5 && g.exclamations == 0 then 20 else 10)
  }

  /** The counts and lengths `calculateMoodScores` starts from. */
  method MeasureSignals(text: string) returns (g: Signals)
    ensures g == SignalsOf(text)
  {
    var funnyScore := CalculateKeywordScore(text, FunnyKeywords);
    var sadScore := CalculateKeywordScore(text, SadKeywords);
    var confidentScore := CalculateKeywordScore(text, ConfidentKeywords);
    var reflectiveScore := CalculateKeywordScore(text, ReflectiveKeywords);
    var positive, negative := GetSentimentWeight(text);
    g := Signals(funnyScore, sadScore, confidentScore, reflectiveScore, positive, negative,
                 Occurrences(text, '!'), Occurrences(text, '?'), |SplitWs(text)|, |text|);
  }

  /** The rule-by-rule updates of `calculateMoodScores` to its local
   *  `scores` record, starting from the keyword counts and a neutral 1. */
  method ApplyBonuses(g: Signals) returns (scores: MoodScores)
    ensures scores == Combine(g)
  {
    var funny, sad, confident, reflective, neutral := 10 * g.funny, 10 * g.sad, 10 * g.confident, 10 * g.reflective, 10;
    if g.positive > 0 {
      confident := confident + 15 * g.positive;
      funny := funny + 8 * g.positive;
    }
    if g.negative > 0 {
      sad := sad + 20 * g.negative;
    }
    if g.exclamations > 1 {
      funny := funny + 7 * g.exclamations;
      confident := confident + 5 * g.exclamations;
    }
    if g.questions > 0 {
      reflective := reflective + 12 * g.questions;
    }
    if g.wordCount > 20 && g.length > 5 * g.wordCount {
      reflective := reflective + 20;
    }
    if g.wordCount < 5 && g.exclamations == 0 {
      neutral := neutral + 10;
    }
    scores := MoodScores(funny, sad, confident, reflective, neutral);
  }

  /** `calculateMoodScores(text)`. */
  method CalculateMoodScores(text: string) returns (scores: MoodScores)
    ensures scores == Combine(SignalsOf(text))
  {
    var g := MeasureSignals(text);
    scores := ApplyBonuses(g);
  }

  /** The scores are never negative, and the neutral score is 1 or 2: it is
   *  2 exactly for fewer than five words and no `!`. */
  lemma CombineBounds(g: Signals)
    ensures var s := Combine(g);
      s.funny >= 0 && s.sad >= 0 && s.confident >= 0 && s.reflective >= 0
      && (s.neutral == 10 || s.neutral == 20)
      && (s.neutral == 20 <==> g.wordCount < 5 && g.exclamations == 0)
  {
  }

  /** One more positive word adds exactly 1.5 to confident and 0.8 to
   *  funny; one more negative word adds exactly 2 to sad; one more `?`
   *  adds exactly 1.2 to reflective. Nothing else moves. */
  lemma WordAndQuestionEffects(g: Signals)
    ensures var s := Combine(g);
      Combine(g.(positive := g.positive + 1)) == s.(confident := s.confident + 15, funny := s.funny + 8)
    ensures var s := Combine(g);
      Combine(g.(negative := g.negative + 1)) == s.(sad := s.sad + 20)
    ensures var s := Combine(g);
      Combine(g.(questions := g.questions + 1)) == s.(reflective := s.reflective + 12)
  {
  }

  /** A single `!` earns no bonus: funny and confident are as without it. */
  lemma SingleExclamationIgnored(g: Signals)
    requires g.exclamations == 1
    ensures Combine(g).funny == Combine(g.(exclamations := 0)).funny
    ensures Combine(g).confident == Combine(g.(exclamations := 0)).confident
  {
  }

  // ---------------------------------------------------------------------
  // resolveFinalMood

  /** `Object.entries(scores)`: the keys in the order the record literal
   *  declares them. */
  function Entries(s: MoodScores): seq<(Mood, int)>
  {
    [(Mood.Funny, s.funny), (Mood.Sad, s.sad), (Mood.Confident, s.confident),
     (Mood.Reflective, s.reflective), (Mood.Neutral, s.neutral)]
  }

  function EntryScore(e: (Mood, int)): int { e.1 }

  /** `resolveFinalMood(scores)`: the head of the stably sorted entries,
   *  with the zero, neutral-tie and below-2 rules. */
  function ResolveFinalMood(s: MoodScores): Mood
  {
    var sorted := SortDesc(Entries(s), EntryScore);
    var top := sorted[0];
    var second := sorted[1];
    if top.1 == 0 || (top.1 == second.1 && top.0 == Mood.Neutral) then Mood.Neutral
    else if top.1 < 20 && top.0 != Mood.Neutral then Mood.Neutral
    else top.0
  }

  /** The resolved mood is the earliest mood, in the order funny, sad,
   *  confident, reflective, neutral, holding the greatest score, unless
   *  that score is below 2, in which case it is neutral. */
  lemma {:induction false} ResolveIsEarliestTop(s: MoodScores)
    ensures var e := Entries(s);
      var i := FirstMaxIndex(e, EntryScore);
      ResolveFinalMood(s) == (if e[i].1 < 20 then Mood.Neutral else e[i].0)
  {
    SortHead(Entries(s), EntryScore);
  }

  /** Spelled out: a mood wins only with a score of at least 2 that is
   *  greater than every earlier mood's and no less than every later one's. */
  lemma ResolveWinner(s: MoodScores)
    ensures ResolveFinalMood(s) == Mood.Funny <==>
      s.funny >= 20 && s.funny >= s.sad && s.funny >= s.confident && s.funny >= s.reflective && s.funny >= s.neutral
    ensures ResolveFinalMood(s) == Mood.Sad <==>
      s.sad >= 20 && s.sad > s.funny && s.sad >= s.confident && s.sad >= s.reflective && s.sad >= s.neutral
    ensures ResolveFinalMood(s) == Mood.Confident <==>
      s.confident >= 20 && s.confident > s.funny && s.confident > s.sad
      && s.confident >= s.reflective && s.confident >= s.neutral
    ensures ResolveFinalMood(s) == Mood.Reflective <==>
      s.reflective >= 20 && s.reflective > s.funny && s.reflective > s.sad
      && s.reflective > s.confident && s.reflective >= s.neutral
  {
    ResolveIsEarliestTop(s);
    var e := Entries(s);
    var i := FirstMaxIndex(e, EntryScore);
    assert EntryScore(e[0]) == s.funny && EntryScore(e[1]) == s.sad && EntryScore(e[2]) == s.confident;
    assert EntryScore(e[3]) == s.reflective && EntryScore(e[4]) == s.neutral;
    var top := EntryScore(e[i]);
    assert s.funny <= top && s.sad <= top && s.confident <= top && s.reflective <= top && s.neutral <= top;
    if i == 0 {
      assert top == s.funny;
    } else if i == 1 {
      assert top == s.sad && s.funny < top;
    } else if i == 2 {
      assert top == s.confident && s.funny < top && s.sad < top;
    } else if i == 3 {
      assert top == s.reflective && s.funny < top && s.sad < top && s.confident < top;
    } else {
      assert top == s.neutral && s.funny < top && s.sad < top && s.confident < top && s.reflective < top;
    }
  }

  // ---------------------------------------------------------------------
  // detectMood

  function ScoreOf(s: MoodScores, m: Mood): int
  {
    match m
    case Funny => s.funny
    case Sad => s.sad
    case Confident => s.confident
    case Reflective => s.reflective
    case Neutral => s.neutral
  }

  function Total(s: MoodScores): int
  {
    s.funny + s.sad + s.confident + s.reflective + s.neutral
  }

  /** `Math.min(top / Math.max(total, 1) * 100, 100) / 100`, on scores ten
   *  times larger (so the floor of the total is 10). */
  function Confidence(top: int, total: int): real
  {
    var pct := (top as real) / (Max(total, 10) as real) * 100.0;
    (if pct < 100.0 then pct else 100.0) / 100.0
  }

  /** The confidence is the top score's share of the total, and lies in
   *  [0, 1], whenever the top score is one of the non-negative parts. */
  lemma ConfidenceIsShare(top: int, total: int)
    requires 0 <= top <= total
    ensures 0.0 <= Confidence(top, total) <= 1.0
    ensures total >= 10 ==> Confidence(top, total) == (top as real) / (total as real)
  {
    var d := Max(total, 10) as real;
    var ratio := (top as real) / d;
    assert 0.0 <= ratio <= 1.0 by {
      assert top as real <= d;
    }
    var pct := ratio * 100.0;
    assert pct <= 100.0;
    assert Confidence(top, total) == ratio;
    if total >= 10 {
      assert d == total as real;
    }
  }

  /** A non-negative score is at most the total of the non-negative scores. */
  lemma ShareOfTotal(s: MoodScores, m: Mood)
    requires s.funny >= 0 && s.sad >= 0 && s.confident >= 0 && s.reflective >= 0 && s.neutral >= 0
    ensures 0 <= ScoreOf(s, m) <= Total(s)
  {
  }

  /** The mood, scores and confidence `detectMood` reports for scores it
   *  has computed. */
  function Assess(scores: MoodScores): MoodResult
  {
    var mood := ResolveFinalMood(scores);
    MoodResult(mood, scores, Confidence(ScoreOf(scores, mood), Total(scores)))
  }

  /** `detectMood(text)` on blank and non-blank text. */
  function MoodOf(text: string): MoodResult
  {
    if Trim(text) == "" then MoodResult(Mood.Neutral, MoodScores(0, 0, 0, 0, 10), 1.0)
    else Assess(Combine(SignalsOf(text)))
  }

  method DetectMood(text: string) returns (r: MoodResult)
    ensures r == MoodOf(text)
  {
    if |text| == 0 || |Trim(text)| == 0 {
      return MoodResult(Mood.Neutral, MoodScores(0, 0, 0, 0, 10), 1.0);
    }
    var scores := CalculateMoodScores(text);
    r := Assess(scores);
  }

  /** For any measured signals: the scores are non-negative with a neutral
   *  score of 1 or 2, and the confidence in [0, 1] is exactly the chosen
   *  mood's share of the total. */
  lemma AssessSpec(g: Signals)
    ensures var r := Assess(Combine(g));
      r.scores.funny >= 0 && r.scores.sad >= 0 && r.scores.confident >= 0 && r.scores.reflective >= 0
      && 10 <= r.scores.neutral <= 20
      && 0.0 <= r.confidence <= 1.0
      && r.confidence == (ScoreOf(r.scores, r.mood) as real) / (Total(r.scores) as real)
  {
    var scores := Combine(g);
    CombineBounds(g);
    var m := ResolveFinalMood(scores);
    ShareOfTotal(scores, m);
    var top, total := ScoreOf(scores, m), Total(scores);
    assert total >= 10;
    ConfidenceIsShare(top, total);
    var r := Assess(scores);
    assert r.mood == m && r.scores == scores;
    assert r.confidence == Confidence(top, total);
  }

  /** What `detectMood` promises: a blank text is neutral with the fixed
   *  scores and full confidence; any other text gets the measured scores,
   *  non-negative, and a confidence in [0, 1] that is the chosen mood's
   *  share of their total. */
  lemma MoodOfSpec(text: string)
    ensures IsBlank(text) ==> MoodOf(text) == MoodResult(Mood.Neutral, MoodScores(0, 0, 0, 0, 10), 1.0)
    ensures 0.0 <= MoodOf(text).confidence <= 1.0
    ensures !IsBlank(text) ==>
      var r := MoodOf(text);
      r.scores == Combine(SignalsOf(text))
      && r.scores.funny >= 0 && r.scores.sad >= 0 && r.scores.confident >= 0 && r.scores.reflective >= 0
      && 10 <= r.scores.neutral <= 20
      && r.confidence == (ScoreOf(r.scores, r.mood) as real) / (Total(r.scores) as real)
  {
    TrimEmptyIffBlank(text);
    AssessSpec(SignalsOf(text));
  }

  // ---------------------------------------------------------------------
  // getMoodDescription

  const FunnyDescription := "You seem to be in a playful and humorous mood"
  const SadDescription := "You appear to be feeling down or struggling"
  const ConfidentDescription := "You are radiating confidence and determination"
  const ReflectiveDescription := "You are in a thoughtful and introspective state"
  const NeutralDescription := "You are maintaining a balanced and neutral tone"

  function MoodDescription(m: Mood): string
  {
    match m
    case Funny => FunnyDescription
    case Sad => SadDescription
    case Confident => ConfidentDescription
    case Reflective => ReflectiveDescription
    case Neutral => NeutralDescription
  }

  /** Every mood has a description, and no two moods share one. */
  lemma MoodDescriptionsDistinct(m1: Mood, m2: Mood)
    ensures |MoodDescription(m1)| > 0
    ensures m1 != m2 ==> MoodDescription(m1) != MoodDescription(m2)
  {
    assert ReflectiveDescription[8] != NeutralDescription[8];
  }
}
