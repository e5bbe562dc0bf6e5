/**
 * The battle judge (frontend/lib/multiplayer/roastJudge.ts): a rule-based
 * score for a roast, the sum of capped components plus a random bonus,
 * clamped to [0, 100], and the feedback line shown for a score.
 *
 * The bonus `Math.floor(Math.random() * 11)` is the parameter `jitter`.
 */
module RoastJudge {
  import opened Text

  const HumorKeywords: seq<string> := [
    "lol", "haha", "lmao", "rofl", "hilarious", "funny", "joke", "comedy",
    "wit", "clever", "brilliant", "genius", "epic", "savage", "brutal",
    "destroyed", "murdered", "obliterated", "annihilated", "wrecked"
  ]

  const IntensityKeywords: seq<string> := [
    "ugly", "stupid", "dumb", "idiot", "loser", "failure", "pathetic",
    "worthless", "useless", "trash", "garbage", "terrible", "awful",
    "horrible", "disgusting", "gross", "nasty", "weak", "lame", "cringe",
    "embarrassing", "shameful", "disappointing", "mediocre", "basic",
    "boring", "bland", "unoriginal", "cliche", "predictable"
  ]

  const CreativityKeywords: seq<string> := [
    "like", "as if", "looks like", "reminds me", "imagine", "picture",
    "probably", "definitely", "clearly", "obviously", "literally",
    "basically", "technically", "actually", "honestly", "seriously"
  ]

  const PunctuationPatterns: seq<string> := ["!", "?", "...", "!!", "???", "!!!"]

  /** Points for the number of whitespace-separated words. */
  function LengthPoints(wordCount: nat): (p: int)
    ensures 5 <= p <= 20
    ensures p == 20 <==> 20 < wordCount <= 30
    ensures p == 5 <==> wordCount < 5
  {
    if 5 <= wordCount <= 10 then 10
    else if 10 < wordCount <= 20 then 15
    else if 20 < wordCount <= 30 then 20
    else if 30 < wordCount <= 50 then 15
    else if wordCount > 50 then 10
    else 5
  }

  /** A word written in capitals: unchanged by upper-casing and longer than
   *  two characters. */
  predicate IsCapsWord(w: string)
  {
    Upper(w) == w && |w| > 2
  }

  function CountCaps(ws: seq<string>): (n: nat)
    ensures n <= |ws|
  {
    if ws == [] then 0 else (if IsCapsWord(ws[0]) then 1 else 0) + CountCaps(ws[1..])
  }

  function CapsPoints(caps: nat): (p: int)
    ensures 0 <= p <= 5
  {
    if caps > 0 then Min(caps * 2, 5) else 0
  }

  /** The score before the random bonus and the clamp: the length points,
   *  5 per humour keyword (at most 25), 6 per insult keyword (at most 30),
   *  3 per creativity marker (at most 15), 2 per punctuation pattern (at
   *  most 10), 2 per word in capitals (at most 5), and 5 for a question. */
  function BaseScore(message: string): int
  {
    var lower := Lower(message);
    LengthPoints(|SplitWs(lower)|)
    + Min(CountContained(lower, HumorKeywords) * 5, 25)
    + Min(CountContained(lower, IntensityKeywords) * 6, 30)
    + Min(CountContained(lower, CreativityKeywords) * 3, 15)
    + Min(CountContained(message, PunctuationPatterns) * 2, 10)
    + CapsPoints(CountCaps(SplitWs(message)))
    + (if Contains(message, "?") then 5 else 0)
  }

  predicate IsJitter(jitter: int) { 0 <= jitter <= 10 }

  /** `Math.max(0, Math.min(100, score))`. */
  function Clamp(x: int): (r: int)
    ensures 0 <= r <= 100
    ensures 0 <= x <= 100 ==> r == x
    ensures x > 100 ==> r == 100
    ensures x < 0 ==> r == 0
  {
    Max(0, Min(100, x))
  }

  /** The judged score of `message` with random bonus `jitter`. */
  function Judge(message: string, jitter: int): (score: int)
    requires IsJitter(jitter)
  {
    Clamp(BaseScore(message) + jitter)
  }

  /** Every component is bounded: the sum before the bonus lies in [5, 110]. */
  lemma BaseScoreBounds(message: string)
    ensures 5 <= BaseScore(message) <= 110
  {
  }

  /** The judged score lies in [5, 100]: the clamp only ever cuts from above. */
  lemma JudgeBounds(message: string, jitter: int)
    requires IsJitter(jitter)
    ensures 5 <= Judge(message, jitter) <= 100
    ensures BaseScore(message) + jitter <= 100 ==> Judge(message, jitter) == BaseScore(message) + jitter
  {
    BaseScoreBounds(message);
  }

  /** A larger random bonus never lowers the score, and two bonuses change
   *  it by at most their difference. */
  lemma JudgeMonotoneInJitter(message: string, j1: int, j2: int)
    requires IsJitter(j1) && IsJitter(j2) && j1 <= j2
    ensures Judge(message, j1) <= Judge(message, j2) <= Judge(message, j1) + (j2 - j1)
  {
    BaseScoreBounds(message);
  }

  /** The punctuation loop of `judgeRoast`: 2 points per pattern the
   *  message contains. */
  method PunctuationPoints(message: string, patterns: seq<string>) returns (points: nat)
    ensures points == 2 * CountContained(message, patterns)
  {
    points := 0;
    var i := 0;
    while i < |patterns|
      invariant 0 <= i <= |patterns|
      invariant points + 2 * CountContained(message, patterns[i..]) == 2 * CountContained(message, patterns)
    {
      assert patterns[i..][1..] == patterns[i + 1..];
      if Contains(message, patterns[i]) {
        points := points + 2;
      }
      i := i + 1;
    }
  }

  /** The capitals filter of `judgeRoast`: how many pieces are words in
   *  capitals. */
  method CountCapsWords(pieces: seq<string>) returns (n: nat)
    ensures n == CountCaps(pieces)
  {
    n := 0;
    var k := 0;
    while k < |pieces|
      invariant 0 <= k <= |pieces|
      invariant n + CountCaps(pieces[k..]) == CountCaps(pieces)
    {
      assert pieces[k..][1..] == pieces[k + 1..];
      if IsCapsWord(pieces[k]) {
        n := n + 1;
      }
      k := k + 1;
    }
  }

  /** `judgeRoast(message)`, accumulating the score component by component. */
  method JudgeRoast(message: string, jitter: int) returns (score: int)
    requires IsJitter(jitter)
    ensures score == Judge(message, jitter)
    ensures 5 <= score <= 100
  {
    var lower := Lower(message);
    var words := SplitWs(lower);
    score := LengthPoints(|words|);

    var humorCount := CountPresent(lower, HumorKeywords);
    score := score + Min(humorCount * 5, 25);

    var intensityCount := CountPresent(lower, IntensityKeywords);
    score := score + Min(intensityCount * 6, 30);

    var creativityCount := CountPresent(lower, CreativityKeywords);
    score := score + Min(creativityCount * 3, 15);

    var punctuationScore := PunctuationPoints(message, PunctuationPatterns);
    score := score + Min(punctuationScore, 10);

    var capsWords := CountCapsWords(SplitWs(message));
    if capsWords > 0 {
      score := score + Min(capsWords * 2, 5);
    }
    assert score == BaseScore(message) - (if Contains(message, "?") then 5 else 0);

    if Contains(message, "?") {
      score := score + 5;
    }

    score := score + jitter;
    score := Max(0, Min(100, score));
    JudgeBounds(message, jitter);
  }

  // ---------------------------------------------------------------------
  // getRoastFeedback

  /** The feedback band of a score: 5 for 90 and up, then 75, 60, 40, 20,
   *  and 0 below 20. */
  function FeedbackBand(score: int): (b: nat)
    ensures b <= 5
  {
    if score >= 90 then 5
    else if score >= 75 then 4
    else if score >= 60 then 3
    else if score >= 40 then 2
    else if score >= 20 then 1
    else 0
  }

  const FeedbackLines: seq<string> := [
    "\U{1F4A4} That was barely a roast...",
    "\U{1F62C} Weak roast. Try harder!",
    "\U{1F610} Decent attempt, but could be spicier.",
    "\U{1F44A} SOLID ROAST! Nice hit!",
    "\U{1F4A5} BRUTAL! That was savage!",
    "\U{1F525} LEGENDARY ROAST! Absolutely devastating!"
  ]

  /** `getRoastFeedback(score)`: defined for every score. */
  function RoastFeedback(score: int): (line: string)
    ensures line in FeedbackLines
  {
    FeedbackLines[FeedbackBand(score)]
  }

  /** A higher score never lands in a lower band, and the six bands have
   *  six different lines. */
  lemma {:induction false} FeedbackMonotone(s1: int, s2: int)
    requires s1 <= s2
    ensures FeedbackBand(s1) <= FeedbackBand(s2)
    ensures FeedbackBand(s1) != FeedbackBand(s2) ==> RoastFeedback(s1) != RoastFeedback(s2)
  {
    var b1, b2 := FeedbackBand(s1), FeedbackBand(s2);
    if b1 != b2 {
      assert FeedbackLines[b1][1] != FeedbackLines[b2][1] || FeedbackLines[b1][0] != FeedbackLines[b2][0];
    }
  }
}
