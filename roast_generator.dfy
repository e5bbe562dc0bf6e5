/**
 * The chat's roast generator (frontend/lib/roast/roastGenerator.ts): the
 * battle scorer `scoreRoast`, the context classifier `analyzeMessageContext`
 * and the branch and personalisation logic of `generateRoast`.
 *
 * Every `Math.random()` the source draws is a parameter: `coin` values are
 * reals in [0, 1), and `selectRandomRoast(list)` picks
 * `list[floor(coin * |list|)]`. The trained model's answer is passed in as
 * `trained` (None when the model returned nothing or threw).
 */
module RoastGenerator {
  import opened Text
  import opened Replacement
  import opened Types

  // ---------------------------------------------------------------------
  // scoreRoast

  const ImpactWords: seq<string> := [
    "masterclass", "champion", "legendary", "epic", "ultimate",
    "destruction", "annihilate", "obliterate", "savage", "brutal"
  ]

  /** The battle score of a roast: 50, plus 10 per impact word found in the
   *  lower-cased text, plus 5 for more than 15 words, plus 5 for a question
   *  mark, capped at 100. */
  function RoastScore(roast: string): (r: int)
    ensures 50 <= r <= 100
  {
    var lower := Lower(roast);
    Min(50 + 10 * CountContained(lower, ImpactWords)
           + (if |SplitWs(lower)| > 15 then 5 else 0)
           + (if Contains(roast, "?") then 5 else 0),
        100)
  }

  method ScoreRoast(roast: string) returns (score: int)
    ensures score == RoastScore(roast)
    ensures 50 <= score <= 100
  {
    var lower := Lower(roast);
    var words := SplitWs(lower);
    score := 50;
    var i := 0;
    while i < |ImpactWords|
      invariant 0 <= i <= |ImpactWords|
      invariant score + 10 * CountContained(lower, ImpactWords[i..])
                == 50 + 10 * CountContained(lower, ImpactWords)
    {
      assert ImpactWords[i..][1..] == ImpactWords[i + 1..];
      if Contains(lower, ImpactWords[i]) {
        score := score + 10;
      }
      i := i + 1;
    }
    if |words| > 15 {
      score := score + 5;
    }
    if Contains(roast, "?") {
      score := score + 5;
    }
    score := Min(score, 100);
  }

  // ---------------------------------------------------------------------
  // analyzeMessageContext

  /** The context categories, in the order the classifier tries them. */
  datatype Context = ShortMessage | Greeting | MetaRoast | Question | Laughing | Verbose

  /** The category `analyzeMessageContext` answers from, or None for its
   *  `null`. */
  function ContextOf(text: string): Option<Context>
  {
    if text == "" then None
    else
      var lower := Lower(text);
      if |lower| < 5 then Some(ShortMessage)
      else if Contains(lower, "hi") || Contains(lower, "hello") || Contains(lower, "hey") then Some(Greeting)
      else if Contains(lower, "roast me") || Contains(lower, "roast") then Some(MetaRoast)
      else if Contains(lower, "?") then Some(Question)
      else if Contains(lower, "lol") || Contains(lower, "haha") || Contains(lower, "lmao") then Some(Laughing)
      else if |SplitOn(lower, ' ')| > 30 then Some(Verbose)
      else None
  }

  /** `username || 'buddy'`. */
  function NameOrBuddy(username: string): string
  {
    if username == "" then "buddy" else username
  }

  // The roast lines of the categories that address the user, each as the
  // text before and after the user's name.

  const ShortLines: seq<(string, string)> := [
    ("One-word answers, ", "? Your conversation skills are showing."),
    ("Short and sweet? More like short and disappointing, ", "."),
    ("Using bare minimum effort, I see. Classic ", " move."),
    ("Wow, such eloquence, ", ". Did you rehearse that?"),
    ("Your message has fewer characters than your personality, ", ""),
    ("Is your keyboard broken or is this peak effort, ", "?")
  ]

  const GreetingLines: seq<(string, string)> := [
    ("Starting with 'hi', ", "? Your creativity is as bright as a dead pixel."),
    ("What a groundbreaking opening, ", ". Did you workshop that greeting?"),
    ("Hi back, ", ". Is that the extent of your conversational arsenal?"),
    ("Hello ", "! Your small talk is as exciting as watching paint dry."),
    ("'Hi'? That's your opening, ", "? Even NPCs have better dialogue."),
    ("Your greeting is giving 'default text message' energy, ", ""),
    ("Wow, 'hi' ", ". Did that take you long to come up with?")
  ]

  const MetaRoastLines: seq<(string, string)> := [
    ("Asking to be roasted, ", "? Your self-esteem already did that for you."),
    ("You're literally begging for attention, ", ". That's the real roast."),
    ("Don't worry, your life choices already roasted you better than I ever could, ", "."),
    ("Imagine asking an AI to validate your insecurities, ", ". Bold strategy."),
    ("Asking an AI for roasts, ", "? Your social life must be thriving."),
    ("You need an AI to roast you, ", "? Can't do that yourself in the mirror?")
  ]

  const QuestionLines: seq<(string, string)> := [
    ("Asking questions you could've Googled, ", ". Peak efficiency."),
    ("Questions, questions, ", "... but no interesting ones."),
    ("Your curiosity is as deep as a puddle, ", "."),
    ("Asking the real hard-hitting questions... not, ", "."),
    ("Google exists but here you are asking me, ", ". Interesting choice."),
    ("Your question has 'I didn't even try to Google this' energy, ", "")
  ]

  const LaughingLines: seq<(string, string)> := [
    ("Laughing at your own jokes, ", "? That's sadder than the jokes themselves."),
    ("Using 'lol' as punctuation, ", ". How very 2010 of you."),
    ("Your sense of humor called, ", " - it wants a refund."),
    ("Fake laughing through text, ", ". The desperation is real."),
    ("'Lol' isn't a personality trait, just so you know, ", "."),
    ("Adding 'lol' doesn't make your message funny, try harder ", "")
  ]

  function AddressedLines(c: Context): (ls: seq<(string, string)>)
    ensures c != Verbose ==> |ls| >= 6
  {
    match c
    case ShortMessage => ShortLines
    case Greeting => GreetingLines
    case MetaRoast => MetaRoastLines
    case Question => QuestionLines
    case Laughing => LaughingLines
    case Verbose => []
  }

  /** The verbose category's lines, which do not use the name. */
  const VerboseRoasts: seq<string> := [
    "Writing a novel? Nobody asked for your autobiography.",
    "TL;DR - your message is as long as it is unnecessary.",
    "All those words and still said nothing of value.",
    "Your message has more filler than a reality TV show.",
    "That's a lot of words to say nothing at all.",
    "I lost interest halfway through and I'm literally programmed to respond"
  ]

  /** The roast lines of each context category, addressed to `name`. */
  function ContextRoasts(c: Context, name: string): (lines: seq<string>)
    ensures |lines| >= 6
  {
    if c == Verbose then VerboseRoasts
    else
      var ls := AddressedLines(c);
      seq(|ls|, i requires 0 <= i < |ls| => ls[i].0 + name + ls[i].1)
  }


  /** `selectRandomRoast(lines)`. */
  function SelectRandom(lines: seq<string>, coin: real): (r: string)
    requires IsCoin(coin) && |lines| > 0
    ensures r in lines
  {
    lines[PickIndex(coin, |lines|)]
  }

  /** `analyzeMessageContext(text, username)`, with `coin` as its random pick. */
  function AnalyzeMessageContext(text: string, username: string, coin: real): Option<string>
    requires IsCoin(coin)
  {
    match ContextOf(text)
    case None => None
    case Some(c) => Some(SelectRandom(ContextRoasts(c, NameOrBuddy(username)), coin))
  }

  /** Every context roast but the verbose ones addresses the user by name,
   *  or as "buddy" when no name is given. */
  lemma ContextRoastAddressesUser(text: string, username: string, coin: real)
    requires IsCoin(coin)
    requires ContextOf(text).Some? && ContextOf(text).value != Verbose
    ensures Contains(AnalyzeMessageContext(text, username, coin).value, NameOrBuddy(username))
  {
    var name := NameOrBuddy(username);
    var ls := AddressedLines(ContextOf(text).value);
    var k := PickIndex(coin, |ls|);
    ContainsInfix(ls[k].0, name, ls[k].1);
  }

  // ---------------------------------------------------------------------
  // generateRoast

  const FunnyTemplates: seq<string> := [
    "Your personality is like a software update - nobody asked for it and it takes forever to load",
    "You have the energy of a low battery notification at 2%",
    "Your vibe is giving 'instruction manual that nobody reads'",
    "You're the human equivalent of a pop-up ad",
    "Your personality has the loading time of dial-up internet",
    "You're like a WiFi connection - strong signal but no actual connection",
    "Your energy matches a Windows update - interrupting and unnecessary",
    "You're the 'Skip Intro' button everyone clicks",
    "Your personality is on airplane mode",
    "You're like autocorrect - trying to help but making it worse",
    "Your brain runs on Internet Explorer vibes",
    "You're giving 'Error 404: Personality Not Found'",
    "Your social skills are still buffering...",
    "You're the code that works but nobody knows why",
    "Your life is in beta and it shows",
    "You have the same energy as a broken URL",
    "Your charisma is loading... please wait... still loading...",
    "You're like a laggy livestream - present but unwatchable",
    "Your personality is stuck in safe mode",
    "You're the human version of 'Please verify you are not a robot'"
  ]

  const BrutalTemplates: seq<string> := [
    "Your confidence is inversely proportional to your self-awareness",
    "You bring the same energy as a mandatory company meeting",
    "Your personality is a masterclass in mediocrity",
    "You're the reason people invented the mute button",
    "Your vibe is 'peaked in tutorial mode'",
    "You have the charisma of a terms and conditions page",
    "Your presence is as welcome as a software bug in production",
    "You're the plot hole in your own life story",
    "Your personality is in permanent beta testing",
    "You're the error message nobody wants to debug",
    "Your existence is a Stack Overflow thread with no accepted answer",
    "You're the legacy code everyone's afraid to touch",
    "Your personality failed all unit tests",
    "You're the merge conflict nobody wants to resolve",
    "Your social skills have more bugs than a rushed release",
    "You're like a memory leak - slowly draining everyone's energy",
    "Your vibe is 'deprecated and scheduled for removal'",
    "You're the technical debt nobody wants to pay off"
  ]

  const SarcasticTemplates: seq<string> := [
    "Oh wow, another deep thought from the philosophy factory",
    "Fascinating insight from the CEO of obvious observations",
    "What a groundbreaking perspective, truly revolutionary",
    "Your wisdom is almost as impressive as your humility",
    "That's definitely a thought you just had",
    "Incredible how you make simple things sound complicated",
    "Your self-awareness is truly inspiring... said no one",
    "What a unique take, never heard that before... this hour",
    "Your confidence is admirable, if only it was justified",
    "That's certainly one way to interpret reality",
    "Wow, did you just Google that?",
    "Amazing how you discovered something everyone already knew",
    "Your hot takes are room temperature at best",
    "Congrats on having the most mid opinion possible",
    "Your insights have the depth of a kiddie pool",
    "Peak intellectual energy right there... not"
  ]

  /** `ROAST_TEMPLATES[intensity]`. */
  function IntensityTemplates(i: Intensity): (ts: seq<string>)
    ensures |ts| >= 16
  {
    match i
    case Funny => FunnyTemplates
    case Brutal => BrutalTemplates
    case Sarcastic => SarcasticTemplates
  }

  const ConfidentRoasts: seq<string> := [
    "All that confidence and still reading the room wrong",
    "Sigma grindset but grinding in the wrong direction",
    "Main character energy in a background character life",
    "Boss vibes with employee execution",
    "Your confidence has more bugs than Windows Vista",
    "Flexing like a CPU at 100% but outputting nothing"
  ]

  const FunnyMoodRoasts: seq<string> := [
    "Trying to be the class clown but jokes on you",
    "Your humor is like expired milk - it was funny once",
    "Comedy gold? More like comedy participation award",
    "Your jokes load slower than a 1990s webpage",
    "Humor.exe has stopped working"
  ]

  const SadRoasts: seq<string> := [
    "Even your sadness is on energy-saving mode",
    "Your vibe is 'sad playlist at 3 AM' but make it worse",
    "Collecting red flags like they're pokemon cards",
    "Your sadness has the depth of a Twitter thread",
    "Even your depression is low effort"
  ]

  const ReflectiveRoasts: seq<string> := [
    "All that thinking and still no conclusions",
    "Overthinking champion of the year",
    "Deep thoughts, shallow impact",
    "Your brain's running background processes but producing nothing",
    "Thinking hard but ideas.exe crashed"
  ]

  const NeutralRoasts: seq<string> := [
    "Your personality is on do not disturb mode",
    "Bringing 'unmemorable' to a whole new level",
    "The human equivalent of gray",
    "Your vibe is default settings - unchanged and boring",
    "You're like a blank text file - technically present but empty"
  ]

  /** `MOOD_BASED_ROASTS[mood]`: every mood has a non-empty list. */
  function MoodRoasts(m: Mood): (ts: seq<string>)
    ensures |ts| >= 5
  {
    match m
    case Confident => ConfidentRoasts
    case Funny => FunnyMoodRoasts
    case Sad => SadRoasts
    case Reflective => ReflectiveRoasts
    case Neutral => NeutralRoasts
  }

  datatype Roast = Roast(text: string, intensity: Intensity, category: string)

  predicate EndsWithDot(s: string) { |s| > 0 && s[|s| - 1] == '.' }

  /** `roast.replace(/\.$/, `, ${username}.`)`: a final full stop becomes
   *  ", " and the expanded user name and a full stop; a text without one is
   *  left alone. Only a name free of `$` is inserted as it is. */
  function Personalize(roast: string, username: string): (r: string)
    ensures !EndsWithDot(roast) ==> r == roast
    ensures EndsWithDot(roast) ==>
              var stem := roast[..|roast| - 1];
              r == stem + ", " + Substitution(username, stem, ".", "") + "."
    ensures EndsWithDot(roast) && '$' !in username ==>
              |r| == |roast| + |username| + 2 && r[..|roast| - 1] == roast[..|roast| - 1] && Contains(r, username)
  {
    if EndsWithDot(roast) then
      var stem := roast[..|roast| - 1];
      NameAfterStem(stem, username, ".", "");
      stem + Substitution(", " + username + ".", stem, ".", "")
    else roast
  }

  /** A name carrying `$&` is not inserted as typed: the pattern becomes the
   *  matched full stop. */
  lemma DollarNameIsExpanded()
    ensures Personalize("You fail.", "a$&b") == "You fail, a.b."
  {
    var stem := "You fail";
    assert "You fail."[..8] == stem;
    var u := "a$&b";
    assert u[1..] == "$&b" && u[1..][2..] == "b";
    assert Substitution(u, stem, ".", "") == "a.b";
  }

  /** Whether `generateRoast` answers from the trained model: the first coin
   *  exceeds 0.3, there is user text, and the model returned a non-empty
   *  roast (None stands for a model that threw or returned nothing). */
  predicate UsesTrained(userText: string, modelCoin: real, trained: Option<string>)
  {
    modelCoin > 0.3 && userText != "" && trained.Some? && trained.value != ""
  }

  /** `generateRoast(intensity, mood, userText, username)`. An absent text or
   *  username is the empty string; `modelCoin` is the 70/30 draw,
   *  `contextCoin` the context roast's pick, `moodCoin` the 50/50 draw and
   *  `pickCoin` the template pick. */
  function GenerateRoast(intensity: Intensity, mood: Option<Mood>, userText: string, username: string,
                         modelCoin: real, trained: Option<string>,
                         contextCoin: real, moodCoin: real, pickCoin: real): (r: Roast)
    requires IsCoin(contextCoin) && IsCoin(pickCoin)
    ensures r.intensity == intensity
    ensures UsesTrained(userText, modelCoin, trained) ==> r.category == "trained-model"
    ensures !UsesTrained(userText, modelCoin, trained) ==>
              r.category == (if mood.Some? then MoodName(mood.value) else "general")
    ensures UsesTrained(userText, modelCoin, trained) ==>
              var t := trained.value;
              r.text == (if username != "" && !Contains(t, username) then Personalize(t, username) else t)
    ensures !UsesTrained(userText, modelCoin, trained) ==>
              match AnalyzeMessageContext(userText, username, contextCoin)
              case Some(ctx) => r.text == ctx
              case None =>
                if mood.Some? && moodCoin > 0.5 then r.text in MoodRoasts(mood.value)
                else r.text in IntensityTemplates(intensity)
  {
    if UsesTrained(userText, modelCoin, trained) then
      var t := trained.value;
      var text := if username != "" && !Contains(t, username) then Personalize(t, username) else t;
      Roast(text, intensity, "trained-model")
    else
      var text :=
        match AnalyzeMessageContext(userText, username, contextCoin)
        case Some(ctx) => ctx
        case None =>
          if mood.Some? && moodCoin > 0.5 then SelectRandom(MoodRoasts(mood.value), pickCoin)
          else SelectRandom(IntensityTemplates(intensity), pickCoin);
      Roast(text, intensity, if mood.Some? then MoodName(mood.value) else "general")
  }

  /** On the trained path the answer names the user when a name free of `$`
   *  is given and the model's roast ends with a full stop. */
  lemma TrainedRoastNamesUser(intensity: Intensity, mood: Option<Mood>, userText: string, username: string,
                              modelCoin: real, trained: Option<string>,
                              contextCoin: real, moodCoin: real, pickCoin: real)
    requires IsCoin(contextCoin) && IsCoin(pickCoin)
    requires UsesTrained(userText, modelCoin, trained) && EndsWithDot(trained.value)
    ensures '$' !in username ==> Contains(GenerateRoast(intensity, mood, userText, username, modelCoin, trained,
                                   contextCoin, moodCoin, pickCoin).text, username)
  {
    if username == "" {
      assert StartsWith(trained.value, username);
    }
  }

  /** The "roast me" test is subsumed by the "roast" test that follows it. */
  lemma {:induction false} RoastMeMentionsRoast(s: string)
    requires Contains(s, "roast me")
    ensures Contains(s, "roast")
    decreases |s|
  {
    if StartsWith(s, "roast me") {
      assert s[..5] == s[..8][..5];
    } else {
      RoastMeMentionsRoast(s[1..]);
    }
  }

  /** The classifier answers null exactly for the empty text and for a text
   *  of five or more characters that trips none of the tests. */
  lemma ContextNullIff(text: string)
    ensures ContextOf(text).None? <==>
              text == "" ||
              (var lower := Lower(text);
               |text| >= 5
               && !Contains(lower, "hi") && !Contains(lower, "hello") && !Contains(lower, "hey")
               && !Contains(lower, "roast") && !Contains(lower, "?")
               && !Contains(lower, "lol") && !Contains(lower, "haha") && !Contains(lower, "lmao")
               && |SplitOn(lower, ' ')| <= 30)
  {
    if text != "" && Contains(Lower(text), "roast me") {
      RoastMeMentionsRoast(Lower(text));
    }
  }
}
