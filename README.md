# RoastMe-AI core, modelled in Dafny

This project models the rule-based core of RoastMe-AI, a chat application
that reads the user's mood from their messages, roasts them, profiles their
personality, gives advice, and runs multiplayer "roast battles". One Dafny
module models each core source file:

| module | source file | form |
|---|---|---|
| `MoodEngine` | frontend/lib/mood/moodEngine.ts | keyword scoring loops as methods proved against functions; mood resolution and confidence as functions with lemmas |
| `PersonalityAnalyzer` | backend/src/services/personality/personalityAnalyzer.ts | trait-scoring and mood-counting loops as methods; the profile as a function with lemmas |
| `AdviceGenerator` | backend/src/services/advice/adviceGenerator.ts | the advice table and its lookup, with the unknown-category failure as `Err` |
| `RoastGenerator` | frontend/lib/roast/roastGenerator.ts | `scoreRoast` as a method; the context classifier and `generateRoast` as functions |
| `RoastJudge` | frontend/lib/multiplayer/roastJudge.ts | `judgeRoast` as a method over its counting loops, and the feedback bands |
| `DatasetTrainer` | backend/src/services/roast/datasetTrainer.ts | the trainer as a class whose tables the methods update; CSV splitting, keyword extraction, intensity vote and lookups as functions |
| `MultiplayerService` | backend/src/services/multiplayer/multiplayerService.ts | the service as a class over a room map and a user-to-room index |
| `MultiplayerSocket` | backend/src/sockets/multiplayerSocket.ts | the socket gateway as a class `RoomHub` over the module-level rooms map; each event handler is a method |
| `TamboEngine` | frontend/lib/tambo/tamboEngine.ts | the mood-to-interface table and the engine as a class with a transition lock |
| `AppStore` | frontend/store/appStore.ts | the application store as a class, one method per setter |
| `MultiplayerStore` | frontend/store/multiplayerStore.ts | the battle store as a class, one method per setter |

Shared modules:

- `Text` restates the JavaScript string operations the code relies on: `toLowerCase`, `trim`, `split`, `includes`, `join`, `\b…\b` regular-expression matches and `Math.floor(Math.random() * n)`.
- `Ranking` is the stable descending sort that `Array.prototype.sort` with `(a, b) => b.score - a.score` performs.
- `Replacement` expands the `$` patterns of a `String.prototype.replace` replacement text.
- `RoomCodes` builds six-character room codes.
- `Types` holds the records of backend/src/types/index.ts.

Every `Math.random()` draw is a parameter of the operation that draws it:

- a real "coin" in [0, 1), or a sequence of picks for a room code;
- the judge's random bonus `jitter`, in 0..10;
- the clock `now`.

Socket emits and console output are not modelled. Each handler returns the
outcome the client would be told about instead.

Some behaviours of the source that the proofs bring out:

- **Mood detection.** The resolved mood is the earliest of funny, sad, confident, reflective and neutral that holds the top score, or neutral when that score is below 2. The neutral-tie test at moodEngine.ts:159 therefore never changes the answer (`MoodEngine.ResolveIsEarliestTop`).
- **Room service.** `startGame` does not check that the room is still waiting, so a finished game can be restarted (`MultiplayerService.MultiplayerService.StartGame`).
- **Socket `joinRoom`.**
  - It does not check the room's game state (`MultiplayerSocket.JoinIgnoresGameState`) or its size (`MultiplayerSocket.JoinAcceptsAnySize`).
  - It looks the room up under the upper-cased code, but subscribes the socket to the code as typed. A lower-case code therefore joins the room without its broadcast channel. The channel is not modelled.
- **Socket `createRoom`.** It does not retry a code that is taken, and it overwrites that room (`MultiplayerSocket.RoomHub.CreateRoom`).
- **Socket cleanup.** Under the gateway's own invariant every stored room has a player, so the hourly 24-hour sweep can never delete a room (`MultiplayerSocket.SweepFindsNothing`).
- **Battle store.** `updateRoom` after `leaveRoom` shows a room while `isInRoom` is false (`MultiplayerStore.Consistency`).

## Model

| member | source | states |
|---|---|---|
| Text.SplitWs | frontend/lib/multiplayer/roastJudge.ts:31 | `split(/\s+/)` always yields at least one piece, so every word count is at least 1 |
| Text.Occurrences | frontend/lib/mood/moodEngine.ts:94-102 | the count of `!` or `?` is at most the text's length and is 0 exactly when the character is absent |
| Text.CountContained | frontend/lib/multiplayer/roastJudge.ts:51-56 | the number of keywords found in the text is at most the number of keywords |
| Text.CountPresent | frontend/lib/multiplayer/roastJudge.ts:51-56 | the `includes` counting loop returns exactly the number of listed keys contained in the text |
| Text.PickIndex | frontend/lib/roast/roastGenerator.ts:112-114 | `Math.floor(Math.random() * n)` is an index below n for every random value in [0, 1) |
| Text.LastN | backend/src/services/personality/personalityAnalyzer.ts:112 | `slice(-n)` keeps min(length, n) entries, and they are the last ones |
| Text.TrimEmptyIffBlank | frontend/lib/mood/moodEngine.ts:171 | `text.trim().length === 0` holds exactly when every character is whitespace |
| Text.LowerHidesUpper | backend/src/services/roast/datasetTrainer.ts:88-95 | a lower-cased text contains no search string that has an upper-case letter |
| Text.ContainsInfix | frontend/lib/roast/roastGenerator.ts:218 | a string built around a name contains the name |
| Text.DropWs | frontend/lib/mood/moodEngine.ts:56 | the leading whitespace that `trim` removes is exactly a whitespace prefix, and what is left does not start with whitespace |
| Text.DropWsEnd | frontend/lib/mood/moodEngine.ts:56 | the trailing whitespace that `trim` removes is exactly a whitespace suffix, and what is left does not end with whitespace |
| Text.SplitOn | frontend/lib/roast/roastGenerator.ts:184 | `split(' ')` always yields at least one piece |
| Text.DropWsEmptyIffBlank | frontend/lib/mood/moodEngine.ts:171 | removing the leading whitespace leaves nothing exactly when the text is blank |
| Text.DropWsEndEmptyIffBlank | frontend/lib/mood/moodEngine.ts:171 | removing the trailing whitespace leaves nothing exactly when the text is blank |
| Ranking.Insert | backend/src/services/multiplayer/multiplayerService.ts:212 | one insertion step of the sort keeps the elements: the result is the old sequence plus the new element, as a multiset |
| Ranking.SortDesc | backend/src/services/multiplayer/multiplayerService.ts:212 | the `b.score - a.score` sort returns a permutation of its input |
| Ranking.FirstMaxIndex | backend/src/services/personality/personalityAnalyzer.ts:98 | the first position holding the greatest key: no key is greater, and every earlier key is smaller |
| Ranking.InsertIsStable | backend/src/services/multiplayer/multiplayerService.ts:212 | inserting into a descending sequence keeps it descending, and keeps the order of equal keys with the new element after them |
| Ranking.SortDescIsStableSort | backend/src/services/multiplayer/multiplayerService.ts:212 | the sort is descending by key, a permutation, and stable: elements with equal keys keep their original order |
| Ranking.SortHeadKey | backend/src/services/personality/personalityAnalyzer.ts:95-96 | the first element after sorting carries the greatest key |
| Ranking.SortHead | backend/src/services/personality/personalityAnalyzer.ts:95-96 | the first element after sorting is the earliest element with the greatest key |
| RoomCodes.CodeOf | backend/src/services/multiplayer/multiplayerService.ts:9-14 | a code built from valid picks has six characters, all from the alphabet |
| RoomCodes.BuildCode | backend/src/sockets/multiplayerSocket.ts:22-29 | the character-appending loop builds exactly the code of its picks |
| RoomCodes.AlphabetSizes | backend/src/sockets/multiplayerSocket.ts:23 | the service draws from 36 characters and the socket gateway from 32 |
| RoomCodes.SocketAlphabetAvoidsLookAlikes | backend/src/sockets/multiplayerSocket.ts:23 | the socket gateway's codes never contain I, O, 0 or 1 |
| RoastJudge.LengthPoints | frontend/lib/multiplayer/roastJudge.ts:34-48 | length points lie in 5..20; 20 exactly for 21 to 30 words; 5 exactly below 5 words |
| RoastJudge.CountCaps | frontend/lib/multiplayer/roastJudge.ts:87-89 | no more capitalised words than words |
| RoastJudge.CapsPoints | frontend/lib/multiplayer/roastJudge.ts:90-92 | capitalisation earns 0 to 5 points |
| RoastJudge.Clamp | frontend/lib/multiplayer/roastJudge.ts:105 | the clamp returns a score in 0..100: unchanged when already in range, 100 above it, 0 below it |
| RoastJudge.BaseScoreBounds | frontend/lib/multiplayer/roastJudge.ts:34-97 | before the bonus, every message scores between 5 and 110 |
| RoastJudge.JudgeBounds | frontend/lib/multiplayer/roastJudge.ts:99-107 | a judged score lies in 5..100, and it is the base score plus the bonus whenever that sum does not exceed 100 |
| RoastJudge.JudgeMonotoneInJitter | frontend/lib/multiplayer/roastJudge.ts:101-105 | a larger random bonus never lowers the score, and raises it by no more than the difference |
| RoastJudge.JudgeRoast | frontend/lib/multiplayer/roastJudge.ts:28-108 | `judgeRoast`'s counting loops compute the judged score, and it lies in 5..100 |
| RoastJudge.PunctuationPoints | frontend/lib/multiplayer/roastJudge.ts:78-84 | two points for each punctuation pattern the message contains |
| RoastJudge.CountCapsWords | frontend/lib/multiplayer/roastJudge.ts:87-89 | the number of pieces written in capitals and longer than two characters |
| RoastJudge.FeedbackBand | frontend/lib/multiplayer/roastJudge.ts:110-124 | every score falls in one of the six feedback bands |
| RoastJudge.RoastFeedback | frontend/lib/multiplayer/roastJudge.ts:110-124 | `getRoastFeedback` answers one of its six lines for every score |
| RoastJudge.FeedbackMonotone | frontend/lib/multiplayer/roastJudge.ts:110-124 | a higher score never gets a lower band, and different bands have different lines |
| RoastGenerator.RoastScore | frontend/lib/roast/roastGenerator.ts:252-271 | a battle roast scores between 50 and 100 |
| RoastGenerator.ScoreRoast | frontend/lib/roast/roastGenerator.ts:252-271 | `scoreRoast`'s loop computes that score: 50, plus 10 per impact word present, 5 for more than 15 words and 5 for a question mark, capped at 100 |
| RoastGenerator.AddressedLines | frontend/lib/roast/roastGenerator.ts:122-182 | each name-addressing context category has at least six lines |
| RoastGenerator.ContextRoasts | frontend/lib/roast/roastGenerator.ts:122-194 | every context category has at least six lines to pick from |
| RoastGenerator.SelectRandom | frontend/lib/roast/roastGenerator.ts:112-114 | `selectRandomRoast` answers an element of its list |
| RoastGenerator.ContextRoastAddressesUser | frontend/lib/roast/roastGenerator.ts:116-182 | every context roast except the verbose ones contains the user's name, or "buddy" when none is given |
| RoastGenerator.ContextNullIff | frontend/lib/roast/roastGenerator.ts:116-197 | the classifier returns null exactly for an empty text, or a text of five or more characters with no greeting, "roast", "?" or laughter and at most 30 space-separated pieces |
| RoastGenerator.RoastMeMentionsRoast | frontend/lib/roast/roastGenerator.ts:148 | the "roast me" test is subsumed by the "roast" test after it |
| RoastGenerator.IntensityTemplates | frontend/lib/roast/roastGenerator.ts:10-71 | each intensity has at least 16 template roasts |
| RoastGenerator.MoodRoasts | frontend/lib/roast/roastGenerator.ts:73-110 | each mood has at least five mood roasts |
| Replacement.Substitution | frontend/lib/roast/roastGenerator.ts:218 | the replacement text as `String.prototype.replace` expands it; a replacement without `$` is inserted unchanged |
| Replacement.SubstitutionBeforeDot | frontend/lib/roast/roastGenerator.ts:218 | a trailing full stop passes through the expansion unchanged, whatever comes before it |
| Replacement.NameAfterStem | frontend/lib/roast/roastGenerator.ts:218 | the replacement `, <name>.` puts the expanded name between ", " and the full stop; a name without `$` is kept as typed, so the result contains it |
| RoastGenerator.Personalize | frontend/lib/roast/roastGenerator.ts:217-218 | `replace(/\.$/, ...)` leaves a text without a final full stop alone; otherwise it keeps everything before the stop and appends ", ", the name with its `$` patterns expanded, and "."; a name without `$` is inserted as typed and is then contained in the result |
| RoastGenerator.DollarNameIsExpanded | frontend/lib/roast/roastGenerator.ts:218 | the name `a$&b` is not inserted as typed: "You fail." becomes "You fail, a.b." |
| RoastGenerator.GenerateRoast | frontend/lib/roast/roastGenerator.ts:199-250 | the roast keeps the intensity asked for. On the trained path its category is "trained-model" and its text is the model's roast, personalised unless it already names the user. Otherwise its category is the mood or "general", and its text is the context roast when there is one, else a mood roast (coin > 0.5) or an intensity template |
| RoastGenerator.TrainedRoastNamesUser | frontend/lib/roast/roastGenerator.ts:215-221 | on the trained path, a model roast ending in a full stop comes back naming the user whenever the name holds no `$` |
| DatasetTrainer.QuoteFreePrefix | backend/src/services/roast/datasetTrainer.ts:42 | `[^"]*` takes the longest prefix without a quote, and stops only at a quote |
| DatasetTrainer.TakeOpt | backend/src/services/roast/datasetTrainer.ts:42 | an optional character that is present is taken when the rest then matches |
| DatasetTrainer.SkipOpt | backend/src/services/roast/datasetTrainer.ts:42 | an optional character that is absent is skipped |
| DatasetTrainer.TakeField | backend/src/services/roast/datasetTrainer.ts:42 | a greedy group takes everything up to the next quote when the rest then matches |
| DatasetTrainer.RestMatchesEmpty | backend/src/services/roast/datasetTrainer.ts:42 | the expression's tail matches the empty rest, with an empty second group |
| DatasetTrainer.UnquotedLineAsWritten | backend/src/services/roast/datasetTrainer.ts:42-46 | a line without quotes is captured whole as the input, with an empty response |
| DatasetTrainer.QuotedLineAsWritten | backend/src/services/roast/datasetTrainer.ts:42-46 | the quoted form `"a","b"` gives input a and response b, commas inside a included |
| DatasetTrainer.SplitAtComma | backend/src/services/roast/datasetTrainer.ts:42-46 | a text without a comma splits into itself and the empty string |
| DatasetTrainer.SplitAfterPrefix | backend/src/services/roast/datasetTrainer.ts:42-46 | a line `a,b` with no comma in a splits into a and b |
| DatasetTrainer.FieldsRoundTrip | backend/src/services/roast/datasetTrainer.ts:42-46 | corrected split: both `a,b` (no comma in a) and `"a","b"` give back exactly a and b |
| DatasetTrainer.UnquotedLineIsSkippedAsWritten | backend/src/services/roast/datasetTrainer.ts:42-46 | as written, `a,b` yields input "a,b" and an empty response, so the line is skipped; the corrected split gives (a, b) |
| DatasetTrainer.FoundIn | backend/src/services/roast/datasetTrainer.ts:91-95 | the fixed keywords found are exactly those the lower-cased text contains, with no duplicates |
| DatasetTrainer.WordPieces | backend/src/services/roast/datasetTrainer.ts:98 | splitting at non-word characters yields at least one piece |
| DatasetTrainer.LetterWords | backend/src/services/roast/datasetTrainer.ts:98 | every kept word is five or more lower-case letters |
| DatasetTrainer.FixedKeywordsDistinct | backend/src/services/roast/datasetTrainer.ts:23-28 | the fixed keyword list has no duplicates |
| DatasetTrainer.AddWordsShape | backend/src/services/roast/datasetTrainer.ts:99-103 | adding words keeps the found keywords as a prefix, adds only given words, never duplicates one, and stops at ten |
| DatasetTrainer.KeywordsShape | backend/src/services/roast/datasetTrainer.ts:87-106 | keywords: the fixed keywords found come first, then letter words; no duplicates; at most max(fixed, 10); never "IQ" or "AI", because the text is lower-cased |
| DatasetTrainer.ExtractKeywords | backend/src/services/roast/datasetTrainer.ts:87-106 | the two loops of `extractKeywords` compute exactly those keywords |
| DatasetTrainer.FindKeywords | backend/src/services/roast/datasetTrainer.ts:91-95 | the first loop of `extractKeywords` collects, in list order, exactly the listed keywords the lowered text contains |
| DatasetTrainer.VoteRule | backend/src/services/roast/datasetTrainer.ts:126-128 | brutal wins only with a strictly highest count; sarcastic wins when brutal does not and it beats funny; the winner always has a highest count; funny with a highest count wins |
| DatasetTrainer.DetermineIntensity | backend/src/services/roast/datasetTrainer.ts:111-129 | `determineIntensity`'s counting loops give the vote of the three counts |
| DatasetTrainer.IndexedSpec | backend/src/services/roast/datasetTrainer.ts:61-66 | each of the pattern's keywords lists the pattern last, other keywords are untouched, and nothing else is added |
| DatasetTrainer.AppendedKeepsState | backend/src/services/roast/datasetTrainer.ts:58-71 | learning a pattern keeps the tables consistent (distinct templates, every index entry a stored pattern) and indexes it under each keyword |
| DatasetTrainer.AddLineKeepsState | backend/src/services/roast/datasetTrainer.ts:38-72 | under the expression as written, a blank, unmatched or half-empty line changes nothing; any other line appends one pattern with trimmed fields and keeps the tables consistent (its keyword indexing is `AppendedKeepsState`'s) |
| DatasetTrainer.UsableFields | backend/src/services/roast/datasetTrainer.ts:39-47 | a line contributes exactly when it is not blank, it splits, and both fields are non-empty; it then contributes the split fields |
| DatasetTrainer.LoadKeepsState | backend/src/services/roast/datasetTrainer.ts:38-72 | loading lines, split by the expression as written, keeps the tables consistent and only appends patterns |
| DatasetTrainer.CorrectedLoadKeepsState | backend/src/services/roast/datasetTrainer.ts:38-72 | corrected loader: loading with the intended split keeps the tables consistent and only appends patterns |
| DatasetTrainer.LoadersOnUnquotedLine | backend/src/services/roast/datasetTrainer.ts:42-46 | on an unquoted line `a,b` the loader as written learns nothing, while the corrected loader takes the fields (a, b) |
| DatasetTrainer.LoadersAgreeOnQuotedLine | backend/src/services/roast/datasetTrainer.ts:42-46 | on a line with a quote the two loaders split alike |
| DatasetTrainer.OfIntensity | backend/src/services/roast/datasetTrainer.ts:191 | the filter keeps exactly the patterns of that intensity |
| DatasetTrainer.RandomRoastSpec | backend/src/services/roast/datasetTrainer.ts:187-199 | a random roast exists exactly when there are patterns; it is the response of a pattern of the requested intensity whenever one exists |
| DatasetTrainer.SharedCount | backend/src/services/roast/datasetTrainer.ts:148-152 | at most one match per keyword |
| DatasetTrainer.CommonWords | backend/src/services/roast/datasetTrainer.ts:160-165 | at most one common word per piece of the input |
| DatasetTrainer.ScoredPatterns | backend/src/services/roast/datasetTrainer.ts:143-170 | the scored list holds only table patterns, each with its positive score |
| DatasetTrainer.BestRoastIsTopFive | backend/src/services/roast/datasetTrainer.ts:134-181 | when a pattern scores, the answer is the response of a positively scored pattern that no pattern outside the top five beats |
| DatasetTrainer.TopFiveFor | backend/src/services/roast/datasetTrainer.ts:143-181 | for any non-empty keyword list with a scoring pattern, the pick is the response of a positively scored pattern among the five best, which no later-ranked pattern beats |
| DatasetTrainer.ScoreAll | backend/src/services/roast/datasetTrainer.ts:145-170 | the scoring loop keeps, in table order, exactly the patterns with a positive score, each with its score |
| DatasetTrainer.SortedScores | backend/src/services/roast/datasetTrainer.ts:177 | the scored patterns are sorted by descending score and keep the same entries |
| DatasetTrainer.ScorePattern | backend/src/services/roast/datasetTrainer.ts:145-166 | the scoring loops give 2 per shared keyword, 3 for the same intensity, and 1 per common word longer than three characters |
| DatasetTrainer.CountsSplitTable | backend/src/services/roast/datasetTrainer.ts:217-221 | the three intensity counts add up to the number of patterns |
| DatasetTrainer.StatsOf | backend/src/services/roast/datasetTrainer.ts:216-228 | the statistics count every pattern once, in exactly one intensity |
| DatasetTrainer.RoastDatasetTrainer.constructor | backend/src/services/roast/datasetTrainer.ts:18-20 | a new trainer has empty tables, which are consistent |
| DatasetTrainer.RoastDatasetTrainer.AddLine | backend/src/services/roast/datasetTrainer.ts:38-72 | the loop body for one line, splitting with the expression as written, updates the tables as `AddLineTo` says and keeps them consistent |
| DatasetTrainer.RoastDatasetTrainer.Learn | backend/src/services/roast/datasetTrainer.ts:50-71 | a learned pattern is appended, listed under each of its keywords, and its response added to the templates unless already there, exactly as `Appended` says |
| DatasetTrainer.RoastDatasetTrainer.IndexPattern | backend/src/services/roast/datasetTrainer.ts:61-66 | the index loop appends the pattern under each keyword, creating missing lists; patterns and templates are unchanged |
| DatasetTrainer.RoastDatasetTrainer.LoadDataset | backend/src/services/roast/datasetTrainer.ts:33-72 | every line after the header goes through the loop body in order, so unquoted `a,b` lines are skipped as in the source, and the tables stay consistent |
| DatasetTrainer.RoastDatasetTrainer.FindBestRoast | backend/src/services/roast/datasetTrainer.ts:134-181 | `findBestRoast`'s loops return the lookup `BestRoast` describes: a random roast without keywords or scores, otherwise a top-five pick |
| DatasetTrainer.RoastDatasetTrainer.GetStats | backend/src/services/roast/datasetTrainer.ts:216-228 | the statistics count all patterns, split over the three intensities |
| MoodEngine.CalculateKeywordScore | frontend/lib/mood/moodEngine.ts:59-72 | the loop returns the total number of `\bkeyword\b` matches in the lower-cased, trimmed text |
| MoodEngine.GetSentimentWeight | frontend/lib/mood/moodEngine.ts:74-92 | the two loops return the match totals of the positive and of the negative words |
| MoodEngine.MeasureSignals | frontend/lib/mood/moodEngine.ts:104-113 | the keyword, sentiment, punctuation and word counts of the text |
| MoodEngine.ApplyBonuses | frontend/lib/mood/moodEngine.ts:115-149 | the sequential bonuses combine to the closed formula `Combine` |
| MoodEngine.CalculateMoodScores | frontend/lib/mood/moodEngine.ts:104-150 | `calculateMoodScores(text)` is the closed formula applied to the text's counts |
| MoodEngine.CombineBounds | frontend/lib/mood/moodEngine.ts:115-147 | no score is negative; neutral is 1 or 2, and 2 exactly for fewer than five words and no `!` |
| MoodEngine.WordAndQuestionEffects | frontend/lib/mood/moodEngine.ts:123-139 | one more positive word adds exactly 1.5 to confident and 0.8 to funny; one more negative word adds 2 to sad; one more `?` adds 1.2 to reflective; nothing else moves |
| MoodEngine.SingleExclamationIgnored | frontend/lib/mood/moodEngine.ts:132-135 | a single `!` earns no excitement bonus |
| MoodEngine.ResolveIsEarliestTop | frontend/lib/mood/moodEngine.ts:152-168 | the resolved mood is the earliest mood (funny, sad, confident, reflective, neutral) with the top score, or neutral when that score is below 2 |
| MoodEngine.ResolveWinner | frontend/lib/mood/moodEngine.ts:152-168 | for each non-neutral mood: it wins exactly when its score is at least 2, above every earlier mood's and no lower than every later mood's |
| MoodEngine.ConfidenceIsShare | frontend/lib/mood/moodEngine.ts:182-184 | the confidence lies in [0, 1], and is exactly top / total when the total is at least 1 |
| MoodEngine.ShareOfTotal | frontend/lib/mood/moodEngine.ts:182-183 | with non-negative scores, each mood's score lies between 0 and the total |
| MoodEngine.AssessSpec | frontend/lib/mood/moodEngine.ts:179-190 | for any counts, the scores are non-negative with neutral 1 or 2, and the confidence is the chosen mood's share of the total, in [0, 1] |
| MoodEngine.MoodOfSpec | frontend/lib/mood/moodEngine.ts:170-191 | a blank text is neutral with scores (0,0,0,0,1) and confidence 1; any other text gets its computed scores and the chosen mood's share of the total as confidence |
| MoodEngine.DetectMood | frontend/lib/mood/moodEngine.ts:170-191 | `detectMood` returns exactly the result `MoodOf` describes |
| MoodEngine.MoodDescriptionsDistinct | frontend/lib/mood/moodEngine.ts:193-203 | every mood has a non-empty description, and no two moods share one |
| PersonalityAnalyzer.TraitScore | backend/src/services/personality/personalityAnalyzer.ts:28-39 | a trait score is a multiple of 10 in 0..100; it is 100 exactly for ten or more matches and 0 exactly for none |
| PersonalityAnalyzer.CalculateTraitScore | backend/src/services/personality/personalityAnalyzer.ts:28-39 | the match-counting loop returns that trait score |
| PersonalityAnalyzer.Traits | backend/src/services/personality/personalityAnalyzer.ts:45-81 | the profile always has seven traits |
| PersonalityAnalyzer.TraitsSpec | backend/src/services/personality/personalityAnalyzer.ts:45-81 | the seven traits come in declaration order, each with its name, description and keyword score |
| PersonalityAnalyzer.Bump | backend/src/services/personality/personalityAnalyzer.ts:92 | counting a mood raises its count by one and leaves the other counts alone |
| PersonalityAnalyzer.CountMoods | backend/src/services/personality/personalityAnalyzer.ts:83-93 | the counting loop gives each mood's number of occurrences in the history |
| PersonalityAnalyzer.TallyCounts | backend/src/services/personality/personalityAnalyzer.ts:83-93 | each tallied count equals the mood's multiplicity in the history |
| PersonalityAnalyzer.DominantIsTop | backend/src/services/personality/personalityAnalyzer.ts:95-96 | the dominant mood has the greatest count, and every earlier mood has a strictly smaller one |
| PersonalityAnalyzer.DominantIsMostFrequent | backend/src/services/personality/personalityAnalyzer.ts:83-96 | the dominant mood is a most frequent mood of the history; ties go to the earliest in funny, sad, confident, reflective, neutral; an empty history gives funny |
| PersonalityAnalyzer.Names | backend/src/services/personality/personalityAnalyzer.ts:99-100 | the names of the traits, in order |
| PersonalityAnalyzer.ProfileRanking | backend/src/services/personality/personalityAnalyzer.ts:98-100 | the traits are kept as computed; the ranking is a descending reordering of the same seven; strengths are the first three names and weaknesses the last two; every strength scores at least every weakness |
| PersonalityAnalyzer.ProfileSummary | backend/src/services/personality/personalityAnalyzer.ts:102-114 | the first strength is the earliest top-scoring trait; the summary names it exactly when its score exceeds 70 and is the balanced summary otherwise; the last ten moods are kept; the dominant mood is the tally's |
| PersonalityAnalyzer.AnalyzePersonality | backend/src/services/personality/personalityAnalyzer.ts:41-115 | `analyzePersonality`'s seven trait scores, tally and ranking give exactly the profile `ProfileOf` describes |
| AdviceGenerator.EveryTemplateHasFourTips | backend/src/services/advice/adviceGenerator.ts:9-198 | every category and mood has a template with exactly four tips |
| AdviceGenerator.ParseCategory | backend/src/services/advice/adviceGenerator.ts:203 | a category key is recognised exactly when some category has that name |
| AdviceGenerator.ParseMood | backend/src/services/advice/adviceGenerator.ts:203 | a mood key is recognised exactly when some mood has that name |
| AdviceGenerator.GenerateAdviceSpec | backend/src/services/advice/adviceGenerator.ts:200-211 | the lookup fails exactly for an unknown category. Otherwise it echoes category and mood, with four tips from the template for that mood, or from the neutral one for an unknown mood |
| TamboEngine.MoodUIDistinct | frontend/lib/tambo/tamboEngine.ts:13-78 | the five moods show five different components, each animating for more than 0 and at most 0.6 seconds |
| TamboEngine.SwitchRules | frontend/lib/tambo/tamboEngine.ts:89-119 | a switch changes the mood exactly when `shouldTransition` says so; while locked every switch is ignored; a second switch before the timer is a no-op; after the timer the next switch goes through |
| TamboEngine.TamboEngine.constructor | frontend/lib/tambo/tamboEngine.ts:81-83 | a new engine shows neutral, with neutral before it, unlocked |
| TamboEngine.TamboEngine.SwitchUI | frontend/lib/tambo/tamboEngine.ts:89-103 | while locked, nothing changes and no timer is set; otherwise the old mood becomes previous, the new one current, the lock is taken, and the timer is the new mood's animation time |
| TamboEngine.TamboEngine.EndTransition | frontend/lib/tambo/tamboEngine.ts:98-100 | the timer releases the lock and changes nothing else |
| TamboEngine.TamboEngine.ShouldTransitionTo | frontend/lib/tambo/tamboEngine.ts:117-119 | true exactly for a different mood while unlocked |
| TamboEngine.TamboEngine.Reset | frontend/lib/tambo/tamboEngine.ts:129-133 | back to the initial state |
| AppStore.WithMoodWindow | frontend/store/appStore.ts:38-41 | the new mood is last; at most 20 are kept; below the limit nothing is dropped; at the limit only the oldest is dropped |
| AppStore.AppStore.constructor | frontend/store/appStore.ts:24-30 | the initial state: no user, neutral mood, empty history and messages, no score, disconnected |
| AppStore.AppStore.SetUserId | frontend/store/appStore.ts:32 | sets the user id; every other field is unchanged |
| AppStore.AppStore.SetUsername | frontend/store/appStore.ts:34 | sets the user name; every other field is unchanged |
| AppStore.AppStore.SetCurrentMood | frontend/store/appStore.ts:36 | sets the current mood; every other field is unchanged |
| AppStore.AppStore.AddMoodToHistory | frontend/store/appStore.ts:38-41 | appends the mood to the 20-mood window and keeps it at most 20 long; every other field is unchanged |
| AppStore.AppStore.AddMessage | frontend/store/appStore.ts:43-46 | appends the message; every other field is unchanged |
| AppStore.AppStore.SetPersonalityScore | frontend/store/appStore.ts:48 | stores the score; every other field is unchanged |
| AppStore.AppStore.SetConnected | frontend/store/appStore.ts:50 | sets the connection flag; every other field is unchanged |
| AppStore.AppStore.Reset | frontend/store/appStore.ts:52-58 | clears mood, history, messages and score, but keeps user id, name and connection |
| MultiplayerStore.Consistency | frontend/store/multiplayerStore.ts:21-38 | `setCurrentRoom` and `leaveRoom` keep `isInRoom` agreeing with the room, and `updateRoom` keeps it while a room is shown; `updateRoom` on an empty store breaks the agreement |
| MultiplayerStore.MultiplayerStore.constructor | frontend/store/multiplayerStore.ts:17-19 | no room, no leaderboard, not in a room |
| MultiplayerStore.MultiplayerStore.SetCurrentRoom | frontend/store/multiplayerStore.ts:21-25 | sets the room and sets the flag to whether there is one |
| MultiplayerStore.MultiplayerStore.UpdateRoom | frontend/store/multiplayerStore.ts:27 | replaces the room and keeps the flag |
| MultiplayerStore.MultiplayerStore.SetLeaderboard | frontend/store/multiplayerStore.ts:29 | replaces the leaderboard only |
| MultiplayerStore.MultiplayerStore.SetInRoom | frontend/store/multiplayerStore.ts:31 | sets the flag only |
| MultiplayerStore.MultiplayerStore.LeaveRoom | frontend/store/multiplayerStore.ts:33-38 | back to the empty state |
| MultiplayerService.FindPlayer | backend/src/services/multiplayer/multiplayerService.ts:64 | `find` returns the first player with that user id, and nothing exactly when there is none |
| MultiplayerService.WithoutUser | backend/src/services/multiplayer/multiplayerService.ts:95 | the filter drops exactly the user's players, keeps every other user and keeps user ids distinct |
| MultiplayerService.Joined | backend/src/services/multiplayer/multiplayerService.ts:69-75 | the room with a fresh player appended and nothing else changed |
| MultiplayerService.WithReadyChangesOnlyThatPlayer | backend/src/services/multiplayer/multiplayerService.ts:118-122 | in a room of distinct users, marking ready changes that user's flag and nothing else |
| MultiplayerService.ReplacePlayerKeepsMembers | backend/src/services/multiplayer/multiplayerService.ts:118-122 | updating a player in place keeps the set of user ids and their distinctness |
| MultiplayerService.AdvanceRound | backend/src/services/multiplayer/multiplayerService.ts:196-200 | the round goes up by one, and the game finishes exactly when it passes the last round |
| MultiplayerService.RoundsRunOut | backend/src/services/multiplayer/multiplayerService.ts:189-203 | from round r the game stays active for maxRounds - r more calls, and the next call finishes it |
| MultiplayerService.FiveRoundsFinish | backend/src/services/multiplayer/multiplayerService.ts:39 | a freshly started five-round game is active after four `nextRound` calls and finished after five |
| MultiplayerService.Leaderboard | backend/src/services/multiplayer/multiplayerService.ts:212-219 | one entry per player, ranked 1, 2, 3, ... |
| MultiplayerService.LeaderboardIsSorted | backend/src/services/multiplayer/multiplayerService.ts:212 | entries come by descending score |
| MultiplayerService.LeaderboardIsStableRanking | backend/src/services/multiplayer/multiplayerService.ts:212-219 | every player appears exactly once, and equal scores keep their joining order |
| MultiplayerService.RoomOf | backend/src/services/multiplayer/multiplayerService.ts:226-229 | a found room exists and is the one the user's index entry names |
| MultiplayerService.CreateKeepsIndex | backend/src/services/multiplayer/multiplayerService.ts:43-44 | storing a room under a fresh code and indexing its creator keeps every index entry pointing at a room that lists its user |
| MultiplayerService.JoinKeepsIndex | backend/src/services/multiplayer/multiplayerService.ts:69-77 | joining keeps that index invariant |
| MultiplayerService.LeaveKeepsIndex | backend/src/services/multiplayer/multiplayerService.ts:95-100 | leaving, with the deletion of an emptied room, keeps the invariant for every other user |
| MultiplayerService.CleanupAsWrittenForgetsLiveMember | backend/src/services/multiplayer/multiplayerService.ts:239-246 | as written: when an expired room is swept, a user who has moved on to a live room loses their index entry |
| MultiplayerService.CleanupKeepsIndex | backend/src/services/multiplayer/multiplayerService.ts:239-246 | corrected sweep: the invariant is kept, and a user keeps their entry exactly when the room it names survives |
| MultiplayerService.CleanupAsWrittenKeepsIndex | backend/src/services/multiplayer/multiplayerService.ts:239-246 | the sweep as written still leaves a consistent index; it keeps an entry exactly when no expired room lists the user, and never keeps one the corrected sweep drops |
| MultiplayerService.FirstFreshDraw | backend/src/services/multiplayer/multiplayerService.ts:16-18 | the retry stops at the first draw whose code is free |
| MultiplayerService.MultiplayerService.constructor | backend/src/services/multiplayer/multiplayerService.ts:6-7 | no rooms, no index |
| MultiplayerService.MultiplayerService.GenerateRoomCode | backend/src/services/multiplayer/multiplayerService.ts:9-21 | the code of the first draw that is not a stored room: six characters from the alphabet |
| MultiplayerService.MultiplayerService.CreateRoom | backend/src/services/multiplayer/multiplayerService.ts:23-47 | a waiting 5-round room under a fresh code, with the creator as its only player, stored and indexed |
| MultiplayerService.MultiplayerService.JoinRoom | backend/src/services/multiplayer/multiplayerService.ts:49-80 | null exactly when the room is missing, not waiting or full; a member gets the room unchanged; anyone else is appended and indexed |
| MultiplayerService.MultiplayerService.LeaveRoom | backend/src/services/multiplayer/multiplayerService.ts:82-103 | true exactly when the user's index names a stored room; then the user is removed, unindexed, and an emptied room deleted |
| MultiplayerService.MultiplayerService.SetPlayerReady | backend/src/services/multiplayer/multiplayerService.ts:105-125 | null exactly without an indexed room; otherwise that room comes back with the user's flag set |
| MultiplayerService.MultiplayerService.StartGame | backend/src/services/multiplayer/multiplayerService.ts:127-152 | succeeds exactly when the room has two or more players, all ready; it becomes active at round 1 |
| MultiplayerService.MultiplayerService.SubmitRoast | backend/src/services/multiplayer/multiplayerService.ts:154-187 | a submission exactly for a listed player of an active indexed room. Its score is `scoreRoast`'s (50..100); the player's score rises by it and the roast is recorded |
| MultiplayerService.MultiplayerService.NextRound | backend/src/services/multiplayer/multiplayerService.ts:189-203 | null exactly unless the room is active; otherwise the round advances |
| MultiplayerService.MultiplayerService.GetLeaderboard | backend/src/services/multiplayer/multiplayerService.ts:205-220 | empty for an unknown room; otherwise one ranked entry per player |
| MultiplayerService.MultiplayerService.GetRoom | backend/src/services/multiplayer/multiplayerService.ts:222-224 | the stored room, or null exactly for an unknown code |
| MultiplayerService.MultiplayerService.GetRoomByUserId | backend/src/services/multiplayer/multiplayerService.ts:226-229 | the room the user's index names, and it lists the user |
| MultiplayerService.MultiplayerService.AllRooms | backend/src/services/multiplayer/multiplayerService.ts:231-233 | exactly the stored rooms |
| MultiplayerService.MultiplayerService.CleanupExpiredRooms | backend/src/services/multiplayer/multiplayerService.ts:235-247 | as written: rooms older than two hours are deleted, every player they list loses their index entry wherever it points, and the invariant is kept |
| MultiplayerService.MultiplayerService.UnindexRoom | backend/src/services/multiplayer/multiplayerService.ts:241-243 | drops the index entry of every listed player, wherever it points; rooms are untouched |
| MultiplayerService.SweepOneRoom | backend/src/services/multiplayer/multiplayerService.ts:239-245 | one step of the sweep: an expired room is deleted and every player it lists unindexed; a live room leaves both maps alone |
| MultiplayerSocket.FindSocket | backend/src/sockets/multiplayerSocket.ts:146 | `players.get(socketId)`: the player with that socket id, or nothing exactly when none |
| MultiplayerSocket.WithoutSocket | backend/src/sockets/multiplayerSocket.ts:148 | `players.delete(socketId)` removes exactly that socket's player |
| MultiplayerSocket.ReplaceKeepsSockets | backend/src/sockets/multiplayerSocket.ts:193 | updating a player in place keeps the socket ids |
| MultiplayerSocket.FilterOut | backend/src/sockets/multiplayerSocket.ts:314-319 | deleting codes from the iteration order keeps exactly the others |
| MultiplayerSocket.FilterOutKeepsNoDup | backend/src/sockets/multiplayerSocket.ts:314-319 | the order stays duplicate-free |
| MultiplayerSocket.FilterOutTwice | backend/src/sockets/multiplayerSocket.ts:314-319 | two deletions are one deletion of both sets |
| MultiplayerSocket.FilterOutNothing | backend/src/sockets/multiplayerSocket.ts:314-319 | deleting nothing keeps the order |
| MultiplayerSocket.FirstRoomWith | backend/src/sockets/multiplayerSocket.ts:31-38 | the scan returns a stored room holding the socket, or none exactly when no room in the order holds it |
| MultiplayerSocket.FirstRoomIsTheRoom | backend/src/sockets/multiplayerSocket.ts:31-38 | under the gateway invariant, the scan finds the one room holding the socket |
| MultiplayerSocket.RemoveKeepsHub | backend/src/sockets/multiplayerSocket.ts:148-153 | removing a socket, deleting an emptied room, keeps the invariant |
| MultiplayerSocket.JoinIgnoresGameState | backend/src/sockets/multiplayerSocket.ts:88-113 | a join gets the same answer whatever the room's game state |
| MultiplayerSocket.JoinAcceptsAnySize | backend/src/sockets/multiplayerSocket.ts:88-113 | with a valid code, a socket in no room and a free name, a join is accepted however many players the room holds |
| MultiplayerSocket.SameSocketsSameLookup | backend/src/sockets/multiplayerSocket.ts:31-38 | the scan depends only on the players' socket ids |
| MultiplayerSocket.JoinKeepsHub | backend/src/sockets/multiplayerSocket.ts:123 | appending a socket in no room keeps the invariant |
| MultiplayerSocket.AppendSocket | backend/src/sockets/multiplayerSocket.ts:123 | an appended player adds exactly its socket id |
| MultiplayerSocket.CreateKeepsHub | backend/src/sockets/multiplayerSocket.ts:63-71 | storing a one-player room keeps the invariant, and the order, a new code being appended |
| MultiplayerSocket.UpdateKeepsHub | backend/src/sockets/multiplayerSocket.ts:193-202 | updating a player in place keeps the invariant |
| MultiplayerSocket.CreditKeepsHub | backend/src/sockets/multiplayerSocket.ts:193-202 | crediting a roast keeps the invariant |
| MultiplayerSocket.Standings | backend/src/sockets/multiplayerSocket.ts:263-269 | one standing per player, ranked 1, 2, 3, ... |
| MultiplayerSocket.StandingsAreRanked | backend/src/sockets/multiplayerSocket.ts:263-269 | standings come by descending score, a stable sort of the players |
| MultiplayerSocket.SweepFindsNothing | backend/src/sockets/multiplayerSocket.ts:310-320 | under the invariant no room is empty, so the sweep finds nothing to delete |
| MultiplayerSocket.SweepStep | backend/src/sockets/multiplayerSocket.ts:314-318 | one step of the sweep adds the code when its room is old and empty |
| MultiplayerSocket.RoomHub.constructor | backend/src/sockets/multiplayerSocket.ts:20 | no rooms |
| MultiplayerSocket.RoomHub.GetRoomBySocketId | backend/src/sockets/multiplayerSocket.ts:31-38 | the loop returns the first room in insertion order holding the socket |
| MultiplayerSocket.RoomHub.CreateRoom | backend/src/sockets/multiplayerSocket.ts:45-82 | rejected for a socket already in a room; otherwise a one-player waiting room is stored under the drawn code, replacing a room with that code |
| MultiplayerSocket.RoomHub.JoinRoom | backend/src/sockets/multiplayerSocket.ts:85-135 | rejected for a code not of length 6, an unknown room, a socket already in a room, or a taken name (case-insensitive), in that order; otherwise the player is appended under the upper-cased code |
| MultiplayerSocket.RoomHub.LeaveRoom | backend/src/sockets/multiplayerSocket.ts:138-169 | removes the socket from its room and deletes an emptied room; the socket is then in no room |
| MultiplayerSocket.RoomHub.Disconnect | backend/src/sockets/multiplayerSocket.ts:278-306 | the same removal as leaving |
| MultiplayerSocket.RoomHub.SendRoast | backend/src/sockets/multiplayerSocket.ts:172-228 | a blank roast, or a socket in no room, is rejected with no change; otherwise the judge's score is added to the player and the trimmed roast recorded |
| MultiplayerSocket.RoomHub.CreditPlayer | backend/src/sockets/multiplayerSocket.ts:192-202 | only the sender's room changes: its player gains the judged score and the roast is logged; the hub invariant is kept |
| MultiplayerSocket.RoomHub.SetReady | backend/src/sockets/multiplayerSocket.ts:231-252 | sets the player's ready flag when the socket is in a room, and changes nothing otherwise |
| MultiplayerSocket.RoomHub.GetLeaderboard | backend/src/sockets/multiplayerSocket.ts:255-275 | the standings of the socket's room, or nothing when it is in none |
| MultiplayerSocket.RoomHub.CleanupSweep | backend/src/sockets/multiplayerSocket.ts:310-320 | deletes exactly the rooms older than 24 hours with no players, keeping the order of the rest |

## Left out

- Socket.IO emits, channel subscriptions (`socket.join`, `socket.leave`) and console logging. Each handler returns the outcome it would emit instead.
- `setInterval` and `setTimeout`. The hourly sweep is the method `CleanupSweep`, called with the current time. The Tambo lock timer is `EndTransition`.
- `Date.now()` and `Math.random()`. They are parameters.
- Reading the dataset file, the `getTrainer` singleton with its fixed file path, and `getModel`. `LoadDataset` receives the file's content.
- A thrown model error in `generateRoast`. It is the `trained == None` case.
- Case mapping, `\s` and `\w` cover the characters JavaScript uses. Case mapping is ASCII-only; non-ASCII letters keep their case.
- Lengths count code points, not UTF-16 units. This differs only for text outside the Basic Multilingual Plane.
- MoodEngine.CalculateMoodScores: the source's fractional weights (0.8, 1.5, 1.2, 0.7, 0.5) are kept exactly by scaling every score by 10 to an integer. The floating-point rounding of `0.7 * n` and the like, which could break an exact tie in JavaScript, is not modelled.
- MoodEngine.ConfidenceIsShare: the confidence is an exact real. The float rounding of `(top / total) * 100 / 100` is not modelled.
- Rooms returned by the service are values. The source hands out the stored object, which a caller could mutate.
- The room records' `roasts` arrays are kept, but the submission's `targetId` is only echoed, as in the source.
- The name check in the socket's `joinRoom` lower-cases ASCII only.
- The `ready`-triggered automatic game start in socketHandler.ts is not part of this model. It is a caller of the service, not part of it.
- The object keys of `ADVICE_DATABASE` that JavaScript inherits (such as `"constructor"`) are not categories here. Such a key makes the source misbehave rather than fail cleanly.
- AdviceGenerator.GenerateAdviceSpec: an inherited key used as the mood (such as `"constructor"` or `"toString"`) is an unknown mood here and gets the neutral template. In the source `ADVICE_DATABASE[category]?.[mood]` finds the inherited value, and the response's advice and tips are undefined. Undefined fields have no counterpart in the model's records.
- RoastGenerator.TrainedRoastNamesUser: the user is named only when the name holds no `$`. `String.prototype.replace` expands `$$`, `$&`, `` $` `` and `$'` in the name (`Replacement.Substitution`, `RoastGenerator.DollarNameIsExpanded`), so the source's own result does not name such a user.
- MultiplayerService.MultiplayerService.AllRooms: returns the set of stored rooms. `getAllRooms` returns them as an array in insertion order, and the model's room map has no order.
- The prop values of the Tambo interface table are strings and flags. Only their shape is kept.
- zustand's subscription and re-rendering machinery. Each store is a class whose methods are the `set` calls.
- MultiplayerService.GenerateRoomCode: the source retries without bound. The model takes a finite stream of draws and requires that one of them is free.

## Findings

| source | as written | input that shows it | evidently intended | confidence | as-written member | corrected member |
|---|---|---|---|---|---|---|
| backend/src/services/multiplayer/multiplayerService.ts:239-246 | the sweep deletes the index entry of every player of an expired room, even when that entry now names another, live room | user u creates room AAAAAA at t=0, then room BBBBBB at t=7200000; a sweep at t=7200001 deletes AAAAAA and u's entry, although BBBBBB still lists u | drop an entry only when it names the expired room | not executed | MultiplayerService.CleanupAsWrittenForgetsLiveMember | MultiplayerService.CleanupKeepsIndex |
| backend/src/services/roast/datasetTrainer.ts:42-46 | in `/^"?([^"]*)"?,?"?([^"]*)"?$/` the first group also takes the comma of an unquoted line, so the response is empty and the line is skipped | the line `hello,world` gives input "hello,world" and response "", and is dropped | split an unquoted line at its first comma | not executed | DatasetTrainer.LoadersOnUnquotedLine | DatasetTrainer.FieldsRoundTrip |

The classes follow the source as written: `CleanupExpiredRooms` runs the
sweep as written and `LoadDataset` splits with the expression as written.
The corrected forms stand beside them and are proved: `CleanedIndex` and
`CleanupKeepsIndex` for the sweep, and `Fields`, `FieldsRoundTrip` and
`CorrectedLoadLines` for the split.
