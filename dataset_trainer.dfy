/**
 * The roast dataset trainer (backend/src/services/roast/datasetTrainer.ts):
 * a table of roast patterns learned from the lines of a CSV file, a keyword
 * index over them, the list of distinct responses, and the lookups that pick
 * a response for a user's message.
 *
 * Reading the file is left out: `LoadDataset` receives its content. The
 * random picks are coins in [0, 1).
 */
module DatasetTrainer {
  import opened Text
  import opened Ranking
  import opened Types

  datatype RoastPattern = RoastPattern(input: string, response: string, keywords: seq<string>, intensity: Intensity)

  predicate Distinct<T(==)>(s: seq<T>)
  {
    forall i, j :: 0 <= i < j < |s| ==> s[i] != s[j]
  }

  // ---------------------------------------------------------------------
  // Splitting a CSV line: `line.match(/^"?([^"]*)"?,?"?([^"]*)"?$/)`

  /** One element of that expression: an optional character `c?`, or the
   *  captured group `([^"]*)`. */
  datatype Tok = Opt(c: char) | Field

  const LinePattern: seq<Tok> := [Opt('"'), Field, Opt('"'), Opt(','), Opt('"'), Field, Opt('"')]

  /** The length of the longest prefix of `s` without a double quote. */
  function QuoteFreePrefix(s: string): (n: nat)
    ensures n <= |s|
    ensures forall i :: 0 <= i < n ==> s[i] != '"'
    ensures n < |s| ==> s[n] == '"'
  {
    if s == [] || s[0] == '"' then 0 else 1 + QuoteFreePrefix(s[1..])
  }

  /** The first match of `toks` followed by the end of the text, against all
   *  of `s`, in the order a backtracking matcher tries the alternatives:
   *  an optional character is first taken and then skipped, a group first
   *  takes as much as it can. Returns the groups captured so far
   *  (`caps`) followed by those captured in `s`. */
  function MatchFrom(toks: seq<Tok>, s: string, caps: seq<string>): Option<seq<string>>
    decreases |toks|, 0
  {
    if toks == [] then (if s == [] then Some(caps) else None)
    else match toks[0]
      case Opt(c) =>
        var taken := if |s| > 0 && s[0] == c then MatchFrom(toks[1..], s[1..], caps) else None;
        if taken.Some? then taken else MatchFrom(toks[1..], s, caps)
      case Field => FieldFrom(toks[1..], s, caps, QuoteFreePrefix(s))
  }

  /** A group that has taken the first `n` characters of `s`, giving back one
   *  at a time while the rest of the expression fails. */
  function FieldFrom(rest: seq<Tok>, s: string, caps: seq<string>, n: nat): Option<seq<string>>
    requires n <= |s|
    decreases |rest|, n + 1
  {
    var m := MatchFrom(rest, s[n..], caps + [s[..n]]);
    if m.Some? then m else if n == 0 then None else FieldFrom(rest, s, caps, n - 1)
  }

  /** The two captured groups of the expression, as the code reads them. */
  function FieldsAsWritten(line: string): Option<(string, string)>
  {
    match MatchFrom(LinePattern, line, [])
    case Some(caps) => if |caps| == 2 then Some((caps[0], caps[1])) else None
    case None => None
  }

  /** Taking an optional character that is there, when the rest then
   *  matches, is the first match. */
  lemma TakeOpt(toks: seq<Tok>, s: string, caps: seq<string>)
    requires |toks| > 0 && toks[0].Opt? && |s| > 0 && s[0] == toks[0].c
    requires MatchFrom(toks[1..], s[1..], caps).Some?
    ensures MatchFrom(toks, s, caps) == MatchFrom(toks[1..], s[1..], caps)
  {
  }

  /** Skipping an optional character that is not there. */
  lemma SkipOpt(toks: seq<Tok>, s: string, caps: seq<string>)
    requires |toks| > 0 && toks[0].Opt? && (|s| == 0 || s[0] != toks[0].c)
    ensures MatchFrom(toks, s, caps) == MatchFrom(toks[1..], s, caps)
  {
  }

  /** A group taking all it can, when the rest then matches, is the first
   *  match. */
  lemma TakeField(toks: seq<Tok>, s: string, caps: seq<string>, x: string, y: string)
    requires |toks| > 0 && toks[0].Field?
    requires s == x + y && '"' !in x && (y == [] || y[0] == '"')
    requires MatchFrom(toks[1..], y, caps + [x]).Some?
    ensures MatchFrom(toks, s, caps) == MatchFrom(toks[1..], y, caps + [x])
  {
    var n := QuoteFreePrefix(s);
    assert forall i :: 0 <= i < |x| ==> s[i] == x[i] && x[i] in x;
    assert |y| > 0 ==> s[|x|] == y[0];
    assert n == |x|;
    assert s[n..] == y && s[..n] == x;
  }

  /** The end of the expression, `"?,?"?([^"]*)"?$`, against the empty text
   *  matches with an empty second group. */
  lemma RestMatchesEmpty(caps: seq<string>)
    ensures MatchFrom(LinePattern[2..], "", caps) == Some(caps + [""])
  {
    var t4: seq<Tok> := [Opt('"')];
    var t3: seq<Tok> := [Field, Opt('"')];
    var t2: seq<Tok> := [Opt('"'), Field, Opt('"')];
    var t1: seq<Tok> := [Opt(','), Opt('"'), Field, Opt('"')];
    var t0: seq<Tok> := [Opt('"'), Opt(','), Opt('"'), Field, Opt('"')];
    assert LinePattern[2..] == t0;
    assert t0[1..] == t1 && t1[1..] == t2 && t2[1..] == t3 && t3[1..] == t4 && t4[1..] == [];
    assert MatchFrom([], "", caps + [""]) == Some(caps + [""]);
    SkipOpt(t4, "", caps + [""]);
    TakeField(t3, "", caps, "", "");
    SkipOpt(t2, "", caps);
    SkipOpt(t1, "", caps);
    SkipOpt(t0, "", caps);
  }

  /** A line without quotes is captured whole as the first group, so its
   *  second group is always empty. */
  lemma UnquotedLineAsWritten(line: string)
    requires '"' !in line
    ensures FieldsAsWritten(line) == Some((line, ""))
  {
    var t := LinePattern[1..];
    assert t[0] == Field && t[1..] == LinePattern[2..];
    RestMatchesEmpty([line]);
    assert [] + [line] == [line];
    assert line + "" == line;
    TakeField(t, line, [], line, "");
    if |line| > 0 {
      assert line[0] in line;
    }
    SkipOpt(LinePattern, line, []);
  }

  /** The quoted form `"a","b"` splits into `a` and `b`, commas inside `a`
   *  included. */
  lemma QuotedLineAsWritten(a: string, b: string)
    requires '"' !in a && '"' !in b
    ensures FieldsAsWritten("\"" + a + "\",\"" + b + "\"") == Some((a, b))
  {
    var q := "\"";
    var line := q + a + "\",\"" + b + q;
    var s1 := a + ("\",\"" + b + q);
    var s2 := "\",\"" + b + q;
    var s3 := ",\"" + b + q;
    var s4 := "\"" + b + q;
    var s5 := b + q;
    assert line[1..] == s1 && s2[1..] == s3 && s3[1..] == s4 && s4[1..] == s5 && q[1..] == "";
    var t1: seq<Tok> := [Field, Opt('"'), Opt(','), Opt('"'), Field, Opt('"')];
    var t2: seq<Tok> := [Opt('"'), Opt(','), Opt('"'), Field, Opt('"')];
    var t3: seq<Tok> := [Opt(','), Opt('"'), Field, Opt('"')];
    var t4: seq<Tok> := [Opt('"'), Field, Opt('"')];
    var t5: seq<Tok> := [Field, Opt('"')];
    var t6: seq<Tok> := [Opt('"')];
    assert LinePattern[1..] == t1 && t1[1..] == t2 && t2[1..] == t3 && t3[1..] == t4;
    assert t4[1..] == t5 && t5[1..] == t6 && t6[1..] == [];
    var caps := [a, b];
    assert MatchFrom([], "", caps) == Some(caps);
    TakeOpt(t6, q, caps);
    assert [a] + [b] == caps;
    TakeField(t5, s5, [a], b, q);
    TakeOpt(t4, s4, [a]);
    TakeOpt(t3, s3, [a]);
    TakeOpt(t2, s2, [a]);
    assert [] + [a] == [a];
    TakeField(t1, s1, [], a, s2);
    TakeOpt(LinePattern, line, []);
  }

  /** The text before and after the first comma, or all of it and "". */
  function SplitAtComma(s: string): (r: (string, string))
    ensures ',' !in s ==> r == (s, "")
  {
    if s == [] then ("", "")
    else if s[0] == ',' then ("", s[1..])
    else
      var rest := SplitAtComma(s[1..]);
      assert s == [s[0]] + s[1..];
      ([s[0]] + rest.0, rest.1)
  }

  /** The intended split of a line into input and response: a line with
   *  quotes as the expression splits it, a line without quotes at its first
   *  comma. */
  function Fields(line: string): Option<(string, string)>
  {
    if '"' in line then FieldsAsWritten(line) else Some(SplitAtComma(line))
  }

  /** Both forms of a CSV line give back their two fields. */
  lemma FieldsRoundTrip(a: string, b: string)
    requires '"' !in a && '"' !in b
    ensures ',' !in a ==> Fields(a + "," + b) == Some((a, b))
    ensures Fields("\"" + a + "\",\"" + b + "\"") == Some((a, b))
  {
    if ',' !in a {
      SplitAfterPrefix(a, b);
    }
    QuotedLineAsWritten(a, b);
    assert ("\"" + a + "\",\"" + b + "\"")[0] == '"';
  }

  /** As written, a line whose fields are not quoted, such as `a,b`, is
   *  captured whole as the input with an empty response, so `loadDataset`
   *  skips it; the intended split gives back both fields. */
  lemma UnquotedLineIsSkippedAsWritten(a: string, b: string)
    requires '"' !in a && '"' !in b && ',' !in a
    ensures FieldsAsWritten(a + "," + b) == Some((a + "," + b, ""))
    ensures Fields(a + "," + b) == Some((a, b))
  {
    var line := a + "," + b;
    forall i | 0 <= i < |line| ensures line[i] != '"' {
      if i < |a| { assert line[i] == a[i] && a[i] in a; }
      else if i > |a| { assert line[i] == b[i - |a| - 1] && b[i - |a| - 1] in b; }
    }
    UnquotedLineAsWritten(line);
    FieldsRoundTrip(a, b);
  }

  lemma {:induction false} SplitAfterPrefix(a: string, b: string)
    requires ',' !in a
    ensures SplitAtComma(a + "," + b) == (a, b)
  {
    var line := a + "," + b;
    if a == [] {
      assert line == "," + b && line[0] == ',' && line[1..] == b;
    } else {
      assert line[0] == a[0] && a[0] in a;
      assert line[1..] == a[1..] + "," + b;
      SplitAfterPrefix(a[1..], b);
      assert [a[0]] + a[1..] == a;
    }
  }

  // ---------------------------------------------------------------------
  // extractKeywords

  const FixedKeywords: seq<string> := [
    "face", "personality", "IQ", "hairline", "humor", "breath", "energy",
    "useful", "sharp", "slower", "proof", "wi-fi", "wifi", "crayon",
    "bowling", "dial-up", "microwave", "battery", "AI", "shadow",
    "existence", "mute", "charisma", "brick", "internet", "phone"
  ]

  /** The entries of `ks` found in `lower`, in their order in `ks`. */
  function FoundIn(lower: string, ks: seq<string>): (r: seq<string>)
    ensures forall k :: k in r <==> k in ks && Contains(lower, k)
    ensures Distinct(ks) ==> Distinct(r)
  {
    if ks == [] then []
    else
      var last := ks[|ks| - 1];
      var r := FoundIn(lower, ks[..|ks| - 1]);
      assert ks == ks[..|ks| - 1] + [last];
      r + (if Contains(lower, last) then [last] else [])
  }

  /** The pieces of `s` between characters that are not `\w`. */
  function WordPieces(s: string): (r: seq<string>)
    ensures |r| >= 1
  {
    if |s| == 0 then [""]
    else
      var rest := WordPieces(s[1..]);
      if !IsWordChar(s[0]) then [""] + rest else [[s[0]] + rest[0]] + rest[1..]
  }

  predicate IsLetterWord(w: string)
  {
    |w| >= 5 && forall i :: 0 <= i < |w| ==> IsLowerAscii(w[i])
  }

  function LetterWords(pieces: seq<string>): (r: seq<string>)
    ensures forall w :: w in r ==> IsLetterWord(w)
  {
    if pieces == [] then []
    else (if IsLetterWord(pieces[0]) then [pieces[0]] else []) + LetterWords(pieces[1..])
  }

  /** The matches of `/\b[a-z]{5,}\b/g` in `lower`: a match starts and ends
   *  at a word boundary with only letters between, so it is a whole maximal
   *  run of `\w` characters made of five or more lower-case letters. */
  function SignificantWords(lower: string): seq<string>
  {
    LetterWords(WordPieces(lower))
  }

  /** One step of the second loop: a new word is added while fewer than ten
   *  keywords are held. */
  function AddWord(found: seq<string>, w: string): seq<string>
  {
    if w !in found && |found| < 10 then found + [w] else found
  }

  function AddWords(found: seq<string>, ws: seq<string>): seq<string>
  {
    if ws == [] then found else AddWord(AddWords(found, ws[..|ws| - 1]), ws[|ws| - 1])
  }

  /** `extractKeywords(text)`. */
  function KeywordsOf(text: string): seq<string>
  {
    AddWords(FoundIn(Lower(text), FixedKeywords), SignificantWords(Lower(text)))
  }

  lemma FixedKeywordsDistinct()
    ensures Distinct(FixedKeywords)
  {
    FirstThirteenDistinct();
    LastThirteenDistinct();
    HalvesApart();
  }

  lemma FirstThirteenDistinct()
    ensures forall i, j :: 0 <= i < j < 13 ==> FixedKeywords[i] != FixedKeywords[j]
  {
  }

  lemma LastThirteenDistinct()
    ensures forall i, j :: 13 <= i < j < 26 ==> FixedKeywords[i] != FixedKeywords[j]
  {
  }

  lemma HalvesApart()
    ensures forall i, j :: 0 <= i < 13 <= j < 26 ==> FixedKeywords[i] != FixedKeywords[j]
  {
  }

  /** Adding words keeps the list duplicate-free, keeps what it held as a
   *  prefix, adds only the given words, and stops at ten. */
  lemma {:induction false} AddWordsShape(found: seq<string>, ws: seq<string>)
    ensures var r := AddWords(found, ws);
            && found <= r
            && (forall w :: w in r ==> w in found || w in ws)
            && (Distinct(found) ==> Distinct(r))
            && (|found| >= 10 ==> r == found)
            && (|found| < 10 ==> |r| <= 10)
  {
    if ws != [] {
      var init := ws[..|ws| - 1];
      AddWordsShape(found, init);
      var r := AddWords(found, init);
      forall w | w in AddWords(found, ws) ensures w in found || w in ws {
        if w in r { assert w in found || w in init; }
      }
    }
  }

  /** The keywords of a text: the fixed keywords found in it first, then
   *  its significant words while fewer than ten are held; no keyword twice;
   *  and the upper-case fixed keywords `IQ` and `AI` never, because the
   *  text is lower-cased before the search. */
  lemma KeywordsShape(text: string)
    ensures var fixed := FoundIn(Lower(text), FixedKeywords);
            var r := KeywordsOf(text);
            && fixed <= r
            && Distinct(r)
            && (forall w :: w in r && w !in fixed ==> IsLetterWord(w))
            && |r| <= Max(|fixed|, 10)
            && "IQ" !in r && "AI" !in r
  {
    var lower := Lower(text);
    var fixed := FoundIn(lower, FixedKeywords);
    FixedKeywordsDistinct();
    AddWordsShape(fixed, SignificantWords(lower));
    LowerHidesUpper(text, "IQ", 0);
    LowerHidesUpper(text, "AI", 0);
    assert !IsLetterWord("IQ") && !IsLetterWord("AI");
  }

  /** The first loop of `extractKeywords`: the entries of the keyword list
   *  that the lower-cased text contains, in list order. */
  method FindKeywords(lowerText: string, keywords: seq<string>) returns (found: seq<string>)
    ensures found == FoundIn(lowerText, keywords)
  {
    found := [];
    var i := 0;
    while i < |keywords|
      invariant 0 <= i <= |keywords|
      invariant found == FoundIn(lowerText, keywords[..i])
    {
      assert keywords[..i + 1][..i] == keywords[..i];
      if Contains(lowerText, keywords[i]) {
        found := found + [keywords[i]];
      }
      i := i + 1;
    }
    assert keywords[..i] == keywords;
  }

  /** `extractKeywords`, as its two loops. */
  method ExtractKeywords(text: string) returns (found: seq<string>)
    ensures found == KeywordsOf(text)
  {
    var lowerText := Lower(text);
    found := FindKeywords(lowerText, FixedKeywords);
    ghost var fixed := found;
    var words := SignificantWords(lowerText);
    var k := 0;
    while k < |words|
      invariant 0 <= k <= |words|
      invariant found == AddWords(fixed, words[..k])
    {
      assert words[..k + 1][..k] == words[..k];
      if words[k] !in found && |found| < 10 {
        found := found + [words[k]];
      }
      k := k + 1;
    }
    assert words[..k] == words;
  }

  // ---------------------------------------------------------------------
  // determineIntensity

  const BrutalWords: seq<string> := ["destroyed", "obliterate", "annihilate", "failed", "mistake", "worst", "awful"]
  const SarcasticWords: seq<string> := ["at least", "good luck", "rich coming", "interesting", "bold", "impressive"]
  const FunnyWords: seq<string> := ["lol", "haha", "giving", "energy", "vibe", "like"]

  /** The vote between the three word counts. */
  function Vote(brutal: nat, sarcastic: nat, funny: nat): Intensity
  {
    if brutal > sarcastic && brutal > funny then Intensity.Brutal
    else if sarcastic > funny then Intensity.Sarcastic
    else Intensity.Funny
  }

  function CountFor(i: Intensity, brutal: nat, sarcastic: nat, funny: nat): nat
  {
    match i
    case Brutal => brutal
    case Sarcastic => sarcastic
    case Funny => funny
  }

  /** Brutal wins only with a strictly highest count, sarcastic beats funny
   *  only with a strictly higher count; so the winner always holds a
   *  highest count, and a tie at the top goes to funny before sarcastic
   *  before brutal. */
  lemma VoteRule(b: nat, s: nat, f: nat)
    ensures Vote(b, s, f) == Intensity.Brutal <==> b > s && b > f
    ensures Vote(b, s, f) == Intensity.Sarcastic <==> !(b > s && b > f) && s > f
    ensures forall i: Intensity :: CountFor(i, b, s, f) <= CountFor(Vote(b, s, f), b, s, f)
    ensures f == Max(b, Max(s, f)) ==> Vote(b, s, f) == Intensity.Funny
  {
  }

  /** `determineIntensity(input, response)`. */
  function IntensityOf(input: string, response: string): Intensity
  {
    var text := Lower(input + " " + response);
    Vote(CountContained(text, BrutalWords), CountContained(text, SarcasticWords), CountContained(text, FunnyWords))
  }

  /** `determineIntensity`, as its counting loops. */
  method DetermineIntensity(input: string, response: string) returns (i: Intensity)
    ensures i == IntensityOf(input, response)
  {
    var text := Lower(input + " " + response);
    var brutalScore := CountPresent(text, BrutalWords);
    var sarcasticScore := CountPresent(text, SarcasticWords);
    var funnyScore := CountPresent(text, FunnyWords);
    if brutalScore > sarcasticScore && brutalScore > funnyScore {
      return Intensity.Brutal;
    }
    if sarcasticScore > funnyScore {
      return Intensity.Sarcastic;
    }
    return Intensity.Funny;
  }

  // ---------------------------------------------------------------------
  // The trainer's tables as values

  datatype TrainerState = TrainerState(
    patterns: seq<RoastPattern>,
    keywordMap: map<string, seq<RoastPattern>>,
    responseTemplates: seq<string>)

  /** The input and response a line contributes under the expression as
   *  written, or None for a blank line, a line it does not match, or one
   *  with an empty field. */
  function LineFields(line: string): Option<(string, string)>
  {
    UsableFields(line, FieldsAsWritten(line))
  }

  /** The same under the intended split, `Fields`. */
  function CorrectedLineFields(line: string): Option<(string, string)>
  {
    UsableFields(line, Fields(line))
  }

  /** The checks `loadDataset` makes around the split: a blank line, a
   *  failed split and an empty field all contribute nothing. */
  function UsableFields(line: string, split: Option<(string, string)>): (r: Option<(string, string)>)
    ensures r.Some? <==> !IsBlank(line) && split.Some? && split.value.0 != "" && split.value.1 != ""
    ensures r.Some? ==> r == split
  {
    TrimEmptyIffBlank(line);
    if Trim(line) == "" then None
    else match split
      case None => None
      case Some(f) => if f.0 == "" || f.1 == "" then None else Some(f)
  }

  function PatternOf(input: string, response: string): RoastPattern
  {
    RoastPattern(Trim(input), Trim(response), KeywordsOf(input), IntensityOf(input, response))
  }

  /** The keyword index after `p` is appended under each of `ks`. */
  function Indexed(m: map<string, seq<RoastPattern>>, ks: seq<string>, p: RoastPattern): map<string, seq<RoastPattern>>
  {
    if ks == [] then m
    else
      var prev := Indexed(m, ks[..|ks| - 1], p);
      var k := ks[|ks| - 1];
      prev[k := (if k in prev then prev[k] else []) + [p]]
  }

  /** Each of the keywords now lists `p` last, behind what it listed before;
   *  every other keyword is untouched. */
  lemma IndexedSpec(m: map<string, seq<RoastPattern>>, ks: seq<string>, p: RoastPattern)
    ensures var r := Indexed(m, ks, p);
            && (forall k :: k in ks ==> k in r && |r[k]| > 0 && r[k][|r[k]| - 1] == p)
            && (forall k :: k in m && k !in ks ==> k in r && r[k] == m[k])
            && (forall k, q :: k in r && q in r[k] ==> (q == p && k in ks) || (k in m && q in m[k]))
  {
    IndexedLast(m, ks, p);
    IndexedOthers(m, ks, p);
    var r := Indexed(m, ks, p);
    forall k, q | k in r && q in r[k] ensures (q == p && k in ks) || (k in m && q in m[k]) {
      IndexedFrom(m, ks, p, k, q);
    }
  }

  lemma {:induction false} IndexedLast(m: map<string, seq<RoastPattern>>, ks: seq<string>, p: RoastPattern)
    ensures var r := Indexed(m, ks, p);
            forall k :: k in ks ==> k in r && |r[k]| > 0 && r[k][|r[k]| - 1] == p
  {
    if ks != [] {
      var init := ks[..|ks| - 1];
      IndexedLast(m, init, p);
      assert ks == init + [ks[|ks| - 1]];
    }
  }

  lemma {:induction false} IndexedOthers(m: map<string, seq<RoastPattern>>, ks: seq<string>, p: RoastPattern)
    ensures var r := Indexed(m, ks, p);
            forall k :: k in m && k !in ks ==> k in r && r[k] == m[k]
  {
    if ks != [] {
      var init := ks[..|ks| - 1];
      IndexedOthers(m, init, p);
      assert ks == init + [ks[|ks| - 1]];
    }
  }

  lemma {:induction false} IndexedFrom(m: map<string, seq<RoastPattern>>, ks: seq<string>, p: RoastPattern,
                                       k: string, q: RoastPattern)
    requires k in Indexed(m, ks, p) && q in Indexed(m, ks, p)[k]
    ensures (q == p && k in ks) || (k in m && q in m[k])
  {
    if ks != [] {
      var init := ks[..|ks| - 1];
      var prev := Indexed(m, init, p);
      var last := ks[|ks| - 1];
      assert ks == init + [last];
      if k == last {
        if q != p {
          assert k in prev && q in prev[k];
          IndexedFrom(m, init, p, k, q);
        }
      } else {
        assert k in prev && q in prev[k];
        IndexedFrom(m, init, p, k, q);
      }
    }
  }

  function WithTemplate(ts: seq<string>, t: string): (r: seq<string>)
  {
    if t in ts then ts else ts + [t]
  }

  /** The tables after pattern `p` is learned. */
  function Appended(st: TrainerState, p: RoastPattern): TrainerState
  {
    TrainerState(st.patterns + [p], Indexed(st.keywordMap, p.keywords, p), WithTemplate(st.responseTemplates, p.response))
  }

  /** The loop body of `loadDataset` for one line. */
  function AddLineTo(st: TrainerState, line: string): TrainerState
  {
    AddFields(st, LineFields(line))
  }

  /** A line's effect once its fields are known: a line without fields is
   *  skipped, otherwise the pattern built from them is learned. */
  function AddFields(st: TrainerState, fields: Option<(string, string)>): TrainerState
  {
    match fields
    case None => st
    case Some(f) => Appended(st, PatternOf(f.0, f.1))
  }

  function LoadLines(st: TrainerState, lines: seq<string>): TrainerState
  {
    if lines == [] then st else AddLineTo(LoadLines(st, lines[..|lines| - 1]), lines[|lines| - 1])
  }

  /** The trainer's invariant: no response template twice, every pattern's
   *  response among the templates, and every indexed pattern a pattern that
   *  carries that keyword. */
  ghost predicate StateOk(st: TrainerState)
  {
    && Distinct(st.responseTemplates)
    && (forall p :: p in st.patterns ==> p.response in st.responseTemplates)
    && (forall k, q :: k in st.keywordMap && q in st.keywordMap[k] ==> q in st.patterns && k in q.keywords)
  }

  /** Learning a pattern keeps the invariant and lists it last under each
   *  of its keywords. */
  lemma AppendedKeepsState(st: TrainerState, p: RoastPattern)
    requires StateOk(st)
    ensures StateOk(Appended(st, p))
    ensures var r := Appended(st, p);
            forall k :: k in p.keywords ==> k in r.keywordMap && |r.keywordMap[k]| > 0 && r.keywordMap[k][|r.keywordMap[k]| - 1] == p
  {
    IndexedSpec(st.keywordMap, p.keywords, p);
    var ts := WithTemplate(st.responseTemplates, p.response);
    forall i, j | 0 <= i < j < |ts| ensures ts[i] != ts[j] {
      if j == |st.responseTemplates| {
        assert st.responseTemplates[i] in st.responseTemplates;
      }
    }
  }

  /** One line keeps the invariant, and a line that contributes appends
   *  one pattern with trimmed fields (which `AppendedKeepsState` shows each
   *  of its keywords then lists last). */
  lemma AddLineKeepsState(st: TrainerState, line: string)
    requires StateOk(st)
    ensures StateOk(AddLineTo(st, line))
    ensures LineFields(line).None? ==> AddLineTo(st, line) == st
    ensures LineFields(line).Some? ==>
              var f := LineFields(line).value;
              var p := PatternOf(f.0, f.1);
              var r := AddLineTo(st, line);
              && r.patterns == st.patterns + [p]
              && p.input == Trim(f.0) && p.response == Trim(f.1)
  {
    AddFieldsKeepsState(st, LineFields(line));
  }

  lemma AddFieldsKeepsState(st: TrainerState, fields: Option<(string, string)>)
    requires StateOk(st)
    ensures StateOk(AddFields(st, fields))
    ensures fields.None? ==> AddFields(st, fields) == st
    ensures fields.Some? ==>
              var p := PatternOf(fields.value.0, fields.value.1);
              var r := AddFields(st, fields);
              && r.patterns == st.patterns + [p]
              && p.input == Trim(fields.value.0) && p.response == Trim(fields.value.1)
  {
    if fields.Some? {
      AppendedKeepsState(st, PatternOf(fields.value.0, fields.value.1));
    }
  }

  /** The corrected loader: `loadDataset` with the intended split. */
  function CorrectedLoadLines(st: TrainerState, lines: seq<string>): TrainerState
  {
    if lines == [] then st
    else AddFields(CorrectedLoadLines(st, lines[..|lines| - 1]), CorrectedLineFields(lines[|lines| - 1]))
  }

  /** The corrected loader keeps the invariant and only appends patterns. */
  lemma {:induction false} CorrectedLoadKeepsState(st: TrainerState, lines: seq<string>)
    requires StateOk(st)
    ensures StateOk(CorrectedLoadLines(st, lines))
    ensures st.patterns <= CorrectedLoadLines(st, lines).patterns
  {
    if lines != [] {
      CorrectedLoadKeepsState(st, lines[..|lines| - 1]);
      AddFieldsKeepsState(CorrectedLoadLines(st, lines[..|lines| - 1]), CorrectedLineFields(lines[|lines| - 1]));
    }
  }

  /** The two loaders differ only on lines without quotes, and there the
   *  one as written learns nothing from `a,b` while the corrected one
   *  learns the pattern (a, b). */
  lemma LoadersOnUnquotedLine(st: TrainerState, a: string, b: string)
    requires '"' !in a && '"' !in b && ',' !in a && a != "" && b != ""
    ensures AddLineTo(st, a + "," + b) == st
    ensures CorrectedLineFields(a + "," + b) == Some((a, b))
  {
    UnquotedLineIsSkippedAsWritten(a, b);
    var line := a + "," + b;
    assert line[|a|] == ',' && !IsWs(',');
  }

  /** On a line with a quote both loaders split alike. */
  lemma LoadersAgreeOnQuotedLine(line: string)
    requires '"' in line
    ensures CorrectedLineFields(line) == LineFields(line)
  {
  }

  lemma {:induction false} LoadKeepsState(st: TrainerState, lines: seq<string>)
    requires StateOk(st)
    ensures StateOk(LoadLines(st, lines))
    ensures st.patterns <= LoadLines(st, lines).patterns
  {
    if lines != [] {
      LoadKeepsState(st, lines[..|lines| - 1]);
      AddLineKeepsState(LoadLines(st, lines[..|lines| - 1]), lines[|lines| - 1]);
    }
  }

  // ---------------------------------------------------------------------
  // getRandomRoast and findBestRoast

  function OfIntensity(ps: seq<RoastPattern>, i: Intensity): (r: seq<RoastPattern>)
    ensures forall p :: p in r <==> p in ps && p.intensity == i
  {
    if ps == [] then []
    else (if ps[0].intensity == i then [ps[0]] else []) + OfIntensity(ps[1..], i)
  }

  /** `getRandomRoast(intensity)`: None stands for the exception an empty
   *  pattern table raises. */
  function RandomRoast(ps: seq<RoastPattern>, intensity: Option<Intensity>, coin: real): Option<string>
    requires IsCoin(coin)
  {
    if ps == [] then None
    else
      var pool := if intensity.Some? then OfIntensity(ps, intensity.value) else ps;
      var pool' := if pool == [] then ps else pool;
      Some(pool'[PickIndex(coin, |pool'|)].response)
  }

  /** A random roast exists exactly when there are patterns; it is some
   *  pattern's response, of the requested intensity whenever one has it. */
  lemma RandomRoastSpec(ps: seq<RoastPattern>, intensity: Option<Intensity>, coin: real)
    requires IsCoin(coin)
    ensures RandomRoast(ps, intensity, coin).None? <==> ps == []
    ensures RandomRoast(ps, intensity, coin).Some? ==>
              exists p :: p in ps && p.response == RandomRoast(ps, intensity, coin).value
                          && (intensity.Some? && (exists q :: q in ps && q.intensity == intensity.value)
                              ==> p.intensity == intensity.value)
  {
    if ps != [] {
      var pool := if intensity.Some? then OfIntensity(ps, intensity.value) else ps;
      var pool' := if pool == [] then ps else pool;
      var p := pool'[PickIndex(coin, |pool'|)];
      assert p in pool';
      if intensity.Some? && (exists q :: q in ps && q.intensity == intensity.value) {
        var q :| q in ps && q.intensity == intensity.value;
        assert q in pool;
      }
    }
  }

  datatype ScoredPattern = ScoredPattern(pattern: RoastPattern, score: int)

  function ScoreOf(s: ScoredPattern): int { s.score }

  /** How many of `keywords` the pattern carries. */
  function SharedCount(keywords: seq<string>, pk: seq<string>): (n: nat)
    ensures n <= |keywords|
  {
    if keywords == [] then 0
    else SharedCount(keywords[..|keywords| - 1], pk) + (if keywords[|keywords| - 1] in pk then 1 else 0)
  }

  /** How many of the space-separated pieces of `words` are longer than
   *  three characters and occur in `lowerPattern`. */
  function CommonWords(words: seq<string>, lowerPattern: string): (n: nat)
    ensures n <= |words|
  {
    if words == [] then 0
    else
      var w := words[|words| - 1];
      CommonWords(words[..|words| - 1], lowerPattern) + (if |w| > 3 && Contains(lowerPattern, w) then 1 else 0)
  }

  /** A pattern's score against the user's message: 2 per shared keyword,
   *  3 for the requested intensity, 1 per common word. */
  function PatternScore(p: RoastPattern, keywords: seq<string>, intensity: Option<Intensity>, userInput: string): nat
  {
    2 * SharedCount(keywords, p.keywords)
    + (if intensity == Some(p.intensity) then 3 else 0)
    + CommonWords(SplitOn(Lower(userInput), ' '), Lower(p.input))
  }

  /** The patterns with a positive score, in table order. */
  function ScoredPatterns(ps: seq<RoastPattern>, keywords: seq<string>, intensity: Option<Intensity>, userInput: string)
    : (r: seq<ScoredPattern>)
    ensures forall s :: s in r ==> s.pattern in ps && s.score == PatternScore(s.pattern, keywords, intensity, userInput) > 0
  {
    if ps == [] then []
    else
      var p := ps[|ps| - 1];
      var score := PatternScore(p, keywords, intensity, userInput);
      ScoredPatterns(ps[..|ps| - 1], keywords, intensity, userInput)
      + (if score > 0 then [ScoredPattern(p, score)] else [])
  }

  /** `findBestRoast(userInput, intensity)`. */
  function BestRoast(ps: seq<RoastPattern>, userInput: string, intensity: Option<Intensity>, coin: real): Option<string>
    requires IsCoin(coin)
  {
    RoastFor(ps, KeywordsOf(userInput), userInput, intensity, coin)
  }

  /** `findBestRoast` once the input's keywords are known: a random roast
   *  when there are none or no pattern scores, otherwise a pick among the
   *  five best-scoring patterns. */
  function RoastFor(ps: seq<RoastPattern>, keywords: seq<string>, userInput: string, intensity: Option<Intensity>, coin: real)
    : Option<string>
    requires IsCoin(coin)
  {
    if keywords == [] then RandomRoast(ps, intensity, coin)
    else
      var scored := ScoredPatterns(ps, keywords, intensity, userInput);
      if scored == [] then RandomRoast(ps, intensity, coin)
      else
        var top := SortDesc(scored, ScoreOf)[..Min(5, |scored|)];
        Some(top[PickIndex(coin, |top|)].pattern.response)
  }

  /** When some pattern scores, the answer is the response of a pattern
   *  with a positive score that no pattern outside the five best beats. */
  lemma BestRoastIsTopFive(ps: seq<RoastPattern>, userInput: string, intensity: Option<Intensity>, coin: real)
    requires IsCoin(coin)
    requires KeywordsOf(userInput) != []
    requires ScoredPatterns(ps, KeywordsOf(userInput), intensity, userInput) != []
    ensures var keywords := KeywordsOf(userInput);
            var scored := ScoredPatterns(ps, keywords, intensity, userInput);
            var sorted := SortDesc(scored, ScoreOf);
            exists j :: 0 <= j < Min(5, |sorted|)
              && BestRoast(ps, userInput, intensity, coin) == Some(sorted[j].pattern.response)
              && sorted[j].pattern in ps
              && sorted[j].score == PatternScore(sorted[j].pattern, keywords, intensity, userInput) > 0
              && (forall k :: 5 <= k < |sorted| ==> sorted[k].score <= sorted[j].score)
  {
    TopFiveFor(ps, KeywordsOf(userInput), userInput, intensity, coin);
  }

  /** `BestRoastIsTopFive` for any non-empty list of keywords. */
  lemma TopFiveFor(ps: seq<RoastPattern>, keywords: seq<string>, userInput: string, intensity: Option<Intensity>, coin: real)
    requires IsCoin(coin)
    requires keywords != []
    requires ScoredPatterns(ps, keywords, intensity, userInput) != []
    ensures var scored := ScoredPatterns(ps, keywords, intensity, userInput);
            var sorted := SortDesc(scored, ScoreOf);
            exists j :: 0 <= j < Min(5, |sorted|)
              && RoastFor(ps, keywords, userInput, intensity, coin) == Some(sorted[j].pattern.response)
              && sorted[j].pattern in ps
              && sorted[j].score == PatternScore(sorted[j].pattern, keywords, intensity, userInput) > 0
              && (forall k :: 5 <= k < |sorted| ==> sorted[k].score <= sorted[j].score)
  {
    var scored := ScoredPatterns(ps, keywords, intensity, userInput);
    var sorted := SortDesc(scored, ScoreOf);
    var j := PickIndex(coin, Min(5, |scored|));
    RoastForPicks(ps, keywords, userInput, intensity, coin);
    AmongTopFive(scored, j);
    ScoredEntry(ps, keywords, intensity, userInput, sorted[j]);
  }

  lemma ScoredEntry(ps: seq<RoastPattern>, keywords: seq<string>, intensity: Option<Intensity>, userInput: string,
                    e: ScoredPattern)
    requires e in ScoredPatterns(ps, keywords, intensity, userInput)
    ensures e.pattern in ps && e.score == PatternScore(e.pattern, keywords, intensity, userInput) > 0
  {
  }

  /** Which entry `RoastFor` answers with when some pattern scores. */
  lemma RoastForPicks(ps: seq<RoastPattern>, keywords: seq<string>, userInput: string, intensity: Option<Intensity>, coin: real)
    requires IsCoin(coin)
    requires keywords != []
    requires ScoredPatterns(ps, keywords, intensity, userInput) != []
    ensures var scored := ScoredPatterns(ps, keywords, intensity, userInput);
            var j := PickIndex(coin, Min(5, |scored|));
            j < Min(5, |scored|)
            && RoastFor(ps, keywords, userInput, intensity, coin) == Some(SortDesc(scored, ScoreOf)[j].pattern.response)
  {
  }

  /** An entry among the first five of a descending ranking of `scored` is
   *  one of its entries, and no entry from the sixth on scores higher. */
  lemma AmongTopFive(scored: seq<ScoredPattern>, j: nat)
    requires j < Min(5, |scored|)
    ensures var sorted := SortDesc(scored, ScoreOf);
            && j < |sorted|
            && sorted[j] in scored
            && (forall k :: 5 <= k < |sorted| ==> sorted[k].score <= sorted[j].score)
  {
    var sorted := SortDesc(scored, ScoreOf);
    SortedScores(scored);
    assert sorted[j] in multiset(scored);
  }

  /** The sorted scores are in descending order and are the same entries. */
  lemma SortedScores(scored: seq<ScoredPattern>)
    ensures var sorted := SortDesc(scored, ScoreOf);
            && (forall i, k :: 0 <= i < k < |sorted| ==> sorted[k].score <= sorted[i].score)
            && multiset(sorted) == multiset(scored)
  {
    var sorted := SortDesc(scored, ScoreOf);
    SortDescIsSorted(scored, ScoreOf);
    forall i, k | 0 <= i < k < |sorted| ensures sorted[k].score <= sorted[i].score {
      assert ScoreOf(sorted[i]) >= ScoreOf(sorted[k]);
    }
  }

  /** The scoring loop of `findBestRoast`: every pattern with a positive
   *  score, in table order. */
  method ScoreAll(ps: seq<RoastPattern>, keywords: seq<string>, intensity: Option<Intensity>, userInput: string)
    returns (scored: seq<ScoredPattern>)
    ensures scored == ScoredPatterns(ps, keywords, intensity, userInput)
  {
    scored := [];
    var i := 0;
    while i < |ps|
      invariant 0 <= i <= |ps|
      invariant scored == ScoredPatterns(ps[..i], keywords, intensity, userInput)
    {
      assert ps[..i + 1][..i] == ps[..i];
      var score := ScorePattern(ps[i], keywords, intensity, userInput);
      if score > 0 {
        scored := scored + [ScoredPattern(ps[i], score)];
      }
      i := i + 1;
    }
    assert ps[..i] == ps;
  }

  /** One pattern's score, as the loops of `findBestRoast` compute it. */
  method ScorePattern(p: RoastPattern, keywords: seq<string>, intensity: Option<Intensity>, userInput: string)
    returns (score: nat)
    ensures score == PatternScore(p, keywords, intensity, userInput)
  {
    var shared := 0;
    var i := 0;
    while i < |keywords|
      invariant 0 <= i <= |keywords|
      invariant shared == SharedCount(keywords[..i], p.keywords)
    {
      assert keywords[..i + 1][..i] == keywords[..i];
      if keywords[i] in p.keywords {
        shared := shared + 1;
      }
      i := i + 1;
    }
    assert keywords[..i] == keywords;
    score := 2 * shared;
    if intensity == Some(p.intensity) {
      score := score + 3;
    }
    var lowerPattern := Lower(p.input);
    var words := SplitOn(Lower(userInput), ' ');
    var common := 0;
    var k := 0;
    while k < |words|
      invariant 0 <= k <= |words|
      invariant common == CommonWords(words[..k], lowerPattern)
    {
      assert words[..k + 1][..k] == words[..k];
      if |words[k]| > 3 && Contains(lowerPattern, words[k]) {
        common := common + 1;
      }
      k := k + 1;
    }
    assert words[..k] == words;
    score := score + common;
  }

  // ---------------------------------------------------------------------
  // getStats

  datatype TrainerStats = TrainerStats(
    totalPatterns: nat, uniqueKeywords: nat, responseTemplates: nat,
    funny: nat, brutal: nat, sarcastic: nat)

  function CountOf(ps: seq<RoastPattern>, i: Intensity): nat
  {
    if ps == [] then 0 else (if ps[0].intensity == i then 1 else 0) + CountOf(ps[1..], i)
  }

  /** The three intensity counts split the table. */
  lemma {:induction false} CountsSplitTable(ps: seq<RoastPattern>)
    ensures CountOf(ps, Intensity.Funny) + CountOf(ps, Intensity.Brutal) + CountOf(ps, Intensity.Sarcastic) == |ps|
  {
    if ps != [] {
      CountsSplitTable(ps[1..]);
    }
  }

  function StatsOf(st: TrainerState): (s: TrainerStats)
    ensures s.totalPatterns == |st.patterns|
    ensures s.funny + s.brutal + s.sarcastic == s.totalPatterns
  {
    CountsSplitTable(st.patterns);
    TrainerStats(|st.patterns|, |st.keywordMap|, |st.responseTemplates|,
                 CountOf(st.patterns, Intensity.Funny), CountOf(st.patterns, Intensity.Brutal),
                 CountOf(st.patterns, Intensity.Sarcastic))
  }

  // ---------------------------------------------------------------------
  // The trainer

  class RoastDatasetTrainer {
    var patterns: seq<RoastPattern>
    var keywordMap: map<string, seq<RoastPattern>>
    var responseTemplates: seq<string>

    function State(): TrainerState
      reads this
    {
      TrainerState(patterns, keywordMap, responseTemplates)
    }

    ghost predicate Valid()
      reads this
    {
      StateOk(State())
    }

    constructor()
      ensures State() == TrainerState([], map[], [])
      ensures Valid()
    {
      patterns := [];
      keywordMap := map[];
      responseTemplates := [];
    }

    /** The body of `loadDataset`'s loop for one line. */
    method AddLine(line: string)
      modifies this
      ensures State() == AddLineTo(old(State()), line)
      ensures old(Valid()) ==> Valid()
    {
      ghost var st := State();
      if StateOk(st) {
        AddLineKeepsState(st, line);
      }
      if Trim(line) == "" {
        return;
      }
      var fields := FieldsAsWritten(line);
      if fields.None? {
        return;
      }
      var input, response := fields.value.0, fields.value.1;
      if input == "" || response == "" {
        return;
      }
      assert LineFields(line) == Some((input, response));
      var keywords := ExtractKeywords(input);
      var intensity := DetermineIntensity(input, response);
      var pattern := RoastPattern(Trim(input), Trim(response), keywords, intensity);
      assert pattern == PatternOf(input, response);
      Learn(pattern);
    }

    /** Learning one pattern: it is appended, indexed under its keywords and
     *  its response kept as a template. */
    method Learn(pattern: RoastPattern)
      modifies this
      ensures State() == Appended(old(State()), pattern)
    {
      patterns := patterns + [pattern];
      IndexPattern(pattern.keywords, pattern);
      if pattern.response !in responseTemplates {
        responseTemplates := responseTemplates + [pattern.response];
      }
    }

    /** Appends `pattern` to the list of each of `keywords`, creating the
     *  lists that do not exist yet. */
    method IndexPattern(keywords: seq<string>, pattern: RoastPattern)
      modifies this
      ensures keywordMap == Indexed(old(keywordMap), keywords, pattern)
      ensures patterns == old(patterns) && responseTemplates == old(responseTemplates)
    {
      var i := 0;
      while i < |keywords|
        invariant 0 <= i <= |keywords|
        invariant keywordMap == Indexed(old(keywordMap), keywords[..i], pattern)
        invariant patterns == old(patterns) && responseTemplates == old(responseTemplates)
      {
        assert keywords[..i + 1][..i] == keywords[..i];
        var keyword := keywords[i];
        if keyword !in keywordMap {
          keywordMap := keywordMap[keyword := []];
        }
        keywordMap := keywordMap[keyword := keywordMap[keyword] + [pattern]];
        i := i + 1;
      }
      assert keywords[..i] == keywords;
    }

    /** `loadDataset`, given the file's content: every line after the
     *  header, in order. */
    method LoadDataset(content: string)
      modifies this
      ensures State() == LoadLines(old(State()), SplitOn(content, '\n')[1..])
      ensures old(Valid()) ==> Valid()
    {
      var lines := SplitOn(content, '\n')[1..];
      ghost var st := State();
      var i := 0;
      while i < |lines|
        invariant 0 <= i <= |lines|
        invariant State() == LoadLines(st, lines[..i])
        invariant StateOk(st) ==> Valid()
      {
        assert lines[..i + 1][..i] == lines[..i];
        AddLine(lines[i]);
        i := i + 1;
      }
      assert lines[..i] == lines;
    }

    /** `findBestRoast(userInput, intensity)`, with `coin` as its random
     *  pick. */
    method FindBestRoast(userInput: string, intensity: Option<Intensity>, coin: real) returns (r: Option<string>)
      requires IsCoin(coin)
      ensures r == BestRoast(patterns, userInput, intensity, coin)
    {
      var keywords := ExtractKeywords(userInput);
      if |keywords| == 0 {
        return RandomRoast(patterns, intensity, coin);
      }
      var scored := ScoreAll(patterns, keywords, intensity, userInput);
      if |scored| == 0 {
        return RandomRoast(patterns, intensity, coin);
      }
      var top := SortDesc(scored, ScoreOf)[..Min(5, |scored|)];
      r := Some(top[PickIndex(coin, |top|)].pattern.response);
    }

    /** `getStats()`. */
    function GetStats(): (s: TrainerStats)
      reads this
      ensures s.totalPatterns == |patterns|
      ensures s.funny + s.brutal + s.sarcastic == |patterns|
    {
      StatsOf(State())
    }
  }
}
