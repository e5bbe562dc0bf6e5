/**
 * String and number helpers shared by every module: the parts of the
 * JavaScript standard library that the application's code relies on
 * (toLowerCase, trim, split, includes, join, regular-expression word
 * matching), restated over `string == seq<char>`.
 *
 * Case mapping is ASCII only; whitespace is the exact set that JavaScript's
 * `\s` and `String.prototype.trim` use.
 */
module Text {

  datatype Option<+T> = None | Some(value: T)

  datatype Result<+T, +E> = Ok(value: T) | Err(error: E)

  function Min(a: int, b: int): int { if a <= b then a else b }

  function Max(a: int, b: int): int { if a >= b then a else b }

  /** JavaScript's WhiteSpace and LineTerminator code points (`\s`, `trim`). */
  predicate IsWs(c: char)
  {
    || c == ' ' || c == '\t' || c == '\n' || c == '\r'
    || c == '\U{000B}' || c == '\U{000C}' || c == '\U{00A0}' || c == '\U{1680}'
    || ('\U{2000}' <= c <= '\U{200A}')
    || c == '\U{2028}' || c == '\U{2029}' || c == '\U{202F}' || c == '\U{205F}'
    || c == '\U{3000}' || c == '\U{FEFF}'
  }

  predicate IsUpperAscii(c: char) { 'A' <= c <= 'Z' }

  predicate IsLowerAscii(c: char) { 'a' <= c <= 'z' }

  function LowerChar(c: char): char
  {
    if IsUpperAscii(c) then (c as int + 32) as char else c
  }

  function UpperChar(c: char): char
  {
    if IsLowerAscii(c) then (c as int - 32) as char else c
  }

  /** `s.toLowerCase()`, on ASCII letters. */
  function Lower(s: string): string
  {
    seq(|s|, i requires 0 <= i < |s| => LowerChar(s[i]))
  }

  /** `s.toUpperCase()`, on ASCII letters. */
  function Upper(s: string): string
  {
    seq(|s|, i requires 0 <= i < |s| => UpperChar(s[i]))
  }

  /** The text with its leading whitespace removed. */
  function DropWs(s: string): (r: string)
    ensures |r| <= |s|
    ensures r == s[|s| - |r|..]
    ensures r == [] || !IsWs(r[0])
    ensures forall i :: 0 <= i < |s| - |r| ==> IsWs(s[i])
  {
    if |s| > 0 && IsWs(s[0]) then DropWs(s[1..]) else s
  }

  /** The text with its trailing whitespace removed. */
  function DropWsEnd(s: string): (r: string)
    ensures |r| <= |s|
    ensures r == s[..|r|]
    ensures r == [] || !IsWs(r[|r| - 1])
    ensures forall i :: |r| <= i < |s| ==> IsWs(s[i])
  {
    if |s| > 0 && IsWs(s[|s| - 1]) then DropWsEnd(s[..|s| - 1]) else s
  }

  /** `s.trim()`. */
  function Trim(s: string): string
  {
    DropWsEnd(DropWs(s))
  }

  predicate IsBlank(s: string)
  {
    forall i :: 0 <= i < |s| ==> IsWs(s[i])
  }

  /** `s.split(/\s+/)`: the pieces between maximal runs of whitespace,
   *  including an empty first piece when `s` starts with whitespace and an
   *  empty last piece when it ends with whitespace. */
  function SplitWs(s: string): (r: seq<string>)
    ensures |r| >= 1
    decreases |s|
  {
    if |s| == 0 then [""]
    else if IsWs(s[0]) then [""] + SplitWs(DropWs(s))
    else
      var rest := SplitWs(s[1..]);
      [[s[0]] + rest[0]] + rest[1..]
  }

  /** `s.split(sep)` for a one-character separator. */
  function SplitOn(s: string, sep: char): (r: seq<string>)
    ensures |r| >= 1
  {
    if |s| == 0 then [""]
    else
      var rest := SplitOn(s[1..], sep);
      if s[0] == sep then [""] + rest else [[s[0]] + rest[0]] + rest[1..]
  }

  /** `ss.join(sep)`. */
  function Join(ss: seq<string>, sep: string): string
  {
    if |ss| == 0 then ""
    else if |ss| == 1 then ss[0]
    else ss[0] + sep + Join(ss[1..], sep)
  }

  predicate StartsWith(s: string, p: string)
  {
    |p| <= |s| && s[..|p|] == p
  }

  /** `s.includes(sub)`. */
  predicate Contains(s: string, sub: string)
    decreases |s|
  {
    StartsWith(s, sub) || (|s| > 0 && Contains(s[1..], sub))
  }

  /** Number of occurrences of `c` in `s` (`(s.match(/c/g) || []).length`). */
  function Occurrences(s: string, c: char): (n: nat)
    ensures n <= |s|
    ensures n == 0 <==> c !in s
  {
    if s == [] then 0 else (if s[0] == c then 1 else 0) + Occurrences(s[1..], c)
  }

  /** How many entries of `keys` occur as substrings of `text`: the loop
   *  `for (const k of keys) if (text.includes(k)) n++`. */
  function CountContained(text: string, keys: seq<string>): (n: nat)
    ensures n <= |keys|
  {
    if keys == [] then 0
    else (if Contains(text, keys[0]) then 1 else 0) + CountContained(text, keys[1..])
  }

  /** The counting loop itself. */
  method CountPresent(text: string, keys: seq<string>) returns (n: nat)
    ensures n == CountContained(text, keys)
  {
    n := 0;
    var i := 0;
    while i < |keys|
      invariant 0 <= i <= |keys|
      invariant n + CountContained(text, keys[i..]) == CountContained(text, keys)
    {
      assert keys[i..][1..] == keys[i + 1..];
      if Contains(text, keys[i]) {
        n := n + 1;
      }
      i := i + 1;
    }
  }

  /** `\w` in a JavaScript regular expression without the `u` flag. */
  predicate IsWordChar(c: char)
  {
    IsLowerAscii(c) || IsUpperAscii(c) || ('0' <= c <= '9') || c == '_'
  }

  predicate WordAt(s: string, p: int)
  {
    0 <= p < |s| && IsWordChar(s[p])
  }

  /** `\b` at position `p` of `s`. */
  predicate Boundary(s: string, p: int)
  {
    WordAt(s, p - 1) != WordAt(s, p)
  }

  predicate WordMatchAt(s: string, kw: string, i: nat)
  {
    i + |kw| <= |s| && s[i..i + |kw|] == kw && Boundary(s, i) && Boundary(s, i + |kw|)
  }

  /** Number of matches of the global regular expression `\bkw\b` in `s`,
   *  scanning from position `i`: after a match the scan resumes at its end
   *  (at the next position for an empty match), as `String.prototype.match`
   *  with the `g` flag does. */
  function WordMatchesFrom(s: string, kw: string, i: nat): nat
    decreases |s| + 1 - i
  {
    if i + |kw| > |s| then 0
    else if WordMatchAt(s, kw, i) then 1 + WordMatchesFrom(s, kw, i + Max(|kw|, 1))
    else WordMatchesFrom(s, kw, i + 1)
  }

  function WordMatches(s: string, kw: string): nat
  {
    WordMatchesFrom(s, kw, 0)
  }

  /** A value of `Math.random()`. */
  predicate IsCoin(coin: real) { 0.0 <= coin < 1.0 }

  /** `Math.floor(coin * n)` for a coin in [0, 1): an index below `n`. */
  function PickIndex(coin: real, n: nat): (i: nat)
    requires IsCoin(coin) && n > 0
    ensures i < n
  {
    var f := (coin * n as real).Floor;
    assert 0.0 <= coin * n as real < n as real;
    f as nat
  }

  /** `[...s].slice(-n)` for n > 0: the last `n` entries, or all of them. */
  function LastN<T>(s: seq<T>, n: nat): (r: seq<T>)
    ensures |r| == Min(|s|, n)
    ensures r == s[|s| - |r|..]
  {
    if |s| <= n then s else s[|s| - n..]
  }

  lemma {:induction false} ContainsInfix(a: string, b: string, c: string)
    ensures Contains(a + b + c, b)
    decreases |a|
  {
    if a == [] {
      assert (a + b + c)[..|b|] == b;
    } else {
      assert (a + b + c)[1..] == a[1..] + b + c;
      ContainsInfix(a[1..], b, c);
    }
  }

  /** A lower-cased text never contains an upper-case ASCII letter, so no
   *  search string holding one can be found in it. */
  lemma {:induction false} LowerHidesUpper(s: string, sub: string, k: nat)
    requires k < |sub| && IsUpperAscii(sub[k])
    ensures !Contains(Lower(s), sub)
    decreases |s|
  {
    if |s| > 0 {
      assert Lower(s)[1..] == Lower(s[1..]);
      LowerHidesUpper(s[1..], sub, k);
    }
  }

  lemma {:induction false} DropWsEmptyIffBlank(s: string)
    ensures DropWs(s) == "" <==> IsBlank(s)
  {
    if |s| > 0 && IsWs(s[0]) {
      DropWsEmptyIffBlank(s[1..]);
      assert IsBlank(s) <==> IsBlank(s[1..]) by {
        if IsBlank(s[1..]) {
          forall i | 0 <= i < |s| ensures IsWs(s[i]) {
            if i > 0 { assert s[i] == s[1..][i - 1]; }
          }
        }
      }
    } else if |s| > 0 {
      assert !IsWs(s[0]);
    }
  }

  lemma {:induction false} DropWsEndEmptyIffBlank(s: string)
    ensures DropWsEnd(s) == "" <==> IsBlank(s)
  {
    if |s| > 0 && IsWs(s[|s| - 1]) {
      var p := s[..|s| - 1];
      DropWsEndEmptyIffBlank(p);
      assert IsBlank(s) <==> IsBlank(p) by {
        if IsBlank(p) {
          forall i | 0 <= i < |s| ensures IsWs(s[i]) {
            if i < |s| - 1 { assert s[i] == p[i]; }
          }
        }
      }
    } else if |s| > 0 {
      assert !IsWs(s[|s| - 1]);
    }
  }

  /** `s.trim().length === 0` exactly when every character of `s` is whitespace. */
  lemma TrimEmptyIffBlank(s: string)
    ensures Trim(s) == "" <==> IsBlank(s)
  {
    var d := DropWs(s);
    DropWsEmptyIffBlank(s);
    DropWsEndEmptyIffBlank(d);
    if d != "" {
      assert !IsWs(d[0]);
    }
  }
}
