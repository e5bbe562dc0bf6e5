/**
 * The replacement patterns of JavaScript's `String.prototype.replace`
 * (GetSubstitution in ECMA-262), for a pattern without capture groups.
 */
module Replacement {
  import opened Text

  /** The replacement text `repl` as `String.prototype.replace` expands it
   *  (GetSubstitution in ECMA-262) for a match `matched` of a pattern
   *  without capture groups, with `before` and `after` the text around the
   *  match: `$$` gives a dollar sign, `$&` the match, `` $` `` the text
   *  before it and `$'` the text after it; every other character, and a `$`
   *  not followed by one of those four, stands for itself. */
  function Substitution(repl: string, before: string, matched: string, after: string): (r: string)
    ensures '$' !in repl ==> r == repl
    decreases |repl|
  {
    if repl == [] then []
    else if repl[0] == '$' && |repl| >= 2 && IsPatternChar(repl[1]) then
      Piece(repl[1], before, matched, after) + Substitution(repl[2..], before, matched, after)
    else
      assert '$' !in repl ==> '$' !in repl[1..];
      [repl[0]] + Substitution(repl[1..], before, matched, after)
  }

  /** The characters that make a `$` the start of a replacement pattern. */
  predicate IsPatternChar(c: char) { c == '$' || c == '&' || c == '`' || c == '\'' }

  /** What the pattern `$c` stands for. */
  function Piece(c: char, before: string, matched: string, after: string): string
    requires IsPatternChar(c)
  {
    if c == '$' then "$" else if c == '&' then matched else if c == '`' then before else after
  }

  /** A trailing full stop, which no pattern follows, passes through the
   *  expansion unchanged. */
  lemma {:induction false} SubstitutionBeforeDot(u: string, before: string, matched: string, after: string)
    ensures Substitution(u + ".", before, matched, after) == Substitution(u, before, matched, after) + "."
    decreases |u|
  {
    var x := u + ".";
    if u == [] {
      assert x == ['.'] && x[1..] == [];
    } else if u[0] == '$' && |u| >= 2 && IsPatternChar(u[1]) {
      assert x[0] == '$' && x[1] == u[1] && x[2..] == u[2..] + ".";
      SubstitutionBeforeDot(u[2..], before, matched, after);
    } else if |u| == 1 {
      assert x[0] == u[0] && x[1] == '.' && !IsPatternChar('.') && x[1..] == ".";
      assert Substitution(".", before, matched, after) == ".";
    } else {
      assert x[0] == u[0] && x[1] == u[1] && x[1..] == u[1..] + ".";
      SubstitutionBeforeDot(u[1..], before, matched, after);
    }
  }

  /** The replacement `, <name>.` after a stem: the expanded name sits
   *  between ", " and the full stop, and a name free of `$` is kept as it
   *  is. */
  lemma NameAfterStem(stem: string, name: string, matched: string, after: string)
    ensures var r := stem + Substitution(", " + name + ".", stem, matched, after);
            && r == stem + ", " + Substitution(name, stem, matched, after) + "."
            && ('$' !in name ==> |r| == |stem| + |name| + 3 && r[..|stem|] == stem && Contains(r, name))
  {
    var expanded := Substitution(name, stem, matched, after);
    assert ", " + name + "." == ", " + (name + ".");
    CommaSpaceFirst(name + ".", stem, matched, after);
    SubstitutionBeforeDot(name, stem, matched, after);
    assert stem + (", " + (expanded + ".")) == (stem + ", ") + expanded + ".";
    ContainsInfix(stem + ", ", expanded, ".");
  }

  /** A leading ", " passes through the expansion unchanged. */
  lemma CommaSpaceFirst(w: string, before: string, matched: string, after: string)
    ensures Substitution(", " + w, before, matched, after) == ", " + Substitution(w, before, matched, after)
  {
    PlainFirst(' ', w, before, matched, after);
    assert ", " + w == [','] + ([' '] + w);
    PlainFirst(',', [' '] + w, before, matched, after);
  }

  /** A leading character other than `$` stands for itself. */
  lemma PlainFirst(c: char, w: string, before: string, matched: string, after: string)
    requires c != '$'
    ensures Substitution([c] + w, before, matched, after) == [c] + Substitution(w, before, matched, after)
  {
    assert ([c] + w)[0] == c && ([c] + w)[1..] == w;
  }
}
