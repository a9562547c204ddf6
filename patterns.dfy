/** The fragment of Python's `re` that the compliance rules use: literals,
    `\s+`, `\d+`, `.*` and top-level alternation `a|b|c`, with `re.search`
    meaning "some alternative matches starting at some position". */
module Patterns {
  import opened Text

  /** One element of a pattern: a literal, `\s+`, `\d+` or `.*`
      (`.` does not match a newline). */
  datatype Token = Lit(w: string) | Spaces | Digits | AnyRun

  /** An alternation of token sequences. */
  type Pattern = seq<seq<Token>>

  predicate NotNewline(c: char) { c != '\n' }

  /** The tokens match a piece of `s` that starts at `i`. */
  predicate MatchAt(toks: seq<Token>, s: string, i: nat)
    requires i <= |s|
    decreases |toks|, 1, 0
  {
    if toks == [] then true
    else match toks[0]
      case Lit(w) => i + |w| <= |s| && s[i..i + |w|] == w && MatchAt(toks[1..], s, i + |w|)
      case Spaces => i < |s| && IsSpace(s[i]) && StarThen(toks[1..], s, i + 1, IsSpace)
      case Digits => i < |s| && IsDigit(s[i]) && StarThen(toks[1..], s, i + 1, IsDigit)
      case AnyRun => StarThen(toks[1..], s, i, NotNewline)
  }

  /** Zero or more characters of class `cls` starting at `j`, then `rest`. */
  predicate StarThen(rest: seq<Token>, s: string, j: nat, cls: char -> bool)
    requires j <= |s|
    decreases |rest| + 1, 0, |s| - j
  {
    MatchAt(rest, s, j) || (j < |s| && cls(s[j]) && StarThen(rest, s, j + 1, cls))
  }

  /** `re.search(p, s)` succeeds. */
  predicate Search(p: Pattern, s: string) {
    exists j, k :: 0 <= j <= |s| && 0 <= k < |p| && MatchAt(p[k], s, j)
  }

  /** A pattern that is one literal is Python's substring test. */
  lemma LiteralSearchIsContains(w: string, s: string)
    ensures Search([[Lit(w)]], s) <==> Contains(s, w)
  {
    if Contains(s, w) {
      var i :| 0 <= i <= |s| - |w| && OccursAt(s, w, i);
      var p: Pattern := [[Lit(w)]];
      assert p[0][1..] == [];
      assert MatchAt(p[0], s, i);
    }
    if Search([[Lit(w)]], s) {
      var p: Pattern := [[Lit(w)]];
      var j, k :| 0 <= j <= |s| && 0 <= k < |p| && MatchAt(p[k], s, j);
      assert OccursAt(s, w, j);
    }
  }

  /** An alternation of plain literals is "one of them occurs". */
  lemma {:induction false} LiteralsSearch(ws: seq<string>, s: string)
    ensures Search(Literals(ws), s) <==> exists w :: w in ws && Contains(s, w)
  {
    var p := Literals(ws);
    if Search(p, s) {
      var j, k :| 0 <= j <= |s| && 0 <= k < |p| && MatchAt(p[k], s, j);
      assert MatchAt([Lit(ws[k])], s, j);
      assert OccursAt(s, ws[k], j);
      assert ws[k] in ws && Contains(s, ws[k]);
    }
    if w :| w in ws && Contains(s, w) {
      var k :| 0 <= k < |ws| && ws[k] == w;
      var i :| 0 <= i <= |s| - |w| && OccursAt(s, w, i);
      assert p[k][1..] == [];
      assert MatchAt(p[k], s, i);
    }
  }

  function Literals(ws: seq<string>): (p: Pattern)
    ensures |p| == |ws| && forall k :: 0 <= k < |ws| ==> p[k] == [Lit(ws[k])]
  {
    if ws == [] then [] else [[Lit(ws[0])]] + Literals(ws[1..])
  }

  /** The alternative cannot match the empty string: it starts with a
      non-empty literal, `\s+` or `\d+`. */
  predicate NeedsAChar(toks: seq<Token>) {
    toks != [] && (toks[0].Spaces? || toks[0].Digits? || (toks[0].Lit? && toks[0].w != []))
  }

  /** A pattern whose alternatives each need a character finds nothing in
      the empty string. */
  lemma NothingInEmpty(p: Pattern)
    requires forall k :: 0 <= k < |p| ==> NeedsAChar(p[k])
    ensures !Search(p, "")
  {
  }
}
