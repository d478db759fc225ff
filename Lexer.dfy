// The tokenizer for the body of one declaration line and the scan that
// extracts a MATLAB file name from a function header line. The tokenizer
// is a scanner that, at each position, tries the alternatives in the
// order comment, string, identifier, number, punctuation; whitespace and
// characters no alternative accepts produce no token.

module Lexer {

  datatype TokenType =
    | ID | NUMBER | STRING | NEW | FORTRAN | INPUT | OUTPUT | INOUT
    | CLASS | TYPEDEF | CPU | GPU | PUNCT | NON_C_LINE | EOF

  datatype Token = Token(ttype: TokenType, value: string, line: int)

  // ---------------------------------------------------------------------
  // Keywords
  // ---------------------------------------------------------------------

  /** The token type of an identifier: its keyword's type, or ID. */
  function KeywordType(word: string): TokenType
  {
    if word == "new" then NEW
    else if word == "FORTRAN" then FORTRAN
    else if word == "input" then INPUT
    else if word == "output" then OUTPUT
    else if word == "inout" then INOUT
    else if word == "class" then CLASS
    else if word == "typedef" then TYPEDEF
    else if word == "cpu" then CPU
    else if word == "gpu" then GPU
    else ID
  }

  const Keywords: seq<string> := ["new", "FORTRAN", "input", "output", "inout", "class", "typedef", "cpu", "gpu"]

  /** Exactly the nine keywords get a type of their own; the nine types
      are distinct and none of them is ID, NUMBER, STRING or PUNCT. */
  lemma KeywordsExact(word: string)
    ensures KeywordType(word) != ID <==> word in Keywords
    ensures KeywordType(word) !in {NUMBER, STRING, PUNCT, NON_C_LINE, EOF}
    ensures forall k :: 0 <= k < |Keywords| ==> (KeywordType(Keywords[k]) == KeywordType(word) <==> Keywords[k] == word)
  {
    if word !in Keywords {
      assert KeywordType(word) == ID;
    }
  }

  // ---------------------------------------------------------------------
  // Character classes (ASCII, as in the regular expression)
  // ---------------------------------------------------------------------

  predicate IsIdentStart(c: char) { c == '_' || 'a' <= c <= 'z' || 'A' <= c <= 'Z' }
  predicate IsDigitChar(c: char) { '0' <= c <= '9' }
  predicate IsIdentChar(c: char) { IsIdentStart(c) || IsDigitChar(c) }
  predicate IsPunct(c: char) { c in "->()[],;*&=:." }
  predicate IsSpace(c: char) { c == ' ' || c == '\t' || c == '\r' }

  // ---------------------------------------------------------------------
  // The scanner: where each alternative ends
  // ---------------------------------------------------------------------

  /** The end of the run of characters satisfying the identifier-body
      class that starts at `i`. */
  function WordEnd(s: string, i: nat): (e: nat)
    requires i <= |s|
    ensures i <= e <= |s|
    ensures forall k :: i <= k < e ==> IsIdentChar(s[k])
    ensures e == |s| || !IsIdentChar(s[e])
    decreases |s| - i
  {
    if i < |s| && IsIdentChar(s[i]) then WordEnd(s, i + 1) else i
  }

  /** `s[j..]` begins with "::" followed by an identifier start. */
  predicate ScopeAt(s: string, j: nat)
  {
    j + 2 < |s| && s[j] == ':' && s[j + 1] == ':' && IsIdentStart(s[j + 2])
  }

  /** Extends an identifier over as many "::name" segments as follow. */
  function SegmentsEnd(s: string, j: nat): (e: nat)
    requires j <= |s|
    ensures j <= e <= |s| && !ScopeAt(s, e)
    decreases |s| - j
  {
    if ScopeAt(s, j) then SegmentsEnd(s, WordEnd(s, j + 3)) else j
  }

  /** The end of the identifier starting at `i`, or `i` when none does.
      An identifier may start with "::". */
  function IdentEnd(s: string, i: nat): (e: nat)
    requires i <= |s|
    ensures i <= e <= |s|
  {
    if i < |s| && IsIdentStart(s[i]) then SegmentsEnd(s, WordEnd(s, i + 1))
    else if ScopeAt(s, i) then SegmentsEnd(s, WordEnd(s, i + 3))
    else i
  }

  /** The first position at or after `i` holding a quote or a newline. */
  function QuoteEnd(s: string, i: nat): (e: nat)
    requires i <= |s|
    ensures i <= e <= |s|
    ensures forall k :: i <= k < e ==> s[k] != '\'' && s[k] != '\n'
    ensures e == |s| || s[e] == '\'' || s[e] == '\n'
    decreases |s| - i
  {
    if i < |s| && s[i] != '\'' && s[i] != '\n' then QuoteEnd(s, i + 1) else i
  }

  /** The end of the string literal opened at `i`: just past the closing
      quote, or at the end of the line when there is none. */
  function StringEnd(s: string, i: nat): (e: nat)
    requires i < |s| && s[i] == '\''
    ensures i < e <= |s|
  {
    var q := QuoteEnd(s, i + 1);
    if q < |s| && s[q] == '\'' then q + 1 else q
  }

  function NumberEnd(s: string, i: nat): (e: nat)
    requires i <= |s|
    ensures i <= e <= |s|
    ensures forall k :: i <= k < e ==> IsDigitChar(s[k])
    ensures e == |s| || !IsDigitChar(s[e])
    decreases |s| - i
  {
    if i < |s| && IsDigitChar(s[i]) then NumberEnd(s, i + 1) else i
  }

  predicate CommentAt(s: string, i: nat)
  {
    i + 1 < |s| && s[i] == '/' && s[i + 1] == '/'
  }

  /** One match of the scanner at `i`: the token it yields (none for
      whitespace or a character no alternative accepts) and where the
      next match starts. */
  datatype Step = Step(tok: seq<Token>, next: nat)

  function Scan(s: string, i: nat, line: int): (r: Step)
    requires i < |s|
    ensures i < r.next <= |s| && |r.tok| <= 1
  {
    if s[i] == '\'' then
      var e := StringEnd(s, i);
      Step([Token(STRING, s[i..e], line)], e)
    else if IdentEnd(s, i) > i then
      var e := IdentEnd(s, i);
      Step([Token(KeywordType(s[i..e]), s[i..e], line)], e)
    else if IsDigitChar(s[i]) then
      var e := NumberEnd(s, i);
      Step([Token(NUMBER, s[i..e], line)], e)
    else if IsPunct(s[i]) then
      Step([Token(PUNCT, [s[i]], line)], i + 1)
    else
      Step([], i + 1)
  }

  /** The tokens of `s` from position `i` on; a comment ends the line. */
  function Tokens(s: string, i: nat, line: int): seq<Token>
    requires i <= |s|
    decreases |s| - i
  {
    if i == |s| || CommentAt(s, i) then []
    else
      var r := Scan(s, i, line);
      r.tok + Tokens(s, r.next, line)
  }

  /** Tokenizes the body of a declaration line. */
  method TokenizeCLine(body: string, line: int) returns (toks: seq<Token>)
    ensures toks == Tokens(body, 0, line)
  {
    toks := [];
    var i := 0;
    while i < |body|
      invariant 0 <= i <= |body|
      invariant toks + Tokens(body, i, line) == Tokens(body, 0, line)
      decreases |body| - i
    {
      if CommentAt(body, i) {
        break;
      }
      var r := Scan(body, i, line);
      toks := toks + r.tok;
      i := r.next;
    }
  }

  // ---------------------------------------------------------------------
  // Properties of the token stream
  // ---------------------------------------------------------------------

  /** A well-formed identifier: a word, optionally preceded by "::",
      followed by "::word" segments. */
  predicate IsWord(w: string)
  {
    |w| > 0 && IsIdentStart(w[0]) && forall k :: 1 <= k < |w| ==> IsIdentChar(w[k])
  }

  predicate IsScopedName(w: string)
    decreases |w|
  {
    IsWord(w) ||
    (exists k :: 0 < k <= |w| - 3 && IsScopedName(w[..k]) && w[k] == ':' && w[k + 1] == ':' && IsWord(w[k + 2..]))
  }

  predicate IsIdent(w: string)
  {
    IsScopedName(w) || (|w| > 2 && w[0] == ':' && w[1] == ':' && IsScopedName(w[2..]))
  }

  /** What each kind of token looks like. */
  predicate WellFormed(t: Token, line: int)
  {
    t.line == line && |t.value| > 0 &&
    match t.ttype
    case PUNCT => |t.value| == 1 && IsPunct(t.value[0])
    case NUMBER => forall k :: 0 <= k < |t.value| ==> IsDigitChar(t.value[k])
    case STRING =>
      t.value[0] == '\'' &&
      (forall k :: 1 <= k < |t.value| - 1 ==> t.value[k] != '\'' && t.value[k] != '\n') &&
      (|t.value| > 1 ==> t.value[|t.value| - 1] != '\n')
    case NON_C_LINE => false
    case EOF => false
    case _ => IsIdent(t.value) && KeywordType(t.value) == t.ttype
  }

  /** The scanned segments from `a` to `b` form a scoped name ending at `b`. */
  lemma {:induction false} SegmentsScoped(s: string, a: nat, j: nat)
    requires a < j <= |s| && IsScopedName(s[a..j])
    ensures IsScopedName(s[a..SegmentsEnd(s, j)])
    decreases |s| - j
  {
    if ScopeAt(s, j) {
      var e := WordEnd(s, j + 3);
      var w := s[a..e];
      assert w[..j - a] == s[a..j];
      assert w[j - a + 2..] == s[j + 2..e];
      assert IsWord(s[j + 2..e]);
      assert IsScopedName(w);
      SegmentsScoped(s, a, e);
    }
  }

  lemma IdentWellFormed(s: string, i: nat)
    requires i < |s| && IdentEnd(s, i) > i
    ensures IsIdent(s[i..IdentEnd(s, i)])
  {
    if IsIdentStart(s[i]) {
      var e := WordEnd(s, i + 1);
      assert IsWord(s[i..e]);
      SegmentsScoped(s, i, e);
    } else {
      var e := WordEnd(s, i + 3);
      assert IsWord(s[i + 2..e]);
      SegmentsScoped(s, i + 2, e);
      var w := s[i..IdentEnd(s, i)];
      assert w[2..] == s[i + 2..IdentEnd(s, i)];
    }
  }

  /** Every token is non-empty, carries the given line, and has the shape
      of its type: a single punctuation character, a digit run, a quoted
      string that stops at the next quote or the end of the line, or an
      identifier whose type is its keyword's. */
  lemma {:induction false} TokensWellFormed(s: string, i: nat, line: int)
    requires i <= |s|
    ensures forall t :: t in Tokens(s, i, line) ==> WellFormed(t, line)
    decreases |s| - i
  {
    if i < |s| && !CommentAt(s, i) {
      ScanWellFormed(s, i, line);
      TokensWellFormed(s, Scan(s, i, line).next, line);
    }
  }

  lemma ScanWellFormed(s: string, i: nat, line: int)
    requires i < |s|
    ensures forall t :: t in Scan(s, i, line).tok ==> WellFormed(t, line)
  {
    if s[i] == '\'' {
      var v := s[i..StringEnd(s, i)];
      assert forall k :: 1 <= k < |v| - 1 ==> v[k] == s[i + k];
    } else if IdentEnd(s, i) > i {
      IdentWellFormed(s, i);
      KeywordsExact(s[i..IdentEnd(s, i)]);
    }
  }

  /** A "//" outside a string literal ends the line: whatever follows it
      contributes no token. */
  lemma {:induction false} CommentEndsLine(a: string, rest: string, i: nat, line: int)
    requires i <= |a| && forall k :: i <= k < |a| ==> a[k] != '\''
    ensures Tokens(a + "//" + rest, i, line) == Tokens(a, i, line)
    decreases |a| - i
  {
    var s := a + "//" + rest;
    assert s[..|a|] == a;
    assert s[|a|] == '/' && s[|a| + 1] == '/';
    if i == |a| {
      assert CommentAt(s, i);
    } else if CommentAt(a, i) {
      assert s[i] == a[i] && s[i + 1] == a[i + 1];
    } else if i + 1 == |a| && a[i] == '/' {
      assert CommentAt(s, i);
      assert Tokens(a, i, line) == Tokens(a, i + 1, line);
    } else {
      assert s[i] == a[i];
      assert i + 1 < |a| ==> s[i + 1] == a[i + 1];
      ScanAgrees(a, s, i, line);
      CommentEndsLine(a, rest, Scan(a, i, line).next, line);
    }
  }

  /** Away from a quote, one match inside `a` is the same match inside an
      extension of `a` that continues with '/'. */
  lemma ScanAgrees(a: string, s: string, i: nat, line: int)
    requires i < |a| < |s| && s[..|a|] == a && s[|a|] == '/' && a[i] != '\''
    ensures Scan(s, i, line) == Scan(a, i, line)
  {
    assert s[i] == a[i];
    WordsAgree(a, s, i);
    NumbersAgree(a, s, i);
    var e := Scan(a, i, line).next;
    assert s[i..e] == a[i..e];
  }

  /** Scanning an identifier inside `a` gives the same end in `a` and in
      any `s` that extends `a` with a character outside identifiers. */
  lemma WordsAgree(a: string, s: string, i: nat)
    requires i < |a| < |s| && s[..|a|] == a && s[|a|] == '/'
    ensures IdentEnd(s, i) == IdentEnd(a, i)
  {
    forall j | i <= j <= |a|
      ensures WordEnd(s, j) == WordEnd(a, j)
    {
      WordEndAgrees(a, s, j);
    }
    forall j | i <= j <= |a|
      ensures SegmentsEnd(s, j) == SegmentsEnd(a, j)
    {
      SegmentsEndAgrees(a, s, j);
    }
  }

  lemma {:induction false} WordEndAgrees(a: string, s: string, j: nat)
    requires j <= |a| < |s| && s[..|a|] == a && s[|a|] == '/'
    ensures WordEnd(s, j) == WordEnd(a, j)
    decreases |a| - j
  {
    if j < |a| {
      assert s[j] == a[j];
      if IsIdentChar(a[j]) {
        WordEndAgrees(a, s, j + 1);
      }
    }
  }

  lemma {:induction false} SegmentsEndAgrees(a: string, s: string, j: nat)
    requires j <= |a| < |s| && s[..|a|] == a && s[|a|] == '/'
    ensures SegmentsEnd(s, j) == SegmentsEnd(a, j)
    decreases |a| - j
  {
    assert ScopeAt(s, j) <==> ScopeAt(a, j) by {
      if j + 2 < |a| {
        assert s[j] == a[j] && s[j + 1] == a[j + 1] && s[j + 2] == a[j + 2];
      } else if j + 2 == |a| {
        assert !IsIdentStart(s[j + 2]);
      } else if j + 1 == |a| {
        assert s[j + 1] == '/';
      } else {
        assert j == |a| && s[j] == '/';
      }
    }
    if ScopeAt(a, j) {
      WordEndAgrees(a, s, j + 3);
      SegmentsEndAgrees(a, s, WordEnd(a, j + 3));
    }
  }

  lemma {:induction false} NumbersAgree(a: string, s: string, j: nat)
    requires j <= |a| < |s| && s[..|a|] == a && s[|a|] == '/'
    ensures NumberEnd(s, j) == NumberEnd(a, j)
    decreases |a| - j
  {
    if j < |a| {
      assert s[j] == a[j];
      if IsDigitChar(a[j]) {
        NumbersAgree(a, s, j + 1);
      }
    }
  }

  // ---------------------------------------------------------------------
  // File name of a function header line
  // ---------------------------------------------------------------------

  /** Letters, digits and '_' (ASCII). */
  predicate IsNameChar(c: char) { 'a' <= c <= 'z' || 'A' <= c <= 'Z' || '0' <= c <= '9' || c == '_' }

  /** The position of the first '(' at or after `i`, or the length. */
  function ParenPos(t: string, i: nat): (p: nat)
    requires i <= |t|
    ensures i <= p <= |t|
    ensures forall k :: i <= k < p ==> t[k] != '('
    ensures p == |t| || t[p] == '('
    decreases |t| - i
  {
    if i == |t| || t[i] == '(' then i else ParenPos(t, i + 1)
  }

  /** Walking back from `p` over characters outside names. */
  function NameEnd(t: string, p: nat): (e: nat)
    requires p <= |t|
    ensures e <= p
    ensures forall k :: e <= k < p ==> !IsNameChar(t[k])
    ensures e == 0 || IsNameChar(t[e - 1])
  {
    if p == 0 || IsNameChar(t[p - 1]) then p else NameEnd(t, p - 1)
  }

  /** Walking back from `e` over name characters. */
  function NameStart(t: string, e: nat): (s: nat)
    requires e <= |t|
    ensures s <= e
    ensures forall k :: s <= k < e ==> IsNameChar(t[k])
    ensures s == 0 || !IsNameChar(t[s - 1])
  {
    if e == 0 || !IsNameChar(t[e - 1]) then e else NameStart(t, e - 1)
  }

  function FnameOf(t: string): string
  {
    var e := NameEnd(t, ParenPos(t, 0));
    t[NameStart(t, e)..e] + ".m"
  }

  /** The split of a header line the scan finds: `p` is the first '('
      (or the end), `t[e..p]` holds no name character and `t[e-1]` is
      one, and `t[s..e]` is a maximal run of name characters. */
  predicate HeaderSplit(t: string, s: nat, e: nat, p: nat)
  {
    s <= e <= p <= |t| &&
    (forall k :: 0 <= k < p ==> t[k] != '(') && (p == |t| || t[p] == '(') &&
    (forall k :: e <= k < p ==> !IsNameChar(t[k])) && (e == 0 || IsNameChar(t[e - 1])) &&
    (forall k :: s <= k < e ==> IsNameChar(t[k])) && (s == 0 || !IsNameChar(t[s - 1]))
  }

  /** The file name is the name of the unique split, followed by ".m". */
  lemma FnameExact(t: string, s: nat, e: nat, p: nat)
    ensures HeaderSplit(t, NameStart(t, NameEnd(t, ParenPos(t, 0))), NameEnd(t, ParenPos(t, 0)), ParenPos(t, 0))
    ensures HeaderSplit(t, s, e, p) ==> FnameOf(t) == t[s..e] + ".m"
  {
    if HeaderSplit(t, s, e, p) {
      var p' := ParenPos(t, 0);
      assert p == p';
      var e' := NameEnd(t, p);
      assert e == e';
      var s' := NameStart(t, e);
      assert s == s';
    }
  }

  /** Extracts the MATLAB file name from the tail of a function header. */
  method FnameScanLine(text: string) returns (name: string)
    ensures name == FnameOf(text)
  {
    var paren := 0;
    while paren < |text| && text[paren] != '('
      invariant paren <= |text| && ParenPos(text, paren) == ParenPos(text, 0)
      decreases |text| - paren
    {
      paren := paren + 1;
    }
    var end := paren;
    while end > 0 && !IsNameChar(text[end - 1])
      invariant end <= paren && NameEnd(text, end) == NameEnd(text, paren)
    {
      end := end - 1;
    }
    var start := end;
    while start > 0 && IsNameChar(text[start - 1])
      invariant start <= end && NameStart(text, start) == NameStart(text, end)
    {
      start := start - 1;
    }
    name := text[start..end] + ".m";
  }
}
