/**
 The SQL tokenizer of the cold-query gate (pkg/coldstore/fitness.go) and the
 escaping it undoes (pkg/coldstore/query.go).

 Go strings are bytes; here a text is a sequence of characters. Every character
 the tokenizer compares with is ASCII, so both views cut a text at the same places.
 */
module SqlLexer {
  import opened Common

  datatype Token =
    | Ident(val: string)
    | Str(val: string)
    | Num(val: string)
    | Op(val: string)
    | LParen
    | RParen
    | Comma
    | KW(val: string)

  predicate IsBlank(c: char) { c == ' ' || c == '\t' || c == '\n' || c == '\r' }

  predicate IsDigit(c: char) { '0' <= c <= '9' }

  predicate IsLetter(c: char) { c == '_' || 'a' <= c <= 'z' || 'A' <= c <= 'Z' }

  predicate IsWordChar(c: char) { IsLetter(c) || c == '.' || IsDigit(c) }

  predicate IsNumChar(c: char) { IsDigit(c) || c == '.' }

  predicate NotNewline(c: char) { c != '\n' }

  function Upper(c: char): char {
    if 'a' <= c <= 'z' then c - 'a' + 'A' else c
  }

  function ToUpper(s: string): (u: string)
    ensures |u| == |s| && forall i | 0 <= i < |s| :: u[i] == Upper(s[i])
  {
    seq(|s|, i requires 0 <= i < |s| => Upper(s[i]))
  }

  const KEYWORDS: set<string> := {
    "SELECT", "FROM", "WHERE", "AND", "OR", "NOT", "BETWEEN", "IN", "LIKE", "IS",
    "ORDER", "BY", "LIMIT", "HAVING", "GROUP", "AS", "NULL", "TRUE", "FALSE",
    "UNION", "EXCEPT", "INTERSECT"
  }

  function WordToken(w: string): Token {
    if ToUpper(w) in KEYWORDS then KW(ToUpper(w)) else Ident(w)
  }

  /** How many leading characters of `s` satisfy `p`. */
  ghost function Span(s: string, p: char -> bool): (n: nat)
    ensures n <= |s|
    ensures forall i | 0 <= i < n :: p(s[i])
    ensures n < |s| ==> !p(s[n])
  {
    if s == "" || !p(s[0]) then 0 else 1 + Span(s[1..], p)
  }

  /** Length of a literal's body: up to the first quote that is not doubled. */
  ghost function LitLen(s: string): (n: nat)
    ensures n <= |s|
  {
    if s == "" then 0
    else if s[0] != '\'' then 1 + LitLen(s[1..])
    else if |s| > 1 && s[1] == '\'' then 2 + LitLen(s[2..])
    else 0
  }

  /** Characters skipped before the end mark of a block comment. */
  ghost function BlockLen(s: string): (n: nat)
    ensures n <= |s|
  {
    if |s| >= 2 && (s[0] != '*' || s[1] != '/') then 1 + BlockLen(s[1..]) else 0
  }

  /** `strings.ReplaceAll(val, "''", "'")`. */
  function Unescape(s: string): string {
    if s == "" then ""
    else if |s| > 1 && s[0] == '\'' && s[1] == '\'' then "'" + Unescape(s[2..])
    else [s[0]] + Unescape(s[1..])
  }

  /** `strings.ReplaceAll(s, "'", "''")`. */
  function Escape(s: string): string {
    if s == "" then ""
    else if s[0] == '\'' then "''" + Escape(s[1..])
    else [s[0]] + Escape(s[1..])
  }

  datatype Lexeme = Lexeme(toks: seq<Token>, len: nat)

  /** One turn of the tokenizer's loop on a non-empty text: what it emits and how far it moves. */
  ghost function LexOne(s: string): (r: Lexeme)
    requires s != ""
    ensures 1 <= r.len <= |s|
  {
    var c := s[0];
    if IsBlank(c) then Lexeme([], 1)
    else if c == '-' && |s| > 1 && s[1] == '-' then Lexeme([], 2 + Span(s[2..], NotNewline))
    else if c == '/' && |s| > 1 && s[1] == '*' then Lexeme([], Min(4 + BlockLen(s[2..]), |s|))
    else if c == '\'' then
      var n := LitLen(s[1..]);
      Lexeme([Str(Unescape(s[1..][..n]))], Min(n + 2, |s|))
    else if c == '(' then Lexeme([LParen], 1)
    else if c == ')' then Lexeme([RParen], 1)
    else if c == ',' then Lexeme([Comma], 1)
    else if c == '=' then Lexeme([Op("=")], 1)
    else if c == '<' || c == '>' || c == '!' then
      if |s| > 1 && (s[1] == '=' || s[1] == '>') then Lexeme([Op(s[..2])], 2) else Lexeme([Op([c])], 1)
    else if c == '*' || c == '+' || c == '-' || c == '/' then Lexeme([Op([c])], 1)
    else if IsDigit(c) then
      var n := Span(s, IsNumChar);
      Lexeme([Num(s[..n])], n)
    else if IsLetter(c) then
      var n := Span(s, IsWordChar);
      Lexeme([WordToken(s[..n])], n)
    else Lexeme([], 1)
  }

  /** The token stream of a text. */
  ghost function Lex(s: string): seq<Token>
    decreases |s|
  {
    if s == "" then [] else LexOne(s).toks + Lex(s[LexOne(s).len..])
  }

  // ------------------------------------------------------------------
  // The tokenizer's loops
  // ------------------------------------------------------------------

  method ScanWhile(sql: string, i: nat, p: char -> bool) returns (j: nat)
    requires i <= |sql|
    ensures i <= j <= |sql| && j - i == Span(sql[i..], p)
  {
    j := i;
    while j < |sql| && p(sql[j])
      invariant i <= j <= |sql|
      invariant forall k | i <= k < j :: p(sql[k])
    {
      j := j + 1;
    }
    SpanIs(sql[i..], p, j - i);
  }

  lemma SpanIs(s: string, p: char -> bool, n: nat)
    requires n <= |s|
    requires forall k | 0 <= k < n :: p(s[k])
    requires n < |s| ==> !p(s[n])
    ensures Span(s, p) == n
  {
  }

  method ScanLiteral(sql: string, start: nat) returns (i: nat)
    requires start <= |sql|
    ensures start <= i <= |sql| && i - start == LitLen(sql[start..])
  {
    i := start;
    while i < |sql|
      invariant start <= i <= |sql|
      invariant LitLen(sql[start..]) == i - start + LitLen(sql[i..])
    {
      assert sql[i..][1..] == sql[i + 1..];
      if sql[i] == '\'' {
        if i + 1 < |sql| && sql[i + 1] == '\'' {
          assert sql[i..][2..] == sql[i + 2..];
          i := i + 2;
        } else {
          break;
        }
      } else {
        i := i + 1;
      }
    }
  }

  method ScanBlock(sql: string, start: nat) returns (i: nat)
    requires start <= |sql|
    ensures start <= i <= |sql| && i - start == BlockLen(sql[start..])
  {
    i := start;
    while i + 1 < |sql| && (sql[i] != '*' || sql[i + 1] != '/')
      invariant start <= i <= |sql|
      invariant BlockLen(sql[start..]) == i - start + BlockLen(sql[i..])
    {
      assert sql[i..][1..] == sql[i + 1..];
      i := i + 1;
    }
  }

  lemma LexAdvance(sql: string, i: nat, n: nat, toks: seq<Token>, out: seq<Token>)
    requires i < |sql| && LexOne(sql[i..]) == Lexeme(toks, n)
    ensures i + n <= |sql| && out + Lex(sql[i..]) == (out + toks) + Lex(sql[i + n..])
  {
    assert sql[i..][n..] == sql[i + n..];
  }

  /** `tokenize`. */
  method Tokenize(sql: string) returns (out: seq<Token>)
    ensures out == Lex(sql)
  {
    hide LexOne;
    out := [];
    var i: nat := 0;
    ghost var todo := Lex(sql);
    assert sql[0..] == sql;
    while i < |sql|
      invariant i <= |sql| && todo == Lex(sql[i..])
      invariant out + todo == Lex(sql)
    {
      var toks, j := LexAt(sql, i);
      LexAdvance(sql, i, j - i, toks, out);
      out := out + toks;
      i := j;
      todo := Lex(sql[j..]);
    }
  }

  /** The loop body of `tokenize`: dispatch on the character at `i`. */
  method LexAt(sql: string, i: nat) returns (toks: seq<Token>, next: nat)
    requires i < |sql|
    ensures i < next <= |sql| && LexOne(sql[i..]) == Lexeme(toks, next - i)
  {
    hide Lex, Span, LitLen, BlockLen, Unescape, WordToken;
    var c := sql[i];
    if IsBlank(c) {
      return [], i + 1;
    }
    if c == '-' && i + 1 < |sql| && sql[i + 1] == '-' {
      assert sql[i..][2..] == sql[i + 2..];
      var j := ScanWhile(sql, i + 2, NotNewline);
      return [], j;
    }
    if c == '/' && i + 1 < |sql| && sql[i + 1] == '*' {
      assert sql[i..][2..] == sql[i + 2..];
      var j := ScanBlock(sql, i + 2);
      return [], Min(j + 2, |sql|);
    }
    if c == '\'' {
      assert sql[i..][1..] == sql[i + 1..];
      var j := ScanLiteral(sql, i + 1);
      assert sql[i + 1..][..j - i - 1] == sql[i + 1..j];
      return [Str(Unescape(sql[i + 1..j]))], Min(j + 1, |sql|);
    }
    if c == '(' { return [LParen], i + 1; }
    if c == ')' { return [RParen], i + 1; }
    if c == ',' { return [Comma], i + 1; }
    if c == '=' { return [Op("=")], i + 1; }
    if c == '<' || c == '>' || c == '!' {
      if i + 1 < |sql| && (sql[i + 1] == '=' || sql[i + 1] == '>') {
        assert sql[i..][..2] == sql[i..i + 2];
        return [Op(sql[i..i + 2])], i + 2;
      }
      return [Op([c])], i + 1;
    }
    if c == '*' || c == '+' || c == '-' || c == '/' {
      return [Op([c])], i + 1;
    }
    if IsDigit(c) {
      var j := ScanWhile(sql, i, IsNumChar);
      assert sql[i..][..j - i] == sql[i..j];
      return [Num(sql[i..j])], j;
    }
    if IsLetter(c) {
      var j := ScanWhile(sql, i, IsWordChar);
      assert sql[i..][..j - i] == sql[i..j];
      return [WordToken(sql[i..j])], j;
    }
    return [], i + 1;
  }

  // ------------------------------------------------------------------
  // Lexing printed text piece by piece
  // ------------------------------------------------------------------

  lemma LexBlank(c: char, rest: string)
    requires IsBlank(c)
    ensures Lex([c] + rest) == Lex(rest)
  {
    assert ([c] + rest)[1..] == rest;
  }

  lemma LexSymbol(c: char, rest: string)
    requires c in "(),="
    ensures Lex([c] + rest) == [SymbolToken(c)] + Lex(rest)
  {
    assert ([c] + rest)[1..] == rest;
  }

  function SymbolToken(c: char): Token {
    if c == '(' then LParen else if c == ')' then RParen else if c == ',' then Comma else Op([c])
  }

  lemma LexOneWord(w: string, rest: string)
    requires w != "" && IsLetter(w[0]) && forall i | 0 <= i < |w| :: IsWordChar(w[i])
    requires rest == "" || !IsWordChar(rest[0])
    ensures LexOne(w + rest) == Lexeme([WordToken(w)], |w|)
  {
    hide LitLen, BlockLen, Unescape, WordToken;
    var s := w + rest;
    SpanIs(s, IsWordChar, |w|);
    assert s[..|w|] == w;
  }

  lemma LexWord(w: string, rest: string)
    requires w != "" && IsLetter(w[0]) && forall i | 0 <= i < |w| :: IsWordChar(w[i])
    requires rest == "" || !IsWordChar(rest[0])
    ensures Lex(w + rest) == [WordToken(w)] + Lex(rest)
  {
    LexOneWord(w, rest);
    hide LexOne, WordToken;
    assert (w + rest)[|w|..] == rest;
  }

  lemma LexNumber(w: string, rest: string)
    requires w != "" && IsDigit(w[0]) && forall i | 0 <= i < |w| :: IsNumChar(w[i])
    requires rest == "" || !IsNumChar(rest[0])
    ensures Lex(w + rest) == [Num(w)] + Lex(rest)
  {
    hide LitLen, BlockLen, Unescape, WordToken;
    var s := w + rest;
    SpanIs(s, IsNumChar, |w|);
    assert s[..|w|] == w && s[|w|..] == rest;
  }

  /** The body `raw` closes at its own end: scanned up to a lone quote, exactly `raw` is read. */
  ghost predicate Closed(raw: string) {
    forall rest: string | rest == "" || rest[0] != '\'' :: LitLen(raw + ("'" + rest)) == |raw|
  }

  lemma LexLiteral(raw: string, rest: string)
    requires Closed(raw)
    requires rest == "" || rest[0] != '\''
    ensures Lex("'" + (raw + ("'" + rest))) == [Str(Unescape(raw))] + Lex(rest)
  {
    var body := raw + ("'" + rest);
    var s := "'" + body;
    assert s[1..] == body && body[..|raw|] == raw;
    assert s[|raw| + 2..] == rest;
  }

  lemma {:induction false} PlainLitLen(raw: string, rest: string)
    requires '\'' !in raw
    requires rest == "" || rest[0] != '\''
    ensures LitLen(raw + ("'" + rest)) == |raw|
  {
    var s := raw + ("'" + rest);
    if raw != "" {
      PlainLitLen(raw[1..], rest);
      assert s[1..] == raw[1..] + ("'" + rest);
    }
  }

  lemma {:induction false} PlainUnescape(raw: string)
    requires '\'' !in raw
    ensures Unescape(raw) == raw
  {
    if raw != "" {
      PlainUnescape(raw[1..]);
    }
  }

  /** Text without quotes is closed and stands for itself. */
  lemma PlainClosed(raw: string)
    requires '\'' !in raw
    ensures Closed(raw) && Unescape(raw) == raw
  {
    PlainUnescape(raw);
    forall rest: string | rest == "" || rest[0] != '\'' ensures LitLen(raw + ("'" + rest)) == |raw| {
      PlainLitLen(raw, rest);
    }
  }

  /** Escaped text, whatever its quotes, is closed, and unescaping gives the text back. */
  lemma {:induction false} EscapeClosed(x: string)
    ensures Closed(Escape(x)) && Unescape(Escape(x)) == x
  {
    if x != "" {
      EscapeClosed(x[1..]);
      var raw := Escape(x);
      var tail := Escape(x[1..]);
      var head := if x[0] == '\'' then "''" else [x[0]];
      assert raw == head + tail && raw[|head|..] == tail;
      forall rest: string | rest == "" || rest[0] != '\''
        ensures LitLen(raw + ("'" + rest)) == |raw|
      {
        assert (raw + ("'" + rest))[|head|..] == tail + ("'" + rest);
      }
    }
  }

  /** Escaping is injective, so no two filters print alike. */
  lemma EscapeInjective(x: string, y: string)
    requires Escape(x) == Escape(y)
    ensures x == y
  {
    EscapeClosed(x);
    EscapeClosed(y);
  }

  /** A plain character in front of closed text (the `$.` of a label path is two of them). */
  lemma PrefixClosed(c: char, raw: string)
    requires c != '\'' && Closed(raw)
    ensures Closed([c] + raw) && Unescape([c] + raw) == [c] + Unescape(raw)
  {
    var full := [c] + raw;
    assert full[1..] == raw;
    forall rest: string | rest == "" || rest[0] != '\'' ensures LitLen(full + ("'" + rest)) == |full| {
      var s := full + ("'" + rest);
      assert s[1..] == raw + ("'" + rest);
    }
  }

  // ------------------------------------------------------------------
  // Tokenizing inverts printing
  // ------------------------------------------------------------------

  lemma LexLineComment(body: string, rest: string)
    requires '\n' !in body
    ensures Lex("--" + (body + ("\n" + rest))) == Lex(rest)
  {
    hide LitLen, BlockLen, Unescape, WordToken;
    var after := body + ("\n" + rest);
    var s := "--" + after;
    assert s[2..] == after && after[|body|..] == "\n" + rest;
    SpanIs(after, NotNewline, |body|);
    assert s[2 + |body|..] == "\n" + rest;
    LexBlank('\n', rest);
  }

  /** A text in which no `*` is followed by a `/`. */
  predicate NoEndMark(body: string) {
    forall i | 0 <= i < |body| - 1 :: body[i] != '*' || body[i + 1] != '/'
  }

  lemma {:induction false} BlockLenIs(body: string, rest: string)
    requires NoEndMark(body)
    ensures BlockLen(body + ("*/" + rest)) == |body|
  {
    var s := body + ("*/" + rest);
    if body == "" {
      assert s[0] == '*' && s[1] == '/';
    } else {
      assert s[1..] == body[1..] + ("*/" + rest);
      assert s[0] != '*' || s[1] != '/';
      BlockLenIs(body[1..], rest);
    }
  }

  lemma LexBlockComment(body: string, rest: string)
    requires NoEndMark(body)
    ensures Lex("/*" + (body + ("*/" + rest))) == Lex(rest)
  {
    hide Span, LitLen, Unescape, WordToken, NoEndMark;
    var s := "/*" + (body + ("*/" + rest));
    assert s[2..] == body + ("*/" + rest);
    BlockLenIs(body, rest);
    assert s[4 + |body|..] == rest;
  }

  /** What tokens may be apart by: blanks and comments. */
  datatype Gap = Space(c: char) | LineComment(body: string) | BlockComment(body: string)
  {
    predicate Ok() {
      match this
      case Space(c) => IsBlank(c)
      case LineComment(body) => '\n' !in body
      case BlockComment(body) => NoEndMark(body)
    }
  }

  function GapText(gaps: seq<Gap>, rest: string): string {
    if gaps == [] then rest
    else match gaps[0]
      case Space(c) => [c] + GapText(gaps[1..], rest)
      case LineComment(body) => "--" + (body + ("\n" + GapText(gaps[1..], rest)))
      case BlockComment(body) => "/*" + (body + ("*/" + GapText(gaps[1..], rest)))
  }

  lemma {:induction false} GapsVanish(gaps: seq<Gap>, rest: string)
    requires forall g | g in gaps :: g.Ok()
    ensures Lex(GapText(gaps, rest)) == Lex(rest)
  {
    hide Lex;
    if gaps != [] {
      var after := GapText(gaps[1..], rest);
      assert gaps[0].Ok();
      GapsVanish(gaps[1..], rest);
      match gaps[0]
      case Space(c) => LexBlank(c, after);
      case LineComment(body) => LexLineComment(body, after);
      case BlockComment(body) => LexBlockComment(body, after);
    }
  }

  predicate IsWord(w: string) {
    w != "" && IsLetter(w[0]) && forall i | 0 <= i < |w| :: IsWordChar(w[i])
  }

  const OPERATORS: set<string> := {"=", "<", ">", "!", "<=", "<>", ">=", ">>", "!=", "!>", "*", "+", "-", "/"}

  /** The ways to write a token: a keyword in any case, a literal with its quotes doubled. */
  predicate Spells(w: string, t: Token) {
    match t
    case Ident(v) => w == v && IsWord(w) && ToUpper(w) !in KEYWORDS
    case KW(v) => v in KEYWORDS && IsWord(w) && ToUpper(w) == v
    case Str(v) => w == "'" + (Escape(v) + "'")
    case Num(v) => w == v && w != "" && IsDigit(w[0]) && forall i | 0 <= i < |w| :: IsNumChar(w[i])
    case Op(v) => w == v && v in OPERATORS
    case LParen => w == "("
    case RParen => w == ")"
    case Comma => w == ","
  }

  lemma LexSpelledLiteral(v: string, rest: string)
    requires rest == "" || rest[0] != '\''
    ensures Lex("'" + (Escape(v) + "'") + rest) == [Str(v)] + Lex(rest)
  {
    hide Lex, Escape, Unescape, Closed;
    EscapeClosed(v);
    LexLiteral(Escape(v), rest);
    assert "'" + (Escape(v) + "'") + rest == "'" + (Escape(v) + ("'" + rest));
  }

  lemma LexSpelledOp(w: string, rest: string)
    requires w in OPERATORS && rest != "" && IsBlank(rest[0])
    ensures Lex(w + rest) == [Op(w)] + Lex(rest)
  {
    hide Span, LitLen, BlockLen, Unescape, WordToken;
    var s := w + rest;
    assert s[|w|..] == rest && s[..|w|] == w;
    assert |w| == 1 || |w| == 2;
    assert |w| == 1 ==> s[0] == w[0] && s[1] == rest[0] && [w[0]] == w;
    assert |w| == 2 ==> s[0] == w[0] && s[1] == w[1];
    assert LexOne(s) == Lexeme([Op(w)], |w|);
  }

  /** One token, however it is written, is read as itself when a blank follows. */
  lemma LexSpelled(w: string, t: Token, rest: string)
    requires Spells(w, t) && rest != "" && IsBlank(rest[0])
    ensures Lex(w + rest) == [t] + Lex(rest)
  {
    hide Lex, Escape;
    match t
    case Ident(v) => LexWord(w, rest);
    case KW(v) => LexWord(w, rest);
    case Str(v) => LexSpelledLiteral(v, rest);
    case Num(v) => LexNumber(w, rest);
    case Op(v) => LexSpelledOp(w, rest);
    case LParen => LexSymbol('(', rest);
    case RParen => LexSymbol(')', rest);
    case Comma => LexSymbol(',', rest);
  }

  /** Spelled tokens, each followed by a blank and then any further blanks and comments. */
  function Printed(ws: seq<string>, gaps: seq<seq<Gap>>): string
    requires |ws| == |gaps|
  {
    if ws == [] then "" else ws[0] + (" " + GapText(gaps[0], Printed(ws[1..], gaps[1..])))
  }

  /** Tokenizing inverts printing: whatever the spelling, the blanks and the comments, the tokens come back. */
  lemma {:induction false} LexInvertsPrinting(ts: seq<Token>, ws: seq<string>, gaps: seq<seq<Gap>>)
    requires |ts| == |ws| == |gaps|
    requires forall i | 0 <= i < |ts| :: Spells(ws[i], ts[i])
    requires forall i, g | 0 <= i < |gaps| && g in gaps[i] :: g.Ok()
    ensures Lex(Printed(ws, gaps)) == ts
    decreases |ts|
  {
    if ts != [] {
      hide Lex, Spells;
      var after := Printed(ws[1..], gaps[1..]);
      var gap := GapText(gaps[0], after);
      LexInvertsPrinting(ts[1..], ws[1..], gaps[1..]);
      GapsVanish(gaps[0], after);
      LexBlank(' ', gap);
      assert (" " + gap)[0] == ' ';
      LexSpelled(ws[0], ts[0], " " + gap);
      assert ts == [ts[0]] + ts[1..];
    }
  }
}
