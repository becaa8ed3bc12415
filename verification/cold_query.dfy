/**
 The cold-search SQL builder (pkg/coldstore/query.go), proved against the
 tokenizer and the gate that read its output back.
 */
module ColdQuery {
  import opened Common
  import opened SqlLexer
  import opened PredicateGate

  /** A formatted date: digits and hyphens. */
  type DateText = s: string | forall i | 0 <= i < |s| :: IsDigit(s[i]) || s[i] == '-' witness "2026-01-01"

  /** The fields of a search the cold builder reads. `labels` is one enumeration of the label map. */
  datatype SearchQuery = SearchQuery(
    text: string, service: string, labels: seq<(string, string)>,
    from: Option<DateText>, to: Option<DateText>, limit: int)

  predicate IsHexDigit(c: char) { '0' <= c <= '9' || 'a' <= c <= 'f' || 'A' <= c <= 'F' }

  /** The kernel's tenant-id check: 8-4-4-4-12 hexadecimal digits. */
  predicate IsUuid(s: string) {
    |s| == 36 && forall i | 0 <= i < 36 :: if i in {8, 13, 18, 23} then s[i] == '-' else IsHexDigit(s[i])
  }

  function ClampLimit(limit: int): (l: nat)
    ensures 1 <= l <= MAX_SEARCH_LIMIT && (l == limit || !(1 <= limit <= MAX_SEARCH_LIMIT))
  {
    if limit <= 0 || limit > MAX_SEARCH_LIMIT then DEFAULT_SEARCH_LIMIT else limit
  }

  function DigitChar(d: nat): (c: char)
    requires d < 10
    ensures IsDigit(c)
  {
    '0' + d as char
  }

  /** Decimal text, `strconv.Itoa` on a positive number. */
  function Itoa(n: nat): (s: string)
    ensures s != "" && forall i | 0 <= i < |s| :: IsDigit(s[i])
  {
    if n < 10 then [DigitChar(n)] else Itoa(n / 10) + [DigitChar(n % 10)]
  }

  /** The bounds of the `dt BETWEEN` clause; `today` is the clock's date. */
  function TimeBounds(q: SearchQuery, today: DateText): (DateText, DateText) {
    (match q.from case None => "2026-01-01" case Some(d) => d,
     match q.to case None => today case Some(d) => d)
  }

  // ------------------------------------------------------------------
  // The expected token stream, conjunct by conjunct
  // ------------------------------------------------------------------

  const HEAD: seq<Token> := [
    KW("SELECT"), Ident("ts"), Comma, Ident("id"), Comma, Ident("service"), Comma, Ident("level"), Comma,
    Ident("message"), Comma, Ident("labels"), KW("FROM"), Ident("logalot_cold.log_events")]

  function DateTerm(from: string, to: string): seq<Token> {
    [Ident("dt"), KW("BETWEEN"), Str(from), KW("AND"), Str(to)]
  }

  function TextTerm(text: string): seq<Token> {
    [LParen, Str(text), Op("="), Str(""), KW("OR"), Ident("regexp_like"), LParen, Ident("message"), Comma,
     Str(text), RParen, RParen]
  }

  function ServiceTerm(svc: string): seq<Token> {
    [LParen, Str(svc), Op("="), Str(""), KW("OR"), Ident("service"), Op("="), Str(svc), RParen]
  }

  function LabelTerm(k: string, v: string): seq<Token> {
    [Ident("json_extract_scalar"), LParen, Ident("labels"), Comma, Str("$." + k), RParen, Op("="), Str(v)]
  }

  function LabelTerms(labels: seq<(string, string)>): (r: seq<seq<Token>>)
    ensures |r| == |labels|
  {
    seq(|labels|, i requires 0 <= i < |labels| => LabelTerm(labels[i].0, labels[i].1))
  }

  function TailTokens(limit: nat): seq<Token> {
    [KW("ORDER"), KW("BY"), Ident("ts"), Ident("DESC"), KW("LIMIT"), Num(Itoa(limit))]
  }

  function Terms(tenant: string, q: SearchQuery, today: DateText): seq<seq<Token>> {
    var (from, to) := TimeBounds(q, today);
    [TenantEquality(tenant), DateTerm(from, to), TextTerm(TrimSpace(q.text)), ServiceTerm(TrimSpace(q.service))]
    + LabelTerms(q.labels)
  }

  /** The skeleton: head, WHERE, the AND-joined terms, ordering and limit. */
  function QueryTokens(tenant: string, q: SearchQuery, today: DateText): seq<Token> {
    HEAD + ([KW("WHERE")] + (AndJoin(Terms(tenant, q, today)) + TailTokens(ClampLimit(q.limit))))
  }

  // ------------------------------------------------------------------
  // The printed constants as lexemes
  // ------------------------------------------------------------------

  datatype Piece = Blank(c: char) | Key(w: string) | Id(w: string) | Sym(c: char)

  datatype Text = End | Then(p: Piece, rest: Text)

  function PrintPiece(p: Piece): string {
    match p
    case Blank(c) => [c]
    case Sym(c) => [c]
    case Key(w) => w
    case Id(w) => w
  }

  function Print(t: Text): string {
    match t
    case End => ""
    case Then(p, rest) => PrintPiece(p) + Print(rest)
  }

  function PieceTokens(p: Piece): seq<Token> {
    match p
    case Blank(c) => []
    case Sym(c) => [SymbolToken(c)]
    case Key(w) => [KW(w)]
    case Id(w) => [Ident(w)]
  }

  function TextTokens(t: Text): seq<Token> {
    match t
    case End => []
    case Then(p, rest) => PieceTokens(p) + TextTokens(rest)
  }

  predicate IsWord(p: Piece) { p.Key? || p.Id? }

  const IDENTIFIERS: set<string> := {
    "ts", "id", "service", "level", "message", "labels", "logalot_cold.log_events",
    "tenant_id", "dt", "regexp_like", "json_extract_scalar", "DESC"
  }

  predicate PieceOk(p: Piece) {
    match p
    case Blank(c) => IsBlank(c)
    case Sym(c) => c in "(),="
    case Key(w) => w in KEYWORDS
    case Id(w) => w in IDENTIFIERS
  }

  /** Words are set off from each other; the last one must be set off from what follows. */
  predicate TextOk(t: Text) {
    match t
    case End => true
    case Then(p, rest) => PieceOk(p) && (IsWord(p) && rest.Then? ==> !IsWord(rest.p)) && TextOk(rest)
  }

  predicate EndsInWord(t: Text) {
    t.Then? && (if t.rest.End? then IsWord(t.p) else EndsInWord(t.rest))
  }

  lemma Keyword(w: string)
    requires w in KEYWORDS
    ensures w != "" && WordToken(w) == KW(w) && forall i | 0 <= i < |w| :: IsLetter(w[i])
  {
    assert ToUpper(w) == w;
  }

  lemma ShortIdentifier(w: string)
    requires w in IDENTIFIERS && |w| < 8
    ensures w != "" && WordToken(w) == Ident(w) && forall i | 0 <= i < |w| :: IsLetter(w[i])
  {
    var u := ToUpper(w);
    assert u[0] == Upper(w[0]) && u[1] == Upper(w[1]);
  }

  lemma LongIdentifier(w: string)
    requires w in IDENTIFIERS && |w| >= 8
    ensures WordToken(w) == Ident(w) && IsLetter(w[0]) && forall i | 0 <= i < |w| :: IsWordChar(w[i])
  {
    var u := ToUpper(w);
    assert u[0] == Upper(w[0]);
  }

  lemma Identifier(w: string)
    requires w in IDENTIFIERS
    ensures w != "" && WordToken(w) == Ident(w) && IsLetter(w[0]) && forall i | 0 <= i < |w| :: IsWordChar(w[i])
  {
    hide WordToken;
    if |w| < 8 { ShortIdentifier(w); } else { LongIdentifier(w); }
  }

  lemma LexPiece(p: Piece, x: string)
    requires PieceOk(p)
    requires IsWord(p) ==> x == "" || !IsWordChar(x[0])
    ensures Lex(PrintPiece(p) + x) == PieceTokens(p) + Lex(x)
  {
    hide Lex, LexOne, WordToken;
    match p {
      case Blank(c) => LexBlank(c, x);
      case Sym(c) => LexSymbol(c, x);
      case Key(w) =>
        Keyword(w);
        LexWord(w, x);
      case Id(w) =>
        Identifier(w);
        LexWord(w, x);
    }
  }

  lemma PieceStart(p: Piece)
    requires PieceOk(p)
    ensures PrintPiece(p) != "" && (!IsWord(p) ==> !IsWordChar(PrintPiece(p)[0]))
  {
    hide WordToken;
    if p.Key? {
      Keyword(p.w);
    } else if p.Id? {
      Identifier(p.w);
    }
  }

  lemma {:induction false} LexText(t: Text, x: string)
    requires TextOk(t)
    requires EndsInWord(t) ==> x == "" || !IsWordChar(x[0])
    ensures Lex(Print(t) + x) == TextTokens(t) + Lex(x)
  {
    hide Lex, LexOne, PieceOk;
    match t
    case End =>
      assert "" + x == x;
    case Then(p, rest) =>
      LexText(rest, x);
      var y := Print(rest) + x;
      if rest.Then? {
        PieceStart(rest.p);
        assert y == PrintPiece(rest.p) + (Print(rest.rest) + x);
      } else {
        assert y == x;
      }
      LexPiece(p, y);
      assert Print(t) + x == PrintPiece(p) + y;
  }

  const SP := Blank(' ')
  const NL := Blank('\n')

  // The constant parts of the query, as the lexemes they print.

  // "SELECT ts, id, service, "
  const SELECT_TEXT: Text := Then(Key("SELECT"), Then(SP, Then(Id("ts"), Then(Sym(','), Then(SP,
    Then(Id("id"), Then(Sym(','), Then(SP, Then(Id("service"), Then(Sym(','), Then(SP, End)))))))))))
  // "level, message, labels\n"
  const COLUMNS_TEXT: Text := Then(Id("level"), Then(Sym(','), Then(SP, Then(Id("message"), Then(Sym(','),
    Then(SP, Then(Id("labels"), Then(NL, End))))))))
  // "FROM logalot_cold.log_events\n"
  const FROM_TEXT: Text := Then(Key("FROM"), Then(SP, Then(Id("logalot_cold.log_events"), Then(NL, End))))
  // "WHERE tenant_id = "
  const WHERE_TEXT: Text := Then(Key("WHERE"), Then(SP, Then(Id("tenant_id"), Then(SP, Then(Sym('='),
    Then(SP, End))))))
  // "\n  AND dt BETWEEN "
  const DATE_TEXT: Text := Then(NL, Then(SP, Then(SP, Then(Key("AND"), Then(SP, Then(Id("dt"), Then(SP,
    Then(Key("BETWEEN"), Then(SP, End)))))))))
  // " AND "
  const AND_TEXT: Text := Then(SP, Then(Key("AND"), Then(SP, End)))
  // "\n  AND ( "
  const OPEN_TEXT: Text := Then(NL, Then(SP, Then(SP, Then(Key("AND"), Then(SP, Then(Sym('('), Then(SP, End)))))))
  // " = "
  const EQUALS_TEXT: Text := Then(SP, Then(Sym('='), Then(SP, End)))
  // " OR regexp_like(message, "
  const REGEXP_TEXT: Text := Then(SP, Then(Key("OR"), Then(SP, Then(Id("regexp_like"), Then(Sym('('),
    Then(Id("message"), Then(Sym(','), Then(SP, End))))))))
  // ") )"
  const REGEXP_END_TEXT: Text := Then(Sym(')'), Then(SP, Then(Sym(')'), End)))
  // " OR service = "
  const SERVICE_TEXT: Text := Then(SP, Then(Key("OR"), Then(SP, Then(Id("service"), Then(SP,
    Then(Sym('='), Then(SP, End)))))))
  // " )"
  const SERVICE_END_TEXT: Text := Then(SP, Then(Sym(')'), End))
  // "\n  AND json_extract_scalar(labels, "
  const LABEL_TEXT: Text := Then(NL, Then(SP, Then(SP, Then(Key("AND"), Then(SP,
    Then(Id("json_extract_scalar"), Then(Sym('('), Then(Id("labels"), Then(Sym(','), Then(SP, End))))))))))
  // ") = "
  const LABEL_EQUALS_TEXT: Text := Then(Sym(')'), Then(SP, Then(Sym('='), Then(SP, End))))
  // "\nORDER BY ts DESC\nLIMIT "
  const ORDER_TEXT: Text := Then(NL, Then(Key("ORDER"), Then(SP, Then(Key("BY"), Then(SP, Then(Id("ts"),
    Then(SP, Then(Id("DESC"), Then(NL, Then(Key("LIMIT"), Then(SP, End)))))))))))

  // ------------------------------------------------------------------
  // The lines of the query, each with what follows it
  // ------------------------------------------------------------------

  /** A constant, a quoted value and the rest. */
  function Quoted(t: Text, raw: string, x: string): string {
    Print(t) + ("'" + (raw + ("'" + x)))
  }

  function HeadLine(x: string): string {
    Print(SELECT_TEXT) + (Print(COLUMNS_TEXT) + (Print(FROM_TEXT) + x))
  }

  function WhereLine(tenant: string, x: string): string {
    Quoted(WHERE_TEXT, tenant, x)
  }

  function DateLine(from: string, to: string, x: string): string {
    Quoted(DATE_TEXT, from, Quoted(AND_TEXT, to, x))
  }

  function TextLine(raw: string, x: string): string {
    Quoted(OPEN_TEXT, raw, Quoted(EQUALS_TEXT, "", Quoted(REGEXP_TEXT, raw, Print(REGEXP_END_TEXT) + x)))
  }

  function ServiceLine(raw: string, x: string): string {
    Quoted(OPEN_TEXT, raw, Quoted(EQUALS_TEXT, "", Quoted(SERVICE_TEXT, raw, Print(SERVICE_END_TEXT) + x)))
  }

  function LabelLine(k: string, v: string, x: string): string {
    Quoted(LABEL_TEXT, "$." + Escape(k), Quoted(LABEL_EQUALS_TEXT, Escape(v), x))
  }

  function LabelLines(labels: seq<(string, string)>, x: string): string {
    if labels == [] then x else LabelLine(labels[0].0, labels[0].1, LabelLines(labels[1..], x))
  }

  function LimitLine(limit: nat): string {
    Print(ORDER_TEXT) + Itoa(limit)
  }

  /** The whole query. */
  function QueryText(tenant: string, q: SearchQuery, today: DateText): string {
    var (from, to) := TimeBounds(q, today);
    HeadLine(WhereLine(tenant, DateLine(from, to, TextLine(Escape(TrimSpace(q.text)),
      ServiceLine(Escape(TrimSpace(q.service)), LabelLines(q.labels, LimitLine(ClampLimit(q.limit))))))))
  }

  // ------------------------------------------------------------------
  // Reading it back
  // ------------------------------------------------------------------

  /** A quoted value that decodes to `val`. */
  ghost predicate Quotes(raw: string, val: string) {
    Closed(raw) && Unescape(raw) == val
  }

  lemma QuotesPlain(s: string)
    requires '\'' !in s
    ensures Quotes(s, s)
  {
    PlainClosed(s);
  }

  lemma QuotesEscaped(s: string)
    ensures Quotes(Escape(s), s)
  {
    EscapeClosed(s);
  }

  lemma QuotesPath(k: string)
    ensures Quotes("$." + Escape(k), "$." + k)
  {
    hide LitLen, Unescape;
    EscapeClosed(k);
    PrefixClosed('.', Escape(k));
    PrefixClosed('$', ['.'] + Escape(k));
    assert "$." + Escape(k) == ['$'] + (['.'] + Escape(k));
    assert "$." + k == ['$'] + (['.'] + k);
  }

  /** What may follow a closed literal. */
  predicate NoQuote(x: string) { x == "" || x[0] != '\'' }

  /** A constant that starts with a word or a blank or a symbol does not start with a quote. */
  lemma TextNoQuote(t: Text, x: string)
    requires TextOk(t) && t.Then?
    ensures NoQuote(Print(t) + x)
  {
    PieceStart(t.p);
    if IsWord(t.p) {
      WordStart(t.p);
    }
    hide PieceOk, IsWord;
    assert Print(t) + x == PrintPiece(t.p) + (Print(t.rest) + x);
  }

  lemma WordStart(p: Piece)
    requires PieceOk(p) && IsWord(p)
    ensures PrintPiece(p) != "" && PrintPiece(p)[0] != '\''
  {
    hide WordToken;
    if p.Key? { Keyword(p.w); } else { Identifier(p.w); }
  }

  /** A constant and a quoted value read back. */
  lemma ReadQuoted(t: Text, raw: string, val: string, x: string)
    requires TextOk(t) && t.Then? && !EndsInWord(t) && Quotes(raw, val) && NoQuote(x)
    ensures Lex(Quoted(t, raw, x)) == TextTokens(t) + ([Str(val)] + Lex(x)) && NoQuote(Quoted(t, raw, x))
  {
    hide Lex, LexOne, TextOk, EndsInWord;
    LexText(t, "'" + (raw + ("'" + x)));
    LexLiteral(raw, x);
    TextNoQuote(t, "'" + (raw + ("'" + x)));
  }

  lemma ReadConst(t: Text, x: string)
    requires TextOk(t) && t.Then? && !EndsInWord(t)
    ensures Lex(Print(t) + x) == TextTokens(t) + Lex(x) && NoQuote(Print(t) + x)
  {
    hide Lex, LexOne, TextOk, EndsInWord;
    LexText(t, x);
    TextNoQuote(t, x);
  }

  lemma HeadTokens()
    ensures TextTokens(SELECT_TEXT) + (TextTokens(COLUMNS_TEXT) + TextTokens(FROM_TEXT)) == HEAD
  {
  }

  lemma HeadReads(x: string)
    ensures Lex(HeadLine(x)) == HEAD + Lex(x)
  {
    hide Lex, Print, NoQuote, TextTokens;
    HeadTokens();
    ReadConst(SELECT_TEXT, Print(COLUMNS_TEXT) + (Print(FROM_TEXT) + x));
    ReadConst(COLUMNS_TEXT, Print(FROM_TEXT) + x);
    ReadConst(FROM_TEXT, x);
  }

  lemma WhereReads(tenant: string, x: string)
    requires '\'' !in tenant && NoQuote(x)
    ensures Lex(WhereLine(tenant, x)) == [KW("WHERE")] + TenantEquality(tenant) + Lex(x)
  {
    hide Lex, Quoted, NoQuote, Quotes;
    QuotesPlain(tenant);
    ReadQuoted(WHERE_TEXT, tenant, tenant, x);
  }

  lemma DateReads(from: DateText, to: DateText, x: string)
    requires NoQuote(x)
    ensures Lex(DateLine(from, to, x)) == [KW("AND")] + DateTerm(from, to) + Lex(x) && NoQuote(DateLine(from, to, x))
  {
    hide Lex, Quoted, NoQuote, Quotes;
    QuotesPlain(from);
    QuotesPlain(to);
    ReadQuoted(AND_TEXT, to, to, x);
    ReadQuoted(DATE_TEXT, from, from, Quoted(AND_TEXT, to, x));
  }

  lemma TextTermTokens(text: string)
    ensures TextTokens(OPEN_TEXT) + ([Str(text)] + (TextTokens(EQUALS_TEXT) + ([Str("")]
              + (TextTokens(REGEXP_TEXT) + ([Str(text)] + TextTokens(REGEXP_END_TEXT))))))
         == [KW("AND")] + TextTerm(text)
  {
  }

  lemma TextReads(text: string, x: string)
    ensures Lex(TextLine(Escape(text), x)) == [KW("AND")] + TextTerm(text) + Lex(x)
    ensures NoQuote(TextLine(Escape(text), x))
  {
    hide Lex, Quoted, NoQuote, Quotes, Escape, Print, TextTokens, TextTerm;
    QuotesEscaped(text);
    QuotesPlain("");
    var x3 := Print(REGEXP_END_TEXT) + x;
    var x2 := Quoted(REGEXP_TEXT, Escape(text), x3);
    ReadConst(REGEXP_END_TEXT, x);
    ReadQuoted(REGEXP_TEXT, Escape(text), text, x3);
    ReadQuoted(EQUALS_TEXT, "", "", x2);
    ReadQuoted(OPEN_TEXT, Escape(text), text, Quoted(EQUALS_TEXT, "", x2));
    TextTermTokens(text);
  }

  lemma ServiceTermTokens(svc: string)
    ensures TextTokens(OPEN_TEXT) + ([Str(svc)] + (TextTokens(EQUALS_TEXT) + ([Str("")]
              + (TextTokens(SERVICE_TEXT) + ([Str(svc)] + TextTokens(SERVICE_END_TEXT))))))
         == [KW("AND")] + ServiceTerm(svc)
  {
  }

  lemma ServiceReads(svc: string, x: string)
    ensures Lex(ServiceLine(Escape(svc), x)) == [KW("AND")] + ServiceTerm(svc) + Lex(x)
    ensures NoQuote(ServiceLine(Escape(svc), x))
  {
    hide Lex, Quoted, NoQuote, Quotes, Escape, Print, TextTokens, ServiceTerm;
    QuotesEscaped(svc);
    QuotesPlain("");
    var x3 := Print(SERVICE_END_TEXT) + x;
    var x2 := Quoted(SERVICE_TEXT, Escape(svc), x3);
    ReadConst(SERVICE_END_TEXT, x);
    ReadQuoted(SERVICE_TEXT, Escape(svc), svc, x3);
    ReadQuoted(EQUALS_TEXT, "", "", x2);
    ReadQuoted(OPEN_TEXT, Escape(svc), svc, Quoted(EQUALS_TEXT, "", x2));
    ServiceTermTokens(svc);
  }

  lemma LabelTermTokens(k: string, v: string)
    ensures TextTokens(LABEL_TEXT) + ([Str("$." + k)] + (TextTokens(LABEL_EQUALS_TEXT) + [Str(v)]))
         == [KW("AND")] + LabelTerm(k, v)
  {
  }

  lemma LabelReads(k: string, v: string, x: string)
    requires NoQuote(x)
    ensures Lex(LabelLine(k, v, x)) == [KW("AND")] + LabelTerm(k, v) + Lex(x) && NoQuote(LabelLine(k, v, x))
  {
    hide Lex, Quoted, NoQuote, Quotes, Escape, TextTokens, LabelTerm;
    QuotesPath(k);
    QuotesEscaped(v);
    ReadQuoted(LABEL_EQUALS_TEXT, Escape(v), v, x);
    ReadQuoted(LABEL_TEXT, "$." + Escape(k), "$." + k, Quoted(LABEL_EQUALS_TEXT, Escape(v), x));
    LabelTermTokens(k, v);
  }

  /** Every conjunct with its AND in front. */
  function AndEach(cs: seq<seq<Token>>): seq<Token> {
    if cs == [] then [] else ([KW("AND")] + cs[0]) + AndEach(cs[1..])
  }

  lemma {:induction false} LabelsRead(labels: seq<(string, string)>, x: string)
    requires NoQuote(x)
    ensures Lex(LabelLines(labels, x)) == AndEach(LabelTerms(labels)) + Lex(x) && NoQuote(LabelLines(labels, x))
    decreases |labels|
  {
    hide Lex, LabelLine, LabelTerm, NoQuote;
    if labels != [] {
      LabelsRead(labels[1..], x);
      LabelReads(labels[0].0, labels[0].1, LabelLines(labels[1..], x));
      assert LabelTerms(labels)[1..] == LabelTerms(labels[1..]);
    }
  }

  lemma LimitReads(limit: nat)
    ensures Lex(LimitLine(limit)) == TailTokens(limit) && NoQuote(LimitLine(limit))
  {
    hide Lex, LexOne, Itoa, Print, NoQuote;
    ReadConst(ORDER_TEXT, Itoa(limit));
    LexNumber(Itoa(limit), "");
    assert Itoa(limit) + "" == Itoa(limit);
    LexEmpty();
  }

  lemma LexEmpty()
    ensures Lex("") == []
  {
  }

  // ------------------------------------------------------------------
  // The whole query
  // ------------------------------------------------------------------

  lemma {:induction false} AndJoinEach(c: seq<Token>, cs: seq<seq<Token>>)
    ensures AndJoin([c] + cs) == c + AndEach(cs)
    decreases |cs|
  {
    if cs == [] {
      assert [c] + cs == [c];
    } else {
      AndJoinEach(cs[0], cs[1..]);
      assert ([c] + cs)[1..] == cs == [cs[0]] + cs[1..];
    }
  }

  /** Lexing the built text gives the skeleton, with every value decoded to exactly what was put in. */
  lemma QueryReads(tenant: string, q: SearchQuery, today: DateText)
    requires '\'' !in tenant
    ensures Lex(QueryText(tenant, q, today)) == QueryTokens(tenant, q, today)
  {
    hide Lex, Escape, TrimSpace, HeadLine, WhereLine, DateLine, TextLine, ServiceLine, LabelLines, LimitLine, NoQuote,
      AndJoin, AndEach, TailTokens;
    var (from, to) := TimeBounds(q, today);
    var x4 := LimitLine(ClampLimit(q.limit));
    var x3 := LabelLines(q.labels, x4);
    var x2 := ServiceLine(Escape(TrimSpace(q.service)), x3);
    var x1 := TextLine(Escape(TrimSpace(q.text)), x2);
    var x0 := DateLine(from, to, x1);
    LimitReads(ClampLimit(q.limit));
    LabelsRead(q.labels, x4);
    ServiceReads(TrimSpace(q.service), x3);
    TextReads(TrimSpace(q.text), x2);
    DateReads(from, to, x1);
    WhereReads(tenant, x0);
    HeadReads(WhereLine(tenant, x0));
    TermsJoined(tenant, q, today);
    hide TenantEquality, DateTerm, TextTerm, ServiceTerm, LabelTerms, Terms, ClampLimit;
  }

  lemma TermsJoined(tenant: string, q: SearchQuery, today: DateText)
    ensures var (from, to) := TimeBounds(q, today);
            AndJoin(Terms(tenant, q, today))
            == TenantEquality(tenant) + (([KW("AND")] + DateTerm(from, to))
               + (([KW("AND")] + TextTerm(TrimSpace(q.text)))
               + (([KW("AND")] + ServiceTerm(TrimSpace(q.service))) + AndEach(LabelTerms(q.labels)))))
  {
    hide TenantEquality, DateTerm, TextTerm, ServiceTerm, LabelTerms, AndJoin, TrimSpace;
    var (from, to) := TimeBounds(q, today);
    var d, x, s := DateTerm(from, to), TextTerm(TrimSpace(q.text)), ServiceTerm(TrimSpace(q.service));
    var labels := LabelTerms(q.labels);
    var three, two, one := [d, x, s] + labels, [x, s] + labels, [s] + labels;
    assert Terms(tenant, q, today) == [TenantEquality(tenant)] + three;
    AndJoinEach(TenantEquality(tenant), three);
    assert three[1..] == two && two[1..] == one && one[1..] == labels;
    assert AndEach(one) == ([KW("AND")] + s) + AndEach(labels);
    assert AndEach(two) == ([KW("AND")] + x) + AndEach(one);
    assert AndEach(three) == ([KW("AND")] + d) + AndEach(two);
  }

  // ------------------------------------------------------------------
  // The gate on built queries
  // ------------------------------------------------------------------

  /** Tokens that neither open, close, cut nor stop a term. */
  predicate Inert(t: Token) {
    !t.LParen? && !t.RParen? && !t.KW?
  }

  lemma {:induction false} WalkInert(c: seq<Token>, depth: nat, inBetween: bool)
    requires forall t | t in c :: Inert(t)
    ensures Walk(c, depth, inBetween) == Some((depth, inBetween))
    decreases |c|
  {
    if c != [] {
      assert c[0] in c;
      WalkInert(c[1..], depth, inBetween);
    }
  }

  /** A term wrapped in parentheses is a conjunct as soon as its inside is balanced. */
  lemma WalkParens(c: seq<Token>)
    requires Walk(c, 1, false) == Some((1, false))
    ensures IsConjunct([LParen] + c + [RParen])
  {
    var all := [LParen] + c + [RParen];
    assert all[0] == LParen && all[1..] == c + [RParen];
    WalkAppend(c, [RParen], 1, false);
  }

  lemma DateConjunct(from: string, to: string)
    ensures IsConjunct(DateTerm(from, to))
  {
    BetweenIsOneConjunct(Ident("dt"), Str(from), Str(to));
  }

  lemma WalkCall(f: string, args: seq<Token>, depth: nat)
    requires forall t | t in args :: Inert(t)
    ensures Walk([Ident(f)] + [LParen] + args + [RParen], depth, false) == Some((depth, false))
  {
    hide Walk;
    WalkInert([Ident(f)], depth, false);
    WalkOpen(depth);
    WalkInert(args, depth + 1, false);
    WalkAppend([Ident(f)], [LParen], depth, false);
    WalkAppend([Ident(f)] + [LParen], args, depth, false);
    WalkAppend([Ident(f)] + [LParen] + args, [RParen], depth, false);
  }

  /** `( x = '' OR y )` is a conjunct whatever balanced `y` is. */
  lemma OptionalConjunct(x: string, y: seq<Token>)
    requires Walk(y, 1, false) == Some((1, false))
    ensures IsConjunct([LParen] + ([Str(x), Op("="), Str("")] + [KW("OR")] + y) + [RParen])
  {
    hide Walk, IsConjunct;
    var a := [Str(x), Op("="), Str("")];
    WalkInert(a, 1, false);
    WalkOr(1);
    WalkAppend(a, [KW("OR")], 1, false);
    WalkAppend(a + [KW("OR")], y, 1, false);
    WalkParens(a + [KW("OR")] + y);
  }

  lemma TextConjunct(text: string)
    ensures IsConjunct(TextTerm(text))
  {
    hide Walk, IsConjunct;
    var call := [Ident("regexp_like")] + [LParen] + [Ident("message"), Comma, Str(text)] + [RParen];
    WalkCall("regexp_like", [Ident("message"), Comma, Str(text)], 1);
    OptionalConjunct(text, call);
    assert TextTerm(text) == [LParen] + ([Str(text), Op("="), Str("")] + [KW("OR")] + call) + [RParen];
  }

  lemma WalkOr(depth: nat)
    ensures Walk([KW("OR")], depth, false) == Some((depth, false))
  {
  }

  lemma WalkOpen(depth: nat)
    ensures Walk([LParen], depth, false) == Some((depth + 1, false))
    ensures Walk([RParen], depth + 1, false) == Some((depth, false))
  {
  }

  lemma ServiceConjunct(svc: string)
    ensures IsConjunct(ServiceTerm(svc))
  {
    hide Walk, IsConjunct;
    var y := [Ident("service"), Op("="), Str(svc)];
    WalkInert(y, 1, false);
    OptionalConjunct(svc, y);
    assert ServiceTerm(svc) == [LParen] + ([Str(svc), Op("="), Str("")] + [KW("OR")] + y) + [RParen];
  }

  lemma LabelConjunct(k: string, v: string)
    ensures IsConjunct(LabelTerm(k, v))
  {
    hide Walk;
    var args := [Ident("labels"), Comma, Str("$." + k)];
    var call := [Ident("json_extract_scalar")] + [LParen] + args + [RParen];
    var c := [Op("="), Str(v)];
    WalkCall("json_extract_scalar", args, 0);
    WalkInert(c, 0, false);
    WalkAppend(call, c, 0, false);
    assert LabelTerm(k, v) == call + c;
  }

  lemma TermsAreConjuncts(tenant: string, q: SearchQuery, today: DateText)
    ensures forall c | c in Terms(tenant, q, today) :: IsConjunct(c)
  {
    hide IsConjunct, TenantEquality, DateTerm, TextTerm, ServiceTerm, LabelTerm;
    var (from, to) := TimeBounds(q, today);
    EqualityIsConjunct(tenant);
    DateConjunct(from, to);
    TextConjunct(TrimSpace(q.text));
    ServiceConjunct(TrimSpace(q.service));
    forall i | 0 <= i < |q.labels| ensures IsConjunct(LabelTerms(q.labels)[i]) {
      LabelConjunct(q.labels[i].0, q.labels[i].1);
    }
  }

  lemma {:induction false} HeadIsHead(ts: seq<Token>)
    requires forall i | 0 <= i < |ts| :: !ts[i].LParen? && !ts[i].RParen? && ts[i] != KW("WHERE")
    ensures IsHead(ts, 0)
    decreases |ts|
  {
    if ts != [] {
      HeadIsHead(ts[1..]);
    }
  }

  /** Only the tenant conjunct has the shape of an equality on `tenant_id`. */
  lemma OnlyTenantEquality(tenant: string, q: SearchQuery, today: DateText, u: string)
    ensures HasEquality(Terms(tenant, q, today), u) <==> u == tenant
  {
    var terms := Terms(tenant, q, today);
    assert terms[0] == TenantEquality(tenant);
    forall i | 1 <= i < |terms| ensures |terms[i]| != 3 {
    }
    assert IsEquality(terms[0], "tenant_id", u) <==> u == tenant;
  }

  lemma UuidFacts(tenant: string)
    requires IsUuid(tenant)
    ensures '\'' !in tenant && TrimSpace(tenant) != ""
  {
    assert IsHexDigit(tenant[0]) && !IsSpace(tenant[0]);
  }

  /** The gate accepts the query built for a tenant for that tenant and for no other id. */
  lemma GateOnBuiltQuery(tenant: string, q: SearchQuery, today: DateText, u: string)
    requires IsUuid(tenant)
    ensures Accepts(QueryTokens(tenant, q, today), u) <==> u == tenant
  {
    hide Accepts, TrimSpace, Terms, TailTokens, HasEquality, IsHead, IsTail, IsConjunct, AndJoin, IsUuid;
    UuidFacts(tenant);
    TermsAreConjuncts(tenant, q, today);
    HeadOk();
    TailIsTail(ClampLimit(q.limit));
    GateOnAndChain(HEAD, Terms(tenant, q, today), TailTokens(ClampLimit(q.limit)), u);
    OnlyTenantEquality(tenant, q, today, u);
  }

  lemma HeadOk()
    ensures IsHead(HEAD, 0)
  {
    hide IsHead;
    HeadIsHead(HEAD);
  }

  lemma TailIsTail(limit: nat)
    ensures IsTail(TailTokens(limit))
  {
  }

  // ------------------------------------------------------------------
  // What the built query selects
  // ------------------------------------------------------------------

  datatype ColdRow = ColdRow(tenant: string, dt: string, message: string, service: string, labels: map<string, string>)

  /** The engine's order on dates, its `regexp_like` and its `json_extract_scalar`. */
  datatype Engine = Engine(
    le: (string, string) -> bool,
    regexp: (string, string) -> bool,
    extract: (map<string, string>, string) -> Option<string>)

  /** A literal, or a column of the row. */
  function Operand(row: ColdRow, t: Token): Option<string> {
    if t.Str? then Some(t.val)
    else if t == Ident("tenant_id") then Some(row.tenant)
    else if t == Ident("dt") then Some(row.dt)
    else if t == Ident("service") then Some(row.service)
    else None
  }

  /** What SQL makes of an equality, a BETWEEN, a regexp_like and a compared json_extract_scalar. */
  predicate AtomHolds(eng: Engine, row: ColdRow, c: seq<Token>) {
    if |c| == 3 then
      c[1] == Op("=") && Operand(row, c[0]).Some? && Operand(row, c[0]) == Operand(row, c[2])
    else if |c| == 5 then
      var x, lo, hi := Operand(row, c[0]), Operand(row, c[2]), Operand(row, c[4]);
      && c[1] == KW("BETWEEN") && c[3] == KW("AND") && x.Some? && lo.Some? && hi.Some?
      && eng.le(lo.value, x.value) && eng.le(x.value, hi.value)
    else if |c| == 6 then
      && c[..4] == [Ident("regexp_like"), LParen, Ident("message"), Comma] && c[4].Str? && c[5] == RParen
      && eng.regexp(c[4].val, row.message)
    else
      && |c| == 8 && c[..4] == [Ident("json_extract_scalar"), LParen, Ident("labels"), Comma] && c[4].Str?
      && c[5] == RParen && c[6] == Op("=") && c[7].Str?
      && eng.extract(row.labels, c[4].val) == Some(c[7].val)
  }

  /** An atom, or two of them joined by OR in parentheses. */
  predicate TermHolds(eng: Engine, row: ColdRow, c: seq<Token>) {
    if |c| > 5 && c[0] == LParen && c[4] == KW("OR") && c[|c| - 1] == RParen then
      AtomHolds(eng, row, c[1..4]) || AtomHolds(eng, row, c[5..|c| - 1])
    else AtomHolds(eng, row, c)
  }

  /** A row is selected when every term the WHERE splits into holds on it. */
  ghost predicate Selects(eng: Engine, row: ColdRow, ts: seq<Token>) {
    && WhereFrom(ts, 0).Some?
    && forall c | c in SplitFrom(ts[WhereFrom(ts, 0).value + 1..], 0, false, []) :: TermHolds(eng, row, c)
  }

  /** What the search asks of a row. */
  predicate Wanted(eng: Engine, row: ColdRow, tenant: string, q: SearchQuery, today: DateText) {
    && row.tenant == tenant
    && eng.le(if q.from.Some? then q.from.value else "2026-01-01", row.dt)
    && eng.le(row.dt, if q.to.Some? then q.to.value else today)
    && (TrimSpace(q.text) == "" || eng.regexp(TrimSpace(q.text), row.message))
    && (TrimSpace(q.service) == "" || row.service == TrimSpace(q.service))
    && forall i | 0 <= i < |q.labels| :: eng.extract(row.labels, "$." + q.labels[i].0) == Some(q.labels[i].1)
  }

  lemma FixedTermsHold(eng: Engine, row: ColdRow, tenant: string, from: string, to: string)
    ensures TermHolds(eng, row, TenantEquality(tenant)) <==> row.tenant == tenant
    ensures TermHolds(eng, row, DateTerm(from, to)) <==> eng.le(from, row.dt) && eng.le(row.dt, to)
  {
  }

  lemma TextTermHolds(eng: Engine, row: ColdRow, text: string)
    ensures TermHolds(eng, row, TextTerm(text)) <==> text == "" || eng.regexp(text, row.message)
  {
    var c := TextTerm(text);
    assert c[1..4] == [Str(text), Op("="), Str("")];
    assert c[5..|c| - 1] == [Ident("regexp_like"), LParen, Ident("message"), Comma, Str(text), RParen];
  }

  lemma ServiceTermHolds(eng: Engine, row: ColdRow, svc: string)
    ensures TermHolds(eng, row, ServiceTerm(svc)) <==> svc == "" || row.service == svc
  {
    var c := ServiceTerm(svc);
    assert c[1..4] == [Str(svc), Op("="), Str("")];
    assert c[5..|c| - 1] == [Ident("service"), Op("="), Str(svc)];
  }

  lemma LabelTermHolds(eng: Engine, row: ColdRow, k: string, v: string)
    ensures TermHolds(eng, row, LabelTerm(k, v)) <==> eng.extract(row.labels, "$." + k) == Some(v)
  {
  }

  lemma TermsHold(eng: Engine, row: ColdRow, tenant: string, q: SearchQuery, today: DateText)
    ensures (forall c | c in Terms(tenant, q, today) :: TermHolds(eng, row, c)) <==> Wanted(eng, row, tenant, q, today)
  {
    hide TermHolds, TenantEquality, DateTerm, TextTerm, ServiceTerm, LabelTerm, TrimSpace;
    var terms := Terms(tenant, q, today);
    var (from, to) := TimeBounds(q, today);
    FixedTermsHold(eng, row, tenant, from, to);
    TextTermHolds(eng, row, TrimSpace(q.text));
    ServiceTermHolds(eng, row, TrimSpace(q.service));
    forall i | 0 <= i < |q.labels|
      ensures TermHolds(eng, row, terms[i + 4]) <==>
              eng.extract(row.labels, "$." + q.labels[i].0) == Some(q.labels[i].1)
    {
      LabelTermHolds(eng, row, q.labels[i].0, q.labels[i].1);
    }
    assert forall i | 4 <= i < |terms| :: terms[i] == LabelTerms(q.labels)[i - 4];
    assert forall i | 0 <= i < |terms| :: terms[i] in terms;
    hide Terms, LabelTerms;
    if forall c | c in terms :: TermHolds(eng, row, c) {
      forall i | 0 <= i < |q.labels| ensures eng.extract(row.labels, "$." + q.labels[i].0) == Some(q.labels[i].1) {
        assert terms[i + 4] in terms;
      }
    }
    if Wanted(eng, row, tenant, q, today) {
      forall i | 0 <= i < |terms| ensures TermHolds(eng, row, terms[i]) {
        if i >= 4 { assert terms[i] == terms[(i - 4) + 4]; }
      }
    }
  }

  /** The built query selects exactly the rows the search asks for. */
  lemma BuiltQuerySelects(eng: Engine, row: ColdRow, tenant: string, q: SearchQuery, today: DateText)
    ensures Selects(eng, row, QueryTokens(tenant, q, today)) <==> Wanted(eng, row, tenant, q, today)
  {
    hide Terms, TailTokens, IsHead, IsTail, IsConjunct, AndJoin, Wanted, TermHolds;
    var terms, tail := Terms(tenant, q, today), TailTokens(ClampLimit(q.limit));
    TermsAreConjuncts(tenant, q, today);
    HeadOk();
    TailIsTail(ClampLimit(q.limit));
    var body := AndJoin(terms) + tail;
    WhereAfterHead(HEAD, body, 0);
    assert QueryTokens(tenant, q, today)[|HEAD| + 1..] == body;
    SplitOfAndJoin(terms, tail);
    TermsHold(eng, row, tenant, q, today);
  }

  /** The number a decimal text stands for. */
  function Decimal(s: string): nat
    requires IsDecimal(s)
  {
    if s == "" then 0
    else
      assert IsDigit(s[|s| - 1]);
      10 * Decimal(s[..|s| - 1]) + (s[|s| - 1] - '0') as int
  }

  /** The printed limit reads back as the limit. */
  lemma {:induction false} ItoaReads(n: nat)
    ensures Decimal(Itoa(n)) == n
  {
    if n < 10 {
      assert Itoa(n)[..0] == "";
    } else {
      ItoaReads(n / 10);
      assert Itoa(n)[..|Itoa(n)| - 1] == Itoa(n / 10);
    }
  }

  predicate IsDecimal(s: string) {
    forall i | 0 <= i < |s| :: IsDigit(s[i])
  }

  /** The statement ends by asking for the newest `limit` rows. */
  predicate AsksForNewest(ts: seq<Token>, limit: nat) {
    var n := |ts| - 6;
    && n >= 0 && ts[n..n + 5] == [KW("ORDER"), KW("BY"), Ident("ts"), Ident("DESC"), KW("LIMIT")]
    && ts[n + 5].Num? && IsDecimal(ts[n + 5].val) && Decimal(ts[n + 5].val) == limit
  }

  lemma BuiltQueryAsks(tenant: string, q: SearchQuery, today: DateText)
    ensures AsksForNewest(QueryTokens(tenant, q, today), ClampLimit(q.limit))
  {
    hide Itoa, Decimal, AndJoin, Terms;
    ItoaReads(ClampLimit(q.limit));
    var ts, tail := QueryTokens(tenant, q, today), TailTokens(ClampLimit(q.limit));
    assert ts == (HEAD + ([KW("WHERE")] + AndJoin(Terms(tenant, q, today)))) + tail;
    assert ts[|ts| - 6..] == tail && ts[|ts| - 6..|ts| - 1] == tail[..5];
  }

  /** Writes a constant and a quoted value; `x` is what is still to come. */
  method WriteQuoted(b: string, t: Text, raw: string, ghost x: string) returns (out: string)
    ensures out + x == b + Quoted(t, raw, x)
  {
    hide Print;
    out := b + Print(t) + "'" + raw + "'";
  }

  method WriteConst(b: string, t: Text, ghost x: string) returns (out: string)
    ensures out + x == b + (Print(t) + x)
  {
    hide Print;
    out := b + Print(t);
  }

  /** The text or the service filter. */
  method WriteOptional(b: string, raw: string, mid: Text, close: Text, ghost x: string) returns (out: string)
    ensures out + x == b + Quoted(OPEN_TEXT, raw, Quoted(EQUALS_TEXT, "", Quoted(mid, raw, Print(close) + x)))
  {
    hide Quoted, Print;
    ghost var x2 := Print(close) + x;
    ghost var x1 := Quoted(mid, raw, x2);
    out := WriteQuoted(b, OPEN_TEXT, raw, Quoted(EQUALS_TEXT, "", x1));
    out := WriteQuoted(out, EQUALS_TEXT, "", x1);
    out := WriteQuoted(out, mid, raw, x2);
    out := WriteConst(out, close, x);
  }

  /** The head, the tenant and the dates. */
  method WriteFixed(tenant: string, from: string, to: string, ghost x: string) returns (b: string)
    ensures b + x == HeadLine(WhereLine(tenant, DateLine(from, to, x)))
  {
    hide Quoted, Print;
    ghost var x1 := Quoted(AND_TEXT, to, x);
    ghost var x2 := Quoted(DATE_TEXT, from, x1);
    ghost var x3 := Quoted(WHERE_TEXT, tenant, x2);
    ghost var x4 := Print(FROM_TEXT) + x3;
    b := WriteConst("", SELECT_TEXT, Print(COLUMNS_TEXT) + x4);
    b := WriteConst(b, COLUMNS_TEXT, x4);
    b := WriteConst(b, FROM_TEXT, x3);
    b := WriteQuoted(b, WHERE_TEXT, tenant, x2);
    b := WriteQuoted(b, DATE_TEXT, from, x1);
    b := WriteQuoted(b, AND_TEXT, to, x);
    assert "" + HeadLine(x3) == HeadLine(x3);
  }

  /** The loop over the labels. */
  method WriteLabels(start: string, labels: seq<(string, string)>, ghost x: string) returns (b: string)
    ensures b + x == start + LabelLines(labels, x)
  {
    hide Quoted, Escape;
    b := start;
    for i := 0 to |labels|
      invariant b + LabelLines(labels[i..], x) == start + LabelLines(labels, x)
    {
      var (k, v) := labels[i];
      ghost var rest := LabelLines(labels[i + 1..], x);
      assert labels[i..][0] == labels[i] && labels[i..][1..] == labels[i + 1..];
      ghost var x1 := Quoted(LABEL_EQUALS_TEXT, Escape(v), rest);
      b := WriteQuoted(b, LABEL_TEXT, "$." + Escape(k), x1);
      b := WriteQuoted(b, LABEL_EQUALS_TEXT, Escape(v), rest);
    }
    assert labels[|labels|..] == [];
  }

  /** `buildColdQuery`. */
  method BuildColdQuery(tenant: string, q: SearchQuery, today: DateText) returns (sql: string)
    requires IsUuid(tenant)
    ensures Lex(sql) == QueryTokens(tenant, q, today)
    ensures forall u :: Accepts(Lex(sql), u) <==> u == tenant
    ensures forall eng, row :: Selects(eng, row, Lex(sql)) <==> Wanted(eng, row, tenant, q, today)
    ensures AsksForNewest(Lex(sql), ClampLimit(q.limit))
  {
    hide Lex, Accepts, QueryTokens, Escape, TrimSpace, IsUuid, ClampLimit, Print, Quoted, LabelLines, LimitLine,
      HeadLine, WhereLine, DateLine, Selects, Wanted, AsksForNewest;
    var (from, to) := TimeBounds(q, today);
    var text, svc, limit := TrimSpace(q.text), TrimSpace(q.service), ClampLimit(q.limit);
    ghost var x2 := LabelLines(q.labels, LimitLine(limit));
    ghost var x1 := ServiceLine(Escape(svc), x2);
    ghost var x0 := TextLine(Escape(text), x1);
    sql := WriteFixed(tenant, from, to, x0);
    sql := WriteOptional(sql, Escape(text), REGEXP_TEXT, REGEXP_END_TEXT, x1);
    sql := WriteOptional(sql, Escape(svc), SERVICE_TEXT, SERVICE_END_TEXT, x2);
    sql := WriteLabels(sql, q.labels, LimitLine(limit));
    sql := WriteLimit(sql, limit);
    UuidFacts(tenant);
    QueryReads(tenant, q, today);
    forall u ensures Accepts(Lex(sql), u) <==> u == tenant {
      GateOnBuiltQuery(tenant, q, today, u);
    }
    forall eng, row ensures Selects(eng, row, Lex(sql)) <==> Wanted(eng, row, tenant, q, today) {
      BuiltQuerySelects(eng, row, tenant, q, today);
    }
    BuiltQueryAsks(tenant, q, today);
  }

  method WriteLimit(b: string, limit: nat) returns (out: string)
    ensures out == b + LimitLine(limit)
  {
    hide Print, Itoa;
    out := b + Print(ORDER_TEXT) + Itoa(limit);
  }

  /** A token with the contents of a literal blanked out. */
  function Blanked(t: Token): Token {
    if t.Str? then Str("") else t
  }

  function Shape(ts: seq<Token>): seq<Token> {
    seq(|ts|, i requires 0 <= i < |ts| => Blanked(ts[i]))
  }

  lemma ShapeAppend(a: seq<Token>, b: seq<Token>)
    ensures Shape(a + b) == Shape(a) + Shape(b)
  {
  }

  lemma {:induction false} ShapeAndJoin(cs: seq<seq<Token>>, ds: seq<seq<Token>>)
    requires |cs| == |ds| && forall i | 0 <= i < |cs| :: Shape(cs[i]) == Shape(ds[i])
    ensures Shape(AndJoin(cs)) == Shape(AndJoin(ds))
    decreases |cs|
  {
    hide Shape;
    if |cs| > 1 {
      ShapeAndJoin(cs[1..], ds[1..]);
      ShapeAppend(cs[0], [KW("AND")]);
      ShapeAppend(ds[0], [KW("AND")]);
      ShapeAppend(cs[0] + [KW("AND")], AndJoin(cs[1..]));
      ShapeAppend(ds[0] + [KW("AND")], AndJoin(ds[1..]));
    }
  }

  lemma TermShapes(t: string, t': string, d: string, d': string, e: string, e': string)
    ensures Shape(TenantEquality(t)) == Shape(TenantEquality(t'))
    ensures Shape(DateTerm(d, e)) == Shape(DateTerm(d', e'))
    ensures Shape(TextTerm(t)) == Shape(TextTerm(t'))
    ensures Shape(ServiceTerm(t)) == Shape(ServiceTerm(t'))
    ensures Shape(LabelTerm(t, d)) == Shape(LabelTerm(t', d'))
  {
  }

  /**
   The skeleton is fixed: two queries with as many labels and the same effective limit,
   whatever their tenants, dates and filters hold, differ only inside string literals.
   */
  lemma SkeletonIsFixed(t: string, q: SearchQuery, day: DateText, t': string, q': SearchQuery, day': DateText)
    requires |q.labels| == |q'.labels| && ClampLimit(q.limit) == ClampLimit(q'.limit)
    ensures Shape(QueryTokens(t, q, day)) == Shape(QueryTokens(t', q', day'))
  {
    hide Shape, TenantEquality, DateTerm, TextTerm, ServiceTerm, LabelTerm, TailTokens, TrimSpace, AndJoin;
    var cs, ds := Terms(t, q, day), Terms(t', q', day');
    var tail := TailTokens(ClampLimit(q.limit));
    TermShapes(t, t', TimeBounds(q, day).0, TimeBounds(q', day').0, TimeBounds(q, day).1, TimeBounds(q', day').1);
    TermShapes(TrimSpace(q.text), TrimSpace(q'.text), "", "", "", "");
    TermShapes(TrimSpace(q.service), TrimSpace(q'.service), "", "", "", "");
    forall i | 0 <= i < |cs| ensures Shape(cs[i]) == Shape(ds[i]) {
      if i >= 4 {
        TermShapes(q.labels[i - 4].0, q'.labels[i - 4].0, q.labels[i - 4].1, q'.labels[i - 4].1, "", "");
      }
    }
    ShapeAndJoin(cs, ds);
    ShapeAppend(AndJoin(cs), tail);
    ShapeAppend(AndJoin(ds), tail);
    ShapeAppend([KW("WHERE")], AndJoin(cs) + tail);
    ShapeAppend([KW("WHERE")], AndJoin(ds) + tail);
    ShapeAppend(HEAD, [KW("WHERE")] + (AndJoin(cs) + tail));
    ShapeAppend(HEAD, [KW("WHERE")] + (AndJoin(ds) + tail));
  }
}
