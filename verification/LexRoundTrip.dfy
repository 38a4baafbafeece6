/** Printing tokens and reading them back. */
module LexRoundTrip {
  import opened Tokens
  import opened Lexing
  import Indentation

  // ----- how tokens are spelt -----

  function OperatorText(k: Kind): string {
    if k == KUndScr then "_"
    else if k == KComma then ","
    else if k == KLt then "<"
    else if k == KLeq then "<="
    else if k == KGt then ">"
    else if k == KGeq then ">="
    else if k == KNotNil then "!"
    else if k == KNeq then "!="
    else if k == KNilCheck then "??"
    else if k == KAss then "="
    else if k == KEq then "=="
    else if k == KCol then ":"
    else if k == KSemicol then ";"
    else if k == KRBkt then "}"
    else if k == KLBkt then "{"
    else if k == KRPar then ")"
    else if k == KLPar then "("
    else if k == KAdd then "+"
    else if k == KSub then "-"
    else if k == KRetVal then "->"
    else if k == KMul then "*"
    else if k == KDiv then "/"
    else ""
  }

  function KeywordText(k: Kind): string {
    if k == KElse then "else"
    else if k == KFunc then "func"
    else if k == KIf then "if"
    else if k == KLet then "let"
    else if k == KNil then "nil"
    else if k == KReturn then "return"
    else if k == KVar then "var"
    else if k == KWhile then "while"
    else ""
  }

  function TypeText(k: Kind): string {
    if k == KDtDouble then "Double" else if k == KDtInt then "Int" else if k == KDtString then "String" else ""
  }

  function Digit(d: nat): char
    requires d < 10
  {
    ('0' as int + d) as char
  }

  function Decimal(n: nat): string {
    if n < 10 then [Digit(n)] else Decimal(n / 10) + [Digit(n % 10)]
  }

  function HexDigit(d: nat): char
    requires d < 16
  {
    if d < 10 then Digit(d) else ('a' as int + d - 10) as char
  }

  function EscapeChar(c: char): string {
    if c == '"' then "\\\""
    else if c == '\\' then "\\\\"
    else if c == '\n' then "\\n"
    else if c == '\r' then "\\r"
    else if c == '\t' then "\\t"
    else if c as int < 32 then "\\u{" + [HexDigit(c as int / 16), HexDigit(c as int % 16)] + "}"
    else [c]
  }

  function EscapeText(s: string): string {
    if s == "" then "" else EscapeChar(s[0]) + EscapeText(s[1..])
  }

  predicate IsType(k: Kind) {
    k == KDtDouble || k == KDtInt || k == KDtString
  }

  function Spell(t: Token): string {
    if OperatorText(t.kind) != "" then OperatorText(t.kind)
    else if KeywordText(t.kind) != "" then KeywordText(t.kind)
    else if IsType(t.kind) then TypeText(t.kind) + (if t.val == NilableVal(true) then "?" else "")
    else if t.kind == KInt && t.val.IntVal? && t.val.i >= 0 then Decimal(t.val.i)
    else if t.kind == KString then "\"" + EscapeText(Text(t)) + "\""
    else Text(t)
  }

  // ----- what can be printed -----

  predicate IsWordChar(c: char) {
    IsAlphaNum(c) || c == '_'
  }

  /** The shape of identifiers and keywords. */
  predicate IsWord(s: string) {
    && s != "" && (forall i :: 0 <= i < |s| ==> IsWordChar(s[i])) && !IsNumber(s[0])
    && (s[0] == '_' ==> |s| > 1 && IsAlphaNum(s[1]))
  }

  predicate IsIdentifier(s: string) {
    IsWord(s) && Keyword(s).None? && TypeName(s).None?
  }

  predicate Plain(s: string) {
    forall i :: 0 <= i < |s| ==> 0 < s[i] as int < 128
  }

  /** Operators, keywords, legal identifiers, type names, 32-bit naturals and strings over the codes 1 to 127. */
  predicate Printable(t: Token) {
    || OperatorText(t.kind) != ""
    || KeywordText(t.kind) != ""
    || (IsType(t.kind) && t.val.NilableVal?)
    || (t.kind == KInt && t.val.IntVal? && 0 <= t.val.i <= INT_MAX)
    || (t.kind == KString && t.val.StrVal? && Plain(t.val.s))
    || (t.kind == KIdentifier && t.val.StrVal? && IsIdentifier(t.val.s))
  }

  predicate HasValue(k: Kind) {
    IsType(k) || k == KInt || k == KString || k == KIdentifier
  }

  predicate Matches(got: Token, want: Token, eol: bool) {
    got.kind == want.kind && got.eol == eol && (HasValue(want.kind) ==> got.val == want.val)
  }

  predicate Separates(c: char) {
    c == ' ' || c == '\n'
  }

  // ----- scanning -----

  /** What is still to be read, a character put back included. */
  function Rest(l: Lex, s: string): string {
    if l.unread == NONE then s else [l.unread] + s
  }

  predicate Ready(l: Lex) {
    l.mode == Start && l.unread == NONE && l.text == "" && l.tmp == "" && !l.final
  }

  lemma ScanOne(pf: Platform, l: Lex, c: char, s: string)
    requires l.unread == NONE && c != EOF
    ensures var l' := Step(pf, l, c);
            Scan(pf, l, [c] + s) == if l'.mode == Halt then (l', s) else Scan(pf, l', s)
  {
    hide Step;
    assert ([c] + s)[1..] == s;
    ScanStep(pf, l, [c] + s);
  }

  /** The token is read, and the separator is what comes next. */
  ghost predicate Reads(pf: Platform, l: Lex, text: string, sep: char, s: string, want: Token) {
    var (l', s') := Scan(pf, l, text + [sep] + s);
    l'.final && Matches(l'.tok, want, l.setEol) && Rest(l', s') == [sep] + s
  }

  // ----- operators -----

  lemma OneCharReads(pf: Platform, l: Lex, c: char, m: Mode, sep: char, s: string, want: Token)
    requires Ready(l) && Separates(sep) && c != EOF && Step(pf, l, c) == l.Go(m) && m != Halt
    requires Step(pf, l.Go(m), sep) == l.Go(m).Accept(want.kind, sep) && !HasValue(want.kind)
    ensures Reads(pf, l, [c], sep, s, want)
  {
    hide Step, Scan;
    assert [c] + [sep] + s == [c] + ([sep] + s);
    ScanOne(pf, l, c, [sep] + s);
    ScanOne(pf, l.Go(m), sep, s);
  }

  lemma TwoCharsRead(pf: Platform, l: Lex, c: char, m: Mode, d: char, k: Kind, sep: char, s: string, want: Token)
    requires Ready(l) && Separates(sep) && c != EOF && d != EOF && Step(pf, l, c) == l.Go(m) && m != Halt
    requires Step(pf, l.Go(m), d) == l.Go(Single(k)) && k == want.kind && !HasValue(k)
    ensures Reads(pf, l, [c, d], sep, s, want)
  {
    hide Step, Scan;
    assert [c, d] + [sep] + s == [c] + ([d] + ([sep] + s));
    ScanOne(pf, l, c, [d] + ([sep] + s));
    ScanOne(pf, l.Go(m), d, [sep] + s);
    ScanOne(pf, l.Go(Single(k)), sep, s);
    StepSingle(pf, l, k, sep);
  }

  lemma StepSingle(pf: Platform, l: Lex, k: Kind, c: char)
    ensures Step(pf, l.Go(Single(k)), c) == l.Go(Single(k)).Accept(k, c)
  {
  }

  lemma UnderscoreReads(pf: Platform, l: Lex, sep: char, s: string, want: Token)
    requires Ready(l) && Separates(sep) && want.kind == KUndScr
    ensures Reads(pf, l, "_", sep, s, want)
  {
    hide Scan;
    assert "_" + [sep] + s == ['_'] + ([sep] + s);
    ScanOne(pf, l, '_', [sep] + s);
    ScanOne(pf, l.Keep('_', UndScr), sep, s);
  }

  predicate IsLong(k: Kind) {
    k == KLeq || k == KGeq || k == KNeq || k == KNilCheck || k == KEq || k == KRetVal
  }

  lemma ComparisonReads(pf: Platform, l: Lex, sep: char, s: string, t: Token)
    requires Ready(l) && Separates(sep) && (t.kind == KLeq || t.kind == KGeq || t.kind == KNeq)
    ensures Reads(pf, l, OperatorText(t.kind), sep, s, t)
  {
    hide Reads;
    var k := t.kind;
    if k == KLeq {
      TwoCharsRead(pf, l, '<', Lt, '=', k, sep, s, t);
    } else if k == KGeq {
      TwoCharsRead(pf, l, '>', Gt, '=', k, sep, s, t);
    } else {
      TwoCharsRead(pf, l, '!', NotNil, '=', k, sep, s, t);
    }
  }

  lemma LongOperatorReads(pf: Platform, l: Lex, sep: char, s: string, t: Token)
    requires Ready(l) && Separates(sep) && IsLong(t.kind)
    ensures Reads(pf, l, OperatorText(t.kind), sep, s, t)
  {
    hide Reads;
    var k := t.kind;
    if k == KLeq || k == KGeq || k == KNeq {
      ComparisonReads(pf, l, sep, s, t);
    } else if k == KNilCheck {
      TwoCharsRead(pf, l, '?', Qm, '?', k, sep, s, t);
    } else if k == KEq {
      TwoCharsRead(pf, l, '=', Ass, '=', k, sep, s, t);
    } else {
      TwoCharsRead(pf, l, '-', Sub, '>', k, sep, s, t);
    }
  }

  lemma ShortOperatorReads(pf: Platform, l: Lex, sep: char, s: string, t: Token)
    requires Ready(l) && Separates(sep) && OperatorText(t.kind) != "" && !IsLong(t.kind) && t.kind != KUndScr
    ensures Reads(pf, l, OperatorText(t.kind), sep, s, t)
  {
    hide Reads;
    var c := OperatorText(t.kind)[0];
    OneCharReads(pf, l, c, Operator(c).value, sep, s, t);
  }

  lemma OperatorReads(pf: Platform, l: Lex, sep: char, s: string, t: Token)
    requires Ready(l) && Separates(sep) && OperatorText(t.kind) != ""
    ensures Reads(pf, l, OperatorText(t.kind), sep, s, t)
  {
    hide Reads;
    if t.kind == KUndScr {
      UnderscoreReads(pf, l, sep, s, t);
    } else if IsLong(t.kind) {
      LongOperatorReads(pf, l, sep, s, t);
    } else {
      ShortOperatorReads(pf, l, sep, s, t);
    }
  }

  // ----- words -----

  lemma StepWord(pf: Platform, l: Lex, c: char)
    requires IsWordChar(c) && (l.mode == Ident || (l.mode == UndScr && IsAlphaNum(c)))
    ensures Step(pf, l, c) == l.Keep(c, Ident) && c != EOF
  {
  }

  lemma StepFirst(pf: Platform, l: Lex, c: char)
    requires l.mode == Start && IsWordChar(c) && !IsNumber(c)
    ensures Step(pf, l, c) == l.Keep(c, if c == '_' then UndScr else Ident) && c != EOF
  {
  }

  lemma {:induction false} WordScans(pf: Platform, l: Lex, w: string, s: string)
    requires l.mode == Ident && l.unread == NONE && forall i :: 0 <= i < |w| ==> IsWordChar(w[i])
    ensures Scan(pf, l, w + s) == Scan(pf, l.(text := l.text + w), s)
    decreases |w|
  {
    hide Scan, Step, IsWordChar;
    if w == "" {
      assert w + s == s && l.text + w == l.text;
    } else {
      assert w + s == [w[0]] + (w[1..] + s);
      StepWord(pf, l, w[0]);
      ScanOne(pf, l, w[0], w[1..] + s);
      WordScans(pf, l.Keep(w[0], Ident), w[1..], s);
      assert l.text + [w[0]] + w[1..] == l.text + w;
    }
  }

  lemma WordCut(w: string)
    requires IsWord(w)
    ensures w != "" && IsWordChar(w[0]) && !IsNumber(w[0]) && forall i :: 0 <= i < |w| - 1 ==> IsWordChar(w[1..][i])
    ensures w[0] == '_' ==> |w| > 1 && IsAlphaNum(w[1]) && forall i :: 0 <= i < |w| - 2 ==> IsWordChar(w[2..][i])
  {
    hide IsWordChar, IsAlphaNum, IsNumber;
  }

  /** Up to its end a word is collected. */
  lemma WordStarts(pf: Platform, l: Lex, w: string, s: string)
    requires Ready(l) && IsWord(w)
    ensures Scan(pf, l, w + s) == Scan(pf, l.(mode := Ident, text := w), s)
  {
    hide Scan, Step, IsWordChar, IsAlphaNum, IsNumber, IsWord;
    WordCut(w);
    StepFirst(pf, l, w[0]);
    if w[0] == '_' {
      var v := w[2..];
      assert w + s == [w[0]] + ([w[1]] + (v + s)) && [w[0], w[1]] + v == w && l.text + [w[0]] + [w[1]] == [w[0], w[1]];
      assert IsWordChar(w[1]) by { AlphaNumIsWord(w[1]); }
      ScanOne(pf, l, w[0], [w[1]] + (v + s));
      StepWord(pf, l.Keep('_', UndScr), w[1]);
      ScanOne(pf, l.Keep('_', UndScr), w[1], v + s);
      WordScans(pf, l.(mode := Ident, text := [w[0], w[1]]), v, s);
    } else {
      var u := w[1..];
      assert w + s == [w[0]] + (u + s) && [w[0]] + u == w && l.text + [w[0]] == [w[0]];
      ScanOne(pf, l, w[0], u + s);
      WordScans(pf, l.(mode := Ident, text := [w[0]]), u, s);
    }
  }

  lemma AlphaNumIsWord(c: char)
    requires IsAlphaNum(c)
    ensures IsWordChar(c)
  {
  }

  /** A word that names no type ends at the separator. */
  lemma PlainWordReads(pf: Platform, l: Lex, w: string, sep: char, s: string, want: Token)
    requires Ready(l) && Separates(sep) && IsWord(w) && TypeName(w).None?
    requires want.kind == (if Keyword(w).Some? then Keyword(w).value else KIdentifier)
    requires HasValue(want.kind) ==> want.val == StrVal(w)
    ensures Reads(pf, l, w, sep, s, want)
  {
    hide Scan, Keyword, TypeName, HasValue;
    WordStarts(pf, l, w, [sep] + s);
    assert w + ([sep] + s) == w + [sep] + s;
    ScanOne(pf, l.(mode := Ident, text := w), sep, s);
  }

  /** A type name takes a following question mark with it. */
  lemma TypeReads(pf: Platform, l: Lex, sep: char, s: string, want: Token)
    requires Ready(l) && Separates(sep) && IsType(want.kind) && want.val.NilableVal?
    ensures Reads(pf, l, Spell(want), sep, s, want)
  {
    hide Scan;
    var w := TypeText(want.kind);
    assert IsWord(w) && TypeName(w) == Some(want.kind);
    var l1 := l.(mode := Ident, text := w);
    if want.val.b {
      WordStarts(pf, l, w, ['?'] + ([sep] + s));
      assert Spell(want) + [sep] + s == w + (['?'] + ([sep] + s));
      TypeEnds(pf, l1, want.kind, '?', [sep] + s);
    } else {
      WordStarts(pf, l, w, [sep] + s);
      assert Spell(want) == w + "" == w;
      assert Spell(want) + [sep] + s == w + ([sep] + s);
      TypeEnds(pf, l1, want.kind, sep, s);
    }
  }

  lemma TypeEnds(pf: Platform, l: Lex, k: Kind, c: char, s: string)
    requires l.mode == Ident && l.unread == NONE && TypeName(l.text) == Some(k) && (c == '?' || Separates(c))
    ensures var l1 := l.(final := true, setEol := false, mode := Halt, tok := Token(l.setEol, k, NilableVal(c == '?')));
            Scan(pf, l, [c] + s) == (if c == '?' then l1 else l1.(unread := c), s)
  {
    hide Scan, TypeName;
    ScanOne(pf, l, c, s);
    var l1 := l.AcceptValue(k, NilableVal(false), c).(mode := DataType);
    assert Step(pf, l, c) == l1;
    ScanStep(pf, l1, s);
  }

  lemma KeywordReads(pf: Platform, l: Lex, sep: char, s: string, want: Token)
    requires Ready(l) && Separates(sep) && KeywordText(want.kind) != ""
    ensures Reads(pf, l, KeywordText(want.kind), sep, s, want)
  {
    hide Reads;
    var w := KeywordText(want.kind);
    KeywordIsWord(want.kind);
    PlainWordReads(pf, l, w, sep, s, want);
  }

  lemma KeywordIsWord(k: Kind)
    requires KeywordText(k) != ""
    ensures IsWord(KeywordText(k)) && Keyword(KeywordText(k)) == Some(k) && TypeName(KeywordText(k)).None? && !HasValue(k)
  {
  }

  // ----- numbers -----

  lemma {:induction false} DecimalDigits(n: nat)
    ensures Decimal(n) != "" && forall i :: 0 <= i < |Decimal(n)| ==> IsNumber(Decimal(n)[i])
    decreases n
  {
    if n >= 10 {
      DecimalDigits(n / 10);
    }
  }

  lemma {:induction false} DigitsSnoc(u: string, c: char, acc: nat)
    requires IsNumber(c) && forall i :: 0 <= i < |u| ==> IsNumber(u[i])
    ensures Digits(u + [c], acc) == 10 * Digits(u, acc) + (c as int - '0' as int)
    decreases |u|
  {
    if u == "" {
      assert u + [c] == [c];
      assert [c][1..] == "";
    } else {
      assert (u + [c])[1..] == u[1..] + [c];
      DigitsSnoc(u[1..], c, 10 * acc + (u[0] as int - '0' as int));
    }
  }

  lemma {:induction false} DecimalValue(n: nat)
    ensures Digits(Decimal(n), 0) == n
    decreases n
  {
    if n < 10 {
      assert [Digit(n)][1..] == "";
    } else {
      DecimalValue(n / 10);
      DecimalDigits(n / 10);
      DigitsSnoc(Decimal(n / 10), Digit(n % 10), 0);
    }
  }

  lemma {:induction false} DigitsScan(pf: Platform, l: Lex, u: string, s: string)
    requires l.mode == SInt && l.unread == NONE && forall i :: 0 <= i < |u| ==> IsNumber(u[i])
    ensures Scan(pf, l, u + s) == Scan(pf, l.(text := l.text + u), s)
    decreases |u|
  {
    hide Scan;
    if u == "" {
      assert u + s == s && l.text + u == l.text;
    } else {
      assert u + s == [u[0]] + (u[1..] + s);
      ScanOne(pf, l, u[0], u[1..] + s);
      DigitsScan(pf, l.Keep(u[0], SInt), u[1..], s);
      assert l.text + [u[0]] + u[1..] == l.text + u;
    }
  }

  lemma IntReads(pf: Platform, l: Lex, n: nat, sep: char, s: string, want: Token)
    requires Ready(l) && Separates(sep) && n <= INT_MAX && want.kind == KInt && want.val == IntVal(n)
    ensures Reads(pf, l, Decimal(n), sep, s, want)
  {
    hide Scan, Digits, Decimal;
    var w := Decimal(n);
    DecimalDigits(n);
    DecimalValue(n);
    var u := w[1..];
    assert w + [sep] + s == [w[0]] + (u + ([sep] + s)) && [] + [w[0]] + u == w;
    ScanOne(pf, l, w[0], u + ([sep] + s));
    DigitsScan(pf, l.Keep(w[0], SInt), u, [sep] + s);
    ScanOne(pf, l.(mode := SInt, text := w), sep, s);
  }

  // ----- strings -----

  lemma HexRoundTrip(c: char)
    requires c as int < 32
    ensures HexaToDec([HexDigit(c as int / 16), HexDigit(c as int % 16)]) == c
    ensures IsHexa(HexDigit(c as int / 16)) && IsHexa(HexDigit(c as int % 16))
  {
  }

  /** The automaton's counter of hexadecimal digits after a text. */
  function HexaAfter(h: int, s: string): int
    decreases |s|
  {
    if s == "" then h else HexaAfter(HexaOf(h, s[0]), s[1..])
  }

  function HexaOf(h: int, c: char): int {
    if |EscapeChar(c)| == 6 then 2 else h
  }

  predicate InText(l: Lex) {
    (l.mode == Inner || l.mode == StringStart) && l.unread == NONE && l.tmp == ""
  }

  function WithChar(l: Lex, c: char): Lex {
    l.(mode := Inner, text := l.text + [c], hexa := HexaOf(l.hexa, c))
  }

  lemma ShortEscapeScans(pf: Platform, l: Lex, c: char, s: string)
    requires InText(l) && 0 < c as int < 128 && |EscapeChar(c)| == 2
    ensures Scan(pf, l, EscapeChar(c) + s) == Scan(pf, WithChar(l, c), s)
  {
    hide Scan;
    var d := EscapeChar(c)[1];
    assert EscapeChar(c) + s == ['\\'] + ([d] + s);
    ScanOne(pf, l, '\\', [d] + s);
    ScanOne(pf, l.Go(Escape), d, s);
  }

  lemma PlainCharScans(pf: Platform, l: Lex, c: char, s: string)
    requires InText(l) && 0 < c as int < 128 && |EscapeChar(c)| == 1
    ensures Scan(pf, l, EscapeChar(c) + s) == Scan(pf, WithChar(l, c), s)
  {
    hide Scan;
    ScanOne(pf, l, c, s);
  }

  /** Into the braces of an escape. */
  lemma HexOpens(pf: Platform, l: Lex, s: string)
    requires InText(l)
    ensures Scan(pf, l, "\\u{" + s) == Scan(pf, l.(text := l.text + ['u'], hexa := 0, mode := Hexa), s)
  {
    hide Scan, Step;
    StepsIntoHex(pf, l);
    var l2 := l.(text := l.text + ['u'], mode := HexaQ);
    assert "\\u{" + s == ['\\'] + (['u'] + (['{'] + s));
    ScanOne(pf, l, '\\', ['u'] + (['{'] + s));
    ScanOne(pf, l.Go(Escape), 'u', ['{'] + s);
    ScanOne(pf, l2, '{', s);
  }

  /** Two digits and the closing brace. */
  lemma HexCloses(pf: Platform, l: Lex, a: char, b: char, s: string)
    requires l.mode == Hexa && l.hexa == 0 && l.tmp == "" && l.unread == NONE && l.text != "" && IsHexa(a) && IsHexa(b)
    ensures Scan(pf, l, [a, b, '}'] + s) ==
      Scan(pf, l.(text := l.text[..|l.text| - 1] + [HexaToDec([a, b])], tmp := "", hexa := 2, mode := Inner), s)
  {
    hide Scan, Step, HexaToDec, IsHexa;
    var l4 := l.(tmp := [a], hexa := 1);
    var l5 := l.(tmp := [a, b], hexa := 2);
    assert [a, b, '}'] + s == [a] + ([b] + (['}'] + s));
    assert l.tmp + [a] == [a] && l4.tmp + [b] == [a, b];
    StepHexDigit(pf, l, a);
    ScanOne(pf, l, a, [b] + (['}'] + s));
    StepHexDigit(pf, l4, b);
    ScanOne(pf, l4, b, ['}'] + s);
    StepHexEnd(pf, l5);
    ScanOne(pf, l5, '}', s);
  }

  lemma HexEscapeScans(pf: Platform, l: Lex, c: char, s: string)
    requires InText(l) && 0 < c as int < 128 && |EscapeChar(c)| == 6
    ensures Scan(pf, l, EscapeChar(c) + s) == Scan(pf, WithChar(l, c), s)
  {
    hide Scan, HexaToDec, IsHexa, HexDigit, Step;
    var a, b := HexDigit(c as int / 16), HexDigit(c as int % 16);
    HexRoundTrip(c);
    assert EscapeChar(c) + s == "\\u{" + ([a, b, '}'] + s);
    HexOpens(pf, l, [a, b, '}'] + s);
    var l3 := l.(text := l.text + ['u'], hexa := 0, mode := Hexa);
    HexCloses(pf, l3, a, b, s);
    assert l3.text[..|l3.text| - 1] == l.text;
  }

  lemma StepsIntoHex(pf: Platform, l: Lex)
    requires InText(l)
    ensures Step(pf, l, '\\') == l.Go(Escape)
    ensures Step(pf, l.Go(Escape), 'u') == l.(text := l.text + ['u'], mode := HexaQ)
    ensures var l2 := l.(text := l.text + ['u'], mode := HexaQ); Step(pf, l2, '{') == l2.(hexa := 0, mode := Hexa)
  {
  }

  lemma StepHexDigit(pf: Platform, l: Lex, c: char)
    requires l.mode == Hexa && IsHexa(c) && l.hexa < 8
    ensures Step(pf, l, c) == l.(tmp := l.tmp + [c], hexa := l.hexa + 1) && c != EOF
  {
  }

  lemma StepHexEnd(pf: Platform, l: Lex)
    requires l.mode == Hexa && l.hexa > 0 && l.text != ""
    ensures Step(pf, l, '}') == l.(text := l.text[..|l.text| - 1] + [HexaToDec(l.tmp)], tmp := "", mode := Inner)
  {
    hide HexaToDec;
  }

  lemma CharScans(pf: Platform, l: Lex, c: char, s: string)
    requires InText(l) && 0 < c as int < 128
    ensures Scan(pf, l, EscapeChar(c) + s) == Scan(pf, WithChar(l, c), s)
  {
    hide Scan, EscapeChar, WithChar;
    EscapeLengths(c);
    if |EscapeChar(c)| == 1 {
      PlainCharScans(pf, l, c, s);
    } else if |EscapeChar(c)| == 2 {
      ShortEscapeScans(pf, l, c, s);
    } else {
      HexEscapeScans(pf, l, c, s);
    }
  }

  lemma EscapeLengths(c: char)
    ensures var n := |EscapeChar(c)|; n == 1 || n == 2 || n == 6
  {
  }

  /** An escaped text is read back character by character. */
  lemma {:induction false} TextScans(pf: Platform, l: Lex, t: string, s: string)
    requires InText(l) && Plain(t)
    ensures Scan(pf, l, EscapeText(t) + s) ==
      if t == "" then Scan(pf, l, s)
      else Scan(pf, l.(mode := Inner, text := l.text + t, hexa := HexaAfter(l.hexa, t)), s)
    decreases |t|
  {
    hide Scan, EscapeChar, HexaOf;
    if t == "" {
      assert "" + s == s;
    } else {
      var u := t[1..];
      assert EscapeText(t) + s == EscapeChar(t[0]) + (EscapeText(u) + s);
      CharScans(pf, l, t[0], EscapeText(u) + s);
      TextScans(pf, WithChar(l, t[0]), u, s);
      assert l.text + [t[0]] + u == l.text + t;
      assert u == "" ==> l.text + [t[0]] == l.text + t;
    }
  }

  lemma StepQuotes(pf: Platform, l: Lex, sep: char)
    requires Separates(sep)
    ensures l.mode == Start ==> Step(pf, l, '"') == l.Go(StringStart)
    ensures l.mode == StringStart ==> Step(pf, l, '"') == l.Go(EmptyString)
    ensures l.mode == Inner ==> Step(pf, l, '"') == l.Go(StringEnd)
    ensures l.mode == EmptyString || l.mode == StringEnd ==>
      Step(pf, l, sep) == l.AcceptValue(KString, StrVal(l.text), sep)
  {
  }

  lemma StringEnds(pf: Platform, l: Lex, sep: char, s: string)
    requires (l.mode == Inner || l.mode == StringStart) && l.unread == NONE && Separates(sep)
    ensures var l' := l.AcceptValue(KString, StrVal(l.text), sep);
            Scan(pf, l, ['"'] + ([sep] + s)) == (l', s)
  {
    hide Scan, Step;
    var l1 := l.Go(if l.mode == Inner then StringEnd else EmptyString);
    StepQuotes(pf, l, sep);
    StepQuotes(pf, l1, sep);
    ScanOne(pf, l, '"', [sep] + s);
    ScanOne(pf, l1, sep, s);
  }

  lemma StringReads(pf: Platform, l: Lex, t: string, sep: char, s: string, want: Token)
    requires Ready(l) && Separates(sep) && Plain(t) && want.kind == KString && want.val == StrVal(t)
    ensures Reads(pf, l, "\"" + EscapeText(t) + "\"", sep, s, want)
  {
    hide Scan, Step, EscapeText, Plain, HexaAfter;
    var s1 := ['"'] + ([sep] + s);
    assert "\"" + EscapeText(t) + "\"" + [sep] + s == ['"'] + (EscapeText(t) + s1);
    var l1 := l.Go(StringStart);
    StepQuotes(pf, l, sep);
    ScanOne(pf, l, '"', EscapeText(t) + s1);
    TextScans(pf, l1, t, s1);
    assert l1.text + t == t;
    StringEnds(pf, if t == "" then l1 else l1.(mode := Inner, text := l1.text + t, hexa := HexaAfter(l.hexa, t)), sep, s);
  }

  // ----- strings on several lines -----

  predicate IsIndent(w: string) {
    forall i :: 0 <= i < |w| ==> IsWhitespace(w[i])
  }

  /** Text without the character that reads as the end of the file. */
  predicate Readable(t: string) {
    forall i :: 0 <= i < |t| ==> t[i] != EOF
  }

  predicate ReadableLines(lines: Indentation.Lines) {
    forall k :: 0 <= k < |lines| ==> Readable(lines[k])
  }

  /** Quotation marks and backslashes are escaped, line ends are not. */
  function Quoted(t: string): string {
    if t == "" then "" else (if t[0] == '"' || t[0] == '\\' then ['\\', t[0]] else [t[0]]) + Quoted(t[1..])
  }

  function ModeAfterChar(m: Mode, c: char): (n: Mode)
    ensures n == EolEndQ || n == MInner
  {
    if c == '\n' || (m == EolEndQ && IsWhitespace(c)) then EolEndQ else MInner
  }

  function ModeAfter(m: Mode, t: string): (n: Mode)
    ensures m == EolEndQ || m == MInner ==> n == EolEndQ || n == MInner
    decreases |t|
  {
    if t == "" then m else ModeAfter(ModeAfterChar(m, t[0]), t[1..])
  }

  lemma {:induction false} ModeAfterIndent(m: Mode, w: string)
    requires IsIndent(w) && m == EolEndQ
    ensures ModeAfter(m, w) == EolEndQ
    decreases |w|
  {
    hide IsWhitespace;
    if w != "" {
      ModeAfterIndent(m, w[1..]);
    }
  }

  lemma StepLine(pf: Platform, l: Lex, c: char)
    requires l.mode == EolEndQ || l.mode == MInner
    ensures c != '"' && c != '\\' ==> Step(pf, l, c) == l.Keep(c, ModeAfterChar(l.mode, c))
    ensures Step(pf, l, '\\') == l.Go(MEscape)
  {
  }

  lemma StepLineEscape(pf: Platform, l: Lex, c: char)
    requires l.mode == MEscape && (c == '"' || c == '\\')
    ensures Step(pf, l, c) == l.Keep(c, MInner) && forall m :: ModeAfterChar(m, c) == MInner
  {
  }

  /** One character of the text, escaped or not. */
  lemma LineCharScans(pf: Platform, l: Lex, c: char, s: string)
    requires (l.mode == EolEndQ || l.mode == MInner) && l.unread == NONE && c != EOF
    ensures Scan(pf, l, (if c == '"' || c == '\\' then ['\\', c] else [c]) + s) ==
      Scan(pf, l.Keep(c, ModeAfterChar(l.mode, c)), s)
  {
    hide Scan, Step, ModeAfterChar;
    StepLine(pf, l, c);
    if c == '"' || c == '\\' {
      assert ['\\', c] + s == ['\\'] + ([c] + s);
      StepLineEscape(pf, l.Go(MEscape), c);
      ScanOne(pf, l, '\\', [c] + s);
      ScanOne(pf, l.Go(MEscape), c, s);
    } else {
      ScanOne(pf, l, c, s);
    }
  }

  lemma {:induction false} LinesScan(pf: Platform, l: Lex, t: string, s: string)
    requires (l.mode == EolEndQ || l.mode == MInner) && l.unread == NONE && Readable(t)
    ensures Scan(pf, l, Quoted(t) + s) == Scan(pf, l.(mode := ModeAfter(l.mode, t), text := l.text + t), s)
    decreases |t|
  {
    hide Scan, Step, ModeAfterChar, IsWhitespace;
    if t == "" {
      assert Quoted(t) + s == s && l.text + t == l.text;
    } else {
      var c := t[0];
      var spelt := if c == '"' || c == '\\' then ['\\', c] else [c];
      assert Quoted(t) + s == spelt + (Quoted(t[1..]) + s);
      LineCharScans(pf, l, c, Quoted(t[1..]) + s);
      LinesScan(pf, l.Keep(c, ModeAfterChar(l.mode, c)), t[1..], s);
      assert l.text + [c] + t[1..] == l.text + t;
    }
  }

  lemma {:induction false} JoinReadable(lines: Indentation.Lines)
    requires ReadableLines(lines)
    ensures Readable(Indentation.Join(lines))
    decreases |lines|
  {
    if |lines| > 1 {
      assert ReadableLines(lines[1..]) by {
        assert forall k :: 0 <= k < |lines| - 1 ==> lines[1..][k] == lines[k + 1];
      }
      JoinReadable(lines[1..]);
    }
  }

  lemma IndentPlain(w: string)
    requires IsIndent(w)
    ensures Readable("\n" + w) && Readable(w) && '\n' !in w && Quoted("\n" + w) == "\n" + w
  {
    NotQuoted("\n" + w);
  }

  lemma {:induction false} NotQuoted(t: string)
    requires forall i :: 0 <= i < |t| ==> t[i] != '"' && t[i] != '\\'
    ensures Quoted(t) == t
    decreases |t|
  {
    if t != "" {
      NotQuoted(t[1..]);
      assert [t[0]] + t[1..] == t;
    }
  }

  lemma StepOpening(pf: Platform, l: Lex)
    ensures l.mode == EmptyString ==> Step(pf, l, '"') == l.Go(EolStartQ)
    ensures l.mode == EolStartQ ==> Step(pf, l, '\n') == l.Go(EolEndQ)
  {
  }

  lemma StepClosing(pf: Platform, l: Lex)
    ensures l.mode == EolEndQ ==> Step(pf, l, '"') == l.Keep('"', MEnd1)
    ensures l.mode == MEnd1 ==> Step(pf, l, '"') == l.Keep('"', MEnd2)
    ensures l.mode == MEnd2 && |l.text| >= 2 ==>
      var d := Indentation.Dedent(l.text + ['"']);
      var l' := l.Keep('"', MInner);
      Step(pf, l, '"') == if d.Some? then l'.(text := d.value, mode := StringEnd) else l'.Go(Halt)
  {
    hide Indentation.Dedent;
  }

  lemma OpeningScans(pf: Platform, l: Lex, s: string)
    requires Ready(l)
    ensures Scan(pf, l, "\"\"\"\n" + s) == Scan(pf, l.Go(EolEndQ), s)
  {
    hide Scan, Step;
    var s1 := ['\n'] + s;
    StepQuotes(pf, l, ' ');
    StepQuotes(pf, l.Go(StringStart), ' ');
    StepOpening(pf, l.Go(EmptyString));
    StepOpening(pf, l.Go(EolStartQ));
    assert "\"\"\"\n" + s == ['"'] + (['"'] + (['"'] + s1));
    ScanOne(pf, l, '"', ['"'] + (['"'] + s1));
    ScanOne(pf, l.Go(StringStart), '"', ['"'] + s1);
    ScanOne(pf, l.Go(EmptyString), '"', s1);
    ScanOne(pf, l.Go(EolStartQ), '\n', s);
  }

  lemma TwoQuotesScan(pf: Platform, l: Lex, s: string)
    requires l.mode == EolEndQ && l.unread == NONE
    ensures Scan(pf, l, "\"\"" + s) == Scan(pf, l.(text := l.text + "\"\"", mode := MEnd2), s)
  {
    hide Scan, Step;
    var l1 := l.Keep('"', MEnd1);
    assert "\"\"" + s == ['"'] + (['"'] + s);
    StepClosing(pf, l);
    StepClosing(pf, l1);
    ScanOne(pf, l, '"', ['"'] + s);
    ScanOne(pf, l1, '"', s);
    assert l.text + ['"'] + ['"'] == l.text + "\"\"";
  }

  lemma LastQuoteScans(pf: Platform, l: Lex, sep: char, s: string)
    requires l.mode == MEnd2 && |l.text| >= 2 && l.unread == NONE && !l.final && Separates(sep)
    ensures var d := Indentation.Dedent(l.text + ['"']);
            var r := Scan(pf, l, ['"'] + ([sep] + s));
            if d.Some? then r == (l.(text := d.value).AcceptValue(KString, StrVal(d.value), sep), s) else !r.0.final
  {
    hide Scan, Step, Indentation.Dedent;
    StepClosing(pf, l);
    ScanOne(pf, l, '"', [sep] + s);
    var d := Indentation.Dedent(l.text + ['"']);
    if d.Some? {
      var l' := l.(text := d.value, mode := StringEnd);
      StepQuotes(pf, l', sep);
      ScanOne(pf, l', sep, s);
    }
  }

  /** The closing quotes: the text is dedented, or the scan fails. */
  lemma ClosingScans(pf: Platform, l: Lex, sep: char, s: string)
    requires l.mode == EolEndQ && l.unread == NONE && !l.final && Separates(sep)
    ensures var d := Indentation.Dedent(l.text + Indentation.QUOTES);
            var r := Scan(pf, l, Indentation.QUOTES + [sep] + s);
            if d.Some? then r == (l.(text := d.value).AcceptValue(KString, StrVal(d.value), sep), s) else !r.0.final
  {
    hide Scan, Step, Indentation.Dedent;
    var l2 := l.(text := l.text + "\"\"", mode := MEnd2);
    assert Indentation.QUOTES + [sep] + s == "\"\"" + (['"'] + ([sep] + s));
    TwoQuotesScan(pf, l, ['"'] + ([sep] + s));
    assert l2.text + ['"'] == l.text + Indentation.QUOTES;
    LastQuoteScans(pf, l2, sep, s);
  }

  function MultiLine(lines: Indentation.Lines, w: string): string {
    "\"\"\"\n" + Quoted(Indentation.Join(lines)) + "\n" + w + Indentation.QUOTES
  }

  /** A literal of whole lines closed at indentation `w` is read as those lines without `w`; it is no token
      exactly when some line cannot lose `w`. */
  lemma MultiLineReads(pf: Platform, l: Lex, lines: Indentation.Lines, w: string, sep: char, s: string)
    requires Ready(l) && Separates(sep) && IsIndent(w) && ReadableLines(lines)
    requires lines != [] && Indentation.NoNewline(lines) && lines[|lines| - 1] != ""
    ensures var d := Indentation.Joined(Indentation.StripLines(w, lines));
            if d.Some? then Reads(pf, l, MultiLine(lines, w), sep, s, Token(false, KString, StrVal(d.value)))
            else !Scan(pf, l, MultiLine(lines, w) + [sep] + s).0.final
  {
    hide Scan, Step, Indentation.Dedent, Indentation.StripLines, Indentation.Join, Readable, Quoted, IsIndent,
         ReadableLines;
    hide ModeAfterChar, Indentation.NoNewline;
    var t := Indentation.Join(lines);
    var closing := Indentation.QUOTES + [sep] + s;
    assert MultiLine(lines, w) + [sep] + s == "\"\"\"\n" + (Quoted(t) + ("\n" + w + closing));
    OpeningScans(pf, l, Quoted(t) + ("\n" + w + closing));
    JoinReadable(lines);
    LinesScan(pf, l.Go(EolEndQ), t, "\n" + w + closing);
    var l1 := l.(mode := ModeAfter(EolEndQ, t), text := l.text + t);
    IndentPlain(w);
    LinesScan(pf, l1, "\n" + w, closing);
    EndsAtIndent(l1.mode, w);
    var l2 := l1.(mode := EolEndQ, text := l1.text + ("\n" + w));
    assert l2.text + Indentation.QUOTES == Indentation.Literal(lines, w);
    Indentation.DedentsLines(lines, w);
    ClosingScans(pf, l2, sep, s);
  }

  lemma EndsAtIndent(m: Mode, w: string)
    requires IsIndent(w)
    ensures ModeAfter(m, "\n" + w) == EolEndQ
  {
    assert ("\n" + w)[1..] == w;
    ModeAfterIndent(EolEndQ, w);
  }

  /** Indented lines are read back without their indentation. */
  lemma IndentedReads(pf: Platform, l: Lex, lines: Indentation.Lines, w: string, sep: char, s: string)
    requires Ready(l) && Separates(sep) && IsIndent(w) && ReadableLines(lines)
    requires lines != [] && Indentation.NoNewline(lines) && lines[|lines| - 1] != ""
    ensures Reads(pf, l, MultiLine(Indentation.Indent(w, lines), w), sep, s,
                  Token(false, KString, StrVal(Indentation.Join(lines))))
  {
    hide Reads, Ready, Separates, Scan, MultiLine, Indentation.Join, Indentation.StripLines, Indentation.NoNewline;
    hide IsIndent, ReadableLines, Indentation.Indent, Readable;
    IndentPlain(w);
    IndentedReadable(w, lines);
    Indentation.IndentPlain(lines, w);
    Indentation.IndentStrips(w, lines);
    MultiLineReads(pf, l, Indentation.Indent(w, lines), w, sep, s);
  }

  lemma IndentedReadable(w: string, lines: Indentation.Lines)
    requires ReadableLines(lines) && Readable("\n" + w)
    ensures ReadableLines(Indentation.Indent(w, lines))
  {
    assert forall i :: 0 <= i < |w| ==> w[i] == ("\n" + w)[i + 1];
  }

  // ----- token lists -----

  /** Every printable token is read back, whatever follows its separator. */
  lemma TokenReads(pf: Platform, l: Lex, t: Token, sep: char, s: string)
    requires Ready(l) && Separates(sep) && Printable(t)
    ensures Reads(pf, l, Spell(t), sep, s, t)
  {
    hide Reads, Scan, EscapeText, Decimal, OperatorText, KeywordText, IsIdentifier, Plain;
    KindsApart(t.kind);
    if OperatorText(t.kind) != "" {
      OperatorReads(pf, l, sep, s, t);
    } else if KeywordText(t.kind) != "" {
      KeywordReads(pf, l, sep, s, t);
    } else if IsType(t.kind) {
      TypeReads(pf, l, sep, s, t);
    } else if t.kind == KInt {
      IntReads(pf, l, t.val.i, sep, s, t);
    } else if t.kind == KString {
      StringReads(pf, l, t.val.s, sep, s, t);
    } else {
      IdentifierReads(pf, l, sep, s, t);
    }
  }

  lemma KindsApart(k: Kind)
    ensures HasValue(k) ==> OperatorText(k) == "" && KeywordText(k) == ""
    ensures IsType(k) ==> k != KInt && k != KString && k != KIdentifier
  {
  }

  lemma IdentifierReads(pf: Platform, l: Lex, sep: char, s: string, t: Token)
    requires Ready(l) && Separates(sep) && t.kind == KIdentifier && t.val.StrVal? && IsIdentifier(t.val.s)
    ensures Reads(pf, l, t.val.s, sep, s, t)
  {
    hide Reads, IsWord, Keyword, TypeName;
    PlainWordReads(pf, l, t.val.s, sep, s, t);
  }

  /** Tokens, each followed by its separator. */
  function Print(ts: seq<Token>, seps: string): string
    requires |ts| == |seps|
    decreases |ts|
  {
    if ts == [] then "" else Spell(ts[0]) + [seps[0]] + Print(ts[1..], seps[1..])
  }

  /** The results of `n` calls. */
  function ReadAll(pf: Platform, l: Lex, s: string, n: nat): seq<Option<Token>>
    decreases n
  {
    if n == 0 then [] else
      var (l', s') := Scan(pf, Fresh(l), s);
      [Lexing.Read(l')] + ReadAll(pf, l', s', n - 1)
  }

  /** The list read: every token, its flag saying whether the separator before it was a newline, then the end. */
  predicate ReadBack(got: seq<Option<Token>>, ts: seq<Token>, seps: string, eol: bool)
    requires |ts| == |seps|
    decreases |ts|
  {
    if ts == [] then |got| == 1 && got[0].Some? && got[0].value.kind == KEof && got[0].value.eol == eol
    else
      && |got| > 0 && got[0].Some? && Matches(got[0].value, ts[0], eol)
      && ReadBack(got[1..], ts[1..], seps[1..], seps[0] == '\n')
  }

  /** Between tokens: the next call starts in front of `s`, after a separator or at the very beginning. */
  predicate Between(l: Lex, left: string, s: string, eol: bool) {
    (l.unread == NONE && left == s && !eol) ||
    (exists sep :: Separates(sep) && Rest(l, left) == [sep] + s && eol == (sep == '\n'))
  }

  /** A separator in front only sets the flag. */
  lemma SkipsSeparator(pf: Platform, l: Lex, left: string, s: string, eol: bool) returns (l1: Lex)
    requires Between(l, left, s, eol)
    ensures Ready(l1) && l1.setEol == eol && Scan(pf, Fresh(l), left) == Scan(pf, l1, s)
  {
    l1 := Fresh(l).(unread := NONE, setEol := eol);
    if !(l.unread == NONE && left == s && !eol) {
      var sep :| Separates(sep) && Rest(l, left) == [sep] + s && eol == (sep == '\n');
      ScanStep(pf, Fresh(l), left);
      if l.unread == NONE {
        assert left[1..] == s && left[0] == sep;
      } else {
        assert ([l.unread] + left)[0] == sep && ([l.unread] + left)[1..] == left && ([sep] + s)[1..] == s;
      }
      StepSeparator(pf, Fresh(l).(unread := NONE), sep);
    }
  }

  lemma StepSeparator(pf: Platform, l: Lex, sep: char)
    requires l.mode == Start && Separates(sep)
    ensures Step(pf, l, sep) == (if sep == '\n' then l.(setEol := true) else l)
  {
  }

  lemma EndReads(pf: Platform, l: Lex)
    requires Ready(l)
    ensures var l' := Scan(pf, l, "").0; l'.final && l'.tok.kind == KEof && l'.tok.eol == l.setEol
  {
    hide Scan;
    ScanStep(pf, l, "");
  }

  /** Lexer round trip: repeated calls on printed tokens return those tokens, each flagged exactly when a newline
      came before it, and then the end of the file. */
  lemma {:induction false} RoundTrip(pf: Platform, l: Lex, left: string, ts: seq<Token>, seps: string, eol: bool)
    requires |ts| == |seps| && (forall i :: 0 <= i < |ts| ==> Printable(ts[i]) && Separates(seps[i]))
    requires Between(l, left, Print(ts, seps), eol)
    ensures ReadBack(ReadAll(pf, l, left, |ts| + 1), ts, seps, eol)
    decreases |ts|
  {
    hide Scan, Spell, Printable, Matches, Separates;
    var l1 := SkipsSeparator(pf, l, left, Print(ts, seps), eol);
    var (l', s') := Scan(pf, Fresh(l), left);
    if ts == [] {
      EndReads(pf, l1);
      assert ReadAll(pf, l', s', 0) == [];
    } else {
      var rest := Print(ts[1..], seps[1..]);
      TokenReads(pf, l1, ts[0], seps[0], rest);
      assert Reads(pf, l1, Spell(ts[0]), seps[0], rest, ts[0]);
      assert Between(l', s', rest, seps[0] == '\n');
      RoundTrip(pf, l', s', ts[1..], seps[1..], seps[0] == '\n');
      assert ReadAll(pf, l, left, |ts| + 1)[1..] == ReadAll(pf, l', s', |ts|);
    }
  }

  /** The same for a whole file, read by a lexer that has read nothing yet. */
  lemma FileRoundTrip(pf: Platform, l: Lex, ts: seq<Token>, seps: string)
    requires l.unread == NONE && |ts| == |seps|
    requires forall i :: 0 <= i < |ts| ==> Printable(ts[i]) && Separates(seps[i])
    ensures ReadBack(ReadAll(pf, l, Print(ts, seps), |ts| + 1), ts, seps, false)
  {
    RoundTrip(pf, l, Print(ts, seps), ts, seps, false);
  }
}
