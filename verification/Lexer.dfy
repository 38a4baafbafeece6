/** The lexer: a character automaton with one character of look-ahead.  `Lexer` runs it in place. */
module Lexing {
  import opened Tokens
  import Indentation

  // ----- characters; a byte is a char below 256, and the end of input is the byte 255 -----

  const EOF: char := 255 as char
  const NONE: char := 0 as char

  predicate IsWhitespace(c: char) {
    c == ' ' || c == '\t' || c == 11 as char || c == 12 as char || c == '\r'
  }

  predicate IsNumber(c: char) {
    '0' <= c <= '9'
  }

  predicate IsAlpha(c: char) {
    'a' <= c <= 'z' || 'A' <= c <= 'Z'
  }

  predicate IsAlphaNum(c: char) {
    IsAlpha(c) || IsNumber(c)
  }

  predicate IsHexa(c: char) {
    'a' <= c <= 'f' || 'A' <= c <= 'F' || IsNumber(c)
  }

  /** Bytes from 128 on are negative as C's signed characters. */
  predicate InStringSigma(c: char) {
    31 < c as int < 128 && c != '"'
  }

  function HexValue(c: char): nat {
    if IsNumber(c) then c as int - '0' as int
    else if 'a' <= c <= 'f' then c as int - 'a' as int + 10
    else if 'A' <= c <= 'F' then c as int - 'A' as int + 10
    else 0
  }

  /** Only the last two digits count. */
  function HexaToDec(hexa: string): char {
    var n := |hexa|;
    if n == 0 then NONE
    else if n == 1 then (HexValue(hexa[0]) % 256) as char
    else ((16 * HexValue(hexa[n - 2]) + HexValue(hexa[n - 1])) % 256) as char
  }

  /** The value of the leading digits. */
  function Digits(s: string, acc: nat): nat {
    if s == "" || !IsNumber(s[0]) then acc else Digits(s[1..], 10 * acc + (s[0] as int - '0' as int))
  }

  const INT_MAX := 0x7fff_ffff

  // ----- keywords and type names -----

  function Keyword(s: string): Option<Kind> {
    if s == "else" then Some(KElse)
    else if s == "func" then Some(KFunc)
    else if s == "if" then Some(KIf)
    else if s == "let" then Some(KLet)
    else if s == "nil" then Some(KNil)
    else if s == "return" then Some(KReturn)
    else if s == "var" then Some(KVar)
    else if s == "while" then Some(KWhile)
    else None
  }

  function TypeName(s: string): Option<Kind> {
    if s == "Double" then Some(KDtDouble)
    else if s == "Int" then Some(KDtInt)
    else if s == "String" then Some(KDtString)
    else None
  }

  // ----- the automaton -----

  /** `Single(k)` accepts an operator of kind `k` at whatever follows it. */
  datatype Mode =
    | Halt | Start | Single(kind: Kind) | UndScr | Lt | Gt | NotNil | Qm | Ass | Sub | Div
    | LineC | BlockC | BlockEndQ | BlockStartQ
    | Ident | DataType
    | SInt | DblS | DblM | ExpS | ExpSign | SExp
    | StringStart | EmptyString | StringEnd | Inner | Escape | HexaQ | Hexa
    | EolStartQ | EolEndQ | MInner | MEscape | MHexaQ | MHexa | MEnd1 | MEnd2

  /** The lexer's variables; `unread` is `NONE` when no character has been put back. */
  datatype Lex = Lex(mode: Mode, final: bool, setEol: bool, unread: char, text: string, tmp: string,
                     comments: int, hexa: int, tok: Token)
  {
    function Go(m: Mode): Lex {
      this.(mode := m)
    }

    function Keep(c: char, m: Mode): Lex {
      this.(text := text + [c], mode := m)
    }

    /** A token without a value of its own keeps the value of the one before. */
    function Accept(k: Kind, c: char): Lex {
      this.(mode := Halt, final := true, setEol := false, unread := c, tok := Token(setEol, k, tok.val))
    }

    function AcceptValue(k: Kind, v: TokVal, c: char): Lex {
      this.(mode := Halt, final := true, setEol := false, unread := c, tok := Token(setEol, k, v))
    }
  }

  /** What a conversion makes of integers beyond the type's range. */
  datatype Platform = Platform(wide: string -> int)

  function IntOf(pf: Platform, s: string): int {
    if Digits(s, 0) <= INT_MAX then Digits(s, 0) else pf.wide(s)
  }

  function Operator(c: char): Option<Mode> {
    match c
    case ',' => Some(Single(KComma))
    case '<' => Some(Lt)
    case '>' => Some(Gt)
    case '!' => Some(NotNil)
    case '?' => Some(Qm)
    case '=' => Some(Ass)
    case ':' => Some(Single(KCol))
    case ';' => Some(Single(KSemicol))
    case '}' => Some(Single(KRBkt))
    case '{' => Some(Single(KLBkt))
    case ')' => Some(Single(KRPar))
    case '(' => Some(Single(KLPar))
    case '+' => Some(Single(KAdd))
    case '-' => Some(Sub)
    case '*' => Some(Single(KMul))
    case '/' => Some(Div)
    case _ => None
  }

  function StepStart(l: Lex, c: char): Lex {
    if IsWhitespace(c) then l
    else if IsNumber(c) then l.Keep(c, SInt)
    else if c == '\n' then l.(setEol := true)
    else if c == EOF then l.Accept(KEof, l.unread)
    else if c == '_' then l.Keep(c, UndScr)
    else if Operator(c).Some? then l.Go(Operator(c).value)
    else if IsAlpha(c) then l.Keep(c, Ident)
    else if c == '"' then l.Go(StringStart)
    else l.Go(Halt)
  }

  /** An operator that `next` would make longer. */
  function StepOperator(l: Lex, c: char, next: char, longer: Mode, k: Kind): Lex {
    if c == next then l.Go(longer) else l.Accept(k, c)
  }

  function StepDiv(l: Lex, c: char): Lex {
    if c == '/' then l.Go(LineC)
    else if c == '*' then l.(comments := l.comments + 1, mode := BlockC)
    else l.Accept(KDiv, c)
  }

  function StepComment(l: Lex, c: char): Lex {
    match l.mode
    case LineC =>
      var l' := if c == EOF then l.Accept(KEof, l.unread) else l;
      if c != '\n' then l'.(setEol := true, mode := LineC) else l'.Go(Start)
    case BlockC => l.Go(if c == '*' then BlockEndQ else if c == '/' then BlockStartQ else BlockC)
    case BlockEndQ =>
      if c == '/' then l.(comments := l.comments - 1, mode := if l.comments - 1 == 0 then Start else BlockC)
      else l.Go(BlockC)
    case _ => if c == '*' then l.(comments := l.comments + 1, mode := BlockC) else l.Go(BlockC)
  }

  function StepIdent(l: Lex, c: char): Lex {
    if IsAlphaNum(c) || c == '_' then l.Keep(c, Ident)
    else if TypeName(l.text).Some? then
      l.AcceptValue(TypeName(l.text).value, NilableVal(false), c).(mode := DataType)
    else
      l.AcceptValue(if Keyword(l.text).Some? then Keyword(l.text).value else KIdentifier, StrVal(l.text), c)
  }

  function StepDataType(l: Lex, c: char): Lex {
    if c == '?' then l.(mode := Halt, tok := l.tok.(val := NilableVal(true))) else l.(mode := Halt, unread := c)
  }

  function StepNumber(pf: Platform, l: Lex, c: char): Lex {
    var digit := IsNumber(c);
    match l.mode
    case SInt =>
      if digit then l.Keep(c, SInt)
      else if c == '.' then l.Keep(c, DblS)
      else if c == 'e' || c == 'E' then l.Keep(c, ExpS)
      else l.AcceptValue(KInt, IntVal(IntOf(pf, l.text)), c)
    case DblS => l.Keep(c, if digit then DblM else Halt)
    case DblM =>
      if digit then l.Keep(c, DblM)
      else if c == 'e' || c == 'E' then l.Keep(c, ExpS)
      else l.AcceptValue(KDbl, DblVal(DblLit(l.text)), c)
    case ExpS => l.Keep(c, if c == '+' || c == '-' then ExpSign else if digit then SExp else Halt)
    case ExpSign => l.Keep(c, if digit then SExp else Halt)
    case _ => if digit then l.Keep(c, SExp) else l.AcceptValue(KDbl, DblVal(DblLit(l.text)), c)
  }

  /** The character an escape letter stands for. */
  function Escaped(c: char): char {
    if c == 'n' then '\n' else if c == 'r' then '\r' else if c == 't' then '\t' else c
  }

  function StepHexa(l: Lex, c: char, inner: Mode): Lex {
    if c == '}' && l.hexa > 0 then
      if l.text == "" then l.Go(Halt)
      else l.(text := l.text[..|l.text| - 1] + [HexaToDec(l.tmp)], tmp := "", mode := inner)
    else if IsHexa(c) then
      l.(tmp := l.tmp + [c], hexa := l.hexa + 1, mode := if l.hexa + 1 > 8 then Halt else l.mode)
    else l.Go(Halt)
  }

  function StepString(l: Lex, c: char): Lex {
    match l.mode
    case StringStart =>
      if c == '"' then l.Go(EmptyString)
      else if c == '\\' then l.Go(Escape)
      else l.Keep(c, if InStringSigma(c) then Inner else Halt)
    case EmptyString => if c == '"' then l.Go(EolStartQ) else l.AcceptValue(KString, StrVal(l.text), c)
    case StringEnd => l.AcceptValue(KString, StrVal(l.text), c)
    case Inner =>
      if c == '\\' then l.Go(Escape)
      else if c == '"' then l.Go(StringEnd)
      else l.Keep(c, if InStringSigma(c) then Inner else Halt)
    case Escape =>
      if c == 'n' || c == 'r' || c == 't' then l.Keep(Escaped(c), Inner)
      else if c == 'u' then l.Keep(c, HexaQ)
      else l.Keep(c, if InStringSigma(c) || c == '"' then Inner else Halt)
    case HexaQ =>
      if c == '{' then l.(hexa := 0, mode := Hexa) else l.Keep(c, if InStringSigma(c) then Inner else Halt)
    case _ => StepHexa(l, c, Inner)
  }

  /** Strings between triple quotes. */
  function StepMultiLine(l: Lex, c: char): Lex {
    match l.mode
    case EolStartQ => l.Go(if c == '\n' then EolEndQ else Halt)
    case MInner =>
      if c == '\\' then l.Go(MEscape) else l.Keep(c, if c == '\n' then EolEndQ else MInner)
    case MEscape =>
      if c == 'n' || c == 'r' || c == 't' then l.Keep(Escaped(c), MInner)
      else l.Keep(c, if c == 'u' then MHexaQ else MInner)
    case MHexaQ => if c == '{' then l.(hexa := 0, mode := MHexa) else l.Keep(c, MInner)
    case MHexa => StepHexa(l, c, MInner)
    case EolEndQ =>
      if c == '\\' then l.Go(MEscape)
      else l.Keep(c, if c == '\n' || IsWhitespace(c) then EolEndQ else if c == '"' then MEnd1 else MInner)
    case MEnd1 => l.Keep(c, if c == '\n' then EolEndQ else if c == '"' then MEnd2 else MInner)
    case _ =>
      var l' := l.Keep(c, if c == '\n' then EolEndQ else MInner);
      if c != '"' then l'
      else if |l'.text| < 3 then l'.Go(Halt)
      else
        var dedented := Indentation.Dedent(l'.text);
        if dedented.Some? then l'.(text := dedented.value, mode := StringEnd) else l'.Go(Halt)
  }

  /** One character. */
  function Step(pf: Platform, l: Lex, c: char): Lex {
    match l.mode
    case Halt => l
    case Start => StepStart(l, c)
    case Single(k) => l.Accept(k, c)
    case UndScr => if IsAlphaNum(c) then l.Keep(c, Ident) else l.Accept(KUndScr, c)
    case Lt => StepOperator(l, c, '=', Single(KLeq), KLt)
    case Gt => StepOperator(l, c, '=', Single(KGeq), KGt)
    case NotNil => StepOperator(l, c, '=', Single(KNeq), KNotNil)
    case Qm => l.Go(if c == '?' then Single(KNilCheck) else Halt)
    case Ass => StepOperator(l, c, '=', Single(KEq), KAss)
    case Sub => StepOperator(l, c, '>', Single(KRetVal), KSub)
    case Div => StepDiv(l, c)
    case LineC => StepComment(l, c)
    case BlockC => StepComment(l, c)
    case BlockEndQ => StepComment(l, c)
    case BlockStartQ => StepComment(l, c)
    case Ident => StepIdent(l, c)
    case DataType => StepDataType(l, c)
    case SInt => StepNumber(pf, l, c)
    case DblS => StepNumber(pf, l, c)
    case DblM => StepNumber(pf, l, c)
    case ExpS => StepNumber(pf, l, c)
    case ExpSign => StepNumber(pf, l, c)
    case SExp => StepNumber(pf, l, c)
    case StringStart => StepString(l, c)
    case EmptyString => StepString(l, c)
    case StringEnd => StepString(l, c)
    case Inner => StepString(l, c)
    case Escape => StepString(l, c)
    case HexaQ => StepString(l, c)
    case Hexa => StepString(l, c)
    case _ => StepMultiLine(l, c)
  }

  // ----- one token -----

  const ERR_LEXICAL: nat := 1

  /** The next character, which is the one put back if there is one. */
  function Fetch(l: Lex, s: string): (char, Lex, string) {
    if l.unread != NONE then (l.unread, l.(unread := NONE), s)
    else if s == "" then (EOF, l, s)
    else (s[0], l, s[1..])
  }

  /** Only a token's end puts a character back; the type names' state then takes it up again. */
  predicate PutsBackAtEnd(l: Lex, l': Lex) {
    && (l'.unread == l.unread || l'.mode == Halt || (l'.mode == DataType && l.mode == Ident))
    && (l.mode == DataType ==> l'.mode == Halt)
  }

  lemma StepsPutBack(pf: Platform, l: Lex, c: char)
    ensures PutsBackAtEnd(l.(mode := Start), StepStart(l.(mode := Start), c))
    ensures l.mode != DataType ==> PutsBackAtEnd(l, StepComment(l, c)) && PutsBackAtEnd(l, StepNumber(pf, l, c))
    ensures l.mode == Ident ==> PutsBackAtEnd(l, StepIdent(l, c))
    ensures PutsBackAtEnd(l, StepDataType(l, c))
  {
    hide IsWhitespace, IsNumber, IsAlpha, IsAlphaNum, Operator, Keyword, TypeName, IntOf;
  }

  lemma StringsPutBack(l: Lex, c: char)
    ensures l.mode != DataType ==> PutsBackAtEnd(l, StepString(l, c)) && PutsBackAtEnd(l, StepMultiLine(l, c))
  {
    hide IsWhitespace, IsHexa, InStringSigma, HexaToDec;
  }

  lemma StepPutsBack(pf: Platform, l: Lex, c: char)
    ensures PutsBackAtEnd(l, Step(pf, l, c))
  {
    hide StepStart, StepComment, StepNumber, StepIdent, StepDataType, StepString, StepMultiLine, IsAlphaNum;
    StepsPutBack(pf, l, c);
    StringsPutBack(l, c);
    assert l.mode == Start ==> l == l.(mode := Start);
  }

  /** Runs the automaton until it halts or has read the end of input. */
  function Scan(pf: Platform, l: Lex, s: string): (Lex, string)
    decreases |s| + (if l.unread == NONE then 0 else 1), if l.mode == DataType then 0 else 1
  {
    var (c, l0, s') := Fetch(l, s);
    var l' := Step(pf, l0, c);
    StepPutsBack(pf, l0, c);
    if l'.mode == Halt || c == EOF then (l', s') else Scan(pf, l', s')
  }

  lemma ScanStep(pf: Platform, l: Lex, s: string)
    ensures var (c, l0, s') := Fetch(l, s);
            var l' := Step(pf, l0, c);
            Scan(pf, l, s) == if l'.mode == Halt || c == EOF then (l', s') else Scan(pf, l', s')
  {
  }

  function Fresh(l: Lex): Lex {
    l.(mode := Start, final := false, setEol := false, text := "", tmp := "", tok := Token(false, KUndefined, l.tok.val))
  }

  /** The token, unless the automaton did not stop in a final state. */
  function Read(l: Lex): Option<Token> {
    if l.final then Some(l.tok) else None
  }

  predicate InComment(m: Mode) {
    m.LineC? || m.BlockC? || m.BlockEndQ? || m.BlockStartQ?
  }

  predicate InNumber(m: Mode) {
    m.SInt? || m.DblS? || m.DblM? || m.ExpS? || m.ExpSign? || m.SExp?
  }

  predicate InString(m: Mode) {
    m.StringStart? || m.EmptyString? || m.StringEnd? || m.Inner? || m.Escape? || m.HexaQ? || m.Hexa?
  }

  predicate InMultiLine(m: Mode) {
    m.EolStartQ? || m.EolEndQ? || m.MInner? || m.MEscape? || m.MHexaQ? || m.MHexa? || m.MEnd1? || m.MEnd2?
  }

  /** The lexer's global variables and its input. */
  class Lexer {
    const pf: Platform
    const input: string
    var pos: nat
    var mode: Mode
    var final: bool
    var setEol: bool
    var unread: char
    var text: string
    var tmp: string
    var comments: int
    var hexa: int
    var tok: Token

    function State(): Lex
      reads this
    {
      Lex(mode, final, setEol, unread, text, tmp, comments, hexa, tok)
    }

    function Left(): string
      reads this
      requires pos <= |input|
    {
      input[pos..]
    }

    constructor (pf: Platform, input: string)
      ensures this.pf == pf && this.input == input && pos == 0
      ensures State() == Lex(Halt, false, false, NONE, "", "", 0, 0, Token(false, KUndefined, NoVal))
    {
      this.pf, this.input, pos := pf, input, 0;
      mode, final, setEol, unread, text, tmp, comments, hexa := Halt, false, false, NONE, "", "", 0, 0;
      tok := Token(false, KUndefined, NoVal);
    }

    method Append(c: char)
      modifies this`text
      ensures text == old(text) + [c]
    {
      text := text + [c];
    }

    method Finish(k: Kind)
      modifies this`mode, this`final, this`setEol, this`tok
      ensures State() == old(State()).Accept(k, old(unread))
    {
      final := true;
      tok := Token(setEol, k, tok.val);
      setEol := false;
      mode := Halt;
    }

    method FinishUnread(k: Kind, c: char)
      modifies this`mode, this`final, this`setEol, this`tok, this`unread
      ensures State() == old(State()).Accept(k, c)
    {
      Finish(k);
      unread := c;
    }

    method FinishValue(k: Kind, v: TokVal, c: char)
      modifies this`mode, this`final, this`setEol, this`tok, this`unread
      ensures State() == old(State()).AcceptValue(k, v, c)
    {
      FinishUnread(k, c);
      tok := Token(tok.eol, k, v);
    }

    method StartState(c: char)
      requires mode == Start
      modifies this
      ensures State() == StepStart(old(State()), c) && pos == old(pos)
    {
      if IsWhitespace(c) {
        return;
      }
      if IsNumber(c) {
        Append(c);
        mode := SInt;
      } else if c == '\n' {
        setEol := true;
      } else if c == EOF {
        Finish(KEof);
      } else if c == '_' {
        Append(c);
        mode := UndScr;
      } else if Operator(c).Some? {
        mode := Operator(c).value;
      } else if IsAlpha(c) {
        Append(c);
        mode := Ident;
      } else {
        mode := if c == '"' then StringStart else Halt;
      }
    }

    method OperatorState(c: char, next: char, longer: Mode, k: Kind)
      modifies this`mode, this`final, this`setEol, this`tok, this`unread
      ensures State() == StepOperator(old(State()), c, next, longer, k)
    {
      if c == next {
        mode := longer;
      } else {
        FinishUnread(k, c);
      }
    }

    method CommentState(c: char)
      requires InComment(mode)
      modifies this
      ensures State() == StepComment(old(State()), c) && pos == old(pos)
    {
      if mode.LineC? {
        if c == EOF {
          Finish(KEof);
        }
        if c != '\n' {
          setEol := true;
          mode := LineC;
        } else {
          mode := Start;
        }
      } else if mode.BlockC? {
        mode := if c == '*' then BlockEndQ else if c == '/' then BlockStartQ else BlockC;
      } else if mode.BlockEndQ? {
        mode := BlockC;
        if c == '/' {
          comments := comments - 1;
          if comments == 0 {
            mode := Start;
          }
        }
      } else {
        if c == '*' {
          comments := comments + 1;
        }
        mode := BlockC;
      }
    }

    method IdentState(c: char)
      requires mode == Ident
      modifies this
      ensures State() == StepIdent(old(State()), c) && pos == old(pos)
    {
      if IsAlphaNum(c) || c == '_' {
        Append(c);
      } else {
        var kind := KIdentifier;
        if Keyword(text).Some? {
          kind := Keyword(text).value;
        }
        FinishValue(kind, StrVal(text), c);
        if TypeName(text).Some? {
          tok := Token(tok.eol, TypeName(text).value, NilableVal(false));
          mode := DataType;
        }
      }
    }

    method NumberState(c: char)
      requires InNumber(mode)
      modifies this
      ensures State() == StepNumber(pf, old(State()), c) && pos == old(pos)
    {
      var digit := IsNumber(c);
      var sign := c == '+' || c == '-';
      var exponent := c == 'e' || c == 'E';
      if mode.SInt? && !digit && c != '.' && !exponent {
        FinishValue(KInt, IntVal(IntOf(pf, text)), c);
      } else if (mode.DblM? && !digit && !exponent) || (mode.SExp? && !digit) {
        FinishValue(KDbl, DblVal(DblLit(text)), c);
      } else {
        Append(c);
        if mode.SInt? {
          mode := if digit then SInt else if c == '.' then DblS else ExpS;
        } else if mode.DblS? {
          mode := if digit then DblM else Halt;
        } else if mode.DblM? {
          mode := if digit then DblM else ExpS;
        } else if mode.ExpS? {
          mode := if sign then ExpSign else if digit then SExp else Halt;
        } else {
          mode := if digit then SExp else Halt;
        }
      }
    }

    method HexaState(c: char, inner: Mode)
      modifies this
      ensures State() == StepHexa(old(State()), c, inner) && pos == old(pos)
    {
      if c == '}' && hexa > 0 {
        if text == "" {
          mode := Halt;
        } else {
          text := text[..|text| - 1] + [HexaToDec(tmp)];
          tmp := "";
          mode := inner;
        }
      } else if IsHexa(c) {
        tmp := tmp + [c];
        hexa := hexa + 1;
        if hexa > 8 {
          mode := Halt;
        }
      } else {
        mode := Halt;
      }
    }

    method StringState(c: char)
      requires InString(mode)
      modifies this
      ensures State() == StepString(old(State()), c) && pos == old(pos)
    {
      if mode.Hexa? {
        HexaState(c, Inner);
      } else if mode.StringEnd? || (mode.EmptyString? && c != '"') {
        FinishValue(KString, StrVal(text), c);
      } else if mode.EmptyString? {
        mode := EolStartQ;
      } else if mode.Escape? {
        if c == 'n' || c == 'r' || c == 't' {
          Append(Escaped(c));
          mode := Inner;
        } else {
          Append(c);
          mode := if c == 'u' then HexaQ else if InStringSigma(c) || c == '"' then Inner else Halt;
        }
      } else if mode.HexaQ? && c == '{' {
        hexa := 0;
        mode := Hexa;
      } else if !mode.HexaQ? && c == '\\' {
        mode := Escape;
      } else if !mode.HexaQ? && c == '"' {
        mode := if mode.StringStart? then EmptyString else StringEnd;
      } else {
        Append(c);
        mode := if InStringSigma(c) then Inner else Halt;
      }
    }

    method MultiLineState(c: char)
      requires InMultiLine(mode)
      modifies this
      ensures State() == StepMultiLine(old(State()), c) && pos == old(pos)
    {
      if mode.EolStartQ? {
        mode := if c == '\n' then EolEndQ else Halt;
      } else if mode.MHexa? {
        HexaState(c, MInner);
      } else if mode.MHexaQ? && c == '{' {
        hexa := 0;
        mode := MHexa;
      } else if mode.MEscape? {
        Append(Escaped(c));
        mode := if c == 'u' then MHexaQ else MInner;
      } else if mode.MInner? && c == '\\' {
        mode := MEscape;
      } else if mode.MInner? || mode.MHexaQ? {
        Append(c);
        mode := if mode.MInner? && c == '\n' then EolEndQ else MInner;
      } else {
        LineStartState(c);
      }
    }

    /** At the start of a line, where the closing quotes may come. */
    method LineStartState(c: char)
      requires mode.EolEndQ? || mode.MEnd1? || mode.MEnd2?
      modifies this
      ensures State() == StepMultiLine(old(State()), c) && pos == old(pos)
    {
      if mode.EolEndQ? && c == '\\' {
        mode := MEscape;
      } else {
        Append(c);
        if mode.MEnd2? && c == '"' {
          EndMultiLine();
        } else if mode.EolEndQ? {
          mode := if c == '\n' || IsWhitespace(c) then EolEndQ else if c == '"' then MEnd1 else MInner;
        } else {
          mode := if c == '\n' then EolEndQ else if mode.MEnd1? && c == '"' then MEnd2 else MInner;
        }
      }
    }

    /** Strips the indentation, the closing quotes read. */
    method EndMultiLine()
      modifies this`text, this`mode
      ensures State() ==
        if |old(text)| < 3 then old(State()).Go(Halt)
        else if Indentation.Dedent(old(text)).None? then old(State()).Go(Halt)
        else old(State()).(text := Indentation.Dedent(old(text)).value, mode := StringEnd)
    {
      mode := Halt;
      if |text| >= 3 {
        var dedented := Indentation.Perform(text);
        if dedented.Some? {
          text := dedented.value;
          mode := StringEnd;
        }
      }
    }

    method Feed(c: char)
      modifies this
      ensures State() == Step(pf, old(State()), c) && pos == old(pos)
    {
      hide StepStart, StepOperator, StepComment, StepIdent, StepNumber, StepString, StepMultiLine;
      if mode.Start? {
        StartState(c);
      } else if mode.Single? {
        FinishUnread(mode.kind, c);
      } else if mode.UndScr? {
        if IsAlphaNum(c) {
          Append(c);
          mode := Ident;
        } else {
          FinishUnread(KUndScr, c);
        }
      } else if mode.Qm? {
        mode := if c == '?' then Single(KNilCheck) else Halt;
      } else if mode.Div? {
        DivState(c);
      } else if mode.Ident? {
        IdentState(c);
      } else if mode.DataType? {
        DataTypeState(c);
      } else if InComment(mode) {
        CommentState(c);
      } else if InNumber(mode) {
        NumberState(c);
      } else if InString(mode) {
        StringState(c);
      } else if InMultiLine(mode) {
        MultiLineState(c);
      } else if !mode.Halt? {
        LongerState(c);
      }
    }

    method DivState(c: char)
      modifies this
      ensures State() == StepDiv(old(State()), c) && pos == old(pos)
    {
      if c == '/' {
        mode := LineC;
      } else if c == '*' {
        comments := comments + 1;
        mode := BlockC;
      } else {
        FinishUnread(KDiv, c);
      }
    }

    method DataTypeState(c: char)
      modifies this
      ensures State() == StepDataType(old(State()), c) && pos == old(pos)
    {
      if c == '?' {
        tok := Token(tok.eol, tok.kind, NilableVal(true));
      } else {
        unread := c;
      }
      mode := Halt;
    }

    /** The operators that a second character makes longer. */
    method LongerState(c: char)
      requires mode.Lt? || mode.Gt? || mode.NotNil? || mode.Ass? || mode.Sub?
      modifies this
      ensures State() == Step(pf, old(State()), c) && pos == old(pos)
    {
      hide StepOperator;
      if mode.Lt? {
        OperatorState(c, '=', Single(KLeq), KLt);
      } else if mode.Gt? {
        OperatorState(c, '=', Single(KGeq), KGt);
      } else if mode.NotNil? {
        OperatorState(c, '=', Single(KNeq), KNotNil);
      } else if mode.Ass? {
        OperatorState(c, '=', Single(KEq), KAss);
      } else {
        OperatorState(c, '>', Single(KRetVal), KSub);
      }
    }

    method ReadChar() returns (c: char)
      requires pos <= |input|
      modifies this`pos, this`unread
      ensures pos <= |input| && (c, State(), Left()) == Fetch(old(State()), old(Left())) && unread == NONE
      ensures old(unread) != NONE ==> pos == old(pos)
      ensures old(unread) == NONE && c != EOF ==> pos == old(pos) + 1
      ensures pos >= old(pos)
    {
      c := EOF;
      if unread != NONE {
        c := unread;
        unread := NONE;
      } else if pos < |input| {
        c := input[pos];
        pos := pos + 1;
      }
    }

    method GetToken() returns (error: nat, token: Token)
      requires pos <= |input|
      modifies this
      ensures pos <= |input|
      ensures (State(), Left()) == Scan(pf, Fresh(old(State())), old(Left()))
      ensures error == if Read(State()).Some? then NO_ERR else ERR_LEXICAL
      ensures error == NO_ERR ==> token == Read(State()).value
    {
      hide Step, Scan, Fetch;
      tok := Token(false, KUndefined, tok.val);
      setEol, final, mode, text, tmp := false, false, Start, "", "";
      ghost var l, s := State(), Left();
      var done := false;
      while !done
        invariant pos <= |input|
        invariant Scan(pf, l, s) == if done then (State(), Left()) else Scan(pf, State(), Left())
        decreases !done, |input| - pos + (if unread == NONE then 0 else 1), if mode == DataType then 0 else 1
      {
        ScanStep(pf, State(), Left());
        var c := ReadChar();
        StepPutsBack(pf, State(), c);
        Feed(c);
        done := mode == Halt || c == EOF;
      }
      error := if final then NO_ERR else ERR_LEXICAL;
      token := tok;
    }
  }
}
