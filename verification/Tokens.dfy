/** Tokens and core types shared by the lexer, the expression parser and the code generator. */
module Tokens {

  datatype Option<+T> = None | Some(value: T)

  /** Doubles are uninterpreted: a literal keeps its text and every operation stays a term.  Whatever
      holds of these terms holds of any floating-point arithmetic that interprets them. */
  datatype Dbl =
    | DblLit(text: string)
    | OfInt(n: int)
    | DblPlus(l: Dbl, r: Dbl)
    | DblMinus(l: Dbl, r: Dbl)
    | DblTimes(l: Dbl, r: Dbl)
    | DblOver(l: Dbl, r: Dbl)

  /** Token kinds, numbered as in the lexer's enumeration. */
  newtype Kind = k: int | 0 <= k < 39

  const KUndefined: Kind := 0
  const KEof: Kind := 1
  const KUndScr: Kind := 2
  const KComma: Kind := 3
  const KLt: Kind := 4
  const KLeq: Kind := 5
  const KGt: Kind := 6
  const KGeq: Kind := 7
  const KNotNil: Kind := 8
  const KNeq: Kind := 9
  const KNilCheck: Kind := 10
  const KAss: Kind := 11
  const KEq: Kind := 12
  const KCol: Kind := 13
  const KSemicol: Kind := 14
  const KRBkt: Kind := 15
  const KLBkt: Kind := 16
  const KRPar: Kind := 17
  const KLPar: Kind := 18
  const KAdd: Kind := 19
  const KSub: Kind := 20
  const KRetVal: Kind := 21
  const KMul: Kind := 22
  const KDiv: Kind := 23
  const KIdentifier: Kind := 24
  const KDtDouble: Kind := 25
  const KDtInt: Kind := 26
  const KDtString: Kind := 27
  const KElse: Kind := 28
  const KFunc: Kind := 29
  const KIf: Kind := 30
  const KLet: Kind := 31
  const KNil: Kind := 32
  const KReturn: Kind := 33
  const KVar: Kind := 34
  const KWhile: Kind := 35
  const KInt: Kind := 36
  const KDbl: Kind := 37
  const KString: Kind := 38

  /** The token's value union; `NoVal` is the zeroed union of a token built by the parser itself. */
  datatype TokVal = NoVal | IntVal(i: int) | DblVal(d: Dbl) | StrVal(s: string) | NilableVal(b: bool)

  datatype Token = Token(eol: bool, kind: Kind, val: TokVal)

  /** The parser's core types. */
  datatype Type = Undefined | Function | Integer | Double | String | Bool | NilType

  const NO_ERR: nat := 0
  const ERR_SYNTAX: nat := 2
  const ERR_UNDEFINED_VARIABLE: nat := 5
  const ERR_INCOMPATIBLE_TYPE: nat := 7
  const ERR_SEMANTIC: nat := 9

  /** The empty token the expression parser makes up, in particular its end marker. */
  function EmptyToken(eol: bool): Token {
    Token(eol, KUndefined, NoVal)
  }

  predicate IsLiteralKind(k: Kind) {
    k == KInt || k == KDbl || k == KString || k == KNil
  }

  predicate IsOperandKind(k: Kind) {
    IsLiteralKind(k) || k == KIdentifier
  }

  predicate IsRelational(k: Kind) {
    k == KEq || k == KNeq || k == KGt || k == KLt || k == KGeq || k == KLeq
  }

  predicate IsBinaryOperator(k: Kind) {
    k == KAdd || k == KSub || k == KMul || k == KDiv || IsRelational(k) || k == KNilCheck
  }

  function LiteralType(k: Kind): Type {
    if k == KInt then Integer
    else if k == KDbl then Double
    else if k == KString then String
    else if k == KNil then NilType
    else Undefined
  }

  /** The text an identifier or string token carries. */
  function Text(t: Token): string {
    if t.val.StrVal? then t.val.s else ""
  }
}
