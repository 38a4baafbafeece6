/** What each reduction does besides rewriting the stack: type checking, implicit conversion, emission.
    These functions specify the methods of `ExprParser`. */
module Semantics {
  import opened Tokens
  import opened Machine
  import opened Scopes
  import opened CodeGen

  /** A precedence-stack symbol. */
  datatype Sym = Sym(tok: Token, terminal: bool, handle: bool, literal: bool, ident: bool, ty: Type, nilable: bool)

  /** Values the program reads without having set them: two flags of an unwrapped symbol, and whether a
      token union that holds no number reads as zero. */
  datatype Junk = Junk(literal: bool, ident: bool, zero: bool)

  /** What an expression cannot change: visible symbols, the assigned variable, the token buffer. */
  datatype Ctx = Ctx(scopes: seq<Scope>, globals: Scope, lhs: Option<Item>, toks: seq<Token>,
                     junk: nat -> Junk, dblZero: Dbl -> bool)

  /** What the reductions change; `junkUsed` counts reads of unset values. */
  datatype Sem = Sem(code: Program, err: nat, condUid: nat, allLits: bool, junkUsed: nat, curId: Option<Item>)
  {
    /** The error handler keeps the first error only. */
    function Fail(e: nat): Sem {
      if err == NO_ERR then this.(err := e) else this
    }

    function Emit(p: Program): Sem {
      this.(code := code + p)
    }

    function UseJunk(): Sem {
      this.(junkUsed := junkUsed + 1)
    }
  }

  function FromToken(t: Token): Sym {
    Sym(t, true, false, false, false, Undefined, false)
  }

  /** A fresh nonterminal of no type. */
  function FreshExpr(ty: Type, literal: bool): Sym {
    Sym(EmptyToken(false), false, false, literal, false, ty, false)
  }

  predicate SameType(a: Sym, b: Sym) {
    a.ty == b.ty && a.nilable == b.nilable
  }

  predicate Numeric(a: Sym) {
    (a.ty == Integer || a.ty == Double) && !a.nilable
  }

  // ----- operands -----

  /** Scopes an identifier is searched in: a variable being initialised does not see itself. */
  function VisibleScopes(ctx: Ctx, id: string): seq<Scope> {
    if ctx.lhs.Some? && !ctx.lhs.value.init && ctx.lhs.value.name == id && ctx.scopes != []
    then ctx.scopes[1..] else ctx.scopes
  }

  /** The item the checker uses for `id`. */
  function Resolve(ctx: Ctx, id: string): Option<Item> {
    var local := Search(VisibleScopes(ctx, id), id);
    if local.Some? then local else Lookup(ctx.globals, id)
  }

  function Identifier(ctx: Ctx, sem: Sem, t: Token): (r: (Sem, Sym))
    ensures !r.1.terminal && !r.1.handle && r.1.tok == t
    ensures sem.err != NO_ERR ==> r.0.err == sem.err
  {
    var item := Resolve(ctx, Text(t));
    var s := sem.(allLits := false, curId := item);
    var s' := if item.None? || !item.value.init then s.Fail(ERR_UNDEFINED_VARIABLE) else s;
    var e := Sym(t, false, false, false, true, Undefined, false);
    (s', if item.Some? then e.(ty := item.value.ty, nilable := item.value.nilable) else e)
  }

  function Operand(ctx: Ctx, sem: Sem, operand: Sym): (r: (Sem, Sym))
    ensures r.1.tok == operand.tok && (operand.terminal ==> !r.1.terminal && !r.1.handle)
    ensures !operand.terminal ==> r.1 == operand
    ensures sem.err != NO_ERR ==> r.0.err == sem.err
  {
    if !operand.terminal then (sem, operand)
    else
      var t := operand.tok;
      var (s, e) := if t.kind == KIdentifier then Identifier(ctx, sem, t)
                    else (sem, Sym(t, false, false, IsLiteralKind(t.kind), false, LiteralType(t.kind), false));
      (s.Emit(PushCode(ctx.scopes, ctx.globals, t)), e)
  }

  // ----- unary ! -----

  function Unwrap(ctx: Ctx, sem: Sem, operand: Sym): (r: (Sem, Sym))
    ensures !r.1.terminal && !r.1.handle && r.1.tok == operand.tok
    ensures sem.err != NO_ERR ==> r.0.err == sem.err
  {
    var junk := ctx.junk(sem.junkUsed);
    var s := if operand.ident then sem.UseJunk() else sem.UseJunk().Fail(ERR_INCOMPATIBLE_TYPE);
    var e := Sym(operand.tok, false, false, junk.literal, junk.ident, operand.ty, false);
    if operand.nilable then (s, e) else (s.Fail(ERR_INCOMPATIBLE_TYPE), e.(ty := Undefined))
  }

  // ----- conversions -----

  /** Which operand of a binary operation an implicit conversion turns into a double. */
  datatype Conversion = NoConversion | First | Second | Impossible

  function Retype(a: Sym, b: Sym): Conversion {
    if !Numeric(a) || !Numeric(b) then Impossible
    else if a.literal && a.ty == Integer then First
    else if b.literal && b.ty == Integer then Second
    else Impossible
  }

  function Convert(sem: Sem, c: Conversion): Sem {
    match c
    case NoConversion => sem
    case First => sem.Emit(Int2DoublesCode(1))
    case Second => sem.Emit(Int2DoublesCode(0))
    case Impossible => sem.Fail(ERR_INCOMPATIBLE_TYPE)
  }

  function ConvertFirst(a: Sym, c: Conversion): Sym {
    if c == First then a.(ty := Double) else a
  }

  function ConvertSecond(b: Sym, c: Conversion): Sym {
    if c == Second then b.(ty := Double) else b
  }

  // ----- binary operations -----

  function ArithConversion(a: Sym, b: Sym): Conversion {
    if !SameType(a, b) && (a.literal || b.literal) then Retype(a, b) else NoConversion
  }

  function Arithmetic(ctx: Ctx, sem: Sem, a0: Sym, op: Token, b0: Sym): (r: (Sem, Sym))
    ensures !r.1.terminal && !r.1.handle && r.1.tok == EmptyToken(false)
    ensures sem.err != NO_ERR ==> r.0.err == sem.err
  {
    var c := ArithConversion(a0, b0);
    var s, a, b := Convert(sem, c), ConvertFirst(a0, c), ConvertSecond(b0, c);
    var e := FreshExpr(Undefined, a.literal && b.literal);
    if !a.literal && !b.literal && !SameType(a, b) then (s.Fail(ERR_INCOMPATIBLE_TYPE), e)
    else if a.nilable || b.nilable then (s.Fail(ERR_INCOMPATIBLE_TYPE), e)
    else if a.ty == String || b.ty == String then Concatenation(s, a0, op, b0)
    else if op.kind == KDiv then Division(ctx, s, a, b)
    else if SameType(a, b) && a.ty != Integer && a.ty != Double then (s.Fail(ERR_INCOMPATIBLE_TYPE), e)
    else
      var ty := if a.ty == Double || b.ty == Double then Double
                else if a.ty == Integer && SameType(a, b) then Integer else Undefined;
      (s.Emit(OpCode(op.kind, ty == Integer)), e.(ty := ty))
  }

  function Concatenation(sem: Sem, a: Sym, op: Token, b: Sym): (r: (Sem, Sym))
    ensures !r.1.terminal && !r.1.handle && r.1.tok == EmptyToken(false)
    ensures sem.err != NO_ERR ==> r.0.err == sem.err
  {
    var e := FreshExpr(String, a.literal);
    if op.kind != KAdd || !SameType(a, b) then (sem.Fail(ERR_INCOMPATIBLE_TYPE), e)
    else (sem.Emit(ConcatCode), e)
  }

  /** Whether the zero guard, which reads the divisor's token, finds a zero. */
  predicate ReadsZero(ctx: Ctx, sem: Sem, b: Sym) {
    match b.tok.val
    case NoVal => true
    case IntVal(i) => if b.ty == Integer then i == 0 else ctx.junk(sem.junkUsed).zero
    case DblVal(d) => if b.ty == Double then ctx.dblZero(d) else ctx.junk(sem.junkUsed).zero
    case _ => ctx.junk(sem.junkUsed).zero
  }

  function Division(ctx: Ctx, sem: Sem, a: Sym, b: Sym): (r: (Sem, Sym))
    ensures !r.1.terminal && !r.1.handle && r.1.tok == EmptyToken(false)
    ensures sem.err != NO_ERR ==> r.0.err == sem.err
  {
    var e := FreshExpr(if a.ty == Integer then Integer else Double, a.literal && b.literal);
    if !SameType(a, b) then (sem.Fail(ERR_INCOMPATIBLE_TYPE), e)
    else if (b.ty == Integer || b.ty == Double) && ReadsZero(ctx, sem, b) then (sem.UseJunk().Fail(ERR_SEMANTIC), e)
    else (sem.UseJunk().Emit(OpCode(KDiv, e.ty == Integer)), e)
  }

  function RelConversion(a: Sym, b: Sym): Conversion {
    if SameType(a, b) then NoConversion
    else if a.literal || b.literal then Retype(a, b)
    else Impossible
  }

  function Relational(ctx: Ctx, sem: Sem, a: Sym, op: Token, b: Sym): (r: (Sem, Sym))
    ensures !r.1.terminal && !r.1.handle && r.1.tok == EmptyToken(false)
    ensures sem.err != NO_ERR ==> r.0.err == sem.err
  {
    var e := FreshExpr(Bool, a.literal && b.literal);
    if op.kind == KNilCheck then Coalesce(sem, a, b)
    else if a.ty == NilType && !b.nilable then (sem.Fail(ERR_INCOMPATIBLE_TYPE), e)
    else if a.ty != NilType && b.ty == NilType && !a.nilable then (sem.Fail(ERR_INCOMPATIBLE_TYPE), e)
    else if a.ty == NilType || b.ty == NilType then (sem.Emit(OpCode(op.kind, false)), e)
    else if !SameType(a, b) && !a.literal && !b.literal then (sem.Fail(ERR_INCOMPATIBLE_TYPE), e)
    else (Convert(sem, RelConversion(a, b)).Emit(OpCode(op.kind, false)), e)
  }

  function CoalesceConversion(a: Sym, b: Sym): Conversion {
    if a.ty == NilType || a.ty == b.ty then NoConversion
    else if b.literal && a.ty == Double && b.ty == Integer then Second
    else Impossible
  }

  function Coalesce(sem: Sem, a: Sym, b: Sym): (r: (Sem, Sym))
    ensures !r.1.terminal && !r.1.handle && r.1.tok == EmptyToken(false)
    ensures sem.err != NO_ERR ==> r.0.err == sem.err
  {
    var e := FreshExpr(Bool, a.literal && b.literal);
    var c := CoalesceConversion(a, b);
    var s := Convert(sem, c);
    if c == Impossible then (s, e)
    else if a.ty != NilType && (!a.nilable || b.nilable) then (s.Fail(ERR_INCOMPATIBLE_TYPE), e)
    else
      (s.Emit(NilCheckCode(s.condUid)).(condUid := s.condUid + 1), e.(ty := if a.ty == NilType then b.ty else a.ty))
  }

  function Parenthesis(e: Sym): Sym {
    FreshExpr(e.ty, e.literal)
  }

  // ----- after the last reduction -----

  /** An all-literal integer expression assigned to a double variable becomes a double. */
  function VerifyLhs(ctx: Ctx, sem: Sem, e: Sym): (Sem, Sym) {
    var s := sem.(allLits := true);
    if ctx.lhs.Some? && sem.allLits && ctx.lhs.value.ty == Double && e.ty == Integer
    then (s.Emit(Int2DoublesCode(0)), e.(ty := Double)) else (s, e)
  }
}
