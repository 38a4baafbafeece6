/** What an expression means once the checker has decided its conversions, and the code for it. */
module Meaning {
  import opened Tokens
  import opened Machine
  import opened Scopes
  import opened CodeGen
  import opened Semantics
  import opened Precedence
  import opened Grammar

  /** An expression with its implicit conversions made explicit. */
  datatype Core =
    | Lit(v: Value)
    | Var(x: VarRef)
    | Force(e: Core)
    | Op(l: Core, op: Kind, isInt: bool, conv: Conversion, r: Core)
    | Join(l: Core, r: Core)
    | Else(l: Core, conv: Conversion, r: Core)

  // ----- elaboration -----

  function LeafCore(ctx: Ctx, tok: Token): Core {
    if tok.kind == KIdentifier then Var(GenVar(ctx.scopes, ctx.globals, Text(tok)))
    else if tok.kind == KInt then Lit(VInt(if tok.val.IntVal? then tok.val.i else 0))
    else if tok.kind == KDbl then Lit(VDbl(if tok.val.DblVal? then tok.val.d else DblLit("")))
    else if tok.kind == KString then Lit(VStr(Text(tok)))
    else Lit(VNil)
  }

  /** The operation the checker picks for `a op b`. */
  function BinCore(a: Sym, x: Core, op: Kind, b: Sym, y: Core): Core {
    if OperatorRule(op) == ArithRule then
      var c := ArithConversion(a, b);
      var a', b' := ConvertFirst(a, c), ConvertSecond(b, c);
      if a'.ty == String || b'.ty == String then Join(x, y)
      else Op(x, op, a'.ty == Integer, c, y)
    else if op == KNilCheck then Else(x, CoalesceConversion(a, b), y)
    else if a.ty == NilType || b.ty == NilType then Op(x, op, false, NoConversion, y)
    else Op(x, op, false, RelConversion(a, b), y)
  }

  function Elaborate(ctx: Ctx, sem: Sem, t: Tree): Core
    decreases t
  {
    match t
    case Leaf(tok) => LeafCore(ctx, tok)
    case Bang(e, _) => Force(Elaborate(ctx, sem, e))
    case Paren(_, e, _) => Elaborate(ctx, sem, e)
    case Bin(l, op, r) =>
      var (s1, a) := Fold(ctx, sem, l);
      var (s2, b) := Fold(ctx, s1, r);
      BinCore(a, Elaborate(ctx, sem, l), op.kind, b, Elaborate(ctx, s1, r))
  }

  // ----- compilation -----

  function ConversionCode(c: Conversion): Program {
    match c
    case First => Int2DoublesCode(1)
    case Second => Int2DoublesCode(0)
    case _ => []
  }

  /** Postfix code, and the next unused label id. */
  function Compile(e: Core, uid: nat): (Program, nat) {
    match e
    case Lit(v) => ([Pushs(v)], uid)
    case Var(x) => ([PushVar(x)], uid)
    case Force(x) => Compile(x, uid)
    case Op(l, op, isInt, conv, r) =>
      var (p, u) := Compile(l, uid);
      var (q, w) := Compile(r, u);
      (p + q + (ConversionCode(conv) + OpCode(op, isInt)), w)
    case Join(l, r) =>
      var (p, u) := Compile(l, uid);
      var (q, w) := Compile(r, u);
      (p + q + ConcatCode, w)
    case Else(l, conv, r) =>
      var (p, u) := Compile(l, uid);
      var (q, w) := Compile(r, u);
      (p + q + (ConversionCode(conv) + NilCheckCode(w)), w + 1)
  }

  // ----- meaning -----

  /** `Trap`: an unwrapped nil or a zero integer divisor.  `Stuck`: an operand of the wrong type. */
  datatype Result = Val(v: Value) | Trap | Stuck

  function ToDouble(v: Value): Result {
    if v.VInt? then Val(VDbl(OfInt(v.i))) else Stuck
  }

  function Negate(r: Option<Value>): Result {
    if r.Some? && r.value.VBool? then Val(VBool(!r.value.b)) else Stuck
  }

  function Answer(r: Option<Value>): Result {
    if r.Some? then Val(r.value) else Stuck
  }

  function Apply(ord: Order, op: Kind, isInt: bool, a: Value, b: Value): Result {
    if op == KLt then Answer(Less(ord, a, b))
    else if op == KGt then Answer(Less(ord, b, a))
    else if op == KLeq then Negate(Less(ord, b, a))
    else if op == KGeq then Negate(Less(ord, a, b))
    else if op == KEq then Answer(Equal(ord, a, b))
    else if op == KNeq then Negate(Equal(ord, a, b))
    else if a.VInt? && b.VInt? then
      var x, y := a.i, b.i;
      if op == KAdd then Val(VInt(x + y))
      else if op == KSub then Val(VInt(x - y))
      else if op == KMul then Val(VInt(x * y))
      else if op == KDiv && isInt then (if y == 0 then Trap else Val(VInt(ord.quotient(x, y))))
      else Stuck
    else if a.VDbl? && b.VDbl? then
      var x, y := a.d, b.d;
      if op == KAdd then Val(VDbl(DblPlus(x, y)))
      else if op == KSub then Val(VDbl(DblMinus(x, y)))
      else if op == KMul then Val(VDbl(DblTimes(x, y)))
      else if op == KDiv && !isInt then Val(VDbl(DblOver(x, y)))
      else Stuck
    else Stuck
  }

  /** Both operands, converted; the first failure wins. */
  function Converted(c: Conversion, a: Value, b: Value): (Result, Result) {
    match c
    case First => (ToDouble(a), Val(b))
    case Second => (Val(a), ToDouble(b))
    case Impossible => (Stuck, Stuck)
    case NoConversion => (Val(a), Val(b))
  }

  function Eval(ord: Order, m: State, e: Core): Result {
    match e
    case Lit(v) => Val(v)
    case Var(x) => Answer(Read(m, x))
    case Force(x) => var r := Eval(ord, m, x); if r == Val(VNil) then Trap else r
    case Op(l, op, isInt, conv, r) => Operate(ord, op, isInt, conv, Eval(ord, m, l), Eval(ord, m, r))
    case Join(l, r) => Concatenate(Eval(ord, m, l), Eval(ord, m, r))
    case Else(l, conv, r) => Choice(conv, Eval(ord, m, l), Eval(ord, m, r))
  }

  function Operate(ord: Order, op: Kind, isInt: bool, conv: Conversion, a: Result, b: Result): Result {
    if !a.Val? then a else if !b.Val? then b
    else
      var (a', b') := Converted(conv, a.v, b.v);
      if a'.Val? && b'.Val? then Apply(ord, op, isInt, a'.v, b'.v) else Stuck
  }

  function Concatenate(a: Result, b: Result): Result {
    if !a.Val? then a else if !b.Val? then b
    else if a.v.VStr? && b.v.VStr? then Val(VStr(a.v.s + b.v.s)) else Stuck
  }

  function Choice(conv: Conversion, a: Result, b: Result): Result {
    if !a.Val? then a else if !b.Val? then b
    else
      var (a', b') := Converted(conv, a.v, b.v);
      if a'.Val? && b'.Val? then (if a'.v == VNil then b' else a') else Stuck
  }

  // ----- the conversions are the only change -----

  /** Equal up to conversions, parentheses and how `+` on strings is spelt. */
  predicate Spells(ctx: Ctx, e: Core, t: Tree) {
    match t
    case Leaf(tok) => e == LeafCore(ctx, tok)
    case Bang(x, _) => e.Force? && Spells(ctx, e.e, x)
    case Paren(_, x, _) => Spells(ctx, e, x)
    case Bin(l, op, r) =>
      match e
      case Op(a, k, _, _, b) => k == op.kind && Spells(ctx, a, l) && Spells(ctx, b, r)
      case Join(a, b) => OperatorRule(op.kind) == ArithRule && Spells(ctx, a, l) && Spells(ctx, b, r)
      case Else(a, _, b) => op.kind == KNilCheck && Spells(ctx, a, l) && Spells(ctx, b, r)
      case _ => false
  }

  lemma {:induction false} ElaborationSpells(ctx: Ctx, sem: Sem, t: Tree)
    requires Stratified(t)
    ensures Spells(ctx, Elaborate(ctx, sem, t), t)
    decreases t
  {
    hide Fold, OperatorRule, LeftMin, RightMin, Level;
    match t
    case Leaf(_) =>
    case Bang(e, _) => ElaborationSpells(ctx, sem, e);
    case Paren(_, e, _) => ElaborationSpells(ctx, sem, e);
    case Bin(l, op, r) =>
      var (s1, a) := Fold(ctx, sem, l);
      ElaborationSpells(ctx, sem, l);
      ElaborationSpells(ctx, s1, r);
  }

  // ----- the actions emit exactly the compiled code -----

  lemma ConvertEmits(sem: Sem, c: Conversion)
    requires Convert(sem, c).err == NO_ERR
    ensures sem.err == NO_ERR && c != Impossible
    ensures Convert(sem, c) == sem.Emit(ConversionCode(c))
  {
    hide Int2DoublesCode;
    assert sem.code + [] == sem.code;
  }

  /** What an operation's own actions append: its conversion and its instructions. */
  function OwnCode(e: Core, uid: nat): Program {
    match e
    case Op(_, op, isInt, conv, _) => ConversionCode(conv) + OpCode(op, isInt)
    case Join(_, _) => ConcatCode
    case Else(_, conv, _) => ConversionCode(conv) + NilCheckCode(uid)
    case _ => []
  }

  /** The arithmetic action without an error: convert, then one of three emissions. */
  lemma ArithmeticCases(ctx: Ctx, sem: Sem, a: Sym, op: Token, b: Sym)
    requires Arithmetic(ctx, sem, a, op, b).0.err == NO_ERR
    ensures var c := ArithConversion(a, b);
            var s, a', b' := Convert(sem, c), ConvertFirst(a, c), ConvertSecond(b, c);
            var s' := Arithmetic(ctx, sem, a, op, b).0;
            && s.err == NO_ERR && s'.condUid == s.condUid && !a'.nilable && !b'.nilable
            && if a'.ty == String || b'.ty == String
               then s'.code == s.code + ConcatCode && a.ty == b.ty == String && op.kind == KAdd
               else SameType(a', b') && (a'.ty == Integer || a'.ty == Double || op.kind == KDiv) &&
                    s'.code == s.code + OpCode(op.kind, a'.ty == Integer)
  {
    hide Convert, ArithConversion, Division, Concatenation, OpCode, ConcatCode;
    var c := ArithConversion(a, b);
    var s, a', b' := Convert(sem, c), ConvertFirst(a, c), ConvertSecond(b, c);
    if a'.ty == String || b'.ty == String {
      ConcatenationCases(s, a, op, b);
    } else if op.kind == KDiv {
      DivisionCases(ctx, s, a', b');
    } else {
      OpCodeOnly(op.kind);
      UnequalTypes(sem, a, b);
      if s.err == NO_ERR {
        ConvertEmits(sem, c);
      }
    }
  }

  /** Without an error the converted operands are of one type, or a literal and not convertible. */
  lemma UnequalTypes(sem: Sem, a: Sym, b: Sym)
    ensures var c := ArithConversion(a, b);
            var a', b' := ConvertFirst(a, c), ConvertSecond(b, c);
            SameType(a', b') || c == Impossible || (!a'.literal && !b'.literal)
  {
  }

  lemma OpCodeOnly(k: Kind)
    ensures k != KDiv ==> OpCode(k, true) == OpCode(k, false)
  {
  }

  lemma ConcatenationCases(sem: Sem, a: Sym, op: Token, b: Sym)
    requires Concatenation(sem, a, op, b).0.err == NO_ERR
    ensures var s := Concatenation(sem, a, op, b).0;
            sem.err == NO_ERR && s == sem.Emit(ConcatCode) && SameType(a, b) && op.kind == KAdd
  {
    hide ConcatCode;
  }

  lemma DivisionCases(ctx: Ctx, sem: Sem, a: Sym, b: Sym)
    requires Division(ctx, sem, a, b).0.err == NO_ERR
    ensures var s := Division(ctx, sem, a, b).0;
            sem.err == NO_ERR && s.condUid == sem.condUid && SameType(a, b) &&
            s.code == sem.code + OpCode(KDiv, a.ty == Integer)
  {
    hide OpCode, ReadsZero;
  }

  lemma ArithmeticEmits(ctx: Ctx, sem: Sem, a: Sym, op: Token, b: Sym, x: Core, y: Core)
    requires OperatorRule(op.kind) == ArithRule && Arithmetic(ctx, sem, a, op, b).0.err == NO_ERR
    ensures var s := Arithmetic(ctx, sem, a, op, b).0;
            s.condUid == sem.condUid && sem.err == NO_ERR &&
            s.code == sem.code + OwnCode(BinCore(a, x, op.kind, b, y), sem.condUid)
  {
    hide Arithmetic, Int2DoublesCode, OperatorRule, ConcatCode, Convert, ConversionCode, ArithConversion, OpCode;
    var c := ArithConversion(a, b);
    ArithmeticCases(ctx, sem, a, op, b);
    JoinUnconverted(a, b);
    NoConversionCode();
    EmitsOwn(sem, c, OpCode(op.kind, ConvertFirst(a, c).ty == Integer));
    EmitsOwn(sem, c, ConcatCode);
  }

  /** Strings are never converted. */
  lemma JoinUnconverted(a: Sym, b: Sym)
    ensures var c := ArithConversion(a, b);
            (ConvertFirst(a, c).ty == String || ConvertSecond(b, c).ty == String) && c != Impossible ==>
              c == NoConversion
  {
  }

  /** The relational action without an error. */
  lemma RelationalCases(ctx: Ctx, sem: Sem, a: Sym, op: Token, b: Sym)
    requires Relational(ctx, sem, a, op, b).0.err == NO_ERR
    ensures var s' := Relational(ctx, sem, a, op, b).0;
            if op.kind == KNilCheck then
              var s := Convert(sem, CoalesceConversion(a, b));
              && s.err == NO_ERR && s'.code == s.code + NilCheckCode(s.condUid) && s'.condUid == s.condUid + 1
              && (a.ty != NilType ==> a.nilable && !b.nilable)
            else if a.ty == NilType || b.ty == NilType then
              && sem.err == NO_ERR && s'.code == sem.code + OpCode(op.kind, false) && s'.condUid == sem.condUid
              && (a.nilable || b.nilable)
            else
              var s := Convert(sem, RelConversion(a, b));
              s.err == NO_ERR && s'.code == s.code + OpCode(op.kind, false) && s'.condUid == s.condUid
  {
    hide OpCode, Int2DoublesCode, NilCheckCode;
  }

  lemma RelationalEmits(ctx: Ctx, sem: Sem, a: Sym, op: Token, b: Sym, x: Core, y: Core)
    requires OperatorRule(op.kind) == RelRule && Relational(ctx, sem, a, op, b).0.err == NO_ERR
    ensures var e := BinCore(a, x, op.kind, b, y);
            var s := Relational(ctx, sem, a, op, b).0;
            sem.err == NO_ERR && s.condUid == (if e.Else? then sem.condUid + 1 else sem.condUid) &&
            s.code == sem.code + OwnCode(e, sem.condUid)
  {
    hide Relational, OpCode, Int2DoublesCode, OperatorRule, NilCheckCode, Convert, ConversionCode, RelConversion,
         CoalesceConversion;
    RelationalCases(ctx, sem, a, op, b);
    NoConversionCode();
    if op.kind == KNilCheck {
      EmitsOwn(sem, CoalesceConversion(a, b), NilCheckCode(sem.condUid));
    } else if a.ty != NilType && b.ty != NilType {
      EmitsOwn(sem, RelConversion(a, b), OpCode(op.kind, false));
    }
  }

  lemma EmitsOwn(sem: Sem, c: Conversion, q: Program)
    requires Convert(sem, c).err == NO_ERR
    ensures sem.err == NO_ERR && Convert(sem, c).condUid == sem.condUid && c != Impossible
    ensures Convert(sem, c).code + q == sem.code + (ConversionCode(c) + q)
  {
    hide Convert, ConversionCode;
    ConvertEmits(sem, c);
  }

  lemma NoConversionCode()
    ensures ConversionCode(NoConversion) == [] && forall q: Program :: [] + q == q
  {
  }

  /** Without an error the actions on a tree append exactly the code of its elaboration. */
  lemma {:induction false} FoldEmits(ctx: Ctx, sem: Sem, t: Tree)
    requires Stratified(t) && Fold(ctx, sem, t).0.err == NO_ERR
    ensures sem.err == NO_ERR
    ensures var (p, u) := Compile(Elaborate(ctx, sem, t), sem.condUid);
            Fold(ctx, sem, t).0.code == sem.code + p && Fold(ctx, sem, t).0.condUid == u
    decreases t
  {
    hide Arithmetic, Relational, BinCore, LeftMin, RightMin, Level, OperatorRule, IsBinaryOperator, NilCheckCode,
         OpCode, ConversionCode, ConcatCode;
    match t
    case Leaf(tok) => LeafEmits(ctx, sem, tok);
    case Bang(e, _) => FoldEmits(ctx, sem, e);
    case Paren(_, e, _) => FoldEmits(ctx, sem, e);
    case Bin(l, op, r) => BinEmits(ctx, sem, t);
  }

  lemma LeafEmits(ctx: Ctx, sem: Sem, tok: Token)
    requires IsOperandKind(tok.kind) && Operand(ctx, sem, FromToken(tok)).0.err == NO_ERR
    ensures var s := Operand(ctx, sem, FromToken(tok)).0;
            s.code == sem.code + Compile(LeafCore(ctx, tok), sem.condUid).0 && s.condUid == sem.condUid
  {
  }

  lemma {:induction false} BinEmits(ctx: Ctx, sem: Sem, t: Tree)
    requires t.Bin? && Stratified(t) && Fold(ctx, sem, t).0.err == NO_ERR
    ensures sem.err == NO_ERR
    ensures var (p, u) := Compile(Elaborate(ctx, sem, t), sem.condUid);
            Fold(ctx, sem, t).0.code == sem.code + p && Fold(ctx, sem, t).0.condUid == u
    decreases t, 0
  {
    hide Arithmetic, Relational, BinCore, Stratified, OperatorRule, IsBinaryOperator, OwnCode, Fold, Compile, IndexOf;
    BinNeeds(t);
    KindIndex(t.op.kind);
    FoldOfBin(ctx, sem, t);
    var (s1, a) := Fold(ctx, sem, t.l);
    var (s2, b) := Fold(ctx, s1, t.r);
    var x, y := Elaborate(ctx, sem, t.l), Elaborate(ctx, s1, t.r);
    if OperatorRule(t.op.kind) == ArithRule {
      ArithmeticEmits(ctx, s2, a, t.op, b, x, y);
    } else {
      RelationalEmits(ctx, s2, a, t.op, b, x, y);
    }
    FoldEmits(ctx, s1, t.r);
    FoldEmits(ctx, sem, t.l);
    var e := BinCore(a, x, t.op.kind, b, y);
    assert Elaborate(ctx, sem, t) == e;
    BinCoreParts(a, x, t.op.kind, b, y);
    BinCompile(e, sem.condUid);
    var p, q := Compile(x, sem.condUid).0, Compile(y, s1.condUid).0;
    assert sem.code + p + q + OwnCode(e, s2.condUid) == sem.code + (p + q + OwnCode(e, s2.condUid));
  }

  lemma BinCompile(e: Core, uid: nat)
    requires e.Op? || e.Join? || e.Else?
    ensures var (p, u) := Compile(e.l, uid);
            var (q, w) := Compile(e.r, u);
            Compile(e, uid) == (p + q + OwnCode(e, w), if e.Else? then w + 1 else w)
  {
    hide ConversionCode, OpCode, NilCheckCode, ConcatCode;
  }

  lemma BinCoreParts(a: Sym, x: Core, op: Kind, b: Sym, y: Core)
    ensures var e := BinCore(a, x, op, b, y);
            (e.Op? || e.Join? || e.Else?) && e.l == x && e.r == y && (e.Else? ==> OperatorRule(op) != ArithRule)
  {
    hide OperatorRule, ArithConversion, RelConversion, CoalesceConversion, ConvertFirst, ConvertSecond;
  }
}
