/** Type soundness of compiled expressions, and exactly where it fails. */
module Typing {
  import opened Tokens
  import opened Machine
  import opened Scopes
  import opened CodeGen
  import opened Semantics
  import opened Precedence
  import opened Grammar
  import opened Meaning
  import opened Naming
  import opened Completeness
  import opened Sentences
  import opened Soundness
  import opened Execution
  import opened Correctness

  /** The values of a checked type. */
  predicate HasType(v: Value, ty: Type, nilable: bool) {
    match v
    case VInt(_) => ty == Integer
    case VDbl(_) => ty == Double
    case VStr(_) => ty == String
    case VBool(_) => ty == Bool
    case VNil => ty == NilType || (nilable && Concrete(ty))
  }

  predicate Concrete(ty: Type) {
    ty != Undefined && ty != Function
  }

  predicate Suits(v: Value, e: Sym) {
    HasType(v, e.ty, e.nilable)
  }

  /** The machine holds a value of the declared type for `id`, where the checker would let it be read. */
  predicate IdTyped(ctx: Ctx, m: State, id: string) {
    var item := Resolve(ctx, id);
    item.Some? && item.value.init ==>
      var v := Machine.Read(m, CheckedVar(ctx, id));
      v.Some? && HasType(v.value, item.value.ty, item.value.nilable)
  }

  ghost predicate Typed(ctx: Ctx, m: State) {
    LhsVisible(ctx) && forall id: string :: IdTyped(ctx, m, id)
  }

  predicate IsOrdering(op: Kind) {
    op == KLt || op == KGt || op == KLeq || op == KGeq
  }

  /** What the checker should also ask of a binary operation: ordering and division need plain operands, and the
      default of a nil literal must not be nil. */
  predicate OpGuard(a: Sym, op: Kind, b: Sym) {
    && (IsOrdering(op) ==> !a.nilable && !b.nilable)
    && (op == KDiv ==> a.ty != Bool && a.ty != NilType)
    && (op == KNilCheck && a.ty == NilType ==> !b.nilable || b.ty == NilType)
  }

  /** What it should also ask of a parenthesis, which drops nilability. */
  predicate ParenGuard(e: Sym) {
    !e.nilable || e.ty == NilType
  }

  function BinAct(ctx: Ctx, sem: Sem, a: Sym, op: Token, b: Sym): (Sem, Sym) {
    if OperatorRule(op.kind) == ArithRule then Arithmetic(ctx, sem, a, op, b) else Relational(ctx, sem, a, op, b)
  }

  /** What the operation the checker picks makes of its operands' values. */
  function Combined(ord: Order, a: Sym, op: Kind, b: Sym, v: Value, w: Value): Result {
    var e := BinCore(a, Lit(VNil), op, b, Lit(VNil));
    BinCoreParts(a, Lit(VNil), op, b, Lit(VNil));
    Combine(ord, e, v, w)
  }

  /** The result is neither a type error nor a value outside the operation's type. */
  predicate Sane(r: Result, e: Sym) {
    match r
    case Val(v) => Suits(v, e)
    case Trap => true
    case Stuck => false
  }

  lemma ArithmeticSound(ctx: Ctx, sem: Sem, a: Sym, op: Token, b: Sym, ord: Order, v: Value, w: Value)
    requires OperatorRule(op.kind) == ArithRule && Arithmetic(ctx, sem, a, op, b).0.err == NO_ERR
    requires Suits(v, a) && Suits(w, b) && OpGuard(a, op.kind, b)
    ensures Sane(Combined(ord, a, op.kind, b, v, w), Arithmetic(ctx, sem, a, op, b).1)
  {
    ArithmeticCases(ctx, sem, a, op, b);
  }

  predicate IsBool(r: Result) {
    r.Val? && r.v.VBool?
  }

  /** Comparing two values of one type, or anything with nil for equality, gives a truth value. */
  lemma ComparesSame(ord: Order, op: Kind, v: Value, w: Value, ty: Type, nilable: bool)
    requires IsRelational(op) && HasType(v, ty, nilable) && HasType(w, ty, nilable)
    requires IsOrdering(op) ==> !nilable && ty != NilType
    ensures IsBool(Apply(ord, op, false, v, w))
  {
  }

  lemma ComparesNil(ord: Order, op: Kind, v: Value, w: Value)
    requires (op == KEq || op == KNeq) && (v == VNil || w == VNil)
    ensures IsBool(Apply(ord, op, false, v, w))
  {
  }

  /** After a conversion without an error both operands have one type. */
  lemma ConvertedSame(sem: Sem, a: Sym, b: Sym, v: Value, w: Value)
    requires Convert(sem, RelConversion(a, b)).err == NO_ERR && Suits(v, a) && Suits(w, b)
    ensures var (v', w') := Converted(RelConversion(a, b), v, w);
            v'.Val? && w'.Val? &&
            exists ty :: HasType(v'.v, ty, a.nilable) && HasType(w'.v, ty, a.nilable) && (ty == a.ty || ty == Double)
                         && (b.nilable ==> a.nilable)
  {
    hide Int2DoublesCode;
    var (v', w') := Converted(RelConversion(a, b), v, w);
    var ty := if RelConversion(a, b) == NoConversion then a.ty else Double;
    assert HasType(v'.v, ty, a.nilable) && HasType(w'.v, ty, a.nilable);
  }

  lemma CompareSound(ctx: Ctx, sem: Sem, a: Sym, op: Token, b: Sym, ord: Order, v: Value, w: Value)
    requires IsRelational(op.kind) && Relational(ctx, sem, a, op, b).0.err == NO_ERR
    requires Suits(v, a) && Suits(w, b) && OpGuard(a, op.kind, b)
    ensures IsBool(Combined(ord, a, op.kind, b, v, w)) && Relational(ctx, sem, a, op, b).1.ty == Bool
  {
    hide Apply, Converted, RelConversion, OpCode, Int2DoublesCode;
    RelationalCases(ctx, sem, a, op, b);
    if a.ty == NilType || b.ty == NilType {
      ComparesNil(ord, op.kind, v, w);
      NothingConverted(v, w);
    } else {
      ConvertedSame(sem, a, b, v, w);
      var (v', w') := Converted(RelConversion(a, b), v, w);
      var ty :| HasType(v'.v, ty, a.nilable) && HasType(w'.v, ty, a.nilable) && (ty == a.ty || ty == Double);
      ComparesSame(ord, op.kind, v'.v, w'.v, ty, a.nilable);
    }
  }

  lemma NothingConverted(v: Value, w: Value)
    ensures Converted(NoConversion, v, w) == (Val(v), Val(w))
  {
  }

  lemma CoalesceSound(sem: Sem, a: Sym, b: Sym, ord: Order, v: Value, w: Value)
    requires Coalesce(sem, a, b).0.err == NO_ERR
    requires Suits(v, a) && Suits(w, b) && OpGuard(a, KNilCheck, b)
    ensures Sane(Combined(ord, a, KNilCheck, b, v, w), Coalesce(sem, a, b).1)
  {
    hide Int2DoublesCode, NilCheckCode;
  }

  lemma RelationalSound(ctx: Ctx, sem: Sem, a: Sym, op: Token, b: Sym, ord: Order, v: Value, w: Value)
    requires OperatorRule(op.kind) == RelRule && Relational(ctx, sem, a, op, b).0.err == NO_ERR
    requires Suits(v, a) && Suits(w, b) && OpGuard(a, op.kind, b)
    ensures Sane(Combined(ord, a, op.kind, b, v, w), Relational(ctx, sem, a, op, b).1)
  {
    hide Combined, OpGuard, Coalesce;
    if op.kind == KNilCheck {
      CoalesceSound(sem, a, b, ord, v, w);
    } else {
      CompareSound(ctx, sem, a, op, b, ord, v, w);
    }
  }

  lemma OperationSound(ctx: Ctx, sem: Sem, a: Sym, op: Token, b: Sym, ord: Order, v: Value, w: Value)
    requires IsBinaryOperator(op.kind) && BinAct(ctx, sem, a, op, b).0.err == NO_ERR
    requires Suits(v, a) && Suits(w, b) && OpGuard(a, op.kind, b)
    ensures Sane(Combined(ord, a, op.kind, b, v, w), BinAct(ctx, sem, a, op, b).1)
  {
    hide IndexOf, Combined, OpGuard, Arithmetic, Relational, OperatorRule;
    KindIndex(op.kind);
    if OperatorRule(op.kind) == ArithRule {
      ArithmeticSound(ctx, sem, a, op, b, ord, v, w);
    } else {
      RelationalSound(ctx, sem, a, op, b, ord, v, w);
    }
  }

  // ----- the guards are exact -----

  /** Some value of the type, nil where it may be. */
  function Sample(e: Sym): (v: Value)
    requires Concrete(e.ty)
    ensures Suits(v, e)
  {
    if e.nilable || e.ty == NilType then VNil
    else match e.ty
      case Integer => VInt(0)
      case Double => VDbl(DblLit(""))
      case String => VStr("")
      case _ => VBool(false)
  }

  ghost predicate AlwaysSane(ctx: Ctx, sem: Sem, ord: Order, a: Sym, op: Token, b: Sym) {
    forall v, w :: Suits(v, a) && Suits(w, b) ==>
      Sane(Combined(ord, a, op.kind, b, v, w), BinAct(ctx, sem, a, op, b).1)
  }

  lemma UnguardedFails(ctx: Ctx, sem: Sem, a: Sym, op: Token, b: Sym, ord: Order)
    requires IsBinaryOperator(op.kind) && BinAct(ctx, sem, a, op, b).0.err == NO_ERR
    requires Concrete(a.ty) && Concrete(b.ty) && !OpGuard(a, op.kind, b)
    ensures !Sane(Combined(ord, a, op.kind, b, Sample(a), Sample(b)), BinAct(ctx, sem, a, op, b).1)
  {
    hide OpCode, Int2DoublesCode, NilCheckCode;
    if OperatorRule(op.kind) == ArithRule {
      ArithmeticCases(ctx, sem, a, op, b);
    } else {
      RelationalCases(ctx, sem, a, op, b);
    }
  }

  /** An operation that the checker accepts is type-safe for all operand values exactly when its guard holds. */
  lemma OperationSafeExactly(ctx: Ctx, sem: Sem, a: Sym, op: Token, b: Sym, ord: Order)
    requires IsBinaryOperator(op.kind) && BinAct(ctx, sem, a, op, b).0.err == NO_ERR
    requires Concrete(a.ty) && Concrete(b.ty)
    ensures AlwaysSane(ctx, sem, ord, a, op, b) <==> OpGuard(a, op.kind, b)
  {
    hide Combined, OpGuard, Arithmetic, Relational, OperatorRule, IsBinaryOperator, Sane;
    if OpGuard(a, op.kind, b) {
      forall v, w | Suits(v, a) && Suits(w, b)
        ensures Sane(Combined(ord, a, op.kind, b, v, w), BinAct(ctx, sem, a, op, b).1)
      {
        OperationSound(ctx, sem, a, op, b, ord, v, w);
      }
    } else {
      UnguardedFails(ctx, sem, a, op, b, ord);
    }
  }

  /** A parenthesis keeps its type's promise exactly when nothing nilable is inside. */
  lemma ParenSafeExactly(e: Sym)
    requires Concrete(e.ty)
    ensures (forall v :: Suits(v, e) ==> Suits(v, Parenthesis(e))) <==> ParenGuard(e)
  {
    if !ParenGuard(e) {
      assert Suits(VNil, e) && !Suits(VNil, Parenthesis(e));
    }
  }

  // ----- whole expressions -----

  /** Every operation and parenthesis of the tree is guarded. */
  predicate Guarded(ctx: Ctx, sem: Sem, t: Tree)
    decreases t
  {
    match t
    case Leaf(_) => true
    case Bang(e, _) => Guarded(ctx, sem, e)
    case Paren(_, e, _) => Guarded(ctx, sem, e) && ParenGuard(Fold(ctx, sem, e).1)
    case Bin(l, op, r) =>
      var (s1, a) := Fold(ctx, sem, l);
      Guarded(ctx, sem, l) && Guarded(ctx, s1, r) && OpGuard(a, op.kind, Fold(ctx, s1, r).1)
  }

  lemma LeafSound(ord: Order, m: State, ctx: Ctx, sem: Sem, tok: Token)
    requires IsOperandKind(tok.kind) && Operand(ctx, sem, FromToken(tok)).0.err == NO_ERR && Typed(ctx, m)
    ensures Sane(Eval(ord, m, LeafCore(ctx, tok)), Operand(ctx, sem, FromToken(tok)).1)
  {
    hide CheckedVar, GenVar, Resolve, LhsVisible;
    if tok.kind == KIdentifier {
      assert IdTyped(ctx, m, Text(tok));
      NamesAgree(ctx, Text(tok));
    }
  }

  lemma UnwrapSound(ctx: Ctx, sem: Sem, e: Sym, r: Result)
    requires Unwrap(ctx, sem, e).0.err == NO_ERR && Sane(r, e)
    ensures Sane(if r == Val(VNil) then Trap else r, Unwrap(ctx, sem, e).1)
  {
  }

  lemma BinEval(ord: Order, m: State, a: Sym, x: Core, op: Kind, b: Sym, y: Core)
    ensures var r, q := Eval(ord, m, x), Eval(ord, m, y);
            Eval(ord, m, BinCore(a, x, op, b, y)) ==
              if !r.Val? then r else if !q.Val? then q else Combined(ord, a, op, b, r.v, q.v)
  {
    hide BinCore, Combine;
    var e := BinCore(a, x, op, b, y);
    BinCoreParts(a, x, op, b, y);
    CombineIgnores(ord, a, x, op, b, y);
    EvalBinary(ord, m, e);
  }

  lemma EvalBinary(ord: Order, m: State, e: Core)
    requires e.Op? || e.Join? || e.Else?
    ensures var r, q := Eval(ord, m, e.l), Eval(ord, m, e.r);
            Eval(ord, m, e) == if !r.Val? then r else if !q.Val? then q else Combine(ord, e, r.v, q.v)
  {
    hide Apply, Converted;
  }

  /** The operands' own code plays no part in what an operation makes of their values. */
  lemma CombineIgnores(ord: Order, a: Sym, x: Core, op: Kind, b: Sym, y: Core)
    ensures var e := BinCore(a, x, op, b, y);
            (e.Op? || e.Join? || e.Else?) && forall v, w :: Combine(ord, e, v, w) == Combined(ord, a, op, b, v, w)
  {
    hide Operate, Concatenate, Choice, ArithConversion, RelConversion, CoalesceConversion, OperatorRule;
  }

  lemma BinKeepsError(ctx: Ctx, sem: Sem, a: Sym, op: Token, b: Sym)
    requires BinAct(ctx, sem, a, op, b).0.err == NO_ERR
    ensures sem.err == NO_ERR
  {
  }

  /** Type soundness: where the machine's variables have their declared types, an expression that the checker
      accepts and whose operations are guarded means a value of its checked type, or unwraps a nil or divides
      by zero; it never meets an operand of the wrong type. */
  lemma {:induction false} TypesSound(ord: Order, m: State, ctx: Ctx, sem: Sem, t: Tree)
    requires Stratified(t) && Fold(ctx, sem, t).0.err == NO_ERR && Guarded(ctx, sem, t) && Typed(ctx, m)
    ensures Sane(Eval(ord, m, Elaborate(ctx, sem, t)), Fold(ctx, sem, t).1)
    decreases t
  {
    hide Typed, Level, LeftMin, RightMin, Arithmetic, Relational, OpGuard, ParenGuard, BinCore, IsBinaryOperator,
         OperatorRule, Operate, Concatenate, Choice, Combined, Suits;
    match t
    case Leaf(tok) => LeafSound(ord, m, ctx, sem, tok);
    case Bang(e, _) =>
      TypesSound(ord, m, ctx, sem, e);
      UnwrapSound(ctx, Fold(ctx, sem, e).0, Fold(ctx, sem, e).1, Eval(ord, m, Elaborate(ctx, sem, e)));
    case Paren(_, e, _) =>
      TypesSound(ord, m, ctx, sem, e);
      ParenSound(Fold(ctx, sem, e).1, Eval(ord, m, Elaborate(ctx, sem, e)));
    case Bin(l, op, r) =>
      var (s1, a) := Fold(ctx, sem, l);
      var (s2, b) := Fold(ctx, s1, r);
      BinKeepsError(ctx, s2, a, op, b);
      FoldEmits(ctx, s1, r);
      TypesSound(ord, m, ctx, sem, l);
      TypesSound(ord, m, ctx, s1, r);
      BinEval(ord, m, a, Elaborate(ctx, sem, l), op.kind, b, Elaborate(ctx, s1, r));
      var v, w := Eval(ord, m, Elaborate(ctx, sem, l)), Eval(ord, m, Elaborate(ctx, s1, r));
      if v.Val? && w.Val? {
        OperationSound(ctx, s2, a, op, b, ord, v.v, w.v);
      }
  }

  lemma ParenSound(e: Sym, r: Result)
    requires Sane(r, e) && ParenGuard(e)
    ensures Sane(r, Parenthesis(e))
  {
  }

  /** Only identifiers are nilable, and an identifier clears the all-literal flag. */
  lemma {:induction false} NilableNamed(ctx: Ctx, sem: Sem, t: Tree)
    ensures Fold(ctx, sem, t).0.allLits ==> sem.allLits && !Fold(ctx, sem, t).1.nilable
    decreases t
  {
    hide Arithmetic, Relational, OperatorRule, Operand, Unwrap;
    match t
    case Leaf(tok) => OperandFlags(ctx, sem, FromToken(tok));
    case Bang(e, _) => NilableNamed(ctx, sem, e); UnwrapFlags(ctx, Fold(ctx, sem, e).0, Fold(ctx, sem, e).1);
    case Paren(_, e, _) => NilableNamed(ctx, sem, e);
    case Bin(l, op, r) =>
      var (s1, a) := Fold(ctx, sem, l);
      var (s2, b) := Fold(ctx, s1, r);
      NilableNamed(ctx, sem, l);
      NilableNamed(ctx, s1, r);
      OperationFlags(ctx, s2, a, op, b);
  }

  lemma OperandFlags(ctx: Ctx, sem: Sem, operand: Sym)
    requires operand.terminal
    ensures Operand(ctx, sem, operand).0.allLits ==> sem.allLits && !Operand(ctx, sem, operand).1.nilable
  {
    hide PushCode, Resolve;
  }

  lemma UnwrapFlags(ctx: Ctx, sem: Sem, e: Sym)
    ensures Unwrap(ctx, sem, e).0.allLits == sem.allLits && !Unwrap(ctx, sem, e).1.nilable
  {
  }

  lemma ConvertFlags(sem: Sem, c: Conversion)
    ensures Convert(sem, c).allLits == sem.allLits
  {
    hide Int2DoublesCode;
  }

  lemma ArithmeticFlags(ctx: Ctx, sem: Sem, a: Sym, op: Token, b: Sym)
    ensures Arithmetic(ctx, sem, a, op, b).0.allLits == sem.allLits && !Arithmetic(ctx, sem, a, op, b).1.nilable
  {
    hide OpCode, ConcatCode, Convert, ArithConversion, ReadsZero, ConvertFirst, ConvertSecond;
    ConvertFlags(sem, ArithConversion(a, b));
  }

  lemma RelationalFlags(ctx: Ctx, sem: Sem, a: Sym, op: Token, b: Sym)
    ensures Relational(ctx, sem, a, op, b).0.allLits == sem.allLits && !Relational(ctx, sem, a, op, b).1.nilable
  {
    hide OpCode, NilCheckCode, Convert, RelConversion, CoalesceConversion;
    ConvertFlags(sem, RelConversion(a, b));
    ConvertFlags(sem, CoalesceConversion(a, b));
  }

  lemma OperationFlags(ctx: Ctx, sem: Sem, a: Sym, op: Token, b: Sym)
    ensures BinAct(ctx, sem, a, op, b).0.allLits == sem.allLits && !BinAct(ctx, sem, a, op, b).1.nilable
  {
    hide Arithmetic, Relational, OperatorRule;
    ArithmeticFlags(ctx, sem, a, op, b);
    RelationalFlags(ctx, sem, a, op, b);
  }

  /** An accepted, guarded expression means a value of the type the call returns. */
  lemma MeansTyped(ord: Order, m: State, ctx: Ctx, pos: nat, sem: Sem, t: Tree)
    requires Accepted(ctx, pos, sem, t) && Guarded(ctx, sem, t) && Typed(ctx, m)
    ensures Sane(Means(ord, m, ctx, sem, t), TreeOutcome(ctx, pos + 1, sem, t).result)
  {
    hide Typed, Guarded, Fold, Elaborate, Eval, Stratified, Int2DoublesCode, Yield, IndexOf;
    TypesSound(ord, m, ctx, sem, t);
    NilableNamed(ctx, sem, t);
  }

  /** The value of the operand at the bottom of a chain of `!` is not nil. */
  predicate NotNil(ctx: Ctx, m: State, t: Tree) {
    match t
    case Leaf(tok) => tok.kind != KNil && (tok.kind == KIdentifier ==>
        Machine.Read(m, GenVar(ctx.scopes, ctx.globals, Text(tok))) != Some(VNil))
    case Bang(e, _) => NotNil(ctx, m, e)
    case _ => true
  }

  /** Nothing nil is unwrapped and nothing is divided. */
  predicate Tame(ctx: Ctx, m: State, t: Tree) {
    match t
    case Leaf(_) => true
    case Bang(e, _) => NotNil(ctx, m, e) && Tame(ctx, m, e)
    case Paren(_, e, _) => Tame(ctx, m, e)
    case Bin(l, op, r) => op.kind != KDiv && Tame(ctx, m, l) && Tame(ctx, m, r)
  }

  lemma {:induction false} ChainNotNil(ord: Order, m: State, ctx: Ctx, sem: Sem, t: Tree)
    requires (t.Leaf? || t.Bang?) && Stratified(t) && NotNil(ctx, m, t)
    ensures Eval(ord, m, Elaborate(ctx, sem, t)) != Val(VNil)
    decreases t
  {
    hide GenVar, Machine.Read;
    match t
    case Leaf(tok) => assert IsOperandKind(tok.kind);
    case Bang(e, _) => LevelOfChain(e); ChainNotNil(ord, m, ctx, sem, e);
    case _ =>
  }

  lemma OperateNoTrap(ord: Order, op: Kind, isInt: bool, c: Conversion, a: Result, b: Result)
    requires op != KDiv && a != Trap && b != Trap
    ensures Operate(ord, op, isInt, c, a, b) != Trap && Concatenate(a, b) != Trap && Choice(c, a, b) != Trap
  {
    hide Less, Equal;
  }

  /** An evaluation is trapped only by an unwrapped nil or a division. */
  lemma {:induction false} TameNoTrap(ord: Order, m: State, ctx: Ctx, sem: Sem, t: Tree)
    requires Stratified(t) && Tame(ctx, m, t)
    ensures Eval(ord, m, Elaborate(ctx, sem, t)) != Trap
    decreases t
  {
    hide NotNil, Level, LeftMin, RightMin, BinCore, IsBinaryOperator, Operate, Concatenate, Choice, Fold;
    match t
    case Leaf(_) =>
    case Bang(e, _) =>
      TameNoTrap(ord, m, ctx, sem, e);
      BangNeeds(t);
      LevelOfChain(e);
      ChainNotNil(ord, m, ctx, sem, e);
    case Paren(_, e, _) => TameNoTrap(ord, m, ctx, sem, e);
    case Bin(l, op, r) =>
      var (s1, a) := Fold(ctx, sem, l);
      var (s2, b) := Fold(ctx, s1, r);
      var x, y := Elaborate(ctx, sem, l), Elaborate(ctx, s1, r);
      TameNoTrap(ord, m, ctx, sem, l);
      TameNoTrap(ord, m, ctx, s1, r);
      var e := BinCore(a, x, op.kind, b, y);
      BinCoreParts(a, x, op.kind, b, y);
      BinCoreOp(a, x, op.kind, b, y);
      var c := if e.Join? then NoConversion else e.conv;
      OperateNoTrap(ord, op.kind, e.Op? && e.isInt, c, Eval(ord, m, x), Eval(ord, m, y));
  }

  lemma BinCoreOp(a: Sym, x: Core, op: Kind, b: Sym, y: Core)
    ensures var e := BinCore(a, x, op, b, y); e.Op? ==> e.op == op
  {
  }

  lemma LevelOfChain(t: Tree)
    requires Stratified(t) && Level(t) == 5
    ensures t.Leaf? || t.Bang?
  {
  }

  /** Correct and type-safe: wherever the code of an accepted, guarded expression stands, and as long as it unwraps
      nothing nil and divides nothing, it runs to its end and leaves one value, of the type the call returned,
      above an untouched stack. */
  lemma ExpressionRuns(ord: Order, p: Program, k: nat, m: State, ctx: Ctx, pos: nat, sem: Sem, t: Tree)
    returns (m': State)
    requires Accepted(ctx, pos, sem, t) && PlainNames(t) && Guarded(ctx, sem, t)
    requires Correctness.Ready(m) && Typed(ctx, m) && Tame(ctx, m, t)
    requires var code := ExprCode(ctx, sem, t);
             CodeAt(p, k, code) && Reserved(p, k, |code|, sem.condUid, TreeOutcome(ctx, pos + 1, sem, t).sem.condUid)
    ensures var e := TreeOutcome(ctx, pos + 1, sem, t).result;
            && Reaches(ord, p, Config(k, m), Config(k + |ExprCode(ctx, sem, t)|, m'))
            && m'.stack != [] && m'.stack[..|m'.stack| - 1] == m.stack && Keeps(m, m')
            && Suits(m'.stack[|m'.stack| - 1], e) && Means(ord, m, ctx, sem, t) == Val(m'.stack[|m'.stack| - 1])
  {
    hide Typed, Guarded, Means, ExprCode, PlainNames, Reserved, CodeAt, Reaches, TreeOutcome, Suits, Tame;
    MeansTyped(ord, m, ctx, pos, sem, t);
    MeansNoTrap(ord, m, ctx, pos, sem, t);
    m' := ExprCodeRuns(ord, p, k, m, ctx, pos, sem, t);
  }

  lemma MeansNoTrap(ord: Order, m: State, ctx: Ctx, pos: nat, sem: Sem, t: Tree)
    requires Accepted(ctx, pos, sem, t) && Tame(ctx, m, t)
    ensures Means(ord, m, ctx, sem, t) != Trap
  {
    hide Tame, TreeOutcome, Stratified, Elaborate, Eval, Promoted;
    TameNoTrap(ord, m, ctx, sem, t);
  }
}
