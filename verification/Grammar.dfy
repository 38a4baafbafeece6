/** The stratified expression grammar: `??` lowest and right-associative, then right-nested relations, then
    left-associative `+ -`, then left-associative `* /`, then parentheses, then operands with any number of
    postfix `!`.  Trees keep their tokens, so that a tree determines its token list exactly. */
module Grammar {
  import opened Tokens
  import opened Semantics
  import opened Precedence

  datatype Tree =
    | Leaf(tok: Token)
    | Bang(e: Tree, bang: Token)
    | Paren(lp: Token, e: Tree, rp: Token)
    | Bin(l: Tree, op: Token, r: Tree)

  function OpLevel(k: Kind): nat {
    match IndexOf(k)
    case IMulDiv => 3 case IAddSub => 2 case IRel => 1 case _ => 0
  }

  function Level(t: Tree): nat {
    match t
    case Leaf(_) => 5
    case Bang(_, _) => 5
    case Paren(_, _, _) => 4
    case Bin(_, op, _) => OpLevel(op.kind)
  }

  /** Lowest level allowed to the left of an operator, and to its right. */
  function LeftMin(k: Kind): nat {
    if OpLevel(k) >= 2 then OpLevel(k) else OpLevel(k) + 1
  }

  function RightMin(k: Kind): nat {
    if OpLevel(k) >= 2 then OpLevel(k) + 1 else OpLevel(k)
  }

  predicate Stratified(t: Tree) {
    match t
    case Leaf(tok) => IsOperandKind(tok.kind)
    case Bang(e, bang) => bang.kind == KNotNil && Stratified(e) && Level(e) == 5
    case Paren(lp, e, rp) => lp.kind == KLPar && rp.kind == KRPar && Stratified(e)
    case Bin(l, op, r) =>
      && IsBinaryOperator(op.kind)
      && Stratified(l) && Level(l) >= LeftMin(op.kind)
      && Stratified(r) && Level(r) >= RightMin(op.kind)
  }

  function Yield(t: Tree): (y: seq<Token>)
    ensures |y| > 0
  {
    match t
    case Leaf(tok) => [tok]
    case Bang(e, bang) => Yield(e) + [bang]
    case Paren(lp, e, rp) => [lp] + Yield(e) + [rp]
    case Bin(l, op, r) => Yield(l) + [op] + Yield(r)
  }

  /** The semantic actions in the post-order of the tree. */
  function Fold(ctx: Ctx, sem: Sem, t: Tree): (r: (Sem, Sym))
    ensures !r.1.terminal && !r.1.handle
    decreases t
  {
    match t
    case Leaf(tok) => Operand(ctx, sem, FromToken(tok))
    case Bang(e, _) => var (s, x) := Fold(ctx, sem, e); Unwrap(ctx, s, x)
    case Paren(_, e, _) => var (s, x) := Fold(ctx, sem, e); (s, Parenthesis(x))
    case Bin(l, op, r) =>
      var (s, x) := Fold(ctx, sem, l);
      var (s', y) := Fold(ctx, s, r);
      if OperatorRule(op.kind) == ArithRule then Arithmetic(ctx, s', x, op, y) else Relational(ctx, s', x, op, y)
  }

  /** Which trees may stand before a token of kind `k`: those whose last operator the token makes reduce. */
  function FollowMin(k: Kind): nat {
    match IndexOf(k)
    case IMulDiv => 3 case IAddSub => 2 case IRel => 2 case INilCheck => 1
    case INotNil => 5 case IRPar => 0 case IDollar => 0
    case _ => 6
  }

  /** Which trees may stand after a stack top of kind `k`. */
  function ContextMin(k: Kind): nat {
    if IsBinaryOperator(k) then RightMin(k) else 0
  }

  /** Terminals that an operand or parenthesis may follow. */
  predicate Opens(k: Kind) {
    IsBinaryOperator(k) || k == KLPar || IndexOf(k) == IDollar
  }

  /** What the grammar asks of an operation's parts, in the terms of the parser's contexts. */
  lemma BinNeeds(t: Tree)
    requires t.Bin? && Stratified(t)
    ensures IsBinaryOperator(t.op.kind) && Level(t) == OpLevel(t.op.kind)
    ensures Stratified(t.l) && Level(t.l) >= FollowMin(t.op.kind) && Level(t.l) >= Level(t)
    ensures Stratified(t.r) && Level(t.r) >= ContextMin(t.op.kind)
    ensures forall k :: Level(t) >= FollowMin(k) ==> Level(t.r) >= FollowMin(k)
  {
    hide IndexOf, IsRelational, OperatorRule;
    KindIndex(t.op.kind);
    forall k | Level(t) >= FollowMin(k)
      ensures Level(t.r) >= FollowMin(k)
    {
      assert IndexOf(k) == IndexOf(k);
    }
  }

  lemma BangNeeds(t: Tree)
    requires t.Bang? && Stratified(t)
    ensures t.bang.kind == KNotNil && Stratified(t.e) && Level(t.e) == Level(t) == 5 && Level(t.e) >= FollowMin(KNotNil)
  {
  }

  lemma ParenMins()
    ensures ContextMin(KLPar) == 0 && FollowMin(KRPar) == 0
  {
  }

  lemma FoldOfParen(ctx: Ctx, sem: Sem, p: Tree)
    requires p.Paren?
    ensures var (s1, y) := Fold(ctx, sem, p.e); Fold(ctx, sem, p) == (s1, Parenthesis(y))
  {
    hide Operand, Unwrap, Arithmetic, Relational;
  }

  lemma FoldOfBin(ctx: Ctx, sem: Sem, t: Tree)
    requires t.Bin?
    ensures var (s1, x) := Fold(ctx, sem, t.l);
            var (s2, y) := Fold(ctx, s1, t.r);
            Fold(ctx, sem, t) == (if OperatorRule(t.op.kind) == ArithRule then Arithmetic(ctx, s2, x, t.op, y)
                                  else Relational(ctx, s2, x, t.op, y))
  {
    hide Operand, Unwrap, Arithmetic, Relational, OperatorRule;
  }

  lemma ParenNeeds(p: Tree)
    requires p.Paren? && Stratified(p)
    ensures Stratified(p.e) && p.lp.kind == KLPar && p.rp.kind == KRPar
  {
  }

  // ----- what the table says about binary operators -----

  /** In a context that allows it, an operator is shifted: with a flag, or without after another relation. */
  lemma OperatorShifts(c: Kind, op: Kind)
    requires Opens(c) && IsBinaryOperator(op) && OpLevel(op) >= ContextMin(c)
    ensures Prec(c, op) == (if IndexOf(c) == IRel && IndexOf(op) == IRel then E else S)
  {
    hide IndexOf, IsBinaryOperator, IsRelational, OperatorRule;
    KindIndex(c);
    KindIndex(op);
  }

  /** A token that may follow a tree makes the operators on its right spine reduce. */
  lemma OperatorReduces(op: Kind, next: Kind)
    requires IsBinaryOperator(op) && OpLevel(op) >= FollowMin(next)
    ensures Prec(op, next) == R
  {
    hide IndexOf, IsBinaryOperator, IsRelational, OperatorRule;
    KindIndex(op);
  }

  lemma ParenReduces(p: Tree, next: Kind)
    requires p.Paren? && Level(p) >= FollowMin(next)
    ensures Prec(KRPar, next) == R
  {
    hide IndexOf;
    KindIndex(KRPar);
  }

  lemma EndReduces(op: Kind)
    requires IsBinaryOperator(op)
    ensures Prec(op, KUndefined) == R
  {
    EndIndex();
    OperatorReduces(op, KUndefined);
  }
}
