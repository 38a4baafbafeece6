/** What a call of the expression parser returns on a sentence, ended by a terminator or by a new line. */
module Sentences {
  import opened Tokens
  import opened Semantics
  import opened Precedence
  import opened ExprParsing
  import opened Grammar
  import opened Completeness

  /** The call with the cursor at `pos` returns, with outcome `out`. */
  ghost predicate Returns(ctx: Ctx, pos: nat, sem: Sem, out: Outcome)
    requires ctx.toks != []
  {
    exists n: nat :: ReturnsIn(ctx, pos, sem, out, n)
  }

  predicate ReturnsIn(ctx: Ctx, pos: nat, sem: Sem, out: Outcome, n: nat)
    requires ctx.toks != []
  {
    var s := Loop(ctx, Start(ctx, pos, sem), n);
    Halted(s) && Finish(ctx, s) == out
  }

  lemma {:induction false} RunStays(ctx: Ctx, s: PState, n: nat, k: nat)
    requires ctx.toks != [] && Bottomed(s) && Halted(Run(ctx, s, n))
    ensures Run(ctx, s, n + k) == Run(ctx, s, n)
  {
    hide Pass;
    RunCompose(ctx, s, n, k);
  }

  /** A call returns at most one outcome, whatever the number of passes. */
  lemma ReturnsOnce(ctx: Ctx, pos: nat, sem: Sem, a: Outcome, b: Outcome)
    requires ctx.toks != [] && Returns(ctx, pos, sem, a) && Returns(ctx, pos, sem, b)
    ensures a == b
  {
    hide Pass, Finish;
    var n: nat :| ReturnsIn(ctx, pos, sem, a, n);
    var k: nat :| ReturnsIn(ctx, pos, sem, b, k);
    var s0 := Start(ctx, pos, sem);
    PassKeepsBottom(ctx, s0);
    RunStays(ctx, Pass(ctx, s0), n, k);
    RunStays(ctx, Pass(ctx, s0), k, n);
  }

  // ----- the end of a sentence -----

  /** The tree's last token is an operand or a closing parenthesis. */
  predicate EndsInOperand(t: Tree) {
    match t
    case Leaf(_) => true
    case Bang(_, _) => false
    case Paren(_, _, _) => true
    case Bin(_, _, r) => EndsInOperand(r)
  }

  /** A token that starts a line with an operand or a parenthesis. */
  predicate StartsLine(tok: Token) {
    tok.eol && (IndexOf(tok.kind) == IOperand || IndexOf(tok.kind) == ILPar)
  }

  /** On a table conflict at a token that starts a line, the parser steps back and sees an end marker. */
  lemma PassEndsLine(ctx: Ctx, st: Stack, pos: nat, multi: bool, sem: Sem)
    requires st != [] && st[0].(handle := false) == DOLLAR
    requires 0 < pos < |ctx.toks| && ctx.toks[pos].eol
    requires Choose(At(ctx, st, pos, multi, sem)) == X && IndexOf(ctx.toks[pos].kind) != IDollar
    ensures var a, b := At(ctx, st, pos, multi, sem), PState(st, pos - 1, EmptyToken(false), true, sem);
            Gets(ctx, a, b)
  {
    var all := st + [FromToken(ctx.toks[pos])];
    assert all[|all| - 1].tok.eol;
    assert AboveEol(all) == 0;
    assert all[..|all|] == all && all[..|all| - 1] == st;
    GetsPass(ctx, At(ctx, st, pos, multi, sem), PState(st, pos - 1, EmptyToken(false), true, sem));
  }

  /** What the parser does with a tree that a new line ends. */
  ghost predicate ParsesLine(ctx: Ctx, st: Stack, pos: nat, multi: bool, sem: Sem, t: Tree) {
    var (sem', e) := Fold(ctx, sem, t);
    Gets(ctx, At(ctx, st, pos, multi, sem),
         PState(st + [e], pos + |Yield(t)| - 1, EmptyToken(false), true, sem'))
  }

  lemma {:induction false} ParseLine(ctx: Ctx, st: Stack, pos: nat, multi: bool, sem: Sem, t: Tree)
    requires Waiting(st) && Stratified(t) && Before(ctx, pos, t)
    requires EndsInOperand(t) && StartsLine(ctx.toks[pos + |Yield(t)|])
    requires Level(t) >= ContextMin(st[|st| - 1].tok.kind)
    ensures ParsesLine(ctx, st, pos, multi, sem, t)
    decreases t
  {
    match t
    case Leaf(_) => ParseLineLeaf(ctx, st, pos, multi, sem, t);
    case Paren(_, _, _) => ParseLineParen(ctx, st, pos, multi, sem, t);
    case Bin(_, _, _) => ParseLineBin(ctx, st, pos, multi, sem, t);
  }

  lemma ParseLineLeaf(ctx: Ctx, st: Stack, pos: nat, multi: bool, sem: Sem, t: Tree)
    requires t.Leaf? && Waiting(st) && Stratified(t) && Before(ctx, pos, t)
    requires StartsLine(ctx.toks[pos + |Yield(t)|])
    ensures ParsesLine(ctx, st, pos, multi, sem, t)
  {
    hide Pass, Run, Gets, Halted, Operand, IndexOf, OperatorRule, IsBinaryOperator, IsOperandKind, IsRelational;
    KindIndex(st[|st| - 1].tok.kind);
    KindIndex(t.tok.kind);
    EndIndex();
    assert ctx.toks[pos] == t.tok;
    var h := [FromToken(t.tok)];
    assert st + [] == st && SetFlag(st, true) + [] == SetFlag(st, true);
    PassShifts(ctx, st, [], pos, multi, sem);
    var shifted := SetFlag(st, true) + h;
    TopOver(SetFlag(st, true), h);
    PassEndsLine(ctx, shifted, pos + 1, multi, sem);
    PassReduces(ctx, st, true, h, pos, EmptyToken(false), true, sem);
    var a := At(ctx, st, pos, multi, sem);
    GetsTrans(ctx, a, At(ctx, shifted, pos + 1, multi, sem), PState(shifted, pos, EmptyToken(false), true, sem));
    GetsTrans(ctx, a, PState(shifted, pos, EmptyToken(false), true, sem),
              PState(st + [Fold(ctx, sem, t).1], pos, EmptyToken(false), true, Fold(ctx, sem, t).0));
  }

  /** `)` before a new line: shifted, then reduced. */
  lemma ClosingEndsLine(ctx: Ctx, st: Stack, lp: Token, x: Sym, k: nat, multi: bool, sem: Sem)
    requires Waiting(st) && lp.kind == KLPar && !x.terminal && !x.handle
    requires k + 1 < |ctx.toks| && ctx.toks[k].kind == KRPar && StartsLine(ctx.toks[k + 1])
    ensures var a := At(ctx, SetFlag(st, true) + [FromToken(lp)] + [x], k, multi, sem);
            var b := PState(st + [Parenthesis(x)], k, EmptyToken(false), true, sem);
            Gets(ctx, a, b)
  {
    hide Pass, Run, Gets, Halted, IndexOf, OperatorRule, IsBinaryOperator, IsOperandKind, IsRelational;
    KindIndex(KLPar);
    KindIndex(KRPar);
    EndIndex();
    var inner := SetFlag(st, true) + [FromToken(lp)];
    var h := [FromToken(lp), x, FromToken(ctx.toks[k])];
    PassEqualShifts(ctx, inner, [x], k, multi, sem);
    var shifted := SetFlag(st, true) + h;
    assert inner + [x] + [FromToken(ctx.toks[k])] == shifted;
    TopOver(SetFlag(st, true), h);
    PassEndsLine(ctx, shifted, k + 1, multi, sem);
    PassReduces(ctx, st, true, h, k, EmptyToken(false), true, sem);
    var a := At(ctx, inner + [x], k, multi, sem);
    GetsTrans(ctx, a, At(ctx, shifted, k + 1, multi, sem), PState(shifted, k, EmptyToken(false), true, sem));
    GetsTrans(ctx, a, PState(shifted, k, EmptyToken(false), true, sem),
              PState(st + [Parenthesis(x)], k, EmptyToken(false), true, sem));
  }

  lemma ParseLineParen(ctx: Ctx, st: Stack, pos: nat, multi: bool, sem: Sem, t: Tree)
    requires t.Paren? && Waiting(st) && Stratified(t) && Before(ctx, pos, t)
    requires StartsLine(ctx.toks[pos + |Yield(t)|])
    ensures ParsesLine(ctx, st, pos, multi, sem, t)
  {
    hide Fold, Yield, FollowMin, ContextMin, Cell, Pass, Run, Gets, Halted, IndexOf, OperatorRule,
         IsBinaryOperator, Stand, Waiting, Bottomed, SetFlag, Level, Stratified, StartsLine;
    ParenNeeds(t);
    FoldOfParen(ctx, sem, t);
    ParenParts(ctx, pos, t);
    ParseInside(ctx, st, pos, multi, sem, t);
    var (s1, x) := Fold(ctx, sem, t.e);
    var k := pos + 1 + |Yield(t.e)|;
    ClosingEndsLine(ctx, st, t.lp, x, k, multi, s1);
    GetsTrans(ctx, At(ctx, st, pos, multi, sem), At(ctx, SetFlag(st, true) + [FromToken(t.lp)] + [x], k, multi, s1),
              PState(st + [Parenthesis(x)], k, EmptyToken(false), true, s1));
  }

  /** The right operand ended by a new line: the operator reduces. */
  lemma LineBinEnds(ctx: Ctx, a: PState, st: Stack, flag: bool, x: Sym, op: Token, k: nat, multi: bool, sem: Sem, r: Tree)
    requires Waiting(st) && !x.terminal && !x.handle && IsBinaryOperator(op.kind) && Before(ctx, k, r)
    requires var inner := SetFlag(st, flag) + [x, FromToken(op)];
             Waiting(inner) && Gets(ctx, a, At(ctx, inner, k, multi, sem)) &&
             ParsesLine(ctx, inner, k, multi, sem, r)
    ensures var (s2, y) := Fold(ctx, sem, r);
            var (s3, e) := if OperatorRule(op.kind) == ArithRule then Arithmetic(ctx, s2, x, op, y)
                           else Relational(ctx, s2, x, op, y);
            Gets(ctx, a, PState(st + [e], k + |Yield(r)| - 1, EmptyToken(false), true, s3))
  {
    hide Cell, Prec, Yield, Pass, Run, Gets, Halted, Arithmetic, Relational, IndexOf, OperatorRule, Fold,
         IsBinaryOperator, Stand, Waiting, Bottomed, SetFlag;
    EndReduces(op.kind);
    var (s2, y) := Fold(ctx, sem, r);
    var end := k + |Yield(r)| - 1;
    var inner := SetFlag(st, flag) + [x, FromToken(op)];
    BinaryPasses(ctx, st, flag, x, op, y, end, EmptyToken(false), true, s2);
    var (s3, e) := if OperatorRule(op.kind) == ArithRule then Arithmetic(ctx, s2, x, op, y)
                   else Relational(ctx, s2, x, op, y);
    var reduced := PState(st + [e], end, EmptyToken(false), true, s3);
    var both := PState(inner + [y], end, EmptyToken(false), true, s2);
    GetsTrans(ctx, a, At(ctx, inner, k, multi, sem), both);
    GetsTrans(ctx, a, both, reduced);
  }

  lemma RightEndsLine(ctx: Ctx, pos: nat, t: Tree)
    requires t.Bin? && Stratified(t) && Before(ctx, pos, t)
    requires EndsInOperand(t) && StartsLine(ctx.toks[pos + |Yield(t)|])
    ensures var k := pos + |Yield(t.l)| + 1;
            && Before(ctx, k, t.r) && k + |Yield(t.r)| == pos + |Yield(t)|
            && EndsInOperand(t.r) && StartsLine(ctx.toks[k + |Yield(t.r)|])
            && Stratified(t.r) && Level(t.r) >= ContextMin(t.op.kind) && IsBinaryOperator(t.op.kind)
  {
    hide Level, Stand, StartsLine, IsBinaryOperator, OpLevel, ContextMin;
    BinNeeds(t);
    BinParts(ctx, pos, t);
  }

  lemma {:induction false} ParseLineBin(ctx: Ctx, st: Stack, pos: nat, multi: bool, sem: Sem, t: Tree)
    requires t.Bin? && Waiting(st) && Stratified(t) && Before(ctx, pos, t)
    requires EndsInOperand(t) && StartsLine(ctx.toks[pos + |Yield(t)|])
    requires Level(t) >= ContextMin(st[|st| - 1].tok.kind)
    ensures ParsesLine(ctx, st, pos, multi, sem, t)
    decreases t, 0
  {
    hide Fold, Cell, Prec, Yield, Pass, Run, Gets, Halted, Arithmetic, Relational, IndexOf, OperatorRule,
         IsBinaryOperator, IsOperandKind, IsRelational, Stand, Stratified, Level, OpLevel, ContextMin,
         Waiting, Bottomed, SetFlag, StartsLine, FollowMin;
    RightEndsLine(ctx, pos, t);
    FoldOfBin(ctx, sem, t);
    var flag := ParseLeft(ctx, st, pos, multi, sem, t);
    var (s1, x) := Fold(ctx, sem, t.l);
    var k := pos + |Yield(t.l)| + 1;
    var inner := SetFlag(st, flag) + [x, FromToken(t.op)];
    ParseLine(ctx, inner, k, multi, s1, t.r);
    LineBinEnds(ctx, At(ctx, st, pos, multi, sem), st, flag, x, t.op, k, multi, s1, t.r);
  }

  // ----- whole calls -----

  /** From a run to the call: the first token of a sentence is never the end. */
  lemma CallReturns(ctx: Ctx, pos: nat, sem: Sem, s: PState)
    requires pos + 1 < |ctx.toks| && IndexOf(ctx.toks[pos + 1].kind) != IDollar
    requires Gets(ctx, Start(ctx, pos, sem), s) && Halted(s)
    ensures Returns(ctx, pos, sem, Finish(ctx, s))
  {
    hide Pass, Finish;
    var s0 := Start(ctx, pos, sem);
    var n: nat :| Run(ctx, s0, n) == s;
    assert n > 0;
    PassKeepsBottom(ctx, s0);
    assert Loop(ctx, s0, n - 1) == s;
    assert ReturnsIn(ctx, pos, sem, Finish(ctx, s), n - 1);
  }

  /** The outcome the tree calls for: the cursor on the token after it, its actions done in post-order, its
      result checked against the assigned variable. */
  function TreeOutcome(ctx: Ctx, pos: nat, sem: Sem, t: Tree): Outcome
    requires Before(ctx, pos, t)
  {
    var (sem', e) := Fold(ctx, sem, t);
    var (sem'', e') := VerifyLhs(ctx, sem', e);
    var end := pos + |Yield(t)|;
    Outcome(end, ctx.toks[end], sem'', e')
  }

  lemma {:induction false} FirstToken(ctx: Ctx, pos: nat, t: Tree)
    requires Stratified(t) && Before(ctx, pos, t)
    ensures IndexOf(ctx.toks[pos].kind) == IOperand || ctx.toks[pos].kind == KLPar
    decreases t
  {
    hide IndexOf, IsOperandKind, IsBinaryOperator, Level, LeftMin, RightMin;
    match t
    case Leaf(tok) => KindIndex(tok.kind);
    case Bang(e, _) => BangParts(ctx, pos, t); FirstToken(ctx, pos, e);
    case Paren(lp, _, _) => ParenParts(ctx, pos, t);
    case Bin(l, _, _) => BinParts(ctx, pos, t); FirstToken(ctx, pos, l);
  }

  /** One symbol above the bottom, before the end: the loop stops and its symbol is read out. */
  lemma OneSymbolLeft(ctx: Ctx, e: Sym, pos: nat, cur: Token, multi: bool, sem: Sem)
    requires ctx.toks != [] && !e.terminal && IndexOf(cur.kind) == IDollar
    requires if multi then pos + 1 < |ctx.toks| else pos < |ctx.toks| && cur == ctx.toks[pos]
    ensures var s := PState([DOLLAR, e], pos, cur, multi, sem);
            var (sem', e') := VerifyLhs(ctx, sem, e);
            var end := if multi then pos + 1 else pos;
            Halted(s) && Bottomed(s) && Finish(ctx, s) == Outcome(end, ctx.toks[end], sem', e')
  {
    hide IndexOf, VerifyLhs;
    EndIndex();
    TopAt([DOLLAR], [e]);
    assert [DOLLAR] + [e] == [DOLLAR, e];
  }

  /** Before the first token: the stack holds its bottom symbol only, which waits. */
  lemma StartWaits(ctx: Ctx, pos: nat, sem: Sem, t: Tree)
    requires Stratified(t) && Before(ctx, pos + 1, t)
    ensures Waiting([DOLLAR]) && Level(t) >= ContextMin(DOLLAR.tok.kind)
    ensures IndexOf(ctx.toks[pos + 1].kind) != IDollar
    ensures Start(ctx, pos, sem) == At(ctx, [DOLLAR], pos + 1, false, sem)
    ensures Bottomed(Start(ctx, pos, sem))
  {
    hide IndexOf, Stratified, Level;
    FirstToken(ctx, pos + 1, t);
    KindIndex(KLPar);
    KindIndex(KUndefined);
    EndIndex();
  }

  /** Every sentence before an end marker is accepted: the call consumes exactly its tokens and does exactly
      the tree's actions, in post-order. */
  lemma SentenceReturns(ctx: Ctx, pos: nat, sem: Sem, t: Tree)
    requires Stratified(t) && Before(ctx, pos + 1, t)
    requires IndexOf(ctx.toks[pos + 1 + |Yield(t)|].kind) == IDollar
    ensures Returns(ctx, pos, sem, TreeOutcome(ctx, pos + 1, sem, t))
  {
    hide Pass, Run, Gets, Fold, VerifyLhs, Yield, IndexOf, IsBinaryOperator, Returns, Halted, Finish, Start, Stand,
         Waiting, Bottomed, Stratified, Level;
    var st := [DOLLAR];
    var end := pos + 1 + |Yield(t)|;
    StartWaits(ctx, pos, sem, t);
    ParseTreeAtStart(ctx, pos, sem, t);
    var (sem', e) := Fold(ctx, sem, t);
    assert st + [e] == [DOLLAR, e];
    OneSymbolLeft(ctx, e, end, ctx.toks[end], false, sem');
    CallReturns(ctx, pos, sem, At(ctx, st + [e], end, false, sem'));
  }

  lemma ParseTreeAtStart(ctx: Ctx, pos: nat, sem: Sem, t: Tree)
    requires Stratified(t) && Before(ctx, pos + 1, t) && Waiting([DOLLAR])
    requires IndexOf(ctx.toks[pos + 1 + |Yield(t)|].kind) == IDollar
    requires Level(t) >= ContextMin(DOLLAR.tok.kind)
    ensures Parses(ctx, [DOLLAR], pos + 1, false, sem, t)
  {
    hide Pass, Run, Gets, Fold, Yield, IndexOf, IsBinaryOperator, Stratified, Level;
    ParseTree(ctx, [DOLLAR], pos + 1, false, sem, t);
  }

  /** A sentence ending in an operand or `)` also ends before a token that starts a line with an operand or
      `(`: the outcome is the one an explicit end marker gives, the cursor on that token. */
  lemma LineReturns(ctx: Ctx, pos: nat, sem: Sem, t: Tree)
    requires Stratified(t) && Before(ctx, pos + 1, t)
    requires EndsInOperand(t) && StartsLine(ctx.toks[pos + 1 + |Yield(t)|])
    ensures Returns(ctx, pos, sem, TreeOutcome(ctx, pos + 1, sem, t))
  {
    hide Pass, Run, Gets, Fold, VerifyLhs, Yield, IndexOf, IsBinaryOperator, Returns, Halted, Finish, Start, Stand,
         Waiting, Bottomed, Stratified, Level;
    EndIndex();
    var st := [DOLLAR];
    StartWaits(ctx, pos, sem, t);
    ParseLine(ctx, st, pos + 1, false, sem, t);
    var (sem', e) := Fold(ctx, sem, t);
    assert st + [e] == [DOLLAR, e];
    OneSymbolLeft(ctx, e, pos + |Yield(t)|, EmptyToken(false), true, sem');
    CallReturns(ctx, pos, sem, PState(st + [e], pos + |Yield(t)|, EmptyToken(false), true, sem'));
  }
}
