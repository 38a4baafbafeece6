/** What follows an unwrapped operand that is not yet part of an operation: a parenthesised expression or an operand
    is shifted onto it. */
module Unwrapped {
  import opened Tokens
  import opened Semantics
  import opened Precedence
  import opened ExprParsing
  import opened Grammar
  import opened Completeness

  /** The stack `st` under `x`, with more to come. */
  function Above(st: Stack, x: Sym): Stack {
    SetFlag(st, true) + [x]
  }

  lemma WaitsAfterOpening(st: Stack, x: Sym, lp: Token)
    requires Waiting(st) && lp.kind == KLPar
    ensures Waiting(Above(st, x) + [FromToken(lp)])
  {
  }

  /** What may stand under an operand takes an operand or a parenthesis. */
  lemma OpensShift(top: Kind, k: Kind)
    requires Opens(top) && (IndexOf(k) == IOperand || k == KLPar)
    ensures Prec(top, k) == S && IndexOf(k) != IDollar
  {
  }

  lemma ShiftsAbove(ctx: Ctx, st: Stack, x: Sym, k: nat, multi: bool, sem: Sem)
    requires Waiting(st) && k + 1 < |ctx.toks| && !x.terminal && !x.handle
    requires IndexOf(ctx.toks[k].kind) == IOperand || ctx.toks[k].kind == KLPar
    ensures Gets(ctx, At(ctx, st + [x], k, multi, sem),
                 At(ctx, Above(st, x) + [FromToken(ctx.toks[k])], k + 1, multi, sem))
  {
    hide Run, Gets, IndexOf, Cell, Opens;
    OpensShift(st[|st| - 1].tok.kind, ctx.toks[k].kind);
    PassShifts(ctx, st, [x], k, multi, sem);
  }

  lemma CloseAbove(ctx: Ctx, st: Stack, x: Sym, lp: Token, y: Sym, m: nat, multi: bool, sem: Sem)
    requires Waiting(st) && m + 1 < |ctx.toks| && ctx.toks[m].kind == KRPar && lp.kind == KLPar
    requires !x.terminal && !x.handle && !y.terminal && !y.handle && Prec(KRPar, ctx.toks[m + 1].kind) == R
    ensures Gets(ctx, At(ctx, Above(st, x) + [FromToken(lp)] + [y], m, multi, sem),
                 At(ctx, Above(st, x) + [Parenthesis(y)], m + 1, multi, sem))
  {
    hide Run, Gets, IndexOf, IsBinaryOperator, Cell;
    ClosingShifts();
    WaitsAfterOpening(st, x, lp);
    var inner := Above(st, x) + [FromToken(lp)];
    PassEqualShifts(ctx, inner, [y], m, multi, sem);
    var h := [FromToken(lp), y, FromToken(ctx.toks[m])];
    assert inner + [y] + [FromToken(ctx.toks[m])] == Above(st, x) + h;
    ReducesAbove(ctx, st, x, h, m + 1, multi, sem);
    GetsTrans(ctx, At(ctx, inner + [y], m, multi, sem), At(ctx, Above(st, x) + h, m + 1, multi, sem),
              At(ctx, Above(st, x) + [Parenthesis(y)], m + 1, multi, sem));
  }

  lemma ClosingShifts()
    ensures Prec(KLPar, KRPar) == E && IndexOf(KRPar) == IRPar && IndexOf(KLPar) == ILPar
  {
  }

  lemma ReducesAbove(ctx: Ctx, st: Stack, x: Sym, h: Stack, k: nat, multi: bool, sem: Sem)
    requires Waiting(st) && k < |ctx.toks| && !x.terminal && !x.handle && |h| == 3
    requires h[0].tok.kind == KLPar && h[0].terminal && h[2].tok.kind == KRPar && h[2].terminal
    requires forall i :: 0 <= i < 3 ==> !h[i].handle
    requires Prec(KRPar, ctx.toks[k].kind) == R
    ensures Gets(ctx, At(ctx, Above(st, x) + h, k, multi, sem),
                 At(ctx, Above(st, x) + [Parenthesis(h[1])], k, multi, sem))
  {
    hide IndexOf, IsOperandKind, IsRelational, OperatorRule, Run, Act, Cell;
    ClosingShifts();
    var below := Above(st, x);
    var a := At(ctx, below + h, k, multi, sem);
    TopOver(below, h);
    assert Handle(below + h) == h;
    assert Below(below + h) == below;
    assert GetRule(h) == ParenRule;
    PassReducesTo(ctx, a, h, below);
    ActOfParen(ctx, sem, h);
    GetsPass(ctx, a, At(ctx, below + [Parenthesis(h[1])], k, multi, sem));
  }

  lemma ActOfParen(ctx: Ctx, sem: Sem, h: Stack)
    requires GetRule(h) == ParenRule
    ensures Act(ctx, sem, ParenRule, h) == (sem, Parenthesis(h[1]))
  {
    hide GetRule, Operand, Unwrap, Arithmetic, Relational;
  }

  lemma InsideAbove(ctx: Ctx, st: Stack, x: Sym, k: nat, multi: bool, sem: Sem, p: Tree)
    requires Waiting(st) && p.Paren? && Stratified(p) && Before(ctx, k, p) && !x.terminal && !x.handle
    ensures var (s1, y) := Fold(ctx, sem, p.e);
            Gets(ctx, At(ctx, st + [x], k, multi, sem),
                 At(ctx, Above(st, x) + [FromToken(p.lp)] + [y], k + 1 + |Yield(p.e)|, multi, s1))
  {
    hide Fold, Yield, FollowMin, ContextMin, Pass, Run, Gets, IndexOf, IsBinaryOperator, OperatorRule, Stand, Level,
         Stratified, Waiting, Above;
    ParenNeeds(p);
    ParenMins();
    ParenParts(ctx, k, p);
    ShiftsAbove(ctx, st, x, k, multi, sem);
    WaitsAfterOpening(st, x, p.lp);
    var inner := Above(st, x) + [FromToken(p.lp)];
    TopOfSnoc(Above(st, x), FromToken(p.lp));
    assert Ends(ctx, k + 1, p.e);
    ParseTree(ctx, inner, k + 1, multi, sem, p.e);
    var (s1, y) := Fold(ctx, sem, p.e);
    GetsTrans(ctx, At(ctx, st + [x], k, multi, sem), At(ctx, inner, k + 1, multi, sem),
              At(ctx, inner + [y], k + 1 + |Yield(p.e)|, multi, s1));
  }

  lemma TopOfSnoc(st: Stack, x: Sym)
    ensures (st + [x])[|st + [x]| - 1] == x
  {
  }

  /** A parenthesised expression is parsed above the unwrapped operand `x`, not with it. */
  lemma ParenAbove(ctx: Ctx, st: Stack, x: Sym, k: nat, multi: bool, sem: Sem, p: Tree)
    requires Waiting(st) && p.Paren? && Stratified(p) && Before(ctx, k, p) && !x.terminal && !x.handle
    requires Prec(KRPar, ctx.toks[k + |Yield(p)|].kind) == R
    ensures var (s', e) := Fold(ctx, sem, p);
            Gets(ctx, At(ctx, st + [x], k, multi, sem),
                 At(ctx, Above(st, x) + [e], k + |Yield(p)|, multi, s'))
  {
    hide Fold, Yield, FollowMin, ContextMin, Pass, Run, Gets, IndexOf, IsBinaryOperator, OperatorRule, Stand, Level,
         Stratified, Waiting, Above, Cell;
    ParenNeeds(p);
    ParenParts(ctx, k, p);
    InsideAbove(ctx, st, x, k, multi, sem, p);
    FoldOfParen(ctx, sem, p);
    var (s1, y) := Fold(ctx, sem, p.e);
    var m := k + 1 + |Yield(p.e)|;
    CloseAbove(ctx, st, x, p.lp, y, m, multi, s1);
    GetsTrans(ctx, At(ctx, st + [x], k, multi, sem), At(ctx, Above(st, x) + [FromToken(p.lp)] + [y], m, multi, s1),
              At(ctx, Above(st, x) + [Parenthesis(y)], m + 1, multi, s1));
  }

  // ----- what two symbols above an operator come to -----

  /** Neither an unwrapped operand and what follows it, nor a token read as an end marker after it, make a handle that
      fits a rule. */
  lemma TwoAbove(st: Stack, x: Sym, y: Sym)
    requires st != [] && !x.handle && !y.handle
    ensures Handle(Above(st, x) + [y]) == [x, y] && Below(Above(st, x) + [y]) == SetFlag(st, false)
  {
    var all := Above(st, x) + [y];
    assert HandleLen(all) == 2;
    assert all[|st| - 1].(handle := false) == st[|st| - 1].(handle := false);
    assert all[..|st| - 1] == st[..|st| - 1];
  }

  lemma {:induction false} TopmostEol(st: Stack, k: nat)
    requires k < |st| && st[|st| - 1 - k].tok.eol && forall j :: |st| - k <= j < |st| ==> !st[j].tok.eol
    ensures HasEol(st) && AboveEol(st) == k
    decreases k
  {
    assert st[|st| - 1 - k].tok.eol;
    if k > 0 {
      TopmostEol(st[..|st| - 1], k - 1);
    }
  }
}
