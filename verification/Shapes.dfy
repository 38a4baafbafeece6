/** Where a call of the expression parser ends depends on the tokens alone: symbol tables, types and unset values
    decide which errors it reports and what it emits, never what it shifts, reduces or reads. */
module Shapes {
  import opened Tokens
  import opened Semantics
  import opened Precedence
  import opened ExprParsing
  import opened Sentences
  import opened Completeness

  /** Symbols that the table and the rules cannot tell apart. */
  predicate Alike(a: Sym, b: Sym) {
    a.tok == b.tok && a.terminal == b.terminal && a.handle == b.handle
  }

  predicate AlikeStacks(a: Stack, b: Stack) {
    |a| == |b| && forall i :: 0 <= i < |a| ==> Alike(a[i], b[i])
  }

  predicate AlikeStates(s: PState, t: PState) {
    AlikeStacks(s.stack, t.stack) && s.pos == t.pos && s.cur == t.cur && s.multi == t.multi
  }

  lemma {:induction false} AlikeTop(a: Stack, b: Stack)
    requires AlikeStacks(a, b)
    ensures TopTerminal(a) == TopTerminal(b)
  {
    if a != [] && !a[|a| - 1].terminal {
      AlikeTop(a[..|a| - 1], b[..|b| - 1]);
    }
  }

  lemma AlikeChoice(s: PState, t: PState)
    requires AlikeStates(s, t)
    ensures Choose(s) == Choose(t) && (Halted(s) <==> Halted(t))
  {
    AlikeTop(s.stack, t.stack);
  }

  lemma AlikeFlagged(a: Stack, b: Stack)
    requires AlikeStacks(a, b)
    ensures AlikeStacks(Flagged(a), Flagged(b))
  {
    AlikeTop(a, b);
  }

  lemma AlikeSnoc(a: Stack, b: Stack, x: Sym, y: Sym)
    requires AlikeStacks(a, b) && Alike(x, y)
    ensures AlikeStacks(a + [x], b + [y])
  {
  }

  lemma AlikeHandles(a: Stack, b: Stack)
    requires AlikeStacks(a, b) && a != []
    ensures AlikeStacks(Handle(a), Handle(b)) && AlikeStacks(Below(a), Below(b))
    ensures GetRule(Handle(a)) == GetRule(Handle(b)) && (Diagnosed(Handle(a)) <==> Diagnosed(Handle(b)))
    ensures ErrorKind(Handle(a)) == ErrorKind(Handle(b))
  {
    hide IsOperandKind, IsBinaryOperator, OperatorRule;
    var n := |a|;
    assert Alike(a[n - 1], b[n - 1]);
    assert n >= 2 ==> Alike(a[n - 2], b[n - 2]);
    assert n >= 3 ==> Alike(a[n - 3], b[n - 3]);
    assert HandleLen(a) == HandleLen(b);
  }

  lemma AlikeActs(ctx: Ctx, ctx': Ctx, sem: Sem, sem': Sem, rule: Rule, h: Stack, h': Stack)
    requires rule != NoRule && rule == GetRule(h) == GetRule(h') && AlikeStacks(h, h')
    ensures Alike(Act(ctx, sem, rule, h).1, Act(ctx', sem', rule, h').1)
  {
    assert h != [] ==> Alike(h[0], h'[0]);
    assert |h| >= 2 ==> Alike(h[1], h'[1]);
    match rule
    case OperandRule => hide Identifier;
    case UnwrapRule => hide Unwrap;
    case ArithRule => hide Arithmetic;
    case RelRule => hide Relational;
    case ParenRule =>
  }

  lemma AlikeEols(a: Stack, b: Stack)
    requires AlikeStacks(a, b)
    ensures (HasEol(a) <==> HasEol(b)) && AboveEol(a) == AboveEol(b)
  {
    assert forall i :: 0 <= i < |a| ==> a[i].tok.eol == b[i].tok.eol;
    AlikeAbove(a, b);
  }

  lemma {:induction false} AlikeAbove(a: Stack, b: Stack)
    requires AlikeStacks(a, b)
    ensures AboveEol(a) == AboveEol(b)
  {
    if a != [] && !a[|a| - 1].tok.eol {
      assert Alike(a[|a| - 1], b[|b| - 1]);
      AlikeAbove(a[..|a| - 1], b[..|b| - 1]);
    } else if a != [] {
      assert Alike(a[|a| - 1], b[|b| - 1]);
    }
  }

  lemma AlikeReduces(ctx: Ctx, ctx': Ctx, s: PState, t: PState)
    requires AlikeStates(s, t) && s.stack != []
    ensures AlikeStates(Precedence.Reduce(ctx, s), Precedence.Reduce(ctx', t))
  {
    hide Handle, Below, GetRule, Act, Diagnosed, ErrorKind, HasEol, AboveEol;
    AlikeHandles(s.stack, t.stack);
    var h, h' := Handle(s.stack), Handle(t.stack);
    AlikeEols(Below(s.stack), Below(t.stack));
    if GetRule(h) != NoRule {
      AlikeActs(ctx, ctx', s.sem, t.sem, GetRule(h), h, h');
    }
  }

  lemma AlikeConflicts(ctx: Ctx, ctx': Ctx, s: PState, t: PState)
    requires AlikeStates(s, t) && ctx.toks == ctx'.toks != []
    ensures AlikeStates(Conflict(ctx, s), Conflict(ctx', t))
  {
    hide Handle, Below, GetRule, Diagnosed, ErrorKind, HasEol, AboveEol;
    var a, b := s.stack + [FromToken(s.cur)], t.stack + [FromToken(t.cur)];
    AlikeSnoc(s.stack, t.stack, FromToken(s.cur), FromToken(t.cur));
    AlikeHandles(a, b);
    AlikeEols(a, b);
  }

  lemma AlikePasses(ctx: Ctx, ctx': Ctx, s: PState, t: PState)
    requires AlikeStates(s, t) && s.stack != [] && ctx.toks == ctx'.toks != []
    ensures AlikeStates(Pass(ctx, s), Pass(ctx', t))
  {
    hide Choose, Flagged, Conflict, Precedence.Reduce;
    AlikeChoice(s, t);
    match Choose(s)
    case E =>
    case S => AlikeFlagged(s.stack, t.stack);
    case R => AlikeReduces(ctx, ctx', s, t);
    case X => AlikeConflicts(ctx, ctx', s, t);
  }

  lemma {:induction false} AlikeRuns(ctx: Ctx, ctx': Ctx, s: PState, t: PState, n: nat)
    requires AlikeStates(s, t) && ctx.toks == ctx'.toks != [] && Bottomed(s) && Bottomed(t)
    ensures AlikeStates(Run(ctx, s, n), Run(ctx', t, n))
    decreases n
  {
    hide Pass, Halted, AlikeStates;
    AlikeChoice(s, t);
    if n > 0 && !Halted(s) {
      assert s.stack != [];
      AlikePasses(ctx, ctx', s, t);
      PassKeepsBottom(ctx, s);
      PassKeepsBottom(ctx', t);
      AlikeRuns(ctx, ctx', Pass(ctx, s), Pass(ctx', t), n - 1);
    }
  }

  // ----- the cursor -----

  /** The current token is the one at the cursor, unless the parser has made up the end of a line. */
  predicate OnCursor(ctx: Ctx, s: PState) {
    s.pos < |ctx.toks| && (s.multi || s.cur == ctx.toks[s.pos])
  }

  lemma PassOnCursor(ctx: Ctx, s: PState)
    requires s.stack != [] && OnCursor(ctx, s)
    ensures OnCursor(ctx, Pass(ctx, s))
  {
    hide Act, GetRule, Handle, Below, HasEol, AboveEol, ReduceError, Choose;
  }

  lemma {:induction false} RunOnCursor(ctx: Ctx, s: PState, n: nat)
    requires ctx.toks != [] && OnCursor(ctx, s) && Bottomed(s)
    ensures OnCursor(ctx, Run(ctx, s, n))
    decreases n
  {
    hide Pass, Halted, OnCursor;
    if n > 0 && !Halted(s) {
      PassOnCursor(ctx, s);
      PassKeepsBottom(ctx, s);
      RunOnCursor(ctx, Pass(ctx, s), n - 1);
    }
  }

  /** Whatever it has read, a call leaves the cursor in the buffer and the current token under it. */
  lemma ReturnsOnCursor(ctx: Ctx, pos: nat, sem: Sem, out: Outcome)
    requires pos < |ctx.toks| && Returns(ctx, pos, sem, out)
    ensures out.pos < |ctx.toks| && out.cur == ctx.toks[out.pos]
  {
    hide Pass, Halted, VerifyLhs;
    var n: nat :| ReturnsIn(ctx, pos, sem, out, n);
    var s := Start(ctx, pos, sem);
    PassOnCursor(ctx, s);
    PassKeepsBottom(ctx, s);
    RunOnCursor(ctx, Pass(ctx, s), n);
  }

  // ----- the end of a call -----

  lemma LoopStays(ctx: Ctx, s: PState, n: nat, k: nat)
    requires ctx.toks != [] && Bottomed(s) && Halted(Loop(ctx, s, n))
    ensures Loop(ctx, s, n + k) == Loop(ctx, s, n)
  {
    hide Pass, Halted;
    PassKeepsBottom(ctx, s);
    RunStays(ctx, Pass(ctx, s), n, k);
  }

  /** Two calls on the same tokens from the same place end at the same place. */
  lemma EndUnique(ctx: Ctx, ctx': Ctx, pos: nat, sem: Sem, sem': Sem, out: Outcome, out': Outcome)
    requires ctx.toks == ctx'.toks != [] && Returns(ctx, pos, sem, out) && Returns(ctx', pos, sem', out')
    ensures out.pos == out'.pos
  {
    hide Pass, Halted, Loop, VerifyLhs, Run;
    var n: nat :| ReturnsIn(ctx, pos, sem, out, n);
    var k: nat :| ReturnsIn(ctx', pos, sem', out', k);
    var s, t := Start(ctx, pos, sem), Start(ctx', pos, sem');
    LoopStays(ctx, s, n, k);
    LoopStays(ctx', t, k, n);
    AlikeLoops(ctx, ctx', s, t, n + k);
  }

  lemma AlikeLoops(ctx: Ctx, ctx': Ctx, s: PState, t: PState, n: nat)
    requires AlikeStates(s, t) && ctx.toks == ctx'.toks != [] && Bottomed(s) && Bottomed(t)
    ensures AlikeStates(Loop(ctx, s, n), Loop(ctx', t, n))
  {
    hide Pass, AlikeStates, Run;
    assert s.stack != [];
    AlikePasses(ctx, ctx', s, t);
    PassKeepsBottom(ctx, s);
    PassKeepsBottom(ctx', t);
    AlikeRuns(ctx, ctx', Pass(ctx, s), Pass(ctx', t), n);
  }

  /** Whether a call returns at all is also decided by the tokens. */
  lemma ReturnsAlike(ctx: Ctx, ctx': Ctx, pos: nat, sem: Sem, sem': Sem, out: Outcome) returns (out': Outcome)
    requires ctx.toks == ctx'.toks != [] && Returns(ctx, pos, sem, out)
    ensures Returns(ctx', pos, sem', out')
  {
    hide Pass, Halted, Loop, VerifyLhs, Run;
    var n: nat :| ReturnsIn(ctx, pos, sem, out, n);
    var s, t := Start(ctx, pos, sem), Start(ctx', pos, sem');
    AlikeLoops(ctx, ctx', s, t, n);
    AlikeChoice(Loop(ctx, s, n), Loop(ctx', t, n));
    out' := Finish(ctx', Loop(ctx', t, n));
    assert ReturnsIn(ctx', pos, sem', out', n);
  }
}
