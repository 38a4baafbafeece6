/** When the result of an expression can have the type of functions: only if a variable that may be read has it. */
module FunctionTypes {
  import opened Tokens
  import opened Scopes
  import opened Semantics
  import opened Precedence
  import opened ExprParsing
  import opened Sentences
  import opened Soundness

  /** No variable that an expression may read has the type of functions. */
  ghost predicate NoneReadable(ctx: Ctx) {
    forall id :: Resolve(ctx, id).Some? && Resolve(ctx, id).value.init ==> Resolve(ctx, id).value.ty != Function
  }

  predicate Ordinary(st: Stack) {
    forall i :: 0 <= i < |st| ==> st[i].ty != Function
  }

  predicate OrdinaryState(s: PState) {
    s.sem.err == NO_ERR ==> Ordinary(s.stack)
  }

  lemma OperandOrdinary(ctx: Ctx, sem: Sem, operand: Sym)
    requires NoneReadable(ctx) && operand.ty != Function
    ensures var (s, e) := Operand(ctx, sem, operand); s.err == NO_ERR ==> e.ty != Function
  {
    if operand.terminal && operand.tok.kind == KIdentifier {
      var item := Resolve(ctx, Text(operand.tok));
      assert item.Some? && item.value.init ==> item.value.ty != Function;
    }
  }

  lemma RelationalOrdinary(ctx: Ctx, sem: Sem, a: Sym, op: Token, b: Sym)
    requires a.ty != Function && b.ty != Function
    ensures Relational(ctx, sem, a, op, b).1.ty != Function
  {
  }

  lemma ArithmeticOrdinary(ctx: Ctx, sem: Sem, a: Sym, op: Token, b: Sym)
    ensures Arithmetic(ctx, sem, a, op, b).1.ty != Function
  {
  }

  lemma ActOrdinary(ctx: Ctx, sem: Sem, rule: Rule, h: Stack)
    requires NoneReadable(ctx) && rule != NoRule && rule == GetRule(h) && Ordinary(h)
    ensures var (s, e) := Act(ctx, sem, rule, h); s.err == NO_ERR ==> e.ty != Function
  {
    hide NoneReadable, Operand, Arithmetic, Relational;
    match rule
    case OperandRule => OperandOrdinary(ctx, sem, h[0]);
    case UnwrapRule =>
    case ArithRule => ArithmeticOrdinary(ctx, sem, h[0], h[1].tok, h[2]);
    case RelRule => RelationalOrdinary(ctx, sem, h[0], h[1].tok, h[2]);
    case ParenRule =>
  }

  lemma PartsOrdinary(st: Stack)
    requires Ordinary(st) && st != []
    ensures Ordinary(Handle(st)) && Ordinary(Below(st)) && Ordinary(Flagged(st))
  {
  }

  lemma ReduceOrdinary(ctx: Ctx, s: PState)
    requires NoneReadable(ctx) && s.stack != [] && Ordinary(s.stack)
    ensures OrdinaryState(Precedence.Reduce(ctx, s))
  {
    hide NoneReadable, Handle, Below, GetRule, Act, HasEol, AboveEol, Diagnosed, ErrorKind;
    PartsOrdinary(s.stack);
    var h := Handle(s.stack);
    if GetRule(h) != NoRule {
      ActOrdinary(ctx, s.sem, GetRule(h), h);
    }
  }

  lemma ConflictOrdinary(ctx: Ctx, s: PState)
    requires ctx.toks != [] && Ordinary(s.stack)
    ensures OrdinaryState(Conflict(ctx, s))
  {
    hide Handle, Below, HasEol, AboveEol, Diagnosed, ErrorKind;
    PartsOrdinary(s.stack + [FromToken(s.cur)]);
  }

  lemma PassOrdinary(ctx: Ctx, s: PState)
    requires NoneReadable(ctx) && ctx.toks != [] && s.stack != [] && OrdinaryState(s) && s.sem.err == NO_ERR
    ensures OrdinaryState(Pass(ctx, s))
  {
    hide NoneReadable, Conflict, Precedence.Reduce, Choose, Flagged;
    PartsOrdinary(s.stack);
    match Choose(s)
    case R => ReduceOrdinary(ctx, s);
    case X => ConflictOrdinary(ctx, s);
    case _ =>
  }

  lemma {:induction false} RunOrdinary(ctx: Ctx, s: PState, n: nat)
    requires NoneReadable(ctx) && ctx.toks != [] && Bottomed(s) && OrdinaryState(s)
    requires Run(ctx, s, n).sem.err == NO_ERR
    ensures s.sem.err == NO_ERR && OrdinaryState(Run(ctx, s, n))
    decreases n
  {
    hide NoneReadable, Pass, Halted, OrdinaryState;
    if s.sem.err != NO_ERR {
      RunKeepsError(ctx, s, n);
    } else if n > 0 && !Halted(s) {
      PassOrdinary(ctx, s);
      PassKeepsBottom(ctx, s);
      RunOrdinary(ctx, Pass(ctx, s), n - 1);
    }
  }

  /** Every call without an error, whatever its tokens, has an ordinary result. */
  lemma ResultOrdinary(ctx: Ctx, pos: nat, sem: Sem, out: Outcome)
    requires NoneReadable(ctx) && ctx.toks != [] && Returns(ctx, pos, sem, out) && out.sem.err == NO_ERR
    ensures out.result.ty != Function
  {
    hide NoneReadable, Pass, Halted;
    var n: nat :| ReturnsIn(ctx, pos, sem, out, n);
    var s0 := Start(ctx, pos, sem);
    var s := Loop(ctx, s0, n);
    FinishKeepsError(ctx, s);
    PassKeepsBottom(ctx, s0);
    if s0.sem.err != NO_ERR {
      PassKeepsError(ctx, s0);
    }
    if Pass(ctx, s0).sem.err != NO_ERR {
      RunKeepsError(ctx, Pass(ctx, s0), n);
    }
    assert Ordinary(s0.stack);
    PassOrdinary(ctx, s0);
    RunOrdinary(ctx, Pass(ctx, s0), n);
    assert OrdinaryState(s) && s.sem.err == NO_ERR;
  }
}
