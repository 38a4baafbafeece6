/** Whatever a call of the expression parser is given, the code it emits defines its labels once each, with ids it
    reserves, and jumps to no others. */
module ExprLabels {
  import opened Tokens
  import opened Machine
  import opened CodeGen
  import opened Semantics
  import opened Precedence
  import opened ExprParsing
  import opened Sentences
  import opened Labels
  import opened Grammar
  import opened Completeness
  import opened Unambiguity
  import Rules

  ghost predicate EmitsPart(a: Sem, b: Sem, part: Program) {
    b.code == a.code + part && Closed(part, a.condUid, b.condUid, 0, 0) && CallsNothing(part)
  }

  ghost predicate Emits(a: Sem, b: Sem) {
    exists part :: EmitsPart(a, b, part)
  }

  lemma EmitsNothing(a: Sem, b: Sem)
    requires b.code == a.code && b.condUid == a.condUid
    ensures Emits(a, b)
  {
    LabelFreeClosed([], a.condUid, 0);
    assert EmitsPart(a, b, []);
  }

  lemma EmitsFree(a: Sem, b: Sem, part: Program)
    requires b.code == a.code + part && b.condUid == a.condUid && LabelFree(part) && CallsNothing(part)
    ensures Emits(a, b)
  {
    LabelFreeClosed(part, a.condUid, 0);
    assert EmitsPart(a, b, part);
  }

  lemma EmitsTrans(a: Sem, b: Sem, c: Sem)
    requires Emits(a, b) && Emits(b, c)
    ensures Emits(a, c)
  {
    hide Closed;
    var p :| EmitsPart(a, b, p);
    var q :| EmitsPart(b, c, q);
    ClosedConcat(p, q, a.condUid, b.condUid, c.condUid, 0, 0, 0);
    assert a.code + p + q == a.code + (p + q);
    assert EmitsPart(a, c, p + q);
  }

  lemma HelpersFree()
    ensures LabelFree(Int2DoublesCode(0)) && LabelFree(Int2DoublesCode(1)) && LabelFree(ConcatCode)
    ensures CallsNothing(Int2DoublesCode(0)) && CallsNothing(Int2DoublesCode(1)) && CallsNothing(ConcatCode)
    ensures forall k, b :: LabelFree(OpCode(k, b)) && CallsNothing(OpCode(k, b))
    ensures forall id :: CallsNothing(NilCheckCode(id))
  {
    assert SaveCode(0) == [] && RestoreCode(0) == [];
  }

  lemma CountOfNilCheck(id: nat, l: Label)
    ensures Count(NilCheckCode(id), l) == if l == ElseL(id) || l == IfEndL(id) then 1 else 0
  {
    hide Count;
    var code := NilCheckCode(id);
    var a, b, c := code[..10], code[12..13], [PushVar(OP2)];
    LabelFreeCount(a, l);
    LabelFreeCount(b, l);
    LabelFreeCount(c, l);
    LabelFreeCount([PopFrame], l);
    CountsOfIf(id, l);
    assert code == a + (IfHead(id) + b + IfElse(id) + c + IfEnd(id)) + [PopFrame];
    CountFive(IfHead(id), b, IfElse(id), c, IfEnd(id), l);
    CountConcat(a, IfHead(id) + b + IfElse(id) + c + IfEnd(id), l);
    CountConcat(a + (IfHead(id) + b + IfElse(id) + c + IfEnd(id)), [PopFrame], l);
  }

  lemma NilCheckClosed(id: nat)
    ensures Closed(NilCheckCode(id), id, id + 1, 0, 0)
  {
    hide Count;
    var code := NilCheckCode(id);
    forall l
      ensures Count(code, l) <= 1 && (Count(code, l) > 0 ==> Reserves(l, id, id + 1, 0, 0))
    {
      CountOfNilCheck(id, l);
    }
    forall i, l | 0 <= i < |code| && Targets(code[i], l)
      ensures Count(code, l) == 1
    {
      CountOfNilCheck(id, l);
    }
  }

  // ----- actions -----

  lemma ConvertEmits(sem: Sem, c: Conversion)
    ensures Emits(sem, Convert(sem, c))
  {
    hide Emits, Int2DoublesCode;
    HelpersFree();
    match c
    case First => EmitsFree(sem, Convert(sem, c), Int2DoublesCode(1));
    case Second => EmitsFree(sem, Convert(sem, c), Int2DoublesCode(0));
    case _ => EmitsNothing(sem, Convert(sem, c));
  }

  lemma OperandEmits(ctx: Ctx, sem: Sem, operand: Sym)
    ensures Emits(sem, Operand(ctx, sem, operand).0)
  {
    hide Emits, Resolve, GenVar;
    var s := Operand(ctx, sem, operand).0;
    if operand.terminal {
      EmitsFree(sem, s, PushCode(ctx.scopes, ctx.globals, operand.tok));
    } else {
      EmitsNothing(sem, s);
    }
  }

  lemma DivisionEmits(ctx: Ctx, sem: Sem, a: Sym, b: Sym)
    ensures Emits(sem, Division(ctx, sem, a, b).0)
  {
    hide Emits, OpCode, ReadsZero;
    HelpersFree();
    var s := Division(ctx, sem, a, b).0;
    if s.code == sem.code {
      EmitsNothing(sem, s);
    } else {
      EmitsFree(sem, s, OpCode(KDiv, a.ty == Integer));
    }
  }

  lemma ConcatenationEmits(sem: Sem, a: Sym, op: Token, b: Sym)
    ensures Emits(sem, Concatenation(sem, a, op, b).0)
  {
    hide Emits, ConcatCode;
    HelpersFree();
    var s := Concatenation(sem, a, op, b).0;
    if s.code == sem.code {
      EmitsNothing(sem, s);
    } else {
      EmitsFree(sem, s, ConcatCode);
    }
  }

  lemma ArithmeticEmits(ctx: Ctx, sem: Sem, a: Sym, op: Token, b: Sym)
    ensures Emits(sem, Arithmetic(ctx, sem, a, op, b).0)
  {
    hide Emits, Convert, ArithConversion, Division, Concatenation, OpCode;
    HelpersFree();
    var c := ArithConversion(a, b);
    var s, a', b' := Convert(sem, c), ConvertFirst(a, c), ConvertSecond(b, c);
    var s' := Arithmetic(ctx, sem, a, op, b).0;
    ConvertEmits(sem, c);
    DivisionEmits(ctx, s, a', b');
    ConcatenationEmits(s, a, op, b);
    if s' != Division(ctx, s, a', b').0 && s' != Concatenation(s, a, op, b).0 {
      if s'.code == s.code {
        EmitsNothing(s, s');
      } else {
        EmitsFree(s, s', OpCode(op.kind, Arithmetic(ctx, sem, a, op, b).1.ty == Integer));
      }
    }
    EmitsTrans(sem, s, s');
  }

  lemma CoalesceEmits(sem: Sem, a: Sym, b: Sym)
    ensures Emits(sem, Coalesce(sem, a, b).0)
  {
    hide Emits, Convert, CoalesceConversion, NilCheckCode, Closed;
    var s, s' := Convert(sem, CoalesceConversion(a, b)), Coalesce(sem, a, b).0;
    ConvertEmits(sem, CoalesceConversion(a, b));
    if s'.condUid == s.condUid {
      EmitsNothing(s, s');
    } else {
      NilCheckClosed(s.condUid);
      HelpersFree();
      EmitsOwn(s, s', NilCheckCode(s.condUid));
    }
    EmitsTrans(sem, s, s');
  }

  lemma EmitsOwn(a: Sem, b: Sem, part: Program)
    requires EmitsPart(a, b, part)
    ensures Emits(a, b)
  {
  }

  lemma RelationalEmits(ctx: Ctx, sem: Sem, a: Sym, op: Token, b: Sym)
    ensures Emits(sem, Relational(ctx, sem, a, op, b).0)
  {
    hide Emits, Convert, RelConversion, Coalesce, OpCode;
    HelpersFree();
    var s, s' := Convert(sem, RelConversion(a, b)), Relational(ctx, sem, a, op, b).0;
    ConvertEmits(sem, RelConversion(a, b));
    CoalesceEmits(sem, a, b);
    if op.kind != KNilCheck {
      if s' == sem.Fail(ERR_INCOMPATIBLE_TYPE) {
        EmitsNothing(sem, s');
      } else if s' == sem.Emit(OpCode(op.kind, false)) {
        EmitsFree(sem, s', OpCode(op.kind, false));
      } else {
        EmitsFree(s, s', OpCode(op.kind, false));
        EmitsTrans(sem, s, s');
      }
    }
  }

  lemma ActEmits(ctx: Ctx, sem: Sem, h: Stack)
    requires GetRule(h) != NoRule
    ensures Emits(sem, Act(ctx, sem, GetRule(h), h).0)
  {
    hide Emits, Operand, Arithmetic, Relational;
    match GetRule(h)
    case OperandRule => OperandEmits(ctx, sem, h[0]);
    case UnwrapRule => EmitsNothing(sem, Unwrap(ctx, sem, h[0]).0);
    case ArithRule => ArithmeticEmits(ctx, sem, h[0], h[1].tok, h[2]);
    case RelRule => RelationalEmits(ctx, sem, h[0], h[1].tok, h[2]);
    case ParenRule => EmitsNothing(sem, sem);
  }

  lemma PassEmits(ctx: Ctx, s: PState)
    requires ctx.toks != [] && s.stack != []
    ensures Emits(s.sem, Pass(ctx, s).sem)
  {
    hide Emits, Act, GetRule, HasEol, AboveEol, Choose, Diagnosed, ErrorSym, Handle;
    var h := Handle(s.stack);
    if Choose(s) == R && GetRule(h) != NoRule {
      ActEmits(ctx, s.sem, h);
    } else {
      EmitsNothing(s.sem, Pass(ctx, s).sem);
    }
  }

  lemma {:induction false} RunEmits(ctx: Ctx, s: PState, n: nat)
    requires ctx.toks != [] && Bottomed(s)
    ensures Emits(s.sem, Run(ctx, s, n).sem)
    decreases n
  {
    hide Emits, Pass;
    if n == 0 || Halted(s) {
      EmitsNothing(s.sem, s.sem);
    } else {
      PassKeepsBottom(ctx, s);
      PassEmits(ctx, s);
      RunEmits(ctx, Pass(ctx, s), n - 1);
      EmitsTrans(s.sem, Pass(ctx, s).sem, Run(ctx, s, n).sem);
    }
  }

  lemma FinishEmits(ctx: Ctx, s: PState)
    requires ctx.toks != [] && s.stack != []
    ensures Emits(s.sem, Finish(ctx, s).sem)
  {
    hide Emits, Int2DoublesCode;
    HelpersFree();
    var s' := Finish(ctx, s).sem;
    if s'.code == s.sem.code {
      EmitsNothing(s.sem, s');
    } else {
      EmitsFree(s.sem, s', Int2DoublesCode(0));
    }
  }

  /** Every call that returns, with or without an error, on any token list. */
  lemma ReturnsEmits(ctx: Ctx, pos: nat, sem: Sem, out: Outcome)
    requires ctx.toks != [] && Returns(ctx, pos, sem, out)
    ensures Emits(sem, out.sem)
  {
    hide Emits, Pass, Run, Finish, Halted;
    var n: nat :| ReturnsIn(ctx, pos, sem, out, n);
    var s0 := Start(ctx, pos, sem);
    PassKeepsBottom(ctx, s0);
    PassEmits(ctx, s0);
    RunEmits(ctx, Pass(ctx, s0), n);
    var s := Loop(ctx, s0, n);
    FinishEmits(ctx, s);
    EmitsTrans(s0.sem, Pass(ctx, s0).sem, s.sem);
    EmitsTrans(s0.sem, s.sem, out.sem);
  }

  /** A call that reads a sentence, ended by a terminator or by a line, is what the statement parser expects of the
      expression parser: the cursor goes forward over no function keyword, and the code keeps to its labels. */
  lemma SentenceIsGood(ctx: Ctx, pos: nat, sem: Sem, t: Tree, out: Outcome) returns (part: Program)
    requires Stratified(t) && Before(ctx, pos + 1, t) && out == TreeOutcome(ctx, pos + 1, sem, t)
    requires Returns(ctx, pos, sem, out)
    ensures out.sem.code == sem.code + part
    ensures Rules.GoodExpr(ctx.toks, pos, sem.condUid, out.pos, part, out.sem.condUid)
  {
    hide Returns, Fold, Stratified, Closed, VerifyLhs, IndexOf;
    ReturnsEmits(ctx, pos, sem, out);
    part :| EmitsPart(sem, out.sem, part);
    forall k | pos + 1 <= k < out.pos
      ensures ctx.toks[k].kind != KFunc
    {
      var y := Yield(t);
      assert ctx.toks[k] == ctx.toks[pos + 1..pos + 1 + |y|][k - pos - 1] == y[k - pos - 1];
      NoEndInside(t, k - pos - 1);
      FuncEnds();
    }
  }

  lemma FuncEnds()
    ensures IndexOf(KFunc) == IDollar
  {
  }
}
