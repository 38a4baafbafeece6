/** What a call of the expression parser may do to the cursor.  With a name and a parenthesis after the first `func`
    ahead, as the first pass makes sure, no pass of a call that reports no error steps over that keyword; only leaving
    the loop can, when a line start was the end. */
module Straying {
  import opened Tokens
  import opened Semantics
  import opened Precedence
  import opened ExprParsing
  import opened Sentences
  import opened Grammar
  import opened Completeness
  import opened Termination
  import opened Soundness
  import opened Headers
  import ExprLabels
  import Labels
  import Machine
  import Rules

  /** A name and an opening parenthesis follow the function keyword at `i`. */
  predicate Named(toks: seq<Token>, i: nat) {
    i + 2 < |toks| && toks[i + 1].kind == KIdentifier && toks[i + 2].kind == KLPar
  }

  /** They follow the first function keyword from `start` on. */
  predicate NextFuncNamed(toks: seq<Token>, start: nat) {
    forall i :: start <= i < |toks| && toks[i].kind == KFunc && NoFunc(toks, start, i) ==> Named(toks, i)
  }

  // ----- a stack from which no call returns without an error before a name and a parenthesis -----

  /** An open parenthesis, and above it a symbol left by a bad handle. */
  predicate Jam(st: Stack) {
    && |st| >= 3 && st[0].(handle := false) == DOLLAR && !HasEol(st)
    && TopTerminal(st) >= 0 && TopKind(st) == KLPar
    && var top := st[|st| - 1]; !top.terminal && !top.handle && IsOperandKind(top.tok.kind)
  }

  predicate JamUnder(st: Stack, b: Token) {
    |st| >= 4 && st[|st| - 1] == FromToken(b) && Jam(st[..|st| - 1])
  }

  /** Before the name, above it, above it at an end marker, or before its keyword at an end marker. */
  predicate Doomed(ctx: Ctx, i: nat, s: PState)
    requires Named(ctx.toks, i)
  {
    || (Jam(s.stack) && s.pos == i + 1 && s.cur == ctx.toks[i + 1])
    || (JamUnder(s.stack, ctx.toks[i + 1]) && s.pos == i + 2 && s.cur == ctx.toks[i + 2])
    || (JamUnder(s.stack, ctx.toks[i + 1]) && s.cur == EmptyToken(false))
    || (Jam(s.stack) && s.pos == i && s.cur == EmptyToken(false))
  }

  lemma TopUnique(st: Stack, t: nat)
    requires t < |st| && st[t].terminal && forall j :: t < j < |st| ==> !st[j].terminal
    ensures TopTerminal(st) == t
  {
  }

  lemma Marks(k: Kind)
    ensures IndexOf(k) == ILPar ==> k == KLPar
    ensures IndexOf(KFunc) == IDollar && IndexOf(KUndefined) == IDollar && IndexOf(KLPar) == ILPar
    ensures IndexOf(KIdentifier) == IOperand && IsOperandKind(KIdentifier) && !IsOperandKind(KLPar)
    ensures !IsOperandKind(KUndefined)
  {
  }

  /** An end marker is a conflict above an open parenthesis only. */
  lemma ConflictAtEnd(s: PState)
    requires Bottomed(s) && Choose(s) == X && IndexOf(s.cur.kind) == IDollar
    ensures TopTerminal(s.stack) >= 0 && TopKind(s.stack) == KLPar && |s.stack| >= 2
  {
    hide IndexOf;
    TopTerminalExists(s.stack);
    Marks(TopKind(s.stack));
  }

  /** No bad handle that goes unreported holds the parenthesis. */
  lemma HandleAboveParen(st: Stack, t: nat)
    requires t + 1 < |st| && st[t].tok.kind == KLPar && !st[|st| - 1].handle
    requires !Diagnosed(Handle(st))
    ensures 1 <= HandleLen(st) && t < |st| - HandleLen(st)
    ensures IsOperandKind(ErrorKind(Handle(st)))
  {
    hide IsOperandKind, IsBinaryOperator;
    Marks(KLPar);
    var h := Handle(st);
    assert forall j :: 0 <= j < |h| ==> h[j] == st[|st| - |h| + j];
  }

  /** An end marker above an open parenthesis, no line start around: an error, or one more bad handle. */
  lemma ConflictJams(ctx: Ctx, s: PState)
    requires ctx.toks != [] && Bottomed(s) && !HasEol(s.stack) && !s.cur.eol
    requires Choose(s) == X && IndexOf(s.cur.kind) == IDollar
    ensures var s' := Conflict(ctx, s);
            s'.sem.err != NO_ERR || (Jam(s'.stack) && s' == Next(ctx, s.(stack := s'.stack, sem := s'.sem)))
  {
    hide IndexOf, IsOperandKind, Diagnosed, ErrorKind, Handle, HandleLen;
    ConflictAtEnd(s);
    var st := s.stack + [FromToken(s.cur)];
    assert !HasEol(st);
    var t := TopTerminal(s.stack);
    assert st[t] == s.stack[t];
    if !Diagnosed(Handle(st)) {
      HandleAboveParen(st, t);
      var r := Below(st) + [ErrorSym(ctx, s.sem, Handle(st))];
      JamLeft(st, t, ErrorSym(ctx, s.sem, Handle(st)));
      assert Conflict(ctx, s).stack == r;
    }
  }

  lemma JamLeft(st: Stack, t: nat, e: Sym)
    requires st != [] && 1 <= HandleLen(st) && t < |st| - HandleLen(st) && st[t].terminal && st[t].tok.kind == KLPar
    requires st[0].(handle := false) == DOLLAR && !HasEol(st) && forall j :: t < j < |st| - 1 ==> !st[j].terminal
    requires !e.terminal && !e.handle && !e.tok.eol && IsOperandKind(e.tok.kind)
    ensures Jam(Below(st) + [e])
  {
    hide HandleLen, IsOperandKind;
    var r := Below(st) + [e];
    assert DOLLAR.tok.kind == KUndefined;
    assert t > 0;
    TopUnique(r, t);
    assert forall i :: 0 <= i < |r| - 1 ==> r[i].tok == st[i].tok;
  }

  lemma JamShifts(ctx: Ctx, i: nat, s: PState)
    requires Named(ctx.toks, i) && Jam(s.stack) && s.pos == i + 1 && s.cur == ctx.toks[i + 1]
    ensures Bottomed(s) && !Halted(s)
    ensures JamUnder(Pass(ctx, s).stack, s.cur) && Pass(ctx, s).pos == i + 2 && Pass(ctx, s).cur == ctx.toks[i + 2]
  {
    hide IndexOf, IsOperandKind, Conflict, Precedence.Reduce;
    Marks(KLPar);
    var st, t := s.stack, TopTerminal(s.stack);
    var up := Flagged(st);
    TopUnique(up, t);
    assert up[0].(handle := false) == DOLLAR;
    assert forall j :: 0 <= j < |up| ==> up[j].tok == st[j].tok;
    assert up[|up| - 1] == st[|st| - 1];
    assert Pass(ctx, s).stack == up + [FromToken(s.cur)];
    assert (up + [FromToken(s.cur)])[..|up|] == up;
  }

  /** `(` above a name is a conflict. */
  lemma ParenConflicts(ctx: Ctx, i: nat, s: PState)
    requires Named(ctx.toks, i) && JamUnder(s.stack, ctx.toks[i + 1]) && s.cur == ctx.toks[i + 2]
    ensures Bottomed(s) && !Halted(s) && Choose(s) == X && Pass(ctx, s) == Conflict(ctx, s)
    ensures !HasEol(s.stack[..|s.stack| - 1]) && s.stack == s.stack[..|s.stack| - 1] + [FromToken(ctx.toks[i + 1])]
  {
    hide IndexOf, IsOperandKind, Precedence.Reduce, Jam, Conflict;
    Marks(KLPar);
    JamParts(s.stack[..|s.stack| - 1]);
    TopUnique(s.stack, |s.stack| - 1);
  }

  /** The name under the parenthesis: the line start decides which of them goes. */
  lemma NameMeetsParen(ctx: Ctx, i: nat, s: PState)
    requires Named(ctx.toks, i) && JamUnder(s.stack, ctx.toks[i + 1]) && s.pos == i + 2 && s.cur == ctx.toks[i + 2]
    ensures Bottomed(s) && !Halted(s)
    ensures Pass(ctx, s).sem.err != NO_ERR || Doomed(ctx, i, Pass(ctx, s))
  {
    hide Pass, Conflict, Choose, Halted, Jam;
    ParenConflicts(ctx, i, s);
    var b, c := ctx.toks[i + 1], ctx.toks[i + 2];
    if c.eol {
      BackBeforeParen(ctx, s);
    } else if b.eol {
      BackBeforeName(ctx, s, s.stack[..|s.stack| - 1], b);
    } else {
      TwoOnLine(ctx, s, s.stack[..|s.stack| - 1], b);
    }
  }

  lemma BackBeforeParen(ctx: Ctx, s: PState)
    requires ctx.toks != [] && s.cur.eol
    ensures Conflict(ctx, s) == s.(pos := Back(s.pos, 1), cur := EmptyToken(false), multi := true)
  {
    hide ReduceError, Handle, Below;
    var st := s.stack + [FromToken(s.cur)];
    assert st[|st| - 1].tok.eol && st[..|st| - 0] == st && st[..|st| - 1] == s.stack;
  }

  lemma BackBeforeName(ctx: Ctx, s: PState, below: Stack, b: Token)
    requires ctx.toks != [] && s.stack == below + [FromToken(b)] && b.eol && !s.cur.eol
    ensures Conflict(ctx, s) == s.(stack := below, pos := Back(s.pos, 2), cur := EmptyToken(false), multi := true)
  {
    hide ReduceError, Handle, Below;
    var st := s.stack + [FromToken(s.cur)];
    assert st[|below|].tok.eol;
    assert st[..|st| - 1] == s.stack;
    assert AboveEol(s.stack) == 0 && AboveEol(st) == 1;
    assert s.stack[..|below|] == below;
  }

  lemma TwoOnLine(ctx: Ctx, s: PState, below: Stack, b: Token)
    requires ctx.toks != [] && s.stack == below + [FromToken(b)] && Jam(below) && IsOperandKind(b.kind)
    requires !b.eol && !s.cur.eol
    ensures Conflict(ctx, s).sem.err != NO_ERR
  {
    hide Jam, IsOperandKind, AboveEol, Handle, Below, ErrorSym, Diagnosed, HasEol;
    JamParts(below);
    var st := s.stack + [FromToken(s.cur)];
    NoEolAbove(below, b, s.cur);
    NameDiagnosed(st);
  }

  lemma NoEolAbove(below: Stack, b: Token, c: Token)
    requires !HasEol(below) && !b.eol && !c.eol
    ensures !HasEol(below + [FromToken(b)] + [FromToken(c)])
  {
    var st := below + [FromToken(b)] + [FromToken(c)];
    assert forall j :: 0 <= j < |below| ==> st[j] == below[j];
  }

  lemma JamParts(st: Stack)
    requires Jam(st)
    ensures st != [] && st[0].(handle := false) == DOLLAR && !HasEol(st) && |st| >= 3
    ensures var top := st[|st| - 1]; !top.terminal && !top.handle && IsOperandKind(top.tok.kind)
  {
  }

  lemma NameDiagnosed(st: Stack)
    requires |st| >= 5 && !st[|st| - 1].handle && !st[|st| - 2].handle && !st[|st| - 3].handle
    requires IsOperandKind(st[|st| - 2].tok.kind) && IsOperandKind(st[|st| - 3].tok.kind)
    ensures Diagnosed(Handle(st))
  {
    hide IsOperandKind, IsBinaryOperator;
  }

  /** The name cannot be reduced with what is below it. */
  lemma NameStays(ctx: Ctx, b: Token, s: PState)
    requires ctx.toks != [] && JamUnder(s.stack, b) && IsOperandKind(b.kind) && s.cur == EmptyToken(false)
    ensures Bottomed(s) && !Halted(s) && Pass(ctx, s).sem.err != NO_ERR
  {
    hide IndexOf, IsOperandKind, Conflict, Jam;
    KindIndex(b.kind);
    Marks(KLPar);
    JamParts(s.stack[..|s.stack| - 1]);
    TopUnique(s.stack, |s.stack| - 1);
    var h, below := Handle(s.stack), Below(s.stack);
    assert h[|h| - 1] == FromToken(b) && |h| >= 2;
    assert forall j :: 0 <= j < |below| ==> below[j].tok == s.stack[..|s.stack| - 1][j].tok;
    assert !HasEol(below);
    NoRuleForName(h, b);
  }

  lemma NoRuleForName(h: Stack, b: Token)
    requires 2 <= |h| <= 3 && h[|h| - 1] == FromToken(b) && IsOperandKind(b.kind)
    ensures GetRule(h) == NoRule
  {
  }

  lemma DoomStep(ctx: Ctx, i: nat, s: PState)
    requires Named(ctx.toks, i) && Doomed(ctx, i, s)
    ensures Bottomed(s) && !Halted(s)
    ensures Pass(ctx, s).sem.err != NO_ERR || Doomed(ctx, i, Pass(ctx, s))
  {
    hide IndexOf, IsOperandKind, Pass, Jam, JamUnder;
    Marks(KLPar);
    if Jam(s.stack) && s.pos == i + 1 && s.cur == ctx.toks[i + 1] {
      JamShifts(ctx, i, s);
    } else if JamUnder(s.stack, ctx.toks[i + 1]) && s.pos == i + 2 && s.cur == ctx.toks[i + 2] {
      NameMeetsParen(ctx, i, s);
    } else if JamUnder(s.stack, ctx.toks[i + 1]) {
      NameStays(ctx, ctx.toks[i + 1], s);
    } else {
      JamConflicts(ctx, i, s);
    }
  }

  lemma JamConflicts(ctx: Ctx, i: nat, s: PState)
    requires Named(ctx.toks, i) && Jam(s.stack) && s.pos == i && s.cur == EmptyToken(false)
    ensures Bottomed(s) && !Halted(s)
    ensures Pass(ctx, s).sem.err != NO_ERR || Doomed(ctx, i, Pass(ctx, s))
  {
    hide IndexOf, IsOperandKind, Conflict;
    Marks(KLPar);
    ConflictJams(ctx, s);
  }

  lemma {:induction false} NeverReturns(ctx: Ctx, i: nat, s: PState, n: nat)
    requires Named(ctx.toks, i) && Doomed(ctx, i, s)
    ensures Bottomed(s) && (Run(ctx, s, n).sem.err == NO_ERR ==> !Halted(Run(ctx, s, n)))
    decreases n
  {
    hide Pass, Doomed, Halted;
    DoomStep(ctx, i, s);
    if n > 0 {
      PassKeepsBottom(ctx, s);
      if Pass(ctx, s).sem.err != NO_ERR {
        RunKeepsError(ctx, Pass(ctx, s), n - 1);
      } else {
        NeverReturns(ctx, i, Pass(ctx, s), n - 1);
      }
    }
  }

  // ----- no pass steps over a function keyword -----

  /** The cursor has passed no function keyword, and at an end marker of the parser's own not even with its token. */
  predicate Passing(ctx: Ctx, start: nat, s: PState) {
    && s.pos < |ctx.toks|
    && ((s.cur == ctx.toks[s.pos] && NoFunc(ctx.toks, start, s.pos)) ||
        (s.cur.kind == KUndefined && NoFunc(ctx.toks, start, s.pos + 1)))
  }

  ghost predicate Doom(ctx: Ctx, s: PState) {
    exists i: nat :: Named(ctx.toks, i) && Doomed(ctx, i, s)
  }

  lemma PassPassing(ctx: Ctx, start: nat, s: PState)
    requires start > 0 && NextFuncNamed(ctx.toks, start) && Bottomed(s) && Passing(ctx, start, s)
    requires Pass(ctx, s).sem.err == NO_ERR
    ensures Passing(ctx, start, Pass(ctx, s)) || Doom(ctx, Pass(ctx, s))
  {
    hide IndexOf, Act, GetRule, Handle, Below, HasEol, AboveEol, ReduceError, Doomed, Conflict, Choose;
    Marks(s.cur.kind);
    match Choose(s)
    case R =>
    case X => ConflictPassing(ctx, start, s);
    case _ => ShiftedIsNoEnd(s);
  }

  lemma ShiftedIsNoEnd(s: PState)
    requires Choose(s) == S || Choose(s) == E
    ensures IndexOf(s.cur.kind) != IDollar
  {
    hide IndexOf;
  }

  lemma ConflictPassing(ctx: Ctx, start: nat, s: PState)
    requires start > 0 && NextFuncNamed(ctx.toks, start) && Bottomed(s) && Passing(ctx, start, s)
    requires Choose(s) == X && Conflict(ctx, s).sem.err == NO_ERR
    ensures Passing(ctx, start, Conflict(ctx, s)) || Doom(ctx, Conflict(ctx, s))
  {
    hide IndexOf, Handle, Below, AboveEol, ReduceError, Choose, Jam, JamUnder, HasEol;
    Marks(s.cur.kind);
    var i := s.pos;
    if i >= start && s.cur == ctx.toks[i] && s.cur.kind == KFunc && !HasEol(s.stack + [FromToken(s.cur)]) {
      NoEolParts(s.stack, FromToken(s.cur));
      ConflictJams(ctx, s);
      assert Doomed(ctx, i, Conflict(ctx, s));
    }
  }

  lemma NoEolParts(st: Stack, e: Sym)
    requires !HasEol(st + [e])
    ensures !HasEol(st) && !e.tok.eol
  {
    assert forall i :: 0 <= i < |st| ==> (st + [e])[i] == st[i];
    assert (st + [e])[|st|] == e;
  }

  lemma {:induction false} RunPassing(ctx: Ctx, start: nat, s: PState, n: nat)
    requires start > 0 && NextFuncNamed(ctx.toks, start) && Bottomed(s) && Passing(ctx, start, s)
    requires Halted(Run(ctx, s, n)) && Run(ctx, s, n).sem.err == NO_ERR
    ensures Passing(ctx, start, Run(ctx, s, n))
    decreases n
  {
    hide Pass, Halted, Doomed;
    if n > 0 && !Halted(s) {
      PassKeepsBottom(ctx, s);
      if Pass(ctx, s).sem.err != NO_ERR {
        RunKeepsError(ctx, Pass(ctx, s), n - 1);
      }
      PassPassing(ctx, start, s);
      if Doom(ctx, Pass(ctx, s)) {
        var i: nat :| Named(ctx.toks, i) && Doomed(ctx, i, Pass(ctx, s));
        NeverReturns(ctx, i, Pass(ctx, s), n - 1);
      } else {
        RunPassing(ctx, start, Pass(ctx, s), n - 1);
      }
    }
  }

  lemma StartPassing(ctx: Ctx, pos: nat, sem: Sem)
    requires pos + 1 < |ctx.toks|
    ensures Passing(ctx, pos + 1, Start(ctx, pos, sem)) && Bottomed(Start(ctx, pos, sem))
  {
  }

  lemma FinishPassing(ctx: Ctx, start: nat, s: PState)
    requires s.stack != [] && Passing(ctx, start, s)
    ensures var out := Finish(ctx, s);
            out.pos < |ctx.toks| && (out.pos > 0 ==> NoFunc(ctx.toks, start, out.pos - 1))
  {
    hide VerifyLhs;
  }

  lemma LoopPassing(ctx: Ctx, pos: nat, sem: Sem, n: nat)
    requires pos + 1 < |ctx.toks| && NextFuncNamed(ctx.toks, pos + 1)
    requires var s := Loop(ctx, Start(ctx, pos, sem), n); Halted(s) && s.sem.err == NO_ERR
    ensures Passing(ctx, pos + 1, Loop(ctx, Start(ctx, pos, sem), n))
  {
    hide Pass, Start, Passing, Halted, Doomed, NoFunc;
    var s0 := Start(ctx, pos, sem);
    StartPassing(ctx, pos, sem);
    PassKeepsBottom(ctx, s0);
    if Pass(ctx, s0).sem.err != NO_ERR {
      RunKeepsError(ctx, Pass(ctx, s0), n);
    }
    PassPassing(ctx, pos + 1, s0);
    if Doom(ctx, Pass(ctx, s0)) {
      var i: nat :| Named(ctx.toks, i) && Doomed(ctx, i, Pass(ctx, s0));
      NeverReturns(ctx, i, Pass(ctx, s0), n);
    } else {
      RunPassing(ctx, pos + 1, Pass(ctx, s0), n);
    }
  }

  /** The only function keyword that a call without an error can have passed is the token before the cursor. */
  lemma PassesNoFunc(ctx: Ctx, pos: nat, sem: Sem, out: Outcome)
    requires pos + 1 < |ctx.toks| && NextFuncNamed(ctx.toks, pos + 1)
    requires Returns(ctx, pos, sem, out) && out.sem.err == NO_ERR
    ensures out.pos < |ctx.toks| && (out.pos > 0 ==> NoFunc(ctx.toks, pos + 1, out.pos - 1))
  {
    hide Pass, Finish, Loop, Passing, Halted, NoFunc;
    var n: nat :| ReturnsIn(ctx, pos, sem, out, n);
    var s := Loop(ctx, Start(ctx, pos, sem), n);
    FinishKeepsError(ctx, s);
    LoopPassing(ctx, pos, sem, n);
    FinishPassing(ctx, pos + 1, s);
  }

  /** The call came back to its start, or the token before the cursor is a function keyword. */
  predicate Strayed(toks: seq<Token>, pos: nat, end: nat)
    requires end < |toks|
  {
    end <= pos || (end > pos + 1 && toks[end - 1].kind == KFunc)
  }

  /** Every call that reports no error keeps to the labels it draws; it goes forward over no function keyword exactly
      when it has not strayed. */
  lemma ReturnsGood(ctx: Ctx, pos: nat, sem: Sem, out: Outcome) returns (part: seq<Machine.Instr>)
    requires pos + 1 < |ctx.toks| && NextFuncNamed(ctx.toks, pos + 1)
    requires Returns(ctx, pos, sem, out) && out.sem.err == NO_ERR
    ensures out.pos < |ctx.toks| && out.sem.code == sem.code + part
    ensures Labels.Closed(part, sem.condUid, out.sem.condUid, 0, 0) && Labels.CallsNothing(part)
    ensures Strayed(ctx.toks, pos, out.pos) <==> !Rules.GoodExpr(ctx.toks, pos, sem.condUid, out.pos, part, out.sem.condUid)
  {
    hide Returns, Labels.Closed, Labels.CallsNothing;
    ExprLabels.ReturnsEmits(ctx, pos, sem, out);
    part :| ExprLabels.EmitsPart(sem, out.sem, part);
    PassesNoFunc(ctx, pos, sem, out);
  }

  // ----- calls that cannot stray -----

  /** Without line starts the cursor only goes forward, and the parser sees no end marker of its own. */
  lemma CalmForward(ctx: Ctx, s: PState)
    requires Calm(ctx, s)
    ensures Pass(ctx, s).multi == s.multi && Pass(ctx, s).pos >= s.pos
  {
    hide IndexOf, CalmStack, OneLine, Conflict, Precedence.Reduce, Choose;
    match Choose(s)
    case R =>
      BelowCalm(s.stack, FreshExpr(Undefined, false));
      ReduceForward(ctx, s);
    case X =>
      var e := ConflictStack(ctx, s);
      ConflictForward(ctx, s, e);
    case _ =>
  }

  lemma ConflictForward(ctx: Ctx, s: PState, e: Sym)
    requires ctx.toks != [] && s.pos < |ctx.toks|
    requires var st := s.stack + [FromToken(s.cur)];
             Conflict(ctx, s) == Next(ctx, s.(stack := Below(st) + [e], sem := Conflict(ctx, s).sem))
    ensures Conflict(ctx, s).multi == s.multi && Conflict(ctx, s).pos >= s.pos
  {
    hide Conflict, Below;
  }

  lemma ReduceForward(ctx: Ctx, s: PState)
    requires s.stack != [] && !HasEol(Below(s.stack))
    ensures Precedence.Reduce(ctx, s).multi == s.multi && Precedence.Reduce(ctx, s).pos == s.pos
  {
    hide Act, GetRule, Handle, Below, HasEol, ReduceError;
  }

  lemma {:induction false} RunForward(ctx: Ctx, s: PState, n: nat)
    requires Calm(ctx, s)
    ensures Bottomed(s) && Run(ctx, s, n).multi == s.multi && Run(ctx, s, n).pos >= s.pos
    decreases n
  {
    hide Pass, OneLine, CalmStack;
    if n > 0 && !Halted(s) {
      PassKeepsBottom(ctx, s);
      PassShrinks(ctx, s);
      CalmForward(ctx, s);
      RunForward(ctx, Pass(ctx, s), n - 1);
    }
  }

  /** On a token list without line starts no call strays, whatever its tokens. */
  lemma OneLineStays(ctx: Ctx, pos: nat, sem: Sem, out: Outcome)
    requires OneLine(ctx) && pos + 1 < |ctx.toks| && NextFuncNamed(ctx.toks, pos + 1)
    requires Returns(ctx, pos, sem, out) && out.sem.err == NO_ERR
    ensures out.pos < |ctx.toks| && !Strayed(ctx.toks, pos, out.pos)
  {
    hide Pass, OneLine, CalmStack, NextFuncNamed, VerifyLhs, Halted;
    var n: nat :| ReturnsIn(ctx, pos, sem, out, n);
    var s0 := Start(ctx, pos, sem);
    StartCalm(ctx, pos, sem);
    PassKeepsBottom(ctx, s0);
    CalmForward(ctx, s0);
    PassShrinks(ctx, s0);
    RunForward(ctx, Pass(ctx, s0), n);
    FinishKeepsError(ctx, Loop(ctx, s0, n));
    LoopPassing(ctx, pos, sem, n);
  }
}
