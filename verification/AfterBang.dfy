/** A sentence that ends in `!` before a token that starts a line.  An operand on the next line is shifted onto the
    sentence's last operand; only the token after it decides whether the new line has ended the expression.  A
    parenthesis on the next line is parsed above that operand. */
module AfterBang {
  import opened Tokens
  import opened Semantics
  import opened Precedence
  import opened ExprParsing
  import opened Grammar
  import opened Completeness
  import opened Sentences
  import opened Soundness
  import opened Unwrapped

  /** Some call returns, and reports no error. */
  ghost predicate Accepts(ctx: Ctx, pos: nat, sem: Sem)
    requires ctx.toks != []
  {
    exists out :: Returns(ctx, pos, sem, out) && out.sem.err == NO_ERR
  }

  predicate EndsInBang(t: Tree) {
    match t
    case Leaf(_) => false
    case Bang(_, _) => true
    case Paren(_, _, _) => false
    case Bin(_, _, r) => EndsInBang(r)
  }

  /** Every sentence ends in an operand, `)` or `!`, and the last token tells which. */
  lemma {:induction false} LastToken(t: Tree)
    requires Stratified(t)
    ensures EndsInBang(t) <==> !EndsInOperand(t)
    ensures EndsInBang(t) <==> Yield(t)[|Yield(t)| - 1].kind == KNotNil
    decreases t
  {
    hide IsBinaryOperator, Level, LeftMin, RightMin;
    match t
    case Leaf(_) =>
    case Bang(_, _) =>
    case Paren(_, _, _) =>
    case Bin(_, _, r) =>
      LastToken(r);
      assert Yield(t)[|Yield(t)| - 1] == Yield(r)[|Yield(r)| - 1];
  }

  predicate OnLine(y: seq<Token>) {
    forall i :: 0 <= i < |y| ==> !y[i].eol
  }

  /** The symbol of a tree on one line starts no line. */
  lemma {:induction false} FoldOnLine(ctx: Ctx, sem: Sem, t: Tree)
    requires Stratified(t) && OnLine(Yield(t))
    ensures var e := Fold(ctx, sem, t).1; !e.tok.eol && !e.terminal && !e.handle
    ensures t.Bang? || t.Leaf? ==> IsOperandKind(Fold(ctx, sem, t).1.tok.kind)
    decreases t
  {
    hide IsBinaryOperator, IsOperandKind, LeftMin, RightMin, Arithmetic, Relational, OperatorRule;
    match t
    case Leaf(tok) => assert Yield(t)[0] == tok;
    case Bang(e, bang) =>
      assert forall i :: 0 <= i < |Yield(e)| ==> Yield(t)[i] == Yield(e)[i];
      FoldOnLine(ctx, sem, e);
    case Paren(_, _, _) =>
    case Bin(_, _, _) =>
  }

  // ----- up to the last operand -----

  /** A stack that starts no line and waits, under an operand that starts none either. */
  predicate Plain(st: Stack, x: Sym) {
    Waiting(st) && !HasEol(st) && !x.terminal && !x.handle && !x.tok.eol && IsOperandKind(x.tok.kind)
  }

  /** What the parser has read when it stands behind the sentence: its last operand above what the sentence's right
      edge has left on the stack. */
  ghost predicate Edge(ctx: Ctx, st: Stack, pos: nat, sem: Sem, t: Tree, base: Stack, x: Sym, sem': Sem) {
    && Plain(base, x) && Gets(ctx, At(ctx, st, pos, false, sem), At(ctx, base + [x], pos + |Yield(t)|, false, sem'))
    && (t.Bang? ==> base == st && (sem', x) == Fold(ctx, sem, t))
    && (t.Bin? ==> |base| > 1 && IsBinaryOperator(base[|base| - 1].tok.kind))
  }

  lemma BangEdge(ctx: Ctx, st: Stack, pos: nat, sem: Sem, t: Tree)
    requires t.Bang? && Waiting(st) && !HasEol(st) && Stratified(t) && OnLine(Yield(t)) && Before(ctx, pos, t)
    requires Level(t) >= ContextMin(st[|st| - 1].tok.kind)
    ensures var (s', x) := Fold(ctx, sem, t); Edge(ctx, st, pos, sem, t, st, x, s')
  {
    hide Pass, Run, Gets, Unwrap, IndexOf, IsBinaryOperator, Stand, Waiting, ContextMin, Yield, Stratified, IsOperandKind,
         HasEol, FollowMin, OnLine;
    FoldOnLine(ctx, sem, t);
    BangParts(ctx, pos, t);
    BangNeeds(t);
    ParseTree(ctx, st, pos, false, sem, t.e);
    var (s0, x0) := Fold(ctx, sem, t.e);
    UnwrapPasses(ctx, st, x0, pos + |Yield(t.e)|, false, s0);
    var (s', x) := Fold(ctx, sem, t);
    GetsTrans(ctx, At(ctx, st, pos, false, sem), At(ctx, st + [x0], pos + |Yield(t.e)|, false, s0),
              At(ctx, st + [x], pos + |Yield(t)|, false, s'));
  }

  lemma OnLineSlice(y: seq<Token>, a: seq<Token>, b: seq<Token>, c: seq<Token>)
    requires y == a + b + c && OnLine(y)
    ensures OnLine(b)
  {
    assert forall i :: 0 <= i < |b| ==> b[i] == y[|a| + i];
  }

  lemma OnLineParts(t: Tree)
    requires t.Bin? && OnLine(Yield(t))
    ensures OnLine(Yield(t.l)) && OnLine(Yield(t.r)) && !t.op.eol
  {
    hide OnLine;
    var y, l, r := Yield(t), Yield(t.l), Yield(t.r);
    assert y == [] + l + ([t.op] + r) && y == l + [t.op] + r && y == (l + [t.op]) + r + [];
    OnLineSlice(y, [], l, [t.op] + r);
    OnLineSlice(y, l, [t.op], r);
    OnLineSlice(y, l + [t.op], r, []);
    OnLineOne(t.op);
  }

  lemma OnLineOne(tok: Token)
    requires OnLine([tok])
    ensures !tok.eol
  {
    assert [tok][0] == tok;
  }

  lemma NoEolPushed(st: Stack, flag: bool, x: Sym, op: Token)
    requires !HasEol(st) && !x.tok.eol && !op.eol
    ensures !HasEol(SetFlag(st, flag) + [x, FromToken(op)])
  {
    var r := SetFlag(st, flag) + [x, FromToken(op)];
    assert forall i :: 0 <= i < |st| ==> r[i].tok == st[i].tok;
  }

  lemma {:induction false} ReadsEdge(ctx: Ctx, st: Stack, pos: nat, sem: Sem, t: Tree)
    returns (base: Stack, x: Sym, sem': Sem)
    requires EndsInBang(t) && Waiting(st) && !HasEol(st) && Stratified(t) && OnLine(Yield(t)) && Before(ctx, pos, t)
    requires Level(t) >= ContextMin(st[|st| - 1].tok.kind)
    ensures Edge(ctx, st, pos, sem, t, base, x, sem')
    decreases t
  {
    hide Pass, Run, Gets, Fold, IndexOf, IsBinaryOperator, Stand, Waiting, ContextMin, Yield, Stratified, IsOperandKind,
         HasEol, FollowMin, OnLine, Level, OpLevel, Edge;
    if t.Bang? {
      BangEdge(ctx, st, pos, sem, t);
      base := st;
      var r := Fold(ctx, sem, t);
      sem', x := r.0, r.1;
    } else {
      BinNeeds(t);
      BinParts(ctx, pos, t);
      OnLineParts(t);
      var flag := ParseLeft(ctx, st, pos, false, sem, t);
      var (s1, y) := Fold(ctx, sem, t.l);
      FoldOnLine(ctx, sem, t.l);
      var inner := SetFlag(st, flag) + [y, FromToken(t.op)];
      var k := pos + |Yield(t.l)| + 1;
      NoEolPushed(st, flag, y, t.op);
      base, x, sem' := ReadsEdge(ctx, inner, k, s1, t.r);
      EdgeOfBin(ctx, st, pos, sem, t, inner, k, s1, base, x, sem');
    }
  }

  lemma EdgeOfBin(ctx: Ctx, st: Stack, pos: nat, sem: Sem, t: Tree, inner: Stack, k: nat, s1: Sem, base: Stack, x: Sym,
                  sem': Sem)
    requires t.Bin? && EndsInBang(t.r) && Edge(ctx, inner, k, s1, t.r, base, x, sem')
    requires Gets(ctx, At(ctx, st, pos, false, sem), At(ctx, inner, k, false, s1))
    requires k + |Yield(t.r)| == pos + |Yield(t)| && |inner| > 1 && IsBinaryOperator(inner[|inner| - 1].tok.kind)
    ensures Edge(ctx, st, pos, sem, t, base, x, sem')
  {
    hide Gets, Fold, Yield, Plain, IsBinaryOperator;
    GetsTrans(ctx, At(ctx, st, pos, false, sem), At(ctx, inner, k, false, s1),
              At(ctx, base + [x], pos + |Yield(t)|, false, sem'));
  }

  // ----- an operand on the next line -----

  /** The token after the operand that starts a line: one that the operand cannot go on with, on the same line. */
  predicate StartsCall(c: Token) {
    (IndexOf(c.kind) == IOperand || c.kind == KLPar) && !c.eol
  }

  /** The line start `b` above the operand `x`, before a token that cannot follow it: the parser goes back to `x`. */
  lemma GoesBack(ctx: Ctx, base: Stack, x: Sym, k: nat, multi: bool, sem: Sem)
    requires Plain(base, x) && 0 < k && k + 1 < |ctx.toks|
    requires IndexOf(ctx.toks[k].kind) == IOperand && ctx.toks[k].eol && StartsCall(ctx.toks[k + 1])
    ensures var s := At(ctx, Above(base, x) + [FromToken(ctx.toks[k])], k + 1, multi, sem);
            var back := PState(Above(base, x), k - 1, EmptyToken(false), true, sem);
            !Halted(s) && Pass(ctx, s) == back && Gets(ctx, s, back)
  {
    hide IndexOf, IsOperandKind, HasEol, AboveEol, Precedence.Reduce, Handle, Below, ReduceError;
    var b, c := FromToken(ctx.toks[k]), FromToken(ctx.toks[k + 1]);
    var st := Above(base, x) + [b];
    OperandConflicts(Above(base, x), ctx.toks[k], ctx.toks[k + 1]);
    TopmostEol(st + [c], 1);
    assert (st + [c])[..|st|] == st && st[..|st| - 1] == Above(base, x);
    var s := At(ctx, st, k + 1, multi, sem);
    assert Pass(ctx, s) == Conflict(ctx, s);
    GetsPass(ctx, s, PState(Above(base, x), k - 1, EmptyToken(false), true, sem));
  }

  lemma OperandConflicts(st: Stack, b: Token, c: Token)
    requires IndexOf(b.kind) == IOperand
    ensures TopTerminal(st + [FromToken(b)]) == |st|
    ensures Prec(b.kind, c.kind) == (if IndexOf(c.kind) == IOperand || c.kind == KLPar then X else R)
  {
  }

  /** At an end marker the operand is taken off the operator's flag, and the operation can be reduced. */
  lemma EdgeReduces(ctx: Ctx, base: Stack, x: Sym, k: nat, sem: Sem)
    requires ctx.toks != [] && Plain(base, x) && IsBinaryOperator(base[|base| - 1].tok.kind)
    ensures Gets(ctx, PState(Above(base, x), k, EmptyToken(false), true, sem),
                 PState(base + [x], k, EmptyToken(false), true, sem))
  {
    hide IndexOf, IsBinaryOperator, IsOperandKind, HasEol, Handle, Below, Cell, Act, Pass, GetRule;
    var op := base[|base| - 1].tok.kind;
    EndReduces(op);
    OperatorNoEnd(op);
    HandleAbove(base, true, [x]);
    TopAt(SetFlag(base, true), [x]);
    OneOperand(ctx, sem, x);
    var s := PState(Above(base, x), k, EmptyToken(false), true, sem);
    PassReducesTo(ctx, s, [x], base);
    GetsPass(ctx, s, PState(base + [x], k, EmptyToken(false), true, sem));
  }

  lemma OperatorNoEnd(op: Kind)
    requires IsBinaryOperator(op)
    ensures IndexOf(op) != IDollar
  {
  }

  lemma OneOperand(ctx: Ctx, sem: Sem, x: Sym)
    requires !x.terminal && IsOperandKind(x.tok.kind)
    ensures GetRule([x]) == OperandRule && Act(ctx, sem, OperandRule, [x]) == (sem, x)
  {
    hide IsOperandKind;
  }

  /** A new line with a call on it. */
  predicate CallOnNextLine(toks: seq<Token>, end: nat) {
    end + 1 < |toks| && toks[end].eol && IndexOf(toks[end].kind) == IOperand && StartsCall(toks[end + 1])
  }

  lemma BangBack(ctx: Ctx, st: Stack, pos: nat, sem: Sem, t: Tree)
    requires t.Bang? && Waiting(st) && !HasEol(st) && Stratified(t) && OnLine(Yield(t)) && Before(ctx, pos, t)
    requires Level(t) >= ContextMin(st[|st| - 1].tok.kind) && CallOnNextLine(ctx.toks, pos + |Yield(t)|)
    ensures var (s', x) := Fold(ctx, sem, t);
            Gets(ctx, At(ctx, st, pos, false, sem),
                 PState(Above(st, x), pos + |Yield(t)| - 1, EmptyToken(false), true, s'))
    ensures Plain(st, Fold(ctx, sem, t).1)
  {
    hide Gets, Fold, IndexOf, IsBinaryOperator, Stand, ContextMin, Stratified, OnLine, Level, Above, StartsCall;
    BangEdge(ctx, st, pos, sem, t);
    var (s', x) := Fold(ctx, sem, t);
    var k := pos + |Yield(t)|;
    ShiftsAbove(ctx, st, x, k, false, s');
    GoesBack(ctx, st, x, k, false, s');
    var a := At(ctx, st, pos, false, sem);
    var mid := At(ctx, Above(st, x) + [FromToken(ctx.toks[k])], k + 1, false, s');
    GetsTrans(ctx, a, At(ctx, st + [x], k, false, s'), mid);
    GetsTrans(ctx, a, mid, PState(Above(st, x), k - 1, EmptyToken(false), true, s'));
  }

  /** Above an operator the sentence is reduced as before any other line. */
  lemma {:induction false} ParseBangLine(ctx: Ctx, st: Stack, pos: nat, sem: Sem, t: Tree)
    requires EndsInBang(t) && Waiting(st) && !HasEol(st) && Stratified(t) && OnLine(Yield(t)) && Before(ctx, pos, t)
    requires Level(t) >= ContextMin(st[|st| - 1].tok.kind) && IsBinaryOperator(st[|st| - 1].tok.kind)
    requires CallOnNextLine(ctx.toks, pos + |Yield(t)|)
    ensures ParsesLine(ctx, st, pos, false, sem, t)
    decreases t
  {
    hide Gets, Fold, IndexOf, IsBinaryOperator, Stand, Waiting, ContextMin, Yield, Stratified, IsOperandKind, HasEol,
         FollowMin, OnLine, Level, OpLevel, Above, StartsCall, CallOnNextLine;
    if t.Bang? {
      BangBack(ctx, st, pos, sem, t);
      var (s', x) := Fold(ctx, sem, t);
      var k := pos + |Yield(t)| - 1;
      EdgeReduces(ctx, st, x, k, s');
      GetsTrans(ctx, At(ctx, st, pos, false, sem), PState(Above(st, x), k, EmptyToken(false), true, s'),
                PState(st + [x], k, EmptyToken(false), true, s'));
    } else {
      ParseBangBin(ctx, st, pos, sem, t);
    }
  }

  lemma {:induction false} ParseBangBin(ctx: Ctx, st: Stack, pos: nat, sem: Sem, t: Tree)
    requires t.Bin? && EndsInBang(t.r) && Waiting(st) && !HasEol(st)
    requires Stratified(t) && OnLine(Yield(t)) && Before(ctx, pos, t)
    requires Level(t) >= ContextMin(st[|st| - 1].tok.kind) && CallOnNextLine(ctx.toks, pos + |Yield(t)|)
    ensures ParsesLine(ctx, st, pos, false, sem, t)
    decreases t, 0
  {
    hide Gets, Fold, IndexOf, IsBinaryOperator, Stand, Waiting, ContextMin, Yield, Stratified, IsOperandKind, HasEol,
         FollowMin, OnLine, Level, OpLevel, StartsCall, CallOnNextLine, SetFlag, OperatorRule, Arithmetic, Relational;
    BinNeeds(t);
    BinParts(ctx, pos, t);
    OnLineParts(t);
    FoldOfBin(ctx, sem, t);
    var flag := ParseLeft(ctx, st, pos, false, sem, t);
    var (s1, y) := Fold(ctx, sem, t.l);
    FoldOnLine(ctx, sem, t.l);
    var inner := SetFlag(st, flag) + [y, FromToken(t.op)];
    var k := pos + |Yield(t.l)| + 1;
    NoEolPushed(st, flag, y, t.op);
    ParseBangLine(ctx, inner, k, s1, t.r);
    LineBinEnds(ctx, At(ctx, st, pos, false, sem), st, flag, y, t.op, k, false, s1, t.r);
  }

  lemma BackAtBottom(ctx: Ctx, x: Sym, k: nat, sem: Sem)
    requires k + 1 < |ctx.toks| && !x.terminal
    ensures var s := PState(Above([DOLLAR], x), k, EmptyToken(false), true, sem);
            var (sem', e) := VerifyLhs(ctx, sem, x);
            Halted(s) && Bottomed(s) && Finish(ctx, s) == Outcome(k + 1, ctx.toks[k + 1], sem', e)
  {
    hide IndexOf, VerifyLhs;
    EndIndex();
    TopAt(SetFlag([DOLLAR], true), [x]);
  }

  lemma NoEolAtBottom()
    ensures !HasEol([DOLLAR])
  {
  }

  /** A call on the next line ends the sentence: the outcome is the one an explicit end marker gives. */
  lemma BangLineReturns(ctx: Ctx, pos: nat, sem: Sem, t: Tree)
    requires EndsInBang(t) && Stratified(t) && OnLine(Yield(t)) && Before(ctx, pos + 1, t)
    requires CallOnNextLine(ctx.toks, pos + 1 + |Yield(t)|)
    ensures Returns(ctx, pos, sem, TreeOutcome(ctx, pos + 1, sem, t))
  {
    hide Pass, Run, Gets, Fold, VerifyLhs, Yield, IndexOf, IsBinaryOperator, Returns, Halted, Finish, Start, Stand,
         Waiting, Bottomed, Stratified, Level, OnLine, HasEol, Above;
    StartWaits(ctx, pos, sem, t);
    NoEolAtBottom();
    var (s', e) := Fold(ctx, sem, t);
    var k := pos + |Yield(t)|;
    if t.Bang? {
      BangBack(ctx, [DOLLAR], pos + 1, sem, t);
      BackAtBottom(ctx, e, k, s');
      CallReturns(ctx, pos, sem, PState(Above([DOLLAR], e), k, EmptyToken(false), true, s'));
    } else {
      ParseBangBin(ctx, [DOLLAR], pos + 1, sem, t);
      assert [DOLLAR] + [e] == [DOLLAR, e];
      EndIndex();
      OneSymbolLeft(ctx, e, k, EmptyToken(false), true, s');
      CallReturns(ctx, pos, sem, PState([DOLLAR, e], k, EmptyToken(false), true, s'));
    }
  }

  // ----- otherwise -----

  /** A state on the way of a call with an error in it: the call cannot return without one. */
  lemma ErrorStays(ctx: Ctx, pos: nat, sem: Sem, s: PState, out: Outcome)
    requires pos + 1 < |ctx.toks| && IndexOf(ctx.toks[pos + 1].kind) != IDollar
    requires Gets(ctx, Start(ctx, pos, sem), s) && s.sem.err != NO_ERR && Returns(ctx, pos, sem, out)
    ensures out.sem.err != NO_ERR
  {
    hide Pass, Finish, IndexOf, Halted;
    var n: nat :| ReturnsIn(ctx, pos, sem, out, n);
    var s0 := Start(ctx, pos, sem);
    var m: nat :| Run(ctx, s0, m) == s;
    PassKeepsBottom(ctx, s0);
    StartRuns(ctx, pos, sem);
    assert Run(ctx, s0, n + 1) == Loop(ctx, s0, n);
    RunStays(ctx, s0, n + 1, m);
    RunCompose(ctx, s0, m, n + 1);
    RunKeepsError(ctx, s, n + 1);
    if out.sem.err == NO_ERR {
      FinishKeepsError(ctx, Loop(ctx, s0, n));
    }
  }

  lemma StartRuns(ctx: Ctx, pos: nat, sem: Sem)
    requires pos + 1 < |ctx.toks| && IndexOf(ctx.toks[pos + 1].kind) != IDollar
    ensures !Halted(Start(ctx, pos, sem))
  {
    hide IndexOf;
  }

  /** Two symbols above an operator or the bottom are no handle of a rule. */
  lemma TwoSymbolsFail(ctx: Ctx, base: Stack, x: Sym, y: Sym, s: PState)
    requires ctx.toks != [] && Plain(base, x) && !y.handle && y.tok.kind != KNotNil
    requires s.stack == Above(base, x) + [y] && Choose(s) == R
    ensures Pass(ctx, s).sem.err != NO_ERR
  {
    hide IndexOf, IsOperandKind, Handle, Below, Choose, Cell, Pass, ReduceError, HasEol;
    TwoAbove(base, x, y);
    NoEolFlagged(base);
    assert GetRule([x, y]) == NoRule;
    PassRejects(ctx, s);
  }

  lemma NoEolFlagged(st: Stack)
    requires !HasEol(st)
    ensures !HasEol(SetFlag(st, false))
  {
    var r := SetFlag(st, false);
    assert forall i :: 0 <= i < |r| ==> r[i].tok == st[i].tok;
  }

  lemma OperandFails(ctx: Ctx, base: Stack, x: Sym, b: Token, s: PState)
    requires ctx.toks != [] && Plain(base, x) && IndexOf(b.kind) == IOperand
    requires s.stack == Above(base, x) + [FromToken(b)] && IndexOf(s.cur.kind) != IOperand && s.cur.kind != KLPar
    ensures Bottomed(s) && !Halted(s) && Pass(ctx, s).sem.err != NO_ERR
  {
    hide IndexOf, IsOperandKind, Handle, Below, Cell, Pass, ReduceError, HasEol;
    KindIndex(b.kind);
    OperandConflicts(Above(base, x), b, s.cur);
    TwoSymbolsFail(ctx, base, x, FromToken(b), s);
  }

  lemma EndIsNoOperand()
    ensures IndexOf(KUndefined) != IOperand && KUndefined != KLPar
  {
  }

  /** From the line start above the sentence's last operand, before any other token: an error. */
  lemma OtherTokenFails(ctx: Ctx, base: Stack, x: Sym, k: nat, sem: Sem) returns (s: PState)
    requires Plain(base, x) && k + 1 < |ctx.toks|
    requires IndexOf(ctx.toks[k].kind) == IOperand && !StartsCall(ctx.toks[k + 1])
    ensures Gets(ctx, At(ctx, Above(base, x) + [FromToken(ctx.toks[k])], k + 1, false, sem), s)
    ensures s.sem.err != NO_ERR
  {
    hide IndexOf, Pass, Above, Plain, Gets;
    var b, c := ctx.toks[k], ctx.toks[k + 1];
    var st := Above(base, x) + [FromToken(b)];
    var a := At(ctx, st, k + 1, false, sem);
    OperandConflicts(Above(base, x), b, c);
    OnBottom(base, x, FromToken(b));
    if IndexOf(c.kind) == IOperand || c.kind == KLPar {
      PassEndsLine(ctx, st, k + 1, false, sem);
      var back := PState(st, k, EmptyToken(false), true, sem);
      EndIsNoOperand();
      OperandFails(ctx, base, x, b, back);
      s := Pass(ctx, back);
      GetsPass(ctx, back, s);
      GetsTrans(ctx, a, back, s);
    } else {
      OperandFails(ctx, base, x, b, a);
      s := Pass(ctx, a);
      GetsPass(ctx, a, s);
    }
  }

  lemma OnBottom(base: Stack, x: Sym, y: Sym)
    requires Plain(base, x)
    ensures var st := Above(base, x) + [y]; st != [] && st[0].(handle := false) == DOLLAR
  {
  }

  /** Before any other token the new line does not end the expression, and every return has an error. */
  lemma BangLineFails(ctx: Ctx, pos: nat, sem: Sem, t: Tree, out: Outcome)
    requires EndsInBang(t) && Stratified(t) && OnLine(Yield(t)) && Before(ctx, pos + 1, t)
    requires var end := pos + 1 + |Yield(t)|;
             end + 1 < |ctx.toks| && IndexOf(ctx.toks[end].kind) == IOperand && !StartsCall(ctx.toks[end + 1])
    requires Returns(ctx, pos, sem, out)
    ensures out.sem.err != NO_ERR
  {
    hide Pass, Run, Gets, Yield, IndexOf, IsBinaryOperator, Returns, Start, Stand, Waiting, Stratified, Level, OnLine,
         HasEol, Above, StartsCall, Plain;
    var end := pos + 1 + |Yield(t)|;
    StartWaits(ctx, pos, sem, t);
    NoEolAtBottom();
    var base, x, s' := ReadsEdge(ctx, [DOLLAR], pos + 1, sem, t);
    PlainParts(base, x);
    ShiftsAbove(ctx, base, x, end, false, s');
    var s := OtherTokenFails(ctx, base, x, end, s');
    var a := Start(ctx, pos, sem);
    var mid := At(ctx, Above(base, x) + [FromToken(ctx.toks[end])], end + 1, false, s');
    GetsTrans(ctx, a, At(ctx, base + [x], end, false, s'), mid);
    GetsTrans(ctx, a, mid, s);
    ErrorStays(ctx, pos, sem, s, out);
  }

  lemma PlainParts(base: Stack, x: Sym)
    requires Plain(base, x)
    ensures Waiting(base) && !x.terminal && !x.handle
  {
  }

  /** A sentence on one line that ends in `!`, before an operand that starts a line: the new line ends it exactly when
      the token after that operand is, on the same line, an operand or `(`, as in a call; before anything else every
      return has an error. */
  lemma BangLineExactly(ctx: Ctx, pos: nat, sem: Sem, t: Tree)
    requires EndsInBang(t) && Stratified(t) && OnLine(Yield(t)) && Before(ctx, pos + 1, t)
    requires var end := pos + 1 + |Yield(t)|;
             end + 1 < |ctx.toks| && ctx.toks[end].eol && IndexOf(ctx.toks[end].kind) == IOperand
    ensures StartsCall(ctx.toks[pos + 1 + |Yield(t)| + 1]) ==> Returns(ctx, pos, sem, TreeOutcome(ctx, pos + 1, sem, t))
    ensures Accepts(ctx, pos, sem) <==>
      StartsCall(ctx.toks[pos + 1 + |Yield(t)| + 1]) && TreeOutcome(ctx, pos + 1, sem, t).sem.err == NO_ERR
  {
    hide Returns, TreeOutcome, Stratified, OnLine, Stand, IndexOf, StartsCall;
    var end := pos + 1 + |Yield(t)|;
    if StartsCall(ctx.toks[end + 1]) {
      BangLineReturns(ctx, pos, sem, t);
    }
    if out :| Returns(ctx, pos, sem, out) && out.sem.err == NO_ERR {
      if !StartsCall(ctx.toks[end + 1]) {
        BangLineFails(ctx, pos, sem, t, out);
      }
      ReturnsOnce(ctx, pos, sem, out, TreeOutcome(ctx, pos + 1, sem, t));
    }
  }

  // ----- a parenthesis, on whatever line -----

  /** The sentence `t`, then the parenthesised expression `p`, then an end marker. */
  predicate ParenFollows(ctx: Ctx, pos: nat, t: Tree, p: Tree) {
    && EndsInBang(t) && Stratified(t) && OnLine(Yield(t)) && p.Paren? && Stratified(p)
    && Before(ctx, pos, t) && Before(ctx, pos + |Yield(t)|, p)
    && IndexOf(ctx.toks[pos + |Yield(t)| + |Yield(p)|].kind) == IDollar
  }

  /** The outcome when the parenthesised expression is what is left. */
  function BothOutcome(ctx: Ctx, pos: nat, sem: Sem, t: Tree, p: Tree): Outcome
    requires ParenFollows(ctx, pos, t, p)
  {
    var end := pos + |Yield(t)| + |Yield(p)|;
    var (s2, e) := Fold(ctx, Fold(ctx, sem, t).0, p);
    var (s3, e') := VerifyLhs(ctx, s2, e);
    Outcome(end, ctx.toks[end], s3, e')
  }

  lemma TwoSymbolsLeft(ctx: Ctx, x: Sym, e: Sym, pos: nat, sem: Sem)
    requires pos < |ctx.toks| && !x.terminal && !e.terminal && IndexOf(ctx.toks[pos].kind) == IDollar
    ensures var s := At(ctx, Above([DOLLAR], x) + [e], pos, false, sem);
            var (sem', e') := VerifyLhs(ctx, sem, e);
            Halted(s) && Bottomed(s) && Finish(ctx, s) == Outcome(pos, ctx.toks[pos], sem', e')
  {
    hide IndexOf, VerifyLhs;
    EndIndex();
    assert Above([DOLLAR], x) + [e] == SetFlag([DOLLAR], true) + [x, e];
    TopAt(SetFlag([DOLLAR], true), [x, e]);
  }

  lemma NoEnd(k: Kind)
    requires IndexOf(k) == IDollar
    ensures Prec(KRPar, k) == R && forall op :: IsBinaryOperator(op) ==> Prec(op, k) == R
  {
    hide IndexOf, IsBinaryOperator;
    ClosingShifts();
    forall op | IsBinaryOperator(op)
      ensures Prec(op, k) == R
    {
      OperatorReduces(op, k);
    }
  }

  /** After a chain of `!` the parenthesised expression is accepted beside it. */
  lemma ChainParenReturns(ctx: Ctx, pos: nat, sem: Sem, t: Tree, p: Tree)
    requires t.Bang? && ParenFollows(ctx, pos + 1, t, p)
    ensures Returns(ctx, pos, sem, BothOutcome(ctx, pos + 1, sem, t, p))
  {
    hide Pass, Run, Gets, Fold, VerifyLhs, Yield, IndexOf, IsBinaryOperator, Returns, Halted, Finish, Start, Stand,
         Bottomed, Stratified, Level, OnLine, HasEol, Above, Cell, IsOperandKind;
    StartWaits(ctx, pos, sem, t);
    NoEolAtBottom();
    BangEdge(ctx, [DOLLAR], pos + 1, sem, t);
    var (s1, x) := Fold(ctx, sem, t);
    var k := pos + 1 + |Yield(t)|;
    var end := k + |Yield(p)|;
    NoEnd(ctx.toks[end].kind);
    ParenAbove(ctx, [DOLLAR], x, k, false, s1, p);
    var (s2, e) := Fold(ctx, s1, p);
    var last := At(ctx, Above([DOLLAR], x) + [e], end, false, s2);
    GetsTrans(ctx, Start(ctx, pos, sem), At(ctx, [DOLLAR] + [x], k, false, s1), last);
    TwoSymbolsLeft(ctx, x, e, end, s2);
    CallReturns(ctx, pos, sem, last);
  }

  /** After an operation it is not. */
  lemma OperationParenFails(ctx: Ctx, pos: nat, sem: Sem, t: Tree, p: Tree, out: Outcome)
    requires t.Bin? && ParenFollows(ctx, pos + 1, t, p)
    requires Returns(ctx, pos, sem, out)
    ensures out.sem.err != NO_ERR
  {
    hide Pass, Run, Gets, Yield, IndexOf, IsBinaryOperator, Returns, Start, Stand, Stratified, Level, OnLine, HasEol,
         Above, Cell, IsOperandKind, Choose;
    StartWaits(ctx, pos, sem, t);
    NoEolAtBottom();
    var base, x, s1 := ReadsEdge(ctx, [DOLLAR], pos + 1, sem, t);
    var k := pos + 1 + |Yield(t)|;
    var end := k + |Yield(p)|;
    NoEnd(ctx.toks[end].kind);
    ParenAbove(ctx, base, x, k, false, s1, p);
    var (s2, e) := Fold(ctx, s1, p);
    var s := At(ctx, Above(base, x) + [e], end, false, s2);
    ParenOnOperation(base, x, e, s);
    OnBottom(base, x, e);
    FoldOfParen(ctx, s1, p);
    TwoSymbolsFail(ctx, base, x, e, s);
    GetsPass(ctx, s, Pass(ctx, s));
    var a := Start(ctx, pos, sem);
    GetsTrans(ctx, a, At(ctx, base + [x], k, false, s1), s);
    GetsTrans(ctx, a, s, Pass(ctx, s));
    ErrorStays(ctx, pos, sem, Pass(ctx, s), out);
  }

  lemma ParenOnOperation(base: Stack, x: Sym, e: Sym, s: PState)
    requires Plain(base, x) && !e.terminal && s.stack == Above(base, x) + [e] && IndexOf(s.cur.kind) == IDollar
    requires IsBinaryOperator(base[|base| - 1].tok.kind)
    ensures Choose(s) == R && !Halted(s)
  {
    hide IndexOf, IsBinaryOperator, IsOperandKind, HasEol, Cell;
    NoEnd(s.cur.kind);
    OperatorNoEnd(base[|base| - 1].tok.kind);
    assert s.stack == SetFlag(base, true) + [x, e];
    TopAt(SetFlag(base, true), [x, e]);
  }

  /** A sentence that ends in `!`, then a parenthesised expression on whatever line, then an end marker: no sentence,
      but accepted exactly when the sentence is an operand with its `!` and the actions of both find no error. */
  lemma BangParenExactly(ctx: Ctx, pos: nat, sem: Sem, t: Tree, p: Tree)
    requires ParenFollows(ctx, pos + 1, t, p)
    ensures t.Bang? ==> Returns(ctx, pos, sem, BothOutcome(ctx, pos + 1, sem, t, p))
    ensures Accepts(ctx, pos, sem) <==> t.Bang? && BothOutcome(ctx, pos + 1, sem, t, p).sem.err == NO_ERR
  {
    hide Returns, BothOutcome, Stratified, OnLine, Stand, IndexOf, Yield, Level;
    if t.Bang? {
      ChainParenReturns(ctx, pos, sem, t, p);
    }
    if out :| Returns(ctx, pos, sem, out) && out.sem.err == NO_ERR {
      if t.Bang? {
        ReturnsOnce(ctx, pos, sem, out, BothOutcome(ctx, pos + 1, sem, t, p));
      } else {
        OperationParenFails(ctx, pos, sem, t, p, out);
      }
    }
  }

  // ----- why it is no sentence -----

  lemma LastTokens(t: Tree)
    requires Stratified(t)
    ensures IndexOf(Yield(t)[0].kind) == IOperand || Yield(t)[0].kind == KLPar
    ensures var y := Yield(t); y[|y| - 1].kind == KNotNil ==> Level(t) != 4
  {
    hide IndexOf, IsOperandKind, IsBinaryOperator, LeftMin, RightMin;
    match t
    case Leaf(tok) => KindIndex(tok.kind);
    case Bang(e, _) => LastTokens(e);
    case Paren(_, e, _) => assert Yield(t)[|Yield(t)| - 1] == t.rp;
    case Bin(l, _, r) => LastTokens(l); LastTokens(r);
  }

  predicate Joins(a: Token, b: Token) {
    a.kind == KNotNil ==> b.kind != KLPar
  }

  lemma JoinPairs(a: seq<Token>, b: seq<Token>)
    requires a != [] && b != [] && NoBangParen(a) && NoBangParen(b) && Joins(a[|a| - 1], b[0])
    ensures NoBangParen(a + b)
  {
    var s := a + b;
    forall i | 0 <= i < |s| - 1 && s[i].kind == KNotNil
      ensures s[i + 1].kind != KLPar
    {
      if i + 1 < |a| {
        assert s[i] == a[i] && s[i + 1] == a[i + 1];
      } else if i >= |a| {
        assert s[i] == b[i - |a|] && s[i + 1] == b[i - |a| + 1];
      }
    }
  }

  /** No sentence has `!` directly before `(`. */
  lemma {:induction false} SentenceHasNoBangParen(t: Tree)
    requires Stratified(t)
    ensures NoBangParen(Yield(t))
  {
    hide IndexOf, IsOperandKind, Level, LeftMin, RightMin;
    match t
    case Leaf(_) =>
    case Bang(e, bang) =>
      SentenceHasNoBangParen(e);
      JoinPairs(Yield(e), [bang]);
    case Paren(lp, e, rp) =>
      SentenceHasNoBangParen(e);
      JoinPairs([lp], Yield(e));
      JoinPairs([lp] + Yield(e), [rp]);
    case Bin(l, op, r) =>
      SentenceHasNoBangParen(l);
      SentenceHasNoBangParen(r);
      OperatorIsNoBang(op.kind);
      JoinPairs(Yield(l), [op]);
      JoinPairs(Yield(l) + [op], Yield(r));
  }

  lemma OperatorIsNoBang(k: Kind)
    requires IsBinaryOperator(k)
    ensures k != KNotNil && k != KLPar
  {
  }
}
