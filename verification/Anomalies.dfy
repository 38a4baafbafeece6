/** Token lists that are no sentences, on which a call nevertheless returns without an error, and where it leaves the
    cursor. */
module Anomalies {
  import opened Tokens
  import opened Semantics
  import opened Precedence
  import opened ExprParsing
  import opened Grammar
  import opened Completeness
  import opened Sentences
  import opened Unwrapped
  import opened AfterBang
  import Straying

  // ----- single steps -----

  /** An operand that a reduction follows. */
  lemma OperandPasses(ctx: Ctx, st: Stack, k: nat, multi: bool, sem: Sem)
    requires Waiting(st) && k + 1 < |ctx.toks| && IsOperandKind(ctx.toks[k].kind)
    requires IndexOf(ctx.toks[k + 1].kind) != IOperand && IndexOf(ctx.toks[k + 1].kind) != ILPar
    ensures Parses(ctx, st, k, multi, sem, Leaf(ctx.toks[k]))
    ensures Yield(Leaf(ctx.toks[k])) == [ctx.toks[k]]
  {
    hide IsOperandKind, IsBinaryOperator, Parses, RightMin;
    var t := Leaf(ctx.toks[k]);
    assert Before(ctx, k, t) && Ends(ctx, k, t);
    OperandAnywhere(st[|st| - 1].tok.kind, ctx.toks[k]);
    ParseTree(ctx, st, k, multi, sem, t);
  }

  lemma OperandAnywhere(top: Kind, tok: Token)
    requires IsOperandKind(tok.kind)
    ensures Stratified(Leaf(tok)) && Level(Leaf(tok)) >= ContextMin(top)
  {
  }

  /** A conflict with a line start `k` symbols below the token: everything from the line start on goes. */
  lemma StepsBack(ctx: Ctx, s: PState, k: nat)
    requires ctx.toks != [] && Bottomed(s) && Choose(s) == X && !Halted(s) && 1 <= k <= |s.stack|
    requires s.stack[|s.stack| - k].tok.eol && !s.cur.eol
    requires forall j :: |s.stack| - k < j < |s.stack| ==> !s.stack[j].tok.eol
    ensures Gets(ctx, s, s.(stack := s.stack[..|s.stack| - k], pos := Back(s.pos, k + 1), cur := EmptyToken(false),
                            multi := true))
  {
    hide Choose, Halted, HasEol, AboveEol, Handle, Below, ReduceError;
    var st := s.stack + [FromToken(s.cur)];
    TopmostEol(st, k);
    assert st[..|st| - k][..|st| - k - 1] == s.stack[..|s.stack| - k];
    GetsPass(ctx, s, Pass(ctx, s));
  }

  /** A bad handle over a line start `k` symbols down: the line start stays. */
  lemma CutsBack(ctx: Ctx, s: PState, k: nat)
    requires ctx.toks != [] && Bottomed(s) && Choose(s) == R && !Halted(s) && GetRule(Handle(s.stack)) == NoRule
    requires var below := Below(s.stack);
             && k < |below| && below[|below| - 1 - k].tok.eol
             && forall j :: |below| - k <= j < |below| ==> !below[j].tok.eol
    ensures var below := Below(s.stack);
            Gets(ctx, s, s.(stack := below[..|below| - k], pos := Back(s.pos, k + 1), cur := EmptyToken(s.cur.eol),
                            multi := true))
  {
    hide Choose, Halted, HasEol, AboveEol, Handle, Below, ReduceError, GetRule, Act;
    TopmostEol(Below(s.stack), k);
    GetsPass(ctx, s, Pass(ctx, s));
  }

  /** An end marker above an operand in a parenthesis, no line start around: a bad handle that goes unreported. */
  lemma GoesUnreported(ctx: Ctx, st: Stack, x: Sym, s: PState)
    requires ctx.toks != [] && Plain(st, x) && st[|st| - 1].tok.kind == KLPar && |st| > 1
    requires s.stack == Above(st, x) && IndexOf(s.cur.kind) == IDollar && !s.cur.eol
    ensures var e := ErrorSym(ctx, s.sem, [x, FromToken(s.cur)]);
            var s' := Next(ctx, s.(stack := st + [e], sem := s.sem.UseJunk()));
            && !Halted(s) && Pass(ctx, s) == s' && Gets(ctx, s, s')
            && !e.terminal && !e.handle && !e.tok.eol && IsOperandKind(e.tok.kind)
  {
    hide IndexOf, IsOperandKind, IsBinaryOperator, HasEol;
    Straying.Marks(s.cur.kind);
    Straying.Marks(KLPar);
    NoKindAtEnd(s.cur.kind);
    TopAt(SetFlag(st, true), [x]);
    var y := FromToken(s.cur);
    TwoAbove(st, x, y);
    NoEolTwice(st, x, y);
    assert SetFlag(st, false) == st;
    GetsPass(ctx, s, Pass(ctx, s));
  }

  lemma NoKindAtEnd(k: Kind)
    requires IndexOf(k) == IDollar
    ensures k != KRPar && k != KLPar && !IsOperandKind(k) && !IsBinaryOperator(k)
  {
  }

  lemma NoEolTwice(st: Stack, x: Sym, y: Sym)
    requires !HasEol(st) && !x.tok.eol && !y.tok.eol
    ensures !HasEol(Above(st, x) + [y])
  {
    var r := Above(st, x) + [y];
    assert forall i :: 0 <= i < |st| ==> r[i].tok == st[i].tok;
  }

  // ----- back to the start -----

  /** What stands on the stack: an operand, the operator that starts a line, and the parenthesis. */
  function Unclosed(st: Stack, x: Sym, op: Token, lp: Token): Stack {
    SetFlag(Above(st, x) + [FromToken(op)], true) + [FromToken(lp)]
  }

  lemma KindsHere()
    ensures Opens(KAdd) && Opens(KLPar) && IndexOf(KAdd) == IAddSub && IndexOf(KLPar) == ILPar &&
        IndexOf(KUndefined) == IDollar
    ensures Prec(KLPar, KAdd) == S && Prec(KUndefined, KAdd) == S && Prec(KLPar, KUndefined) == X
  {
  }

  /** An operand, an operator, a parenthesis. */
  lemma ReadsUnclosed(ctx: Ctx, st: Stack, k: nat, sem: Sem)
    requires Waiting(st) && (st[|st| - 1].tok.kind == KLPar || st[|st| - 1].tok.kind == KUndefined)
    requires k + 3 < |ctx.toks| && IsOperandKind(ctx.toks[k].kind) && ctx.toks[k + 1].kind == KAdd
    requires ctx.toks[k + 2].kind == KLPar
    ensures var (s, x) := Fold(ctx, sem, Leaf(ctx.toks[k]));
            var st' := Unclosed(st, x, ctx.toks[k + 1], ctx.toks[k + 2]);
            Waiting(st') && Gets(ctx, At(ctx, st, k, false, sem), At(ctx, st', k + 3, false, s))
  {
    hide Gets, Fold, IndexOf, IsOperandKind, Cell, Opens, Yield;
    KindsHere();
    OperandPasses(ctx, st, k, false, sem);
    var (s, x) := Fold(ctx, sem, Leaf(ctx.toks[k]));
    PassShifts(ctx, st, [x], k + 1, false, s);
    var mid := Above(st, x) + [FromToken(ctx.toks[k + 1])];
    assert Waiting(mid);
    OpeningPasses(ctx, mid, k + 2, false, s);
    var a := At(ctx, st, k, false, sem);
    GetsTrans(ctx, a, At(ctx, st + [x], k + 1, false, s), At(ctx, mid, k + 2, false, s));
    GetsTrans(ctx, a, At(ctx, mid, k + 2, false, s),
              At(ctx, Unclosed(st, x, ctx.toks[k + 1], ctx.toks[k + 2]), k + 3, false, s));
  }

  /** At an end marker the last unclosed part goes. */
  lemma DropsUnclosed(ctx: Ctx, st: Stack, x: Sym, op: Token, lp: Token, y: Sym, s: PState)
    requires ctx.toks != [] && Waiting(st) && op.eol && lp.kind == KLPar && !lp.eol && !y.terminal && !y.tok.eol
    requires s.cur == EmptyToken(false)
    requires s.stack == Unclosed(st, x, op, lp) + [y] || s.stack == Above(Unclosed(st, x, op, lp), y)
    ensures Gets(ctx, s, s.(stack := Above(st, x), pos := Back(s.pos, 4), multi := true))
  {
    hide IndexOf, Cell;
    KindsHere();
    var n := |st|;
    assert |s.stack| == n + 4 && s.stack[n + 1].tok == op && s.stack[n + 2].tok == lp && s.stack[n + 3] == y;
    assert s.stack[..n + 1] == Above(st, x);
    Straying.TopUnique(s.stack, n + 2);
    StepsBack(ctx, s, 3);
  }

  /** From `i` on, `n` times an operand, a `+` that starts a line and `(`; then two operands, the second on a line of
      its own. */
  predicate Unfinished(toks: seq<Token>, i: nat, n: nat) {
    && i + 3 * n + 1 < |toks|
    && (forall j: nat :: j < n ==> Layer(toks, i + 3 * j))
    && IsOperandKind(toks[i + 3 * n].kind) && !toks[i + 3 * n].eol
    && IsOperandKind(toks[i + 3 * n + 1].kind) && toks[i + 3 * n + 1].eol
  }

  predicate Layer(toks: seq<Token>, k: nat) {
    && k + 2 < |toks| && IsOperandKind(toks[k].kind) && !toks[k].eol
    && toks[k + 1].kind == KAdd && toks[k + 1].eol && toks[k + 2].kind == KLPar && !toks[k + 2].eol
  }

  /** The stack and the actions after `n` such parts. */
  function Layers(ctx: Ctx, i: nat, n: nat, sem: Sem): (Stack, Sem)
    requires i + 3 * n <= |ctx.toks|
  {
    if n == 0 then ([DOLLAR], sem) else
      var (st, s) := Layers(ctx, i, n - 1, sem);
      var k := i + 3 * (n - 1);
      var (s', x) := Fold(ctx, s, Leaf(ctx.toks[k]));
      (Unclosed(st, x, ctx.toks[k + 1], ctx.toks[k + 2]), s')
  }

  lemma StartWaiting()
    ensures Waiting([DOLLAR]) && DOLLAR.tok.kind == KUndefined
  {
    EndIndex();
  }

  lemma {:induction false} ReadsLayers(ctx: Ctx, i: nat, n: nat, sem: Sem)
    requires i + 3 * n < |ctx.toks| && forall j: nat :: j < n ==> Layer(ctx.toks, i + 3 * j)
    ensures var (st, s) := Layers(ctx, i, n, sem);
            && Waiting(st) && (st[|st| - 1].tok.kind == KLPar || st[|st| - 1].tok.kind == KUndefined)
            && Gets(ctx, At(ctx, [DOLLAR], i, false, sem), At(ctx, st, i + 3 * n, false, s))
    decreases n
  {
    hide Fold, IndexOf, Pass, IsOperandKind, Opens, Gets, Unclosed, Waiting;
    StartWaiting();
    var a := At(ctx, [DOLLAR], i, false, sem);
    if n == 0 {
      GetsItself(ctx, a);
    } else {
      ReadsLayers(ctx, i, n - 1, sem);
      var (st, s) := Layers(ctx, i, n - 1, sem);
      var k := i + 3 * (n - 1);
      assert Layer(ctx.toks, k);
      LayerRead(ctx, a, st, k, s);
    }
  }

  lemma GetsItself(ctx: Ctx, a: PState)
    requires ctx.toks != [] && Bottomed(a)
    ensures Gets(ctx, a, a)
  {
    assert Run(ctx, a, 0) == a;
  }

  lemma LayerRead(ctx: Ctx, a: PState, st: Stack, k: nat, sem: Sem)
    requires Waiting(st) && (st[|st| - 1].tok.kind == KLPar || st[|st| - 1].tok.kind == KUndefined)
    requires Layer(ctx.toks, k) && k + 3 < |ctx.toks| && Gets(ctx, a, At(ctx, st, k, false, sem))
    ensures var (s, x) := Fold(ctx, sem, Leaf(ctx.toks[k]));
            var st' := Unclosed(st, x, ctx.toks[k + 1], ctx.toks[k + 2]);
            Waiting(st') && st'[|st'| - 1].tok.kind == KLPar && Gets(ctx, a, At(ctx, st', k + 3, false, s))
  {
    hide Gets, Fold, IndexOf, IsOperandKind, Opens;
    ReadsUnclosed(ctx, st, k, sem);
    var (s, x) := Fold(ctx, sem, Leaf(ctx.toks[k]));
    GetsTrans(ctx, a, At(ctx, st, k, false, sem),
              At(ctx, Unclosed(st, x, ctx.toks[k + 1], ctx.toks[k + 2]), k + 3, false, s));
  }

  /** The operand of the last part. */
  function LastOf(ctx: Ctx, i: nat, n: nat, sem: Sem): Sym
    requires n > 0 && i + 3 * n <= |ctx.toks|
  {
    Fold(ctx, Layers(ctx, i, n - 1, sem).1, Leaf(ctx.toks[i + 3 * (n - 1)])).1
  }

  lemma DropsLayer(ctx: Ctx, i: nat, n: nat, sem: Sem, y: Sym, s: PState)
    requires i + 3 * n < |ctx.toks| && n > 0 && forall j: nat :: j < n ==> Layer(ctx.toks, i + 3 * j)
    requires !y.terminal && !y.tok.eol && s.cur == EmptyToken(false) && s.pos >= 4
    requires var st := Layers(ctx, i, n, sem).0; s.stack == st + [y] || s.stack == Above(st, y)
    ensures var st, x := Layers(ctx, i, n - 1, sem).0, LastOf(ctx, i, n, sem);
            && !x.terminal && !x.tok.eol
            && Gets(ctx, s, s.(stack := Above(st, x), pos := s.pos - 4, multi := true))
  {
    hide Fold, IndexOf, Pass, IsOperandKind, Opens, Gets, Unclosed, Above, Waiting;
    ReadsLayers(ctx, i, n - 1, sem);
    var (st, s0) := Layers(ctx, i, n - 1, sem);
    var k := i + 3 * (n - 1);
    assert Layer(ctx.toks, k);
    var x := LastOf(ctx, i, n, sem);
    LeafFolds(ctx, s0, ctx.toks[k]);
    DropsUnclosed(ctx, st, x, ctx.toks[k + 1], ctx.toks[k + 2], y, s);
  }

  /** The end marker takes part after part down to the first operand, each time one token too far back. */
  lemma {:induction false} DropsLayers(ctx: Ctx, i: nat, n: nat, sem: Sem, y: Sym, s: PState)
    requires i + 3 * n < |ctx.toks| && n > 0 && forall j: nat :: j < n ==> Layer(ctx.toks, i + 3 * j)
    requires !y.terminal && !y.tok.eol && s.cur == EmptyToken(false) && s.pos >= 4 * n
    requires var st := Layers(ctx, i, n, sem).0; s.stack == st + [y] || s.stack == Above(st, y)
    ensures Gets(ctx, s, s.(stack := Above([DOLLAR], LastOf(ctx, i, 1, sem)), pos := s.pos - 4 * n, multi := true))
    decreases n
  {
    hide Layers, LastOf, Gets, Above, Layer;
    DropsLayer(ctx, i, n, sem, y, s);
    var x := LastOf(ctx, i, n, sem);
    var mid := s.(stack := Above(Layers(ctx, i, n - 1, sem).0, x), pos := s.pos - 4, multi := true);
    NoLayers(ctx, i, sem);
    if n > 1 {
      DropsLayers(ctx, i, n - 1, sem, x, mid);
      GetsTrans(ctx, s, mid, s.(stack := Above([DOLLAR], LastOf(ctx, i, 1, sem)), pos := s.pos - 4 * n, multi := true));
    }
  }

  lemma NoLayers(ctx: Ctx, i: nat, sem: Sem)
    requires i < |ctx.toks|
    ensures Layers(ctx, i, 0, sem) == ([DOLLAR], sem)
    ensures i + 3 <= |ctx.toks| ==> LastOf(ctx, i, 1, sem) == Fold(ctx, sem, Leaf(ctx.toks[i])).1
  {
    hide Fold;
  }

  lemma LeafFolds(ctx: Ctx, sem: Sem, tok: Token)
    ensures Fold(ctx, sem, Leaf(tok)).1.tok == tok && !Fold(ctx, sem, Leaf(tok)).1.terminal
  {
  }

  /** The last operand, which the next line ends. */
  lemma LastOperand(ctx: Ctx, st: Stack, k: nat, sem: Sem)
    requires Waiting(st) && k + 1 < |ctx.toks| && IsOperandKind(ctx.toks[k].kind)
    requires IsOperandKind(ctx.toks[k + 1].kind) && ctx.toks[k + 1].eol
    ensures var (s, y) := Fold(ctx, sem, Leaf(ctx.toks[k]));
            Gets(ctx, At(ctx, st, k, false, sem), PState(st + [y], k, EmptyToken(false), true, s))
  {
    hide Gets, Fold, IsOperandKind, IndexOf, Opens;
    KindIndex(ctx.toks[k + 1].kind);
    OperandAnywhere(st[|st| - 1].tok.kind, ctx.toks[k]);
    assert Yield(Leaf(ctx.toks[k])) == [ctx.toks[k]];
    ParseLine(ctx, st, k, false, sem, Leaf(ctx.toks[k]));
  }

  /** After `n` unclosed parts the call returns, with nothing but the first operand on its stack and the cursor `n - 2`
      tokens before its own start: from two parts on it has not gone forward at all. */
  lemma ComesBack(ctx: Ctx, pos: nat, n: nat, sem: Sem)
    requires Unfinished(ctx.toks, pos + 1, n) && 0 < n <= pos + 1
    ensures var end := pos + 2 - n;
            var s := Fold(ctx, Layers(ctx, pos + 1, n, sem).1, Leaf(ctx.toks[pos + 1 + 3 * n])).0;
            var (s', e) := VerifyLhs(ctx, s, Fold(ctx, sem, Leaf(ctx.toks[pos + 1])).1);
            Returns(ctx, pos, sem, Outcome(end, ctx.toks[end], s', e))
    ensures Straying.Strayed(ctx.toks, pos, pos + 2 - n) <==> n >= 2
  {
    hide Gets, Fold, IsOperandKind, IndexOf, Opens, Finish, VerifyLhs, Layers, Returns, Halted;
    var i, k := pos + 1, pos + 1 + 3 * n;
    StartWaiting();
    assert Layer(ctx.toks, i + 3 * 0);
    FirstIsOperand(ctx.toks[i].kind);
    ReadsLayers(ctx, i, n, sem);
    var (st, s1) := Layers(ctx, i, n, sem);
    LastOperand(ctx, st, k, s1);
    var (s2, y) := Fold(ctx, s1, Leaf(ctx.toks[k]));
    LeafFolds(ctx, s1, ctx.toks[k]);
    LeafFolds(ctx, sem, ctx.toks[i]);
    var a, b := At(ctx, [DOLLAR], i, false, sem), PState(st + [y], k, EmptyToken(false), true, s2);
    GetsTrans(ctx, a, At(ctx, st, k, false, s1), b);
    DropsLayers(ctx, i, n, sem, y, b);
    NoLayers(ctx, i, sem);
    var x := Fold(ctx, sem, Leaf(ctx.toks[i])).1;
    var c := PState(Above([DOLLAR], x), k - 4 * n, EmptyToken(false), true, s2);
    GetsTrans(ctx, a, b, c);
    BackAtBottom(ctx, x, k - 4 * n, s2);
    CallReturns(ctx, pos, sem, c);
  }

  lemma FirstIsOperand(k: Kind)
    requires IsOperandKind(k)
    ensures IndexOf(k) != IDollar
  {
  }

  // ----- a function keyword in the expression -----

  /** `( ( a ! <new line> ( ( ( b ) ) func f (` from `i` on; the function's name may start a line. */
  predicate KeywordAfterLine(toks: seq<Token>, i: nat) {
    && i + 12 < |toks| && (forall k :: i <= k < i + 11 ==> (toks[k].eol <==> k == i + 4))
    && toks[i].kind == KLPar && toks[i + 1].kind == KLPar && IsOperandKind(toks[i + 2].kind)
    && toks[i + 3].kind == KNotNil && toks[i + 4].kind == KLPar && toks[i + 5].kind == KLPar
    && toks[i + 6].kind == KLPar && IsOperandKind(toks[i + 7].kind) && toks[i + 8].kind == KRPar
    && toks[i + 9].kind == KRPar && toks[i + 10].kind == KFunc && Straying.Named(toks, i + 10)
  }

  function BangAt(toks: seq<Token>, k: nat): Tree
    requires k + 1 < |toks|
  {
    Bang(Leaf(toks[k]), toks[k + 1])
  }

  function ParenAt(toks: seq<Token>, k: nat): Tree
    requires k + 2 < |toks|
  {
    Paren(toks[k], Leaf(toks[k + 1]), toks[k + 2])
  }

  lemma BangThere(ctx: Ctx, k: nat)
    requires k + 2 < |ctx.toks| && IsOperandKind(ctx.toks[k].kind) && ctx.toks[k + 1].kind == KNotNil
    ensures var t := BangAt(ctx.toks, k);
            && t.Bang? && Stratified(t) && Before(ctx, k, t) && |Yield(t)| == 2
            && forall top :: Level(t) >= ContextMin(top)
    ensures !ctx.toks[k].eol && !ctx.toks[k + 1].eol ==> OnLine(Yield(BangAt(ctx.toks, k)))
  {
    hide IsOperandKind, IsBinaryOperator, RightMin;
    var t := BangAt(ctx.toks, k);
    assert Yield(t) == [ctx.toks[k], ctx.toks[k + 1]];
    forall top
      ensures Level(t) >= ContextMin(top)
    {
      OperandAnywhere(top, ctx.toks[k]);
    }
  }

  lemma ParenThere(ctx: Ctx, k: nat)
    requires k + 3 < |ctx.toks| && ctx.toks[k].kind == KLPar && IsOperandKind(ctx.toks[k + 1].kind)
    requires ctx.toks[k + 2].kind == KRPar
    ensures var p := ParenAt(ctx.toks, k);
            p.Paren? && Stratified(p) && Before(ctx, k, p) && Yield(p) == [ctx.toks[k], ctx.toks[k + 1], ctx.toks[k + 2]]
  {
    hide IsOperandKind;
    var p := ParenAt(ctx.toks, k);
    assert Yield(p) == [ctx.toks[k], ctx.toks[k + 1], ctx.toks[k + 2]];
    assert ctx.toks[k..k + 3] == Yield(p);
  }

  lemma BothThere(ctx: Ctx, k: nat)
    requires k + 5 < |ctx.toks| && ctx.toks[k].kind == KLPar && ctx.toks[k + 1].kind == KLPar
    requires IsOperandKind(ctx.toks[k + 2].kind) && ctx.toks[k + 3].kind == KRPar && ctx.toks[k + 4].kind == KRPar
    ensures var p := Paren(ctx.toks[k], ParenAt(ctx.toks, k + 1), ctx.toks[k + 4]);
            Stratified(p) && Before(ctx, k, p) && |Yield(p)| == 5 && Level(p) == 4
  {
    hide IsOperandKind;
    ParenThere(ctx, k + 1);
    var p := Paren(ctx.toks[k], ParenAt(ctx.toks, k + 1), ctx.toks[k + 4]);
    assert Yield(p) == ctx.toks[k..k + 5];
  }

  lemma EndFollows(k: Kind)
    requires IndexOf(k) == IDollar
    ensures FollowMin(k) == 0 && Prec(KRPar, k) == R && Prec(KRPar, KRPar) == R && ContextMin(KLPar) == 0
  {
    ParenMins();
  }

  /** Two parentheses, then an operand with its `!`. */
  lemma ReadsBang(ctx: Ctx, i: nat, sem: Sem)
    requires KeywordAfterLine(ctx.toks, i)
    ensures var s1 := SetFlag([DOLLAR], true) + [FromToken(ctx.toks[i])];
            var s2 := SetFlag(s1, true) + [FromToken(ctx.toks[i + 1])];
            var (s, x) := Fold(ctx, sem, BangAt(ctx.toks, i + 2));
            && Waiting(s1) && Waiting(s2) && Plain(s2, x)
            && Gets(ctx, At(ctx, [DOLLAR], i, false, sem), At(ctx, s2 + [x], i + 4, false, s))
  {
    hide Gets, Fold, IsOperandKind, IndexOf, Opens, Stratified, OnLine, Level, ContextMin, Stand;
    StartWaiting();
    OpeningPasses(ctx, [DOLLAR], i, false, sem);
    var s1 := SetFlag([DOLLAR], true) + [FromToken(ctx.toks[i])];
    OpeningPasses(ctx, s1, i + 1, false, sem);
    var s2 := SetFlag(s1, true) + [FromToken(ctx.toks[i + 1])];
    BangThere(ctx, i + 2);
    assert forall j :: 0 <= j < |s2| ==> !s2[j].tok.eol;
    BangEdge(ctx, s2, i + 2, sem, BangAt(ctx.toks, i + 2));
    var (s, x) := Fold(ctx, sem, BangAt(ctx.toks, i + 2));
    var a := At(ctx, [DOLLAR], i, false, sem);
    GetsTrans(ctx, a, At(ctx, s1, i + 1, false, sem), At(ctx, s2, i + 2, false, sem));
    GetsTrans(ctx, a, At(ctx, s2, i + 2, false, sem), At(ctx, s2 + [x], i + 4, false, s));
  }

  /** The parenthesis on the next line, its contents, and back over both at the keyword. */
  lemma BackFromKeyword(ctx: Ctx, i: nat, st: Stack, x: Sym, sem: Sem)
    requires KeywordAfterLine(ctx.toks, i) && Plain(st, x)
    ensures var p := Paren(ctx.toks[i + 5], ParenAt(ctx.toks, i + 6), ctx.toks[i + 9]);
            Gets(ctx, At(ctx, st + [x], i + 4, false, sem),
                 PState(Above(st, x), i + 7, EmptyToken(false), true, Fold(ctx, sem, p).0))
  {
    hide Gets, Fold, IsOperandKind, IndexOf, Opens, Stratified, OnLine, Stand, HasEol, Cell, Level, FollowMin, ContextMin,
         Yield, Prec;
    Straying.Marks(KFunc);
    EndFollows(KFunc);
    ShiftsAbove(ctx, st, x, i + 4, false, sem);
    WaitsAfterOpening(st, x, ctx.toks[i + 4]);
    var st3 := Above(st, x) + [FromToken(ctx.toks[i + 4])];
    TopOfSnoc(Above(st, x), FromToken(ctx.toks[i + 4]));
    BothThere(ctx, i + 5);
    var p := Paren(ctx.toks[i + 5], ParenAt(ctx.toks, i + 6), ctx.toks[i + 9]);
    ParseTree(ctx, st3, i + 5, false, sem, p);
    var (s', e) := Fold(ctx, sem, p);
    FoldOfParen(ctx, sem, p);
    var s := At(ctx, st3 + [e], i + 10, false, s');
    var a := At(ctx, st + [x], i + 4, false, sem);
    GetsTrans(ctx, a, At(ctx, st3, i + 5, false, sem), s);
    assert st3 + [e] == Above(st, x) + [FromToken(ctx.toks[i + 4]), e];
    KeywordConflicts(ctx, Above(st, x), ctx.toks[i + 4], e, s);
    OnBottom(st, x, FromToken(ctx.toks[i + 4]));
    StepsBack(ctx, s, 2);
    assert s.stack[..|s.stack| - 2] == Above(st, x);
    GetsTrans(ctx, a, s, PState(Above(st, x), i + 7, EmptyToken(false), true, s'));
  }

  lemma KeywordConflicts(ctx: Ctx, st: Stack, lp: Token, e: Sym, s: PState)
    requires lp.kind == KLPar && !e.terminal && s.stack == st + [FromToken(lp), e] && s.cur.kind == KFunc
    ensures Choose(s) == X && !Halted(s)
  {
    hide IndexOf;
    Straying.Marks(KFunc);
    Straying.TopUnique(s.stack, |st|);
  }

  /** The parentheses closed around what the bad handle has left. */
  lemma ClosesBoth(ctx: Ctx, i: nat, e: Sym, k: nat, sem: Sem) returns (last: Sym)
    requires i + 1 < |ctx.toks| && ctx.toks[i].kind == KLPar && ctx.toks[i + 1].kind == KLPar && !e.terminal && !e.handle
    requires k + 2 < |ctx.toks| && ctx.toks[k].kind == KRPar && ctx.toks[k + 1].kind == KRPar
    requires IndexOf(ctx.toks[k + 2].kind) == IDollar
    ensures var s1 := SetFlag([DOLLAR], true) + [FromToken(ctx.toks[i])];
            var s2 := SetFlag(s1, true) + [FromToken(ctx.toks[i + 1])];
            Gets(ctx, At(ctx, s2 + [e], k, true, sem), At(ctx, [DOLLAR, last], k + 2, true, sem))
    ensures !last.terminal && last.ty == e.ty
  {
    hide Gets, IndexOf, Opens, Cell, Prec;
    StartWaiting();
    OpensHere(ctx.toks[i]);
    EndFollows(ctx.toks[k + 2].kind);
    var s1 := SetFlag([DOLLAR], true) + [FromToken(ctx.toks[i])];
    var s2 := SetFlag(s1, true) + [FromToken(ctx.toks[i + 1])];
    ClosingPasses(ctx, s1, ctx.toks[i + 1], e, k, true, sem);
    var e1 := Parenthesis(e);
    ClosingPasses(ctx, [DOLLAR], ctx.toks[i], e1, k + 1, true, sem);
    last := Parenthesis(e1);
    assert [DOLLAR] + [last] == [DOLLAR, last];
    GetsTrans(ctx, At(ctx, s2 + [e], k, true, sem), At(ctx, s1 + [e1], k + 1, true, sem),
              At(ctx, [DOLLAR, last], k + 2, true, sem));
  }

  lemma OpensHere(lp: Token)
    requires lp.kind == KLPar
    ensures Waiting(SetFlag([DOLLAR], true) + [FromToken(lp)])
  {
    EndIndex();
  }

  /** With a well-formed header after it the keyword is still stepped over, on leaving the loop: the call returns
      without an error of its own and the cursor on the function's name. */
  lemma StepsOverKeyword(ctx: Ctx, pos: nat, sem: Sem) returns (out: Outcome)
    requires KeywordAfterLine(ctx.toks, pos + 1)
    ensures Returns(ctx, pos, sem, out) && out.pos == pos + 12 && ctx.toks[out.pos - 1].kind == KFunc
    ensures Straying.Strayed(ctx.toks, pos, out.pos) && out.result.ty == Undefined
    ensures var i := pos + 1;
            var p := Paren(ctx.toks[i + 5], ParenAt(ctx.toks, i + 6), ctx.toks[i + 9]);
            out.sem.err == Fold(ctx, Fold(ctx, sem, BangAt(ctx.toks, i + 2)).0, p).0.err
  {
    hide Gets, Fold, IsOperandKind, IndexOf, Opens, Finish, VerifyLhs, Returns, Halted, HasEol, ErrorSym;
    var i := pos + 1;
    StartWaiting();
    Straying.Marks(KFunc);
    ReadsBang(ctx, i, sem);
    var s1 := SetFlag([DOLLAR], true) + [FromToken(ctx.toks[i])];
    var s2 := SetFlag(s1, true) + [FromToken(ctx.toks[i + 1])];
    var (sa, x) := Fold(ctx, sem, BangAt(ctx.toks, i + 2));
    BackFromKeyword(ctx, i, s2, x, sa);
    var p := Paren(ctx.toks[i + 5], ParenAt(ctx.toks, i + 6), ctx.toks[i + 9]);
    var sb := Fold(ctx, sa, p).0;
    var back := PState(Above(s2, x), i + 7, EmptyToken(false), true, sb);
    GoesUnreported(ctx, s2, x, back);
    var e := ErrorSym(ctx, sb, [x, FromToken(back.cur)]);
    ErrorUntyped(ctx, sb, [x, FromToken(back.cur)]);
    var again := At(ctx, s2 + [e], i + 8, true, sb.UseJunk());
    var last := ClosesBoth(ctx, i, e, i + 8, sb.UseJunk());
    var stop := At(ctx, [DOLLAR, last], i + 10, true, sb.UseJunk());
    var a := At(ctx, [DOLLAR], i, false, sem);
    GetsTrans(ctx, a, At(ctx, s2 + [x], i + 4, false, sa), back);
    GetsTrans(ctx, a, back, again);
    GetsTrans(ctx, a, again, stop);
    ReadOutAfter(ctx, last, i + 10, sb.UseJunk());
    OpeningIsNoEnd(ctx.toks[i].kind);
    CallReturns(ctx, pos, sem, stop);
    out := Finish(ctx, stop);
  }

  lemma ErrorUntyped(ctx: Ctx, sem: Sem, h: Stack)
    ensures ErrorSym(ctx, sem, h).ty == Undefined
  {
  }

  lemma OpeningIsNoEnd(k: Kind)
    requires k == KLPar
    ensures IndexOf(k) != IDollar
  {
  }

  lemma ReadOutAfter(ctx: Ctx, e: Sym, k: nat, sem: Sem)
    requires k + 1 < |ctx.toks| && !e.terminal && IndexOf(ctx.toks[k].kind) == IDollar
    ensures var s := At(ctx, [DOLLAR, e], k, true, sem);
            Halted(s) && Finish(ctx, s).pos == k + 1 && Finish(ctx, s).sem.err == sem.err
            && (e.ty != Integer ==> Finish(ctx, s).result.ty == e.ty)
  {
    hide IndexOf;
    EndIndex();
    TopAt([DOLLAR], [e]);
    assert [DOLLAR] + [e] == [DOLLAR, e];
  }

  /** `( a ! ( b ) func )`, then an end marker, from `i` on. */
  predicate KeywordInParentheses(toks: seq<Token>, i: nat) {
    && i + 8 < |toks| && (forall k :: i <= k < i + 9 ==> !toks[k].eol)
    && toks[i].kind == KLPar && IsOperandKind(toks[i + 1].kind) && toks[i + 2].kind == KNotNil
    && toks[i + 3].kind == KLPar && IsOperandKind(toks[i + 4].kind) && toks[i + 5].kind == KRPar
    && toks[i + 6].kind == KFunc && toks[i + 7].kind == KRPar && IndexOf(toks[i + 8].kind) == IDollar
  }

  /** A conflict at a bad handle that the diagnosis knows nothing about. */
  lemma ConflictUnreported(ctx: Ctx, s: PState, h: Stack, st: Stack)
    requires ctx.toks != [] && Bottomed(s) && !Halted(s) && Choose(s) == X
    requires var all := s.stack + [FromToken(s.cur)];
             !HasEol(all) && Handle(all) == h && Below(all) == st && !Diagnosed(h)
    ensures Gets(ctx, s, Next(ctx, s.(stack := st + [ErrorSym(ctx, s.sem, h)], sem := s.sem.UseJunk())))
  {
    hide Choose, Halted, HasEol, Handle, Below, Diagnosed, ErrorSym, AboveEol;
    GetsPass(ctx, s, Pass(ctx, s));
  }

  /** An end marker above an operand and a parenthesised expression goes unreported too. */
  lemma ThreeUnreported(ctx: Ctx, st: Stack, x: Sym, p: Sym, s: PState)
    requires ctx.toks != [] && Plain(st, x) && st[|st| - 1].tok.kind == KLPar && |st| > 1
    requires !p.terminal && !p.handle && p.tok == EmptyToken(false)
    requires s.stack == Above(st, x) + [p] && IndexOf(s.cur.kind) == IDollar && !s.cur.eol
    ensures var e := ErrorSym(ctx, s.sem, [x, p, FromToken(s.cur)]);
            && Gets(ctx, s, Next(ctx, s.(stack := st + [e], sem := s.sem.UseJunk())))
            && !e.terminal && !e.handle
  {
    hide IndexOf, IsOperandKind, HasEol, Gets, Handle, Below, Diagnosed;
    Straying.Marks(KLPar);
    Straying.TopUnique(s.stack, |st| - 1);
    var y := FromToken(s.cur);
    var h := [x, p, y];
    assert s.stack + [y] == SetFlag(st, true) + h;
    HandleAbove(st, true, h);
    NoEolTwice(st, x, p);
    NoEolSnoc(s.stack, y);
    OperandThenNothing(x, p, y);
    ConflictUnreported(ctx, s, h, st);
  }

  lemma OperandThenNothing(x: Sym, p: Sym, y: Sym)
    requires IsOperandKind(x.tok.kind) && p.tok == EmptyToken(false)
    ensures !Diagnosed([x, p, y])
  {
    EmptyIsNothing();
  }

  lemma NoEolSnoc(st: Stack, y: Sym)
    requires !HasEol(st) && !y.tok.eol
    ensures !HasEol(st + [y])
  {
  }

  lemma EmptyIsNothing()
    ensures !IsOperandKind(KUndefined) && !IsBinaryOperator(KUndefined)
  {
  }

  /** Without a name and a parenthesis after it, a pass of the loop steps over the keyword: the call returns behind the
      closing parenthesis, with no error of its own. */
  lemma PassesOverKeyword(ctx: Ctx, pos: nat, sem: Sem) returns (out: Outcome)
    requires KeywordInParentheses(ctx.toks, pos + 1)
    ensures Returns(ctx, pos, sem, out) && out.pos == pos + 9 && ctx.toks[pos + 7].kind == KFunc
    ensures var i := pos + 1;
            out.sem.err == Fold(ctx, Fold(ctx, sem, BangAt(ctx.toks, i + 1)).0, ParenAt(ctx.toks, i + 3)).0.err
  {
    hide Gets, Fold, IsOperandKind, IndexOf, Opens, Finish, VerifyLhs, Returns, Halted, HasEol, ErrorSym, Stratified,
         Stand, OnLine, Yield, Cell, ContextMin, Prec;
    var i := pos + 1;
    StartWaiting();
    Straying.Marks(KFunc);
    EndFollows(KFunc);
    EndFollows(ctx.toks[i + 8].kind);
    OpeningPasses(ctx, [DOLLAR], i, false, sem);
    var s1 := SetFlag([DOLLAR], true) + [FromToken(ctx.toks[i])];
    NoEolInOne(ctx.toks[i]);
    BangThere(ctx, i + 1);
    BangEdge(ctx, s1, i + 1, sem, BangAt(ctx.toks, i + 1));
    var (sa, x) := Fold(ctx, sem, BangAt(ctx.toks, i + 1));
    var p := ParenAt(ctx.toks, i + 3);
    ParenThere(ctx, i + 3);
    ParenAbove(ctx, s1, x, i + 3, false, sa, p);
    var (sb, y) := Fold(ctx, sa, p);
    FoldOfParen(ctx, sa, p);
    var there := At(ctx, Above(s1, x) + [y], i + 6, false, sb);
    ThreeUnreported(ctx, s1, x, y, there);
    var e := ErrorSym(ctx, sb, [x, y, FromToken(there.cur)]);
    var after := At(ctx, s1 + [e], i + 7, false, sb.UseJunk());
    ClosingPasses(ctx, [DOLLAR], ctx.toks[i], e, i + 7, false, sb.UseJunk());
    var last := Parenthesis(e);
    assert [DOLLAR] + [last] == [DOLLAR, last];
    var stop := At(ctx, [DOLLAR, last], i + 8, false, sb.UseJunk());
    var a := At(ctx, [DOLLAR], i, false, sem);
    GetsTrans(ctx, a, At(ctx, s1, i + 1, false, sem), At(ctx, s1 + [x], i + 3, false, sa));
    GetsTrans(ctx, a, At(ctx, s1 + [x], i + 3, false, sa), there);
    GetsTrans(ctx, a, there, after);
    GetsTrans(ctx, a, after, stop);
    ErrorKept(ctx, last, i + 8, sb.UseJunk());
    OpeningIsNoEnd(ctx.toks[i].kind);
    CallReturns(ctx, pos, sem, stop);
    out := Finish(ctx, stop);
  }

  lemma NoEolInOne(lp: Token)
    requires !lp.eol
    ensures !HasEol(SetFlag([DOLLAR], true) + [FromToken(lp)])
  {
  }

  lemma ErrorKept(ctx: Ctx, e: Sym, k: nat, sem: Sem)
    requires k < |ctx.toks| && !e.terminal && IndexOf(ctx.toks[k].kind) == IDollar
    ensures var s := At(ctx, [DOLLAR, e], k, false, sem);
            Halted(s) && Finish(ctx, s).pos == k && Finish(ctx, s).sem.err == sem.err
  {
    hide IndexOf;
    EndIndex();
    TopAt([DOLLAR], [e]);
    assert [DOLLAR] + [e] == [DOLLAR, e];
  }

  // ----- an operation cut off -----

  /** `<new line> a + * <new line> b`, then an end marker, from `i` on. */
  predicate TwoOperators(toks: seq<Token>, i: nat) {
    && i + 4 < |toks| && IsOperandKind(toks[i].kind) && toks[i].eol
    && toks[i + 1].kind == KAdd && !toks[i + 1].eol && toks[i + 2].kind == KMul && !toks[i + 2].eol
    && IsOperandKind(toks[i + 3].kind) && IndexOf(toks[i + 4].kind) == IDollar && !toks[i + 4].eol
  }

  /** The first operand, both operators, the second operand. */
  lemma ReadsOperators(ctx: Ctx, i: nat, sem: Sem)
    requires TwoOperators(ctx.toks, i)
    ensures var (s1, x) := Fold(ctx, sem, Leaf(ctx.toks[i]));
            var (s2, y) := Fold(ctx, s1, Leaf(ctx.toks[i + 3]));
            var st := Above([DOLLAR], x) + [FromToken(ctx.toks[i + 1])];
            && Waiting(st) && x.tok == ctx.toks[i]
            && Gets(ctx, At(ctx, [DOLLAR], i, false, sem),
                    At(ctx, SetFlag(st, true) + [FromToken(ctx.toks[i + 2])] + [y], i + 4, false, s2))
  {
    hide Gets, Fold, IsOperandKind, IndexOf, Opens, Cell, Prec;
    StartWaiting();
    OperatorsHere();
    EndIsNone(ctx.toks[i + 4].kind);
    OperandPasses(ctx, [DOLLAR], i, false, sem);
    var (s1, x) := Fold(ctx, sem, Leaf(ctx.toks[i]));
    LeafFolds(ctx, sem, ctx.toks[i]);
    PassShifts(ctx, [DOLLAR], [x], i + 1, false, s1);
    var st1 := Above([DOLLAR], x) + [FromToken(ctx.toks[i + 1])];
    assert st1 + [] == st1 && SetFlag(st1, true) + [] == SetFlag(st1, true);
    PassShifts(ctx, st1, [], i + 2, false, s1);
    var st2 := SetFlag(st1, true) + [FromToken(ctx.toks[i + 2])];
    OperandPasses(ctx, st2, i + 3, false, s1);
    var (s2, y) := Fold(ctx, s1, Leaf(ctx.toks[i + 3]));
    var a := At(ctx, [DOLLAR], i, false, sem);
    GetsTrans(ctx, a, At(ctx, [DOLLAR] + [x], i + 1, false, s1), At(ctx, st1, i + 2, false, s1));
    GetsTrans(ctx, a, At(ctx, st1, i + 2, false, s1), At(ctx, st2, i + 3, false, s1));
    GetsTrans(ctx, a, At(ctx, st2, i + 3, false, s1), At(ctx, st2 + [y], i + 4, false, s2));
  }

  /** The call reports nothing: it goes back to the second line and returns the first operand alone, with the code of
      both emitted. */
  lemma CutsOperation(ctx: Ctx, pos: nat, sem: Sem)
    requires TwoOperators(ctx.toks, pos + 1)
    ensures var i := pos + 1;
            var (s1, x) := Fold(ctx, sem, Leaf(ctx.toks[i]));
            var s2 := Fold(ctx, s1, Leaf(ctx.toks[i + 3])).0;
            var (s', e) := VerifyLhs(ctx, s2, x);
            Returns(ctx, pos, sem, Outcome(i + 3, ctx.toks[i + 3], s', e))
  {
    hide Gets, Fold, IsOperandKind, IndexOf, Finish, VerifyLhs, Returns, Halted, Waiting;
    var i := pos + 1;
    ReadsOperators(ctx, i, sem);
    var (s1, x) := Fold(ctx, sem, Leaf(ctx.toks[i]));
    var (s2, y) := Fold(ctx, s1, Leaf(ctx.toks[i + 3]));
    var st := Above([DOLLAR], x) + [FromToken(ctx.toks[i + 1])];
    var s := At(ctx, SetFlag(st, true) + [FromToken(ctx.toks[i + 2])] + [y], i + 4, false, s2);
    CutsHere(ctx, st, ctx.toks[i + 2], y, s);
    assert st[..2] == Above([DOLLAR], x);
    var back := PState(Above([DOLLAR], x), i + 2, EmptyToken(false), true, s2);
    GetsTrans(ctx, At(ctx, [DOLLAR], i, false, sem), s, back);
    BackAtBottom(ctx, x, i + 2, s2);
    FirstIsOperand(ctx.toks[i].kind);
    CallReturns(ctx, pos, sem, back);
  }

  lemma OperatorsHere()
    ensures Opens(KAdd) && Opens(KMul) && IndexOf(KAdd) == IAddSub && IndexOf(KMul) == IMulDiv
    ensures Prec(KUndefined, KAdd) == S && Prec(KAdd, KMul) == S
  {
  }

  lemma EndIsNone(k: Kind)
    requires IndexOf(k) == IDollar
    ensures Prec(KMul, k) == R && IndexOf(k) != IOperand && IndexOf(k) != ILPar
  {
  }

  /** An operator and its right operand, the left one missing. */
  lemma CutsHere(ctx: Ctx, st: Stack, op: Token, y: Sym, s: PState)
    requires ctx.toks != [] && Waiting(st) && |st| == 3 && op.kind == KMul && !y.terminal && !y.handle
    requires s.stack == SetFlag(st, true) + [FromToken(op)] + [y] && IndexOf(s.cur.kind) == IDollar && !s.cur.eol
    requires st[1].tok.eol && !st[2].tok.eol
    ensures Gets(ctx, s, s.(stack := st[..2], pos := Back(s.pos, 2), cur := EmptyToken(false), multi := true))
  {
    hide IndexOf, Opens, Cell;
    OperatorsHere();
    EndIsNone(s.cur.kind);
    Straying.TopUnique(s.stack, 3);
    var h := [FromToken(op), y];
    assert s.stack == SetFlag(st, true) + h;
    HandleAbove(st, true, h);
    assert GetRule(h) == NoRule;
    CutsBack(ctx, s, 1);
  }

  // ----- no return at all -----

  /** An operand in a parenthesis, before a call on the next line. */
  predicate Stuck(ctx: Ctx, st: Stack, x: Sym, k: nat, s: PState) {
    && Plain(st, x) && |st| > 1 && st[|st| - 1].tok.kind == KLPar && 0 < k && CallOnNextLine(ctx.toks, k)
    && s.stack == st + [x] && s.pos == k && s.cur == ctx.toks[k]
  }

  lemma ShiftsOne(ctx: Ctx, st: Stack, x: Sym, k: nat, s: PState)
    requires Stuck(ctx, st, x, k, s)
    ensures Bottomed(s) && !Halted(s)
    ensures Pass(ctx, s) == At(ctx, Above(st, x) + [FromToken(ctx.toks[k])], k + 1, s.multi, s.sem)
  {
    hide IndexOf, IsOperandKind, HasEol, StartsCall, Cell, Opens;
    OpensShift(st[|st| - 1].tok.kind, ctx.toks[k].kind);
    Straying.Marks(KLPar);
    TopAt(st, [x]);
    assert Flagged(st + [x]) == Above(st, x);
  }

  /** Three passes lead back to such a state. */
  lemma StuckAgain(ctx: Ctx, st: Stack, x: Sym, k: nat, s: PState) returns (x': Sym)
    requires Stuck(ctx, st, x, k, s)
    ensures ctx.toks != []
    ensures var s1 := Pass(ctx, s);
            && Bottomed(s) && !Halted(s) && s1.stack != [] && !Halted(s1)
            && var s2 := Pass(ctx, s1); s2.stack != [] && !Halted(s2) && Stuck(ctx, st, x', k, Pass(ctx, s2))
  {
    hide Pass, Halted, IndexOf, HasEol, StartsCall, IsOperandKind, Opens, ErrorSym;
    ShiftsOne(ctx, st, x, k, s);
    GoesBack(ctx, st, x, k, s.multi, s.sem);
    var s2 := PState(Above(st, x), k - 1, EmptyToken(false), true, s.sem);
    Straying.Marks(KFunc);
    GoesUnreported(ctx, st, x, s2);
    x' := ErrorSym(ctx, s2.sem, [x, FromToken(s2.cur)]);
  }

  lemma {:induction false} StuckForever(ctx: Ctx, st: Stack, x: Sym, k: nat, s: PState, n: nat)
    requires Stuck(ctx, st, x, k, s)
    ensures Bottomed(s) && !Halted(Run(ctx, s, n))
    decreases n
  {
    hide Pass, Stuck, Halted;
    var x' := StuckAgain(ctx, st, x, k, s);
    PassKeepsBottom(ctx, s);
    var s1 := Pass(ctx, s);
    PassKeepsBottom(ctx, s1);
    var s2 := Pass(ctx, s1);
    PassKeepsBottom(ctx, s2);
    if n >= 3 {
      StuckForever(ctx, st, x', k, Pass(ctx, s2), n - 3);
      assert Run(ctx, s, n) == Run(ctx, s1, n - 1);
      assert Run(ctx, s1, n - 1) == Run(ctx, s2, n - 2);
      assert Run(ctx, s2, n - 2) == Run(ctx, Pass(ctx, s2), n - 3);
    } else if n == 2 {
      assert Run(ctx, s, 2) == Run(ctx, s1, 1) == Run(ctx, s2, 0);
    } else if n == 1 {
      assert Run(ctx, s, 1) == Run(ctx, s1, 0);
    }
  }

  /** A state on the way of a call that returns leads to a stopped state. */
  lemma RunOfCall(ctx: Ctx, pos: nat, sem: Sem, out: Outcome, n: nat, s: PState)
    requires pos + 1 < |ctx.toks| && IndexOf(ctx.toks[pos + 1].kind) != IDollar
    requires Gets(ctx, Start(ctx, pos, sem), s) && ReturnsIn(ctx, pos, sem, out, n)
    ensures Halted(Run(ctx, s, n + 1))
  {
    hide Pass, Finish, IndexOf, Halted;
    var s0 := Start(ctx, pos, sem);
    var m: nat :| Run(ctx, s0, m) == s;
    PassKeepsBottom(ctx, s0);
    StartRuns(ctx, pos, sem);
    assert Run(ctx, s0, n + 1) == Loop(ctx, s0, n);
    RunStays(ctx, s0, n + 1, m);
    RunCompose(ctx, s0, m, n + 1);
  }

  /** From `i` on, `m` opening parentheses on one line. */
  predicate Openings(toks: seq<Token>, i: nat, m: nat) {
    i + m <= |toks| && forall k :: i <= k < i + m ==> toks[k].kind == KLPar && !toks[k].eol
  }

  lemma {:induction false} ReadsOpenings(ctx: Ctx, i: nat, m: nat, sem: Sem) returns (st: Stack)
    requires i + m < |ctx.toks| && Openings(ctx.toks, i, m)
    ensures Waiting(st) && !HasEol(st) && |st| == m + 1 && (m > 0 ==> st[m].tok.kind == KLPar) && (m == 0 ==> st == [DOLLAR])
    ensures Gets(ctx, At(ctx, [DOLLAR], i, false, sem), At(ctx, st, i + m, false, sem))
    decreases m
  {
    hide Gets, Opens, HasEol;
    StartWaiting();
    NoEolAtBottom();
    if m == 0 {
      st := [DOLLAR];
      GetsItself(ctx, At(ctx, st, i, false, sem));
    } else {
      var below := ReadsOpenings(ctx, i, m - 1, sem);
      OpeningPasses(ctx, below, i + m - 1, false, sem);
      st := SetFlag(below, true) + [FromToken(ctx.toks[i + m - 1])];
      NoEolOpened(below, ctx.toks[i + m - 1]);
      GetsTrans(ctx, At(ctx, [DOLLAR], i, false, sem), At(ctx, below, i + m - 1, false, sem),
                At(ctx, st, i + m, false, sem));
    }
  }

  lemma NoEolOpened(st: Stack, lp: Token)
    requires !HasEol(st) && !lp.eol
    ensures !HasEol(SetFlag(st, true) + [FromToken(lp)])
  {
    var r := SetFlag(st, true) + [FromToken(lp)];
    assert forall j :: 0 <= j < |st| ==> r[j].tok == st[j].tok;
  }

  lemma ChainAnywhere(t: Tree, top: Kind)
    requires t.Bang? && Stratified(t)
    ensures Level(t) >= ContextMin(top)
  {
    hide IsBinaryOperator, IndexOf, IsRelational;
  }

  /** In parentheses the call never returns. */
  lemma LineInParenthesesDiverges(ctx: Ctx, pos: nat, m: nat, sem: Sem, t: Tree, out: Outcome)
    requires m > 0 && Openings(ctx.toks, pos + 1, m) && t.Bang? && Stratified(t) && OnLine(Yield(t))
    requires Before(ctx, pos + 1 + m, t) && CallOnNextLine(ctx.toks, pos + 1 + m + |Yield(t)|)
    ensures !Returns(ctx, pos, sem, out)
  {
    hide Pass, Gets, Finish, IndexOf, Fold, Stratified, OnLine, Stand, HasEol, Halted, Level, ContextMin, StartsCall, Opens;
    StartWaiting();
    var st := ReadsOpenings(ctx, pos + 1, m, sem);
    ChainAnywhere(t, st[m].tok.kind);
    BangEdge(ctx, st, pos + 1 + m, sem, t);
    var (s', x) := Fold(ctx, sem, t);
    var k := pos + 1 + m + |Yield(t)|;
    var a, s := Start(ctx, pos, sem), At(ctx, st + [x], k, false, s');
    GetsTrans(ctx, a, At(ctx, st, pos + 1 + m, false, sem), s);
    OpeningIsNoEnd(ctx.toks[pos + 1].kind);
    if n: nat :| ReturnsIn(ctx, pos, sem, out, n) {
      RunOfCall(ctx, pos, sem, out, n, s);
      StuckForever(ctx, st, x, k, s, n + 1);
    }
  }

  /** Opening parentheses, an operand with its `!`, and a call on the next line: the call of the expression parser
      returns exactly when there is no parenthesis. */
  lemma LineReturnsOutsideOnly(ctx: Ctx, pos: nat, m: nat, sem: Sem, t: Tree)
    requires Openings(ctx.toks, pos + 1, m) && t.Bang? && Stratified(t) && OnLine(Yield(t))
    requires Before(ctx, pos + 1 + m, t) && CallOnNextLine(ctx.toks, pos + 1 + m + |Yield(t)|)
    ensures (exists out :: Returns(ctx, pos, sem, out)) <==> m == 0
  {
    hide Returns, Stratified, OnLine, Stand, CallOnNextLine;
    if m == 0 {
      BangLineReturns(ctx, pos, sem, t);
    }
    if out :| Returns(ctx, pos, sem, out) {
      if m > 0 {
        LineInParenthesesDiverges(ctx, pos, m, sem, t, out);
      }
    }
  }
}
