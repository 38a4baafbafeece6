/** The table-driven loop parses every sentence of the stratified grammar: it consumes exactly the tokens of
    the tree and performs the tree's actions in post-order. */
module Completeness {
  import opened Tokens
  import opened Semantics
  import opened Precedence
  import opened ExprParsing
  import opened Grammar

  /** A state whose current token is the one under the cursor. */
  function At(ctx: Ctx, st: Stack, pos: nat, multi: bool, sem: Sem): PState {
    PState(st, pos, if pos < |ctx.toks| then ctx.toks[pos] else EmptyToken(false), multi, sem)
  }

  /** Some number of passes leads from `s` to `s'`. */
  ghost predicate Gets(ctx: Ctx, s: PState, s': PState) {
    ctx.toks != [] && Bottomed(s) && Bottomed(s') && exists n: nat :: Run(ctx, s, n) == s'
  }

  lemma {:induction false} RunCompose(ctx: Ctx, s: PState, n: nat, k: nat)
    requires ctx.toks != [] && Bottomed(s)
    ensures Run(ctx, s, n + k) == Run(ctx, Run(ctx, s, n), k)
    decreases n
  {
    hide Pass;
    if n > 0 && !Halted(s) {
      PassKeepsBottom(ctx, s);
      RunCompose(ctx, Pass(ctx, s), n - 1, k);
    }
  }

  lemma GetsTrans(ctx: Ctx, a: PState, b: PState, c: PState)
    requires Gets(ctx, a, b) && Gets(ctx, b, c)
    ensures Gets(ctx, a, c)
  {
    hide Pass;
    var n: nat :| Run(ctx, a, n) == b;
    var k: nat :| Run(ctx, b, k) == c;
    RunCompose(ctx, a, n, k);
    assert Run(ctx, a, n + k) == c;
  }

  lemma GetsPass(ctx: Ctx, a: PState, b: PState)
    requires ctx.toks != [] && Bottomed(a) && !Halted(a) && Pass(ctx, a) == b
    ensures Gets(ctx, a, b)
  {
    hide Pass;
    PassKeepsBottom(ctx, a);
    assert Run(ctx, b, 0) == b;
    assert Run(ctx, a, 1) == b;
  }

  /** A stack that waits for an operand or a parenthesis. */
  predicate Waiting(st: Stack) {
    && st != [] && st[0].(handle := false) == DOLLAR
    && var top := st[|st| - 1]; top.terminal && !top.handle && Opens(top.tok.kind)
  }

  lemma TopAt(st: Stack, tail: Stack)
    requires st != [] && st[|st| - 1].terminal
    requires forall i :: 0 <= i < |tail| ==> !tail[i].terminal
    ensures TopTerminal(st + tail) == |st| - 1
  {
    var all := st + tail;
    assert all[|st| - 1].terminal;
    assert forall j :: |st| <= j < |all| ==> all[j] == tail[j - |st|];
  }

  /** After an operator the stack waits again. */
  lemma WaitsAfterOperator(st: Stack, flag: bool, x: Sym, op: Token)
    requires Waiting(st) && IsBinaryOperator(op.kind)
    ensures var inner := SetFlag(st, flag) + [x, FromToken(op)];
            Waiting(inner) && inner[|inner| - 1].tok == op
  {
  }

  function SetFlag(st: Stack, b: bool): Stack {
    if st == [] then st else st[..|st| - 1] + [st[|st| - 1].(handle := b)]
  }

  /** Shifting the current token above `st + tail`, whose topmost terminal is the last symbol of `st`. */
  lemma PassShifts(ctx: Ctx, st: Stack, tail: Stack, pos: nat, multi: bool, sem: Sem)
    requires Waiting(st) && pos + 1 < |ctx.toks|
    requires forall i :: 0 <= i < |tail| ==> !tail[i].terminal
    requires Prec(st[|st| - 1].tok.kind, ctx.toks[pos].kind) == S
    requires IndexOf(ctx.toks[pos].kind) != IDollar
    ensures var a := At(ctx, st + tail, pos, multi, sem);
            var b := At(ctx, SetFlag(st, true) + tail + [FromToken(ctx.toks[pos])], pos + 1, multi, sem);
            Gets(ctx, a, b)
  {
    hide Run, Cell, IndexOf, Conflict;
    var a := At(ctx, st + tail, pos, multi, sem);
    TopAt(st, tail);
    assert Flagged(st + tail) == SetFlag(st, true) + tail;
    GetsPass(ctx, a, At(ctx, SetFlag(st, true) + tail + [FromToken(ctx.toks[pos])], pos + 1, multi, sem));
  }

  /** The same without flagging: relation after relation, and `)` after `(`. */
  lemma PassEqualShifts(ctx: Ctx, st: Stack, tail: Stack, pos: nat, multi: bool, sem: Sem)
    requires Waiting(st) && pos + 1 < |ctx.toks|
    requires forall i :: 0 <= i < |tail| ==> !tail[i].terminal
    requires Prec(st[|st| - 1].tok.kind, ctx.toks[pos].kind) == E
    requires IndexOf(ctx.toks[pos].kind) != IDollar
    ensures var a := At(ctx, st + tail, pos, multi, sem);
            var b := At(ctx, st + tail + [FromToken(ctx.toks[pos])], pos + 1, multi, sem);
            Gets(ctx, a, b)
  {
    hide Run, Cell, IndexOf, Conflict;
    var a := At(ctx, st + tail, pos, multi, sem);
    TopAt(st, tail);
    GetsPass(ctx, a, At(ctx, st + tail + [FromToken(ctx.toks[pos])], pos + 1, multi, sem));
  }

  /** The handle `h` above a stack whose top is flagged or out of reach. */
  lemma HandleAbove(st: Stack, flag: bool, h: Stack)
    requires st != [] && !st[|st| - 1].handle
    requires 1 <= |h| <= 3 && (flag || |h| == 3) && forall i :: 0 <= i < |h| ==> !h[i].handle
    ensures var all := SetFlag(st, flag) + h; Handle(all) == h && Below(all) == st
  {
    var all := SetFlag(st, flag) + h;
    assert HandleLen(all) == |h|;
    assert all[..|st| - 1] == st[..|st| - 1];
    assert all[|st| - 1].(handle := false) == st[|st| - 1];
  }

  lemma PassReducesTo(ctx: Ctx, s: PState, h: Stack, st: Stack)
    requires ctx.toks != [] && s.stack != [] && Handle(s.stack) == h && Below(s.stack) == st
    requires GetRule(h) != NoRule && Choose(s) == R
    ensures Pass(ctx, s) == (var (sem, e) := Act(ctx, s.sem, GetRule(h), h); s.(stack := st + [e], sem := sem))
  {
    hide Act, GetRule, Handle, Below, Choose, BadHandle, Conflict, Next;
  }

  lemma PassRejects(ctx: Ctx, s: PState)
    requires ctx.toks != [] && s.stack != [] && Choose(s) == R
    requires GetRule(Handle(s.stack)) == NoRule && !HasEol(Below(s.stack))
    ensures var (sem, e) := ReduceError(ctx, s.sem, Handle(s.stack));
            Pass(ctx, s) == s.(stack := Below(s.stack) + [e], sem := sem.Fail(ERR_SYNTAX))
  {
    hide Act, ReduceError, GetRule, Handle, Below, Choose, HasEol, Conflict, Next;
  }

  /** Reducing a handle `h` that lies above `st`, whose top is flagged or out of reach. */
  lemma PassReduces(ctx: Ctx, st: Stack, flag: bool, h: Stack, pos: nat, cur: Token, multi: bool, sem: Sem)
    requires ctx.toks != [] && Waiting(st) && 1 <= |h| <= 3 && (flag || |h| == 3)
    requires forall i :: 0 <= i < |h| ==> !h[i].handle
    requires GetRule(h) != NoRule
    requires var i := TopTerminal(h);
             i >= 0 && Prec(h[i].tok.kind, cur.kind) == R && IndexOf(h[i].tok.kind) != IDollar
    ensures var a := PState(SetFlag(st, flag) + h, pos, cur, multi, sem);
            var (sem', e) := Act(ctx, sem, GetRule(h), h);
            var b := PState(st + [e], pos, cur, multi, sem');
            Gets(ctx, a, b)
  {
    hide Act, GetRule, Run, Pass, IndexOf, Cell, Handle, Below;
    var a := PState(SetFlag(st, flag) + h, pos, cur, multi, sem);
    TopOver(SetFlag(st, flag), h);
    HandleAbove(st, flag, h);
    PassReducesTo(ctx, a, h, st);
    GetsPass(ctx, a, Pass(ctx, a));
  }

  lemma TopOver(st: Stack, h: Stack)
    requires TopTerminal(h) >= 0
    ensures TopTerminal(st + h) == |st| + TopTerminal(h)
  {
    var all := st + h;
    assert all[|st| + TopTerminal(h)].terminal;
    assert forall j :: |st| <= j < |all| ==> all[j] == h[j - |st|];
  }

  /** The tokens of `t` stand at `pos`, before a token that ends `t`. */
  predicate Before(ctx: Ctx, pos: nat, t: Tree) {
    pos + |Yield(t)| < |ctx.toks| && Stand(ctx.toks, pos, Yield(t))
  }

  predicate Stand(toks: seq<Token>, pos: nat, y: seq<Token>) {
    pos + |y| <= |toks| && toks[pos..pos + |y|] == y
  }

  predicate Ends(ctx: Ctx, pos: nat, t: Tree) {
    pos + |Yield(t)| < |ctx.toks| && Level(t) >= FollowMin(ctx.toks[pos + |Yield(t)|].kind)
  }

  /** A part of a tree's yield, seen in the buffer. */
  lemma Part(toks: seq<Token>, pos: nat, y: seq<Token>, a: seq<Token>, b: seq<Token>, c: seq<Token>)
    requires Stand(toks, pos, y) && y == a + b + c
    ensures Stand(toks, pos + |a|, b)
  {
    forall i | 0 <= i < |b|
      ensures toks[pos + |a| + i] == b[i]
    {
      assert toks[pos..pos + |y|][|a| + i] == y[|a| + i];
    }
  }

  lemma ThreeParts(toks: seq<Token>, pos: nat, y: seq<Token>, a: seq<Token>, b: seq<Token>, c: seq<Token>)
    requires Stand(toks, pos, y) && y == a + b + c
    ensures Stand(toks, pos, a) && Stand(toks, pos + |a|, b) && Stand(toks, pos + |a| + |b|, c)
  {
    assert y == [] + a + (b + c) && y == (a + b) + c + [];
    Part(toks, pos, y, [], a, b + c);
    Part(toks, pos, y, a, b, c);
    Part(toks, pos, y, a + b, c, []);
  }

  lemma OneToken(toks: seq<Token>, pos: nat, tok: Token)
    requires Stand(toks, pos, [tok])
    ensures pos < |toks| && toks[pos] == tok
  {
    assert toks[pos..pos + 1][0] == tok;
  }

  lemma BangParts(ctx: Ctx, pos: nat, t: Tree)
    requires t.Bang? && Before(ctx, pos, t)
    ensures Before(ctx, pos, t.e) && ctx.toks[pos + |Yield(t.e)|] == t.bang
    ensures |Yield(t)| == |Yield(t.e)| + 1
  {
    var y := Yield(t.e);
    assert Yield(t) == [] + y + [t.bang] == y + [t.bang] + [];
    Part(ctx.toks, pos, Yield(t), [], y, [t.bang]);
    Part(ctx.toks, pos, Yield(t), y, [t.bang], []);
    OneToken(ctx.toks, pos + |y|, t.bang);
  }

  lemma ParenParts(ctx: Ctx, pos: nat, t: Tree)
    requires t.Paren? && Before(ctx, pos, t)
    ensures ctx.toks[pos] == t.lp && Before(ctx, pos + 1, t.e) && ctx.toks[pos + 1 + |Yield(t.e)|] == t.rp
    ensures |Yield(t)| == |Yield(t.e)| + 2
  {
    var y := Yield(t.e);
    assert Yield(t) == [t.lp] + y + [t.rp];
    ThreeParts(ctx.toks, pos, Yield(t), [t.lp], y, [t.rp]);
    OneToken(ctx.toks, pos, t.lp);
    OneToken(ctx.toks, pos + 1 + |y|, t.rp);
  }

  lemma BinParts(ctx: Ctx, pos: nat, t: Tree)
    requires t.Bin? && Before(ctx, pos, t)
    ensures Before(ctx, pos, t.l) && ctx.toks[pos + |Yield(t.l)|] == t.op
    ensures Before(ctx, pos + |Yield(t.l)| + 1, t.r)
    ensures |Yield(t)| == |Yield(t.l)| + 1 + |Yield(t.r)|
  {
    var w, y, z := Yield(t), Yield(t.l), Yield(t.r);
    assert w == y + [t.op] + z;
    ThreeParts(ctx.toks, pos, w, y, [t.op], z);
    OneToken(ctx.toks, pos + |y|, t.op);
  }

  /** What the parser is to do with `t` above `st`. */
  ghost predicate Parses(ctx: Ctx, st: Stack, pos: nat, multi: bool, sem: Sem, t: Tree) {
    var (sem', e) := Fold(ctx, sem, t);
    Gets(ctx, At(ctx, st, pos, multi, sem), At(ctx, st + [e], pos + |Yield(t)|, multi, sem'))
  }

  /** A tree in a context that allows it, before a token that ends it, is parsed into one symbol. */
  lemma {:induction false} ParseTree(ctx: Ctx, st: Stack, pos: nat, multi: bool, sem: Sem, t: Tree)
    requires Waiting(st) && Stratified(t) && Before(ctx, pos, t) && Ends(ctx, pos, t)
    requires Level(t) >= ContextMin(st[|st| - 1].tok.kind)
    ensures Parses(ctx, st, pos, multi, sem, t)
    decreases t
  {
    match t
    case Leaf(_) => ParseLeaf(ctx, st, pos, multi, sem, t);
    case Bang(_, _) => ParseBang(ctx, st, pos, multi, sem, t);
    case Paren(_, _, _) => ParseParen(ctx, st, pos, multi, sem, t);
    case Bin(_, _, _) => ParseBin(ctx, st, pos, multi, sem, t);
  }

  lemma ParseLeaf(ctx: Ctx, st: Stack, pos: nat, multi: bool, sem: Sem, t: Tree)
    requires t.Leaf?
    requires Waiting(st) && Stratified(t) && Before(ctx, pos, t) && Ends(ctx, pos, t)
    ensures Parses(ctx, st, pos, multi, sem, t)
  {
    hide Pass, Run, Gets, Halted, Operand, Unwrap, Arithmetic, Relational, IndexOf, OperatorRule,
         IsBinaryOperator, IsOperandKind, IsRelational;
    KindIndex(st[|st| - 1].tok.kind);
    KindIndex(t.tok.kind);
    assert ctx.toks[pos] == t.tok;
    var h := [FromToken(t.tok)];
    assert st + [] == st;
    PassShifts(ctx, st, [], pos, multi, sem);
    assert SetFlag(st, true) + [] == SetFlag(st, true);
    PassReduces(ctx, st, true, h, pos + 1, ctx.toks[pos + 1], multi, sem);
    GetsTrans(ctx, At(ctx, st, pos, multi, sem), At(ctx, SetFlag(st, true) + h, pos + 1, multi, sem),
              At(ctx, st + [Fold(ctx, sem, t).1], pos + 1, multi, Fold(ctx, sem, t).0));
  }

  /** `!` after an operand: shifted and reduced with it. */
  lemma UnwrapPasses(ctx: Ctx, st: Stack, x: Sym, k: nat, multi: bool, sem: Sem)
    requires Waiting(st) && !x.terminal && !x.handle
    requires k + 1 < |ctx.toks| && ctx.toks[k].kind == KNotNil
    ensures var (sem', e) := Unwrap(ctx, sem, x);
            var a, b := At(ctx, st + [x], k, multi, sem), At(ctx, st + [e], k + 1, multi, sem');
            Gets(ctx, a, b)
  {
    hide Pass, Run, Gets, Halted, Operand, Unwrap, Arithmetic, Relational, IndexOf, OperatorRule,
         IsBinaryOperator, IsOperandKind, IsRelational;
    KindIndex(st[|st| - 1].tok.kind);
    KindIndex(KNotNil);
    var h := [x, FromToken(ctx.toks[k])];
    PassShifts(ctx, st, [x], k, multi, sem);
    assert SetFlag(st, true) + [x] + [FromToken(ctx.toks[k])] == SetFlag(st, true) + h;
    PassReduces(ctx, st, true, h, k + 1, ctx.toks[k + 1], multi, sem);
    var (sem', e) := Unwrap(ctx, sem, x);
    GetsTrans(ctx, At(ctx, st + [x], k, multi, sem), At(ctx, SetFlag(st, true) + h, k + 1, multi, sem),
              At(ctx, st + [e], k + 1, multi, sem'));
  }

  lemma {:induction false} ParseBang(ctx: Ctx, st: Stack, pos: nat, multi: bool, sem: Sem, t: Tree)
    requires t.Bang?
    requires Waiting(st) && Stratified(t) && Before(ctx, pos, t) && Ends(ctx, pos, t)
    requires Level(t) >= ContextMin(st[|st| - 1].tok.kind)
    ensures Parses(ctx, st, pos, multi, sem, t)
    decreases t, 0
  {
    hide Cell, Prec, Stratified, Level, ContextMin, FollowMin, Yield, Pass, Run, Gets, Halted, Operand, Unwrap,
         Arithmetic, Relational, IndexOf, OperatorRule,
         IsBinaryOperator, IsOperandKind, IsRelational, Stand,
         Waiting, Bottomed, SetFlag;
    BangNeeds(t);
    BangParts(ctx, pos, t);
    var k := pos + |Yield(t.e)|;
    assert Ends(ctx, pos, t.e);
    ParseTree(ctx, st, pos, multi, sem, t.e);
    var (s1, x) := Fold(ctx, sem, t.e);
    UnwrapPasses(ctx, st, x, k, multi, s1);
    GetsTrans(ctx, At(ctx, st, pos, multi, sem), At(ctx, st + [x], k, multi, s1),
              At(ctx, st + [Fold(ctx, sem, t).1], k + 1, multi, Fold(ctx, sem, t).0));
  }

  /** `(` before an expression. */
  lemma OpeningPasses(ctx: Ctx, st: Stack, pos: nat, multi: bool, sem: Sem)
    requires Waiting(st) && pos + 1 < |ctx.toks| && ctx.toks[pos].kind == KLPar
    ensures var inner := SetFlag(st, true) + [FromToken(ctx.toks[pos])];
            Waiting(inner) && inner[|inner| - 1].tok == ctx.toks[pos] &&
            Gets(ctx, At(ctx, st, pos, multi, sem), At(ctx, inner, pos + 1, multi, sem))
  {
    hide Pass, Run, Gets, Halted, Operand, Unwrap, Arithmetic, Relational, IndexOf, OperatorRule,
         IsBinaryOperator, IsOperandKind, IsRelational;
    KindIndex(st[|st| - 1].tok.kind);
    KindIndex(KLPar);
    assert st + [] == st && SetFlag(st, true) + [] == SetFlag(st, true);
    PassShifts(ctx, st, [], pos, multi, sem);
  }

  /** `)` after it: shifted and reduced with it. */
  lemma ClosingPasses(ctx: Ctx, st: Stack, lp: Token, x: Sym, k: nat, multi: bool, sem: Sem)
    requires Waiting(st) && lp.kind == KLPar && !x.terminal && !x.handle
    requires k + 1 < |ctx.toks| && ctx.toks[k].kind == KRPar
    requires Prec(KRPar, ctx.toks[k + 1].kind) == R
    ensures var a := At(ctx, SetFlag(st, true) + [FromToken(lp)] + [x], k, multi, sem);
            var b := At(ctx, st + [Parenthesis(x)], k + 1, multi, sem);
            Gets(ctx, a, b)
  {
    hide Pass, Run, Gets, Halted, Operand, Unwrap, Arithmetic, Relational, IndexOf, OperatorRule,
         IsBinaryOperator, IsOperandKind, IsRelational;
    KindIndex(KLPar);
    KindIndex(KRPar);
    var inner := SetFlag(st, true) + [FromToken(lp)];
    var h := [FromToken(lp), x, FromToken(ctx.toks[k])];
    PassEqualShifts(ctx, inner, [x], k, multi, sem);
    assert inner + [x] + [FromToken(ctx.toks[k])] == SetFlag(st, true) + h;
    PassReduces(ctx, st, true, h, k + 1, ctx.toks[k + 1], multi, sem);
    GetsTrans(ctx, At(ctx, inner + [x], k, multi, sem), At(ctx, SetFlag(st, true) + h, k + 1, multi, sem),
              At(ctx, st + [Parenthesis(x)], k + 1, multi, sem));
  }

  /** Up to the closing parenthesis: the inner expression reduced. */
  lemma {:induction false} ParseInside(ctx: Ctx, st: Stack, pos: nat, multi: bool, sem: Sem, t: Tree)
    requires t.Paren?
    requires Waiting(st) && Stratified(t) && Before(ctx, pos, t)
    ensures var (s1, x) := Fold(ctx, sem, t.e);
            var inner := SetFlag(st, true) + [FromToken(t.lp)];
            Gets(ctx, At(ctx, st, pos, multi, sem), At(ctx, inner + [x], pos + 1 + |Yield(t.e)|, multi, s1))
    decreases t, 0
  {
    hide Fold, Yield, FollowMin, ContextMin, Cell, Pass, Run, Gets, Halted, IndexOf, OperatorRule,
         IsBinaryOperator, Stand, Waiting, Bottomed, SetFlag, Level, Stratified;
    ParenNeeds(t);
    ParenMins();
    ParenParts(ctx, pos, t);
    OpeningPasses(ctx, st, pos, multi, sem);
    var inner := SetFlag(st, true) + [FromToken(t.lp)];
    assert Ends(ctx, pos + 1, t.e);
    ParseTree(ctx, inner, pos + 1, multi, sem, t.e);
    var (s1, x) := Fold(ctx, sem, t.e);
    GetsTrans(ctx, At(ctx, st, pos, multi, sem), At(ctx, inner, pos + 1, multi, sem),
              At(ctx, inner + [x], pos + 1 + |Yield(t.e)|, multi, s1));
  }

  lemma {:induction false} ParseParen(ctx: Ctx, st: Stack, pos: nat, multi: bool, sem: Sem, t: Tree)
    requires t.Paren?
    requires Waiting(st) && Stratified(t) && Before(ctx, pos, t) && Ends(ctx, pos, t)
    ensures Parses(ctx, st, pos, multi, sem, t)
    decreases t, 1
  {
    hide Fold, Yield, FollowMin, ContextMin, Cell, Pass, Run, Gets, Halted, IndexOf, OperatorRule,
         IsBinaryOperator, Stand, Waiting, Bottomed, SetFlag, Level, Stratified;
    ParenNeeds(t);
    ParenReduces(t, ctx.toks[pos + |Yield(t)|].kind);
    FoldOfParen(ctx, sem, t);
    ParenParts(ctx, pos, t);
    ParseInside(ctx, st, pos, multi, sem, t);
    var (s1, x) := Fold(ctx, sem, t.e);
    var k := pos + 1 + |Yield(t.e)|;
    ClosingPasses(ctx, st, t.lp, x, k, multi, s1);
    GetsTrans(ctx, At(ctx, st, pos, multi, sem), At(ctx, SetFlag(st, true) + [FromToken(t.lp)] + [x], k, multi, s1),
              At(ctx, st + [Parenthesis(x)], k + 1, multi, s1));
  }

  /** An operator after its left operand is shifted. */
  lemma OperatorPasses(ctx: Ctx, st: Stack, x: Sym, k: nat, multi: bool, sem: Sem) returns (flag: bool)
    requires Waiting(st) && !x.terminal && !x.handle && k + 1 < |ctx.toks|
    requires IsBinaryOperator(ctx.toks[k].kind) && OpLevel(ctx.toks[k].kind) >= ContextMin(st[|st| - 1].tok.kind)
    ensures var inner := SetFlag(st, flag) + [x, FromToken(ctx.toks[k])];
            Waiting(inner) && inner[|inner| - 1].tok == ctx.toks[k] &&
            Gets(ctx, At(ctx, st + [x], k, multi, sem), At(ctx, inner, k + 1, multi, sem))
  {
    hide Cell, Run, Gets, IndexOf, OperatorRule, IsBinaryOperator, OpLevel, ContextMin;
    var op := ctx.toks[k];
    KindIndex(op.kind);
    OperatorShifts(st[|st| - 1].tok.kind, op.kind);
    flag := Prec(st[|st| - 1].tok.kind, op.kind) == S;
    if flag {
      PassShifts(ctx, st, [x], k, multi, sem);
    } else {
      PassEqualShifts(ctx, st, [x], k, multi, sem);
      assert SetFlag(st, false) == st;
    }
    assert SetFlag(st, flag) + [x] + [FromToken(op)] == SetFlag(st, flag) + [x, FromToken(op)];
    WaitsAfterOperator(st, flag, x, op);
  }

  /** Up to and including the operator: the left operand reduced, the operator shifted. */
  lemma {:induction false} ParseLeft(ctx: Ctx, st: Stack, pos: nat, multi: bool, sem: Sem, t: Tree) returns (flag: bool)
    requires t.Bin?
    requires Waiting(st) && Stratified(t) && Before(ctx, pos, t)
    requires Level(t) >= ContextMin(st[|st| - 1].tok.kind)
    ensures var (s1, x) := Fold(ctx, sem, t.l);
            var k := pos + |Yield(t.l)| + 1;
            var inner := SetFlag(st, flag) + [x, FromToken(t.op)];
            Waiting(inner) && inner[|inner| - 1].tok == t.op &&
            Gets(ctx, At(ctx, st, pos, multi, sem), At(ctx, inner, k, multi, s1))
    decreases t, 0
  {
    hide Cell, Yield, Fold, Pass, Run, Gets, IndexOf, IsBinaryOperator, Stand, Stratified, Level, OpLevel, ContextMin,
         FollowMin, SetFlag;
    BinNeeds(t);
    BinParts(ctx, pos, t);
    var k := pos + |Yield(t.l)|;
    assert Ends(ctx, pos, t.l);
    assert Level(t.l) >= ContextMin(st[|st| - 1].tok.kind);
    ParseTree(ctx, st, pos, multi, sem, t.l);
    var (s1, x) := Fold(ctx, sem, t.l);
    flag := OperatorPasses(ctx, st, x, k, multi, s1);
    GetsTrans(ctx, At(ctx, st, pos, multi, sem), At(ctx, st + [x], k, multi, s1),
              At(ctx, SetFlag(st, flag) + [x, FromToken(t.op)], k + 1, multi, s1));
  }

  /** Both operands reduced: the operator reduces with them. */
  lemma BinaryPasses(ctx: Ctx, st: Stack, flag: bool, x: Sym, op: Token, y: Sym, pos: nat, cur: Token,
                     multi: bool, sem: Sem)
    requires ctx.toks != [] && Waiting(st) && !x.terminal && !x.handle && !y.terminal && !y.handle
    requires IsBinaryOperator(op.kind) && Prec(op.kind, cur.kind) == R
    ensures var (sem', e) := if OperatorRule(op.kind) == ArithRule then Arithmetic(ctx, sem, x, op, y)
                             else Relational(ctx, sem, x, op, y);
            var a := PState(SetFlag(st, flag) + [x, FromToken(op)] + [y], pos, cur, multi, sem);
            var b := PState(st + [e], pos, cur, multi, sem');
            Gets(ctx, a, b)
  {
    hide Pass, Run, Gets, Halted, Operand, Unwrap, Arithmetic, Relational, IndexOf, OperatorRule,
         IsBinaryOperator, IsOperandKind, IsRelational;
    KindIndex(op.kind);
    var h := [x, FromToken(op), y];
    assert SetFlag(st, flag) + [x, FromToken(op)] + [y] == SetFlag(st, flag) + h;
    PassReduces(ctx, st, flag, h, pos, cur, multi, sem);
  }

  lemma {:induction false} ParseBin(ctx: Ctx, st: Stack, pos: nat, multi: bool, sem: Sem, t: Tree)
    requires t.Bin?
    requires Waiting(st) && Stratified(t) && Before(ctx, pos, t) && Ends(ctx, pos, t)
    requires Level(t) >= ContextMin(st[|st| - 1].tok.kind)
    ensures Parses(ctx, st, pos, multi, sem, t)
    decreases t, 1
  {
    hide Cell, Prec, Yield, Pass, Run, Gets, Halted, Operand, Unwrap, Arithmetic, Relational, IndexOf, OperatorRule,
         IsBinaryOperator, IsOperandKind, IsRelational, Stand, Stratified, Level, OpLevel, ContextMin,
         FollowMin,
         Waiting, Bottomed, SetFlag;
    BinNeeds(t);
    KindIndex(t.op.kind);
    OperatorReduces(t.op.kind, ctx.toks[pos + |Yield(t)|].kind);
    var flag := ParseLeft(ctx, st, pos, multi, sem, t);
    var (s1, x) := Fold(ctx, sem, t.l);
    var k := pos + |Yield(t.l)| + 1;
    var end := k + |Yield(t.r)|;
    BinParts(ctx, pos, t);
    var inner := SetFlag(st, flag) + [x, FromToken(t.op)];
    assert Ends(ctx, k, t.r);
    assert Level(t.r) >= ContextMin(inner[|inner| - 1].tok.kind);
    ParseTree(ctx, inner, k, multi, s1, t.r);
    var (s2, y) := Fold(ctx, s1, t.r);
    BinaryPasses(ctx, st, flag, x, t.op, y, end, ctx.toks[end], multi, s2);
    var a := At(ctx, st, pos, multi, sem);
    GetsTrans(ctx, a, At(ctx, inner, k, multi, s1), At(ctx, inner + [y], end, multi, s2));
    GetsTrans(ctx, a, At(ctx, inner + [y], end, multi, s2),
              At(ctx, st + [Fold(ctx, sem, t).1], end, multi, Fold(ctx, sem, t).0));
  }
}
