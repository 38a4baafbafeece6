/** A call that reports no error has read a sentence of the stratified grammar.

    The invariant is local: it constrains neighbouring stack symbols only.  Every symbol carries the tree it
    stands for, a terminal its one-token tree, so the trees' yields are the tokens read so far. */
module Soundness {
  import opened Tokens
  import opened Semantics
  import opened Precedence
  import opened ExprParsing
  import opened Grammar
  import opened Completeness
  import opened Sentences
  import opened Termination

  /** No `!` directly before `(`. */
  predicate NoBangParen(toks: seq<Token>) {
    forall i :: 0 <= i < |toks| - 1 && toks[i].kind == KNotNil ==> toks[i + 1].kind != KLPar
  }

  function Yields(tr: seq<Tree>): seq<Token> {
    if tr == [] then [] else Yields(tr[..|tr| - 1]) + Yield(tr[|tr| - 1])
  }

  /** Concatenated yields, the bottom symbol's left out. */
  function Read(tr: seq<Tree>): seq<Token> {
    if tr == [] then [] else Yields(tr[1..])
  }

  /** A symbol above the bottom and its tree. */
  predicate Fits(a: Sym, x: Tree) {
    if a.terminal then x == Leaf(a.tok) && IndexOf(a.tok.kind) != IDollar
    else Stratified(x) && !a.handle && (IsOperandKind(a.tok.kind) || a.tok.kind == KUndefined)
  }

  /** What may stand on a symbol. */
  predicate Pair(a: Sym, x: Tree, b: Sym, y: Tree) {
    if a.terminal then
      && Opens(a.tok.kind)
      && if b.terminal then
           || a.handle
           || (IndexOf(a.tok.kind) == IRel && IndexOf(b.tok.kind) == IRel)
           || (a.tok.kind == KLPar && b.tok.kind == KRPar)
         else Level(y) >= ContextMin(a.tok.kind)
    else b.terminal && (Level(x) >= FollowMin(b.tok.kind) || IndexOf(b.tok.kind) == IOperand)
  }

  /** An operator over an operand over a terminal binds at least as tightly as that terminal asks. */
  predicate Triple(a: Sym, b: Sym, c: Sym) {
    (a.terminal && !b.terminal && c.terminal && IsBinaryOperator(c.tok.kind)) ==>
      OpLevel(c.tok.kind) >= ContextMin(a.tok.kind)
  }

  predicate Stacked(st: Stack, tr: seq<Tree>) {
    && |tr| == |st| && st != [] && st[0].(handle := false) == DOLLAR
    && (forall i :: 1 <= i < |st| ==> Fits(st[i], tr[i]))
    && (forall i :: 1 <= i < |st| ==> Pair(st[i - 1], tr[i - 1], st[i], tr[i]))
    && (forall i :: 2 <= i < |st| ==> Triple(st[i - 2], st[i - 1], st[i]))
  }

  /** The top symbol against the current token; what a reduction has left has unflagged the symbol below. */
  predicate Topped(st: Stack, tr: seq<Tree>, cur: Token)
    requires |tr| == |st| && st != []
  {
    var n := |st|;
    if st[n - 1].terminal then !st[n - 1].handle
    else Pair(st[n - 1], tr[n - 1], FromToken(cur), Leaf(cur)) && (n >= 2 ==> !st[n - 2].handle)
  }

  ghost predicate Sound(ctx: Ctx, start: nat, s: PState, tr: seq<Tree>) {
    && Stacked(s.stack, tr) && Topped(s.stack, tr, s.cur)
    && start <= s.pos < |ctx.toks| && s.cur == ctx.toks[s.pos]
    && Read(tr) == ctx.toks[start..s.pos]
  }

  // ----- shifting -----

  lemma ReadSnoc(tr: seq<Tree>, t: Tree)
    requires tr != []
    ensures Read(tr + [t]) == Read(tr) + Yield(t)
  {
    assert (tr + [t])[1..] == tr[1..] + [t] && (tr[1..] + [t])[..|tr| - 1] == tr[1..];
  }

  lemma {:induction false} YieldsConcat(a: seq<Tree>, b: seq<Tree>)
    ensures Yields(a + b) == Yields(a) + Yields(b)
  {
    if b == [] {
      assert a + b == a;
    } else {
      hide Yield;
      var b', y := b[..|b| - 1], Yield(b[|b| - 1]);
      assert (a + b)[..|a + b| - 1] == a + b';
      YieldsConcat(a, b');
      assert Yields(a) + Yields(b') + y == Yields(a) + (Yields(b') + y);
    }
  }

  lemma YieldsOfThree(x: Tree, y: Tree, z: Tree)
    ensures Yields([x]) == Yield(x)
    ensures Yields([x, y]) == Yield(x) + Yield(y)
    ensures Yields([x, y, z]) == Yield(x) + Yield(y) + Yield(z)
  {
    assert Yields([x]) == [] + Yield(x);
    assert [x, y][..1] == [x] && [x, y, z][..2] == [x, y];
  }

  /** What a shift puts on a stack fits there. */
  lemma ShiftFits(st: Stack, tr: seq<Tree>, cur: Token)
    requires Stacked(st, tr) && Topped(st, tr, cur)
    requires var op := Prec(TopKind(st), cur.kind); op == S || op == E
    ensures var st' := if Prec(TopKind(st), cur.kind) == S then Flagged(st) else st;
            var up := st' + [FromToken(cur)];
            var tr' := tr + [Leaf(cur)];
            Stacked(up, tr') && Topped(up, tr', cur)
  {
    var n := |st|;
    var c := TopTerminal(st);
    TopTerminalExists(st);
    TopIsNear(st, tr);
    var st' := if Prec(TopKind(st), cur.kind) == S then Flagged(st) else st;
    FlagKeepsStacked(st, tr);
    ShiftTable(st[c].tok.kind, cur.kind);
    var up, tr' := st' + [FromToken(cur)], tr + [Leaf(cur)];
    forall i | 1 <= i < |up|
      ensures Fits(up[i], tr'[i]) && Pair(up[i - 1], tr'[i - 1], up[i], tr'[i])
    {
      if i < n {
        assert up[i] == st'[i] && tr'[i] == tr[i];
      }
    }
    forall i | 2 <= i < |up|
      ensures Triple(up[i - 2], up[i - 1], up[i])
    {
      if i < n {
        assert up[i] == st'[i];
      }
    }
  }

  /** The topmost terminal is the top symbol or the one below it. */
  lemma TopIsNear(st: Stack, tr: seq<Tree>)
    requires Stacked(st, tr)
    ensures var c := TopTerminal(st); c == |st| - 1 || (c == |st| - 2 && c >= 0)
  {
    var n := |st|;
    TopTerminalExists(st);
    if n >= 2 && !st[n - 1].terminal {
      assert Pair(st[n - 2], tr[n - 2], st[n - 1], tr[n - 1]);
    }
  }

  lemma FlagKeepsStacked(st: Stack, tr: seq<Tree>)
    requires Stacked(st, tr)
    ensures Stacked(Flagged(st), tr)
  {
    hide Opens, IndexOf, ContextMin, FollowMin, IsBinaryOperator, OpLevel, Level, Stratified;
    var fl := Flagged(st);
    forall i | 1 <= i < |st|
      ensures Fits(fl[i], tr[i]) && Pair(fl[i - 1], tr[i - 1], fl[i], tr[i])
    {
      assert Fits(st[i], tr[i]) && Pair(st[i - 1], tr[i - 1], st[i], tr[i]);
    }
    forall i | 2 <= i < |st|
      ensures Triple(fl[i - 2], fl[i - 1], fl[i])
    {
      assert Triple(st[i - 2], st[i - 1], st[i]);
    }
  }

  /** When the table shifts. */
  lemma ShiftTable(c: Kind, k: Kind)
    requires Prec(c, k) == S || Prec(c, k) == E
    ensures Opens(c) && IndexOf(k) != IDollar
    ensures Prec(c, k) == E ==> (IndexOf(c) == IRel && IndexOf(k) == IRel) || (c == KLPar && k == KRPar)
    ensures IsBinaryOperator(k) ==> OpLevel(k) >= ContextMin(c)
  {
    hide IndexOf, IsBinaryOperator, IsOperandKind, IsRelational, OperatorRule;
    KindIndex(c);
    KindIndex(k);
  }

  // ----- reducing -----

  /** The tree a reduction builds from the handle's trees. */
  function Build(h: Stack, ht: seq<Tree>): Tree
    requires |h| == |ht| && GetRule(h) != NoRule
  {
    match GetRule(h)
    case OperandRule => ht[0]
    case UnwrapRule => Bang(ht[0], h[1].tok)
    case ParenRule => Paren(h[0].tok, ht[1], h[2].tok)
    case ArithRule | RelRule => Bin(ht[0], h[1].tok, ht[2])
  }

  /** Replacing the `k` top symbols by a nonterminal that the terminal below them admits. */
  lemma ReplaceTop(st: Stack, tr: seq<Tree>, k: nat, e: Sym, t: Tree)
    requires Stacked(st, tr) && 1 <= k < |st|
    requires !e.terminal && Fits(e, t)
    requires var z := st[|st| - k - 1];
             z.terminal && Opens(z.tok.kind) && Level(t) >= ContextMin(z.tok.kind)
    ensures var m := |st| - k;
            Stacked(st[..m - 1] + [st[m - 1].(handle := false)] + [e], tr[..m] + [t])
  {
    hide Opens, IndexOf, ContextMin, FollowMin, IsBinaryOperator, OpLevel, Level, Stratified;
    var m := |st| - k;
    var r, tr' := st[..m - 1] + [st[m - 1].(handle := false)] + [e], tr[..m] + [t];
    forall i | 1 <= i < |r|
      ensures Fits(r[i], tr'[i]) && Pair(r[i - 1], tr'[i - 1], r[i], tr'[i])
    {
      if i < m {
        assert Fits(st[i], tr[i]) && Pair(st[i - 1], tr[i - 1], st[i], tr[i]);
      }
    }
    forall i | 2 <= i < |r|
      ensures Triple(r[i - 2], r[i - 1], r[i])
    {
      if i < m {
        assert Triple(st[i - 2], st[i - 1], st[i]);
      }
    }
  }

  /** What a fitting handle looks like: below it stands a terminal that admits the tree it builds, and the
      token that makes it reduce may follow that tree. */
  ghost predicate GoodHandle(st: Stack, tr: seq<Tree>, cur: Token)
    requires |st| == |tr| && st != []
  {
    var k := HandleLen(st);
    && 1 <= k && GetRule(Handle(st)) != NoRule
    && var ht := tr[|tr| - k..];
       var t := Build(Handle(st), ht);
       var z := st[|st| - k - 1];
       && Stratified(t) && Yield(t) == Yields(ht)
       && z.terminal && Opens(z.tok.kind) && Level(t) >= ContextMin(z.tok.kind)
       && (Level(t) >= FollowMin(cur.kind) || IndexOf(cur.kind) == IOperand)
  }

  /** A reduction is due: the state of the lemmas below. */
  predicate Reducing(st: Stack, tr: seq<Tree>, cur: Token) {
    && Stacked(st, tr) && Topped(st, tr, cur)
    && |st| >= 2 && (|st| == 2 ==> st[1].terminal)
    && Prec(TopKind(st), cur.kind) == R && GetRule(Handle(st)) != NoRule
    && (st[|st| - 1].tok.kind == KNotNil ==> cur.kind != KLPar)
  }

  /** How many symbols each rule takes, and which. */
  lemma HandleShape(st: Stack)
    requires st != [] && GetRule(Handle(st)) != NoRule
    ensures var n, k, rule := |st|, HandleLen(st), GetRule(Handle(st));
            match rule
            case OperandRule => k == 1 && Handle(st) == [st[n - 1]] && IsOperandKind(st[n - 1].tok.kind)
            case UnwrapRule => k == 2 && Handle(st) == [st[n - 2], st[n - 1]]
                               && !st[n - 2].terminal && st[n - 1].tok.kind == KNotNil
            case ParenRule => k == 3 && Handle(st) == [st[n - 3], st[n - 2], st[n - 1]]
                              && st[n - 3].tok.kind == KLPar && st[n - 1].tok.kind == KRPar
            case NoRule => true
            case _ => k == 3 && Handle(st) == [st[n - 3], st[n - 2], st[n - 1]]
                      && !st[n - 3].terminal && !st[n - 1].terminal && IsBinaryOperator(st[n - 2].tok.kind)
    ensures forall i :: |st| - HandleLen(st) <= i < |st| ==> !st[i].handle
    ensures HandleLen(st) < 3 ==> st[|st| - 1 - HandleLen(st)].handle || HandleLen(st) == |st| - 1
  {
  }

  /** A tree on a terminal that admits it, before a token that ends it. */
  predicate Admits(z: Sym, t: Tree, cur: Token) {
    && Stratified(t) && z.terminal && Opens(z.tok.kind) && Level(t) >= ContextMin(z.tok.kind)
    && (Level(t) >= FollowMin(cur.kind) || IndexOf(cur.kind) == IOperand)
  }

  lemma OperandAdmitted(z: Sym, zt: Tree, a: Sym, x: Tree, cur: Token)
    requires Fits(a, x) && Pair(z, zt, a, x) && a.terminal && z.terminal && IsOperandKind(a.tok.kind)
    requires Prec(a.tok.kind, cur.kind) == R
    ensures Admits(z, x, cur)
  {
    hide IndexOf, IsOperandKind, IsBinaryOperator, OperatorRule, IsRelational;
    KindIndex(a.tok.kind);
    KindIndex(z.tok.kind);
  }

  lemma UnwrapAdmitted(z: Sym, zt: Tree, a: Sym, x: Tree, b: Sym, y: Tree, cur: Token)
    requires Fits(a, x) && Fits(b, y) && Pair(z, zt, a, x) && Pair(a, x, b, y)
    requires !a.terminal && b.tok.kind == KNotNil && cur.kind != KLPar
    ensures b.terminal && Admits(z, Bang(x, b.tok), cur)
  {
    hide IndexOf, IsOperandKind, IsBinaryOperator, OperatorRule, IsRelational;
    KindIndex(KNotNil);
    KindIndex(z.tok.kind);
    KindIndex(cur.kind);
  }

  lemma BinaryAdmitted(z: Sym, zt: Tree, a: Sym, x: Tree, b: Sym, y: Tree, c: Sym, w: Tree, cur: Token)
    requires Fits(a, x) && Fits(b, y) && Fits(c, w)
    requires Pair(z, zt, a, x) && Pair(a, x, b, y) && Pair(b, y, c, w) && Triple(z, a, b)
    requires !a.terminal && !c.terminal && IsBinaryOperator(b.tok.kind) && Prec(b.tok.kind, cur.kind) == R
    ensures b.terminal && Admits(z, Bin(x, b.tok, w), cur)
  {
    hide IndexOf, IsOperandKind, IsBinaryOperator, OperatorRule, IsRelational;
    KindIndex(b.tok.kind);
    KindIndex(cur.kind);
  }

  lemma ParenAdmitted(z: Sym, zt: Tree, a: Sym, x: Tree, b: Sym, y: Tree, c: Sym, w: Tree, cur: Token)
    requires Fits(a, x) && Fits(b, y) && Fits(c, w)
    requires Pair(z, zt, a, x) && Pair(a, x, b, y) && Pair(b, y, c, w) && !a.handle && !b.handle
    requires a.tok.kind == KLPar && c.tok.kind == KRPar && Prec(KRPar, cur.kind) == R
    ensures a.terminal && !b.terminal && c.terminal && Admits(z, Paren(a.tok, y, c.tok), cur)
  {
    hide IndexOf, IsOperandKind, IsBinaryOperator, OperatorRule, IsRelational;
    KindIndex(KLPar);
    KindIndex(KRPar);
    KindIndex(z.tok.kind);
    KindIndex(cur.kind);
    KindIndex(b.tok.kind);
  }

  lemma OperandHandle(st: Stack, tr: seq<Tree>, cur: Token)
    requires Reducing(st, tr, cur) && GetRule(Handle(st)) == OperandRule
    ensures GoodHandle(st, tr, cur)
  {
    hide IndexOf, IsOperandKind, Fits, Pair, Triple, Level, Stratified, ContextMin, FollowMin, Opens, Cell;
    var n := |st|;
    HandleShape(st);
    YieldsOfThree(tr[n - 1], tr[n - 1], tr[n - 1]);
    assert tr[n - 1..] == [tr[n - 1]];
    assert st[n - 1].terminal && TopTerminal(st) == n - 1;
    BelowIsTerminal(st, tr);
    OperandAdmitted(st[n - 2], tr[n - 2], st[n - 1], tr[n - 1], cur);
  }

  /** A flagged symbol and the bottom are terminals. */
  lemma BelowIsTerminal(st: Stack, tr: seq<Tree>)
    requires Stacked(st, tr) && |st| >= 2 && (st[|st| - 2].handle || |st| == 2)
    ensures st[|st| - 2].terminal
  {
    hide IndexOf, Stratified, IsOperandKind, Pair, Triple;
    if |st| > 2 {
      assert Fits(st[|st| - 2], tr[|st| - 2]);
    }
  }

  lemma UnwrapHandle(st: Stack, tr: seq<Tree>, cur: Token)
    requires Reducing(st, tr, cur) && GetRule(Handle(st)) == UnwrapRule
    ensures GoodHandle(st, tr, cur)
  {
    hide HandleLen, GetRule, Handle, IndexOf, IsOperandKind, Fits, Pair, Triple, Level, Stratified, ContextMin,
         FollowMin, Opens, Cell;
    var n := |st|;
    HandleShape(st);
    YieldsOfThree(tr[n - 2], tr[n - 1], tr[n - 1]);
    assert tr[n - 2..] == [tr[n - 2], tr[n - 1]];
    UnwrapAdmitted(st[n - 3], tr[n - 3], st[n - 2], tr[n - 2], st[n - 1], tr[n - 1], cur);
    LeafOf(st, tr, n - 1);
  }

  lemma LeafOf(st: Stack, tr: seq<Tree>, i: nat)
    requires Stacked(st, tr) && 1 <= i < |st| && st[i].terminal
    ensures tr[i] == Leaf(st[i].tok) && Yield(tr[i]) == [st[i].tok]
  {
    hide IndexOf, Stratified, IsOperandKind, Pair, Triple;
    assert Fits(st[i], tr[i]);
  }

  lemma BinaryHandle(st: Stack, tr: seq<Tree>, cur: Token)
    requires Reducing(st, tr, cur) && (GetRule(Handle(st)) == ArithRule || GetRule(Handle(st)) == RelRule)
    ensures GoodHandle(st, tr, cur)
  {
    hide HandleLen, GetRule, Handle, IndexOf, IsOperandKind, Fits, Pair, Triple, Level, Stratified, ContextMin,
         FollowMin, Opens, Cell;
    var n := |st|;
    HandleShape(st);
    YieldsOfThree(tr[n - 3], tr[n - 2], tr[n - 1]);
    assert tr[n - 3..] == [tr[n - 3], tr[n - 2], tr[n - 1]];
    TopIsNear(st, tr);
    BinaryAdmitted(st[n - 4], tr[n - 4], st[n - 3], tr[n - 3], st[n - 2], tr[n - 2], st[n - 1], tr[n - 1], cur);
    LeafOf(st, tr, n - 2);
  }

  lemma ParenHandle(st: Stack, tr: seq<Tree>, cur: Token)
    requires Reducing(st, tr, cur) && GetRule(Handle(st)) == ParenRule
    ensures GoodHandle(st, tr, cur)
  {
    hide HandleLen, GetRule, Handle, IndexOf, IsOperandKind, Fits, Pair, Triple, Level, Stratified, ContextMin,
         FollowMin, Opens, Cell;
    var n := |st|;
    HandleShape(st);
    YieldsOfThree(tr[n - 3], tr[n - 2], tr[n - 1]);
    assert tr[n - 3..] == [tr[n - 3], tr[n - 2], tr[n - 1]];
    ClosingIsTerminal(st, tr);
    assert TopTerminal(st) == n - 1;
    ParenAdmitted(st[n - 4], tr[n - 4], st[n - 3], tr[n - 3], st[n - 2], tr[n - 2], st[n - 1], tr[n - 1], cur);
    LeafOf(st, tr, n - 3);
    LeafOf(st, tr, n - 1);
  }

  lemma ClosingIsTerminal(st: Stack, tr: seq<Tree>)
    requires Stacked(st, tr) && |st| >= 2 && st[|st| - 1].tok.kind == KRPar
    ensures st[|st| - 1].terminal
  {
    hide Pair, Triple, Stratified;
    assert Fits(st[|st| - 1], tr[|st| - 1]);
  }

  lemma GoodReduction(st: Stack, tr: seq<Tree>, cur: Token)
    requires Reducing(st, tr, cur)
    ensures GoodHandle(st, tr, cur)
  {
    match GetRule(Handle(st))
    case OperandRule => OperandHandle(st, tr, cur);
    case UnwrapRule => UnwrapHandle(st, tr, cur);
    case ParenRule => ParenHandle(st, tr, cur);
    case ArithRule | RelRule => BinaryHandle(st, tr, cur);
  }

  predicate Nonterminal(a: Sym) {
    !a.terminal && !a.handle && (IsOperandKind(a.tok.kind) || a.tok.kind == KUndefined)
  }

  /** The symbol an action leaves is a nonterminal whose token is an operand's or empty. */
  lemma ActNonterminal(ctx: Ctx, sem: Sem, h: Stack)
    requires GetRule(h) != NoRule && forall i :: 0 <= i < |h| && !h[i].terminal ==> Nonterminal(h[i])
    ensures Nonterminal(Act(ctx, sem, GetRule(h), h).1)
  {
    hide Arithmetic, Relational, Operand, Unwrap, IsOperandKind, OperatorRule;
  }

  lemma HandleNonterminals(st: Stack, tr: seq<Tree>)
    requires Stacked(st, tr)
    ensures var h := Handle(st); forall i :: 0 <= i < |h| && !h[i].terminal ==> Nonterminal(h[i])
  {
    hide IndexOf, Pair, Triple, Stratified, IsOperandKind;
    var h := Handle(st);
    forall i | 0 <= i < |h| && !h[i].terminal
      ensures Nonterminal(h[i])
    {
      assert h[i] == st[|st| - |h| + i];
      assert Fits(st[|st| - |h| + i], tr[|st| - |h| + i]);
    }
  }

  /** The tree a reduction by a rule stands for, and what holds of it. */
  lemma ReducedTree(ctx: Ctx, sem: Sem, st: Stack, tr: seq<Tree>, cur: Token) returns (t: Tree)
    requires Reducing(st, tr, cur)
    ensures var k := HandleLen(st);
            var z := st[|st| - k - 1];
            && 1 <= k && Stratified(t) && Yield(t) == Yields(tr[|tr| - k..])
            && z.terminal && Opens(z.tok.kind) && Level(t) >= ContextMin(z.tok.kind)
            && (Level(t) >= FollowMin(cur.kind) || IndexOf(cur.kind) == IOperand)
    ensures Nonterminal(Act(ctx, sem, GetRule(Handle(st)), Handle(st)).1)
  {
    hide Act, Handle, GetRule, Fits, Pair, Triple, Level, Stratified, ContextMin, FollowMin, Opens, Prec, Build,
         HandleLen, Nonterminal, IndexOf;
    GoodReduction(st, tr, cur);
    var h := Handle(st);
    t := Build(h, tr[|tr| - HandleLen(st)..]);
    HandleNonterminals(st, tr);
    ActNonterminal(ctx, sem, h);
  }

  /** The stack a reduction by a rule leaves. */
  lemma ReduceStacked(ctx: Ctx, sem: Sem, st: Stack, tr: seq<Tree>, cur: Token) returns (tr': seq<Tree>)
    requires Reducing(st, tr, cur)
    ensures var st' := Below(st) + [Act(ctx, sem, GetRule(Handle(st)), Handle(st)).1];
            Stacked(st', tr') && Topped(st', tr', cur) && Read(tr') == Read(tr)
  {
    hide Act, Handle, GetRule, Fits, Pair, Triple, Level, Stratified, ContextMin, FollowMin, Opens, Prec,
         HandleLen, Nonterminal, IndexOf, Stacked, Read;
    var m := |st| - HandleLen(st);
    var t := ReducedTree(ctx, sem, st, tr, cur);
    var e := Act(ctx, sem, GetRule(Handle(st)), Handle(st)).1;
    NonterminalFits(e, t);
    TreesMatch(st, tr);
    ReplaceTop(st, tr, HandleLen(st), e, t);
    tr' := tr[..m] + [t];
    ReadReplaced(tr, m, t);
    TopPair(e, t, cur);
  }

  lemma TreesMatch(st: Stack, tr: seq<Tree>)
    requires Stacked(st, tr)
    ensures |tr| == |st|
  {
  }

  lemma NonterminalFits(e: Sym, t: Tree)
    requires Nonterminal(e) && Stratified(t)
    ensures !e.terminal && Fits(e, t)
  {
  }

  /** A reduction by a rule keeps the invariant. */
  lemma ReduceKeepsSound(ctx: Ctx, start: nat, s: PState, tr: seq<Tree>) returns (tr': seq<Tree>)
    requires Sound(ctx, start, s, tr) && Reducing(s.stack, tr, s.cur)
    ensures Sound(ctx, start, Precedence.Reduce(ctx, s), tr')
  {
    hide Act, Handle, GetRule, Stacked, Topped, Below, Read, BadHandle;
    tr' := ReduceStacked(ctx, s.sem, s.stack, tr, s.cur);
  }

  lemma TopPair(e: Sym, t: Tree, cur: Token)
    requires !e.terminal && (Level(t) >= FollowMin(cur.kind) || IndexOf(cur.kind) == IOperand)
    ensures Pair(e, t, FromToken(cur), Leaf(cur))
  {
  }

  lemma ReadReplaced(tr: seq<Tree>, m: nat, t: Tree)
    requires 1 <= m < |tr| && Yield(t) == Yields(tr[m..])
    ensures Read(tr[..m] + [t]) == Read(tr)
  {
    hide Yield, Yields, Read;
    var a, b := tr[..m][1..], tr[m..];
    ReadSnoc(tr[..m], t);
    assert tr[1..] == a + b;
    YieldsConcat(a, b);
    ReadYields(tr);
    ReadYields(tr[..m]);
  }

  lemma ReadYields(tr: seq<Tree>)
    requires tr != []
    ensures Read(tr) == Yields(tr[1..])
  {
  }

  // ----- conflicts -----

  lemma LevelBound(t: Tree)
    ensures Level(t) <= 5
  {
  }

  /** A conflict is always reported. */
  lemma ConflictDiagnosed(st: Stack, tr: seq<Tree>, cur: Token)
    requires Stacked(st, tr) && Topped(st, tr, cur) && Prec(TopKind(st), cur.kind) == X
    ensures Diagnosed(Handle(st + [FromToken(cur)]))
  {
    hide IndexOf, IsOperandKind, Fits, Pair, Triple, Opens, Cell, Diagnosed, Handle;
    var n := |st|;
    TopTerminalExists(st);
    TopIsNear(st, tr);
    if n == 1 {
      LoneConflict(st[0], cur);
      assert st == [st[0]];
    } else {
      assert st == st[..n - 2] + [st[n - 2], st[n - 1]];
      if st[n - 1].terminal {
        NotBottom(st, tr, n - 1);
        TerminalConflict(st[..n - 2], st[n - 2], tr[n - 2], st[n - 1], tr[n - 1], cur);
      } else {
        SymbolBelow(st, tr);
        NonterminalConflict(st[..n - 2], st[n - 2], tr[n - 2], st[n - 1], tr[n - 1], cur);
      }
    }
  }

  lemma NotBottom(st: Stack, tr: seq<Tree>, i: nat)
    requires Stacked(st, tr) && 1 <= i < |st| && st[i].terminal
    ensures IndexOf(st[i].tok.kind) != IDollar
  {
    hide Pair, Triple, Stratified, IndexOf;
    assert Fits(st[i], tr[i]);
  }

  lemma SymbolBelow(st: Stack, tr: seq<Tree>)
    requires Stacked(st, tr) && |st| >= 2 && st[|st| - 2].terminal && !st[|st| - 1].terminal
    ensures !st[|st| - 1].handle && (IndexOf(st[|st| - 2].tok.kind) == IDollar <==> |st| == 2)
  {
    hide Pair, Triple, Stratified;
    EndIndex();
    assert Fits(st[|st| - 1], tr[|st| - 1]);
    assert |st| == 2 || Fits(st[|st| - 2], tr[|st| - 2]);
  }

  lemma LoneConflict(z: Sym, cur: Token)
    requires z.(handle := false) == DOLLAR && Prec(z.tok.kind, cur.kind) == X
    ensures Diagnosed(Handle([z] + [FromToken(cur)]))
  {
    hide IndexOf, IsOperandKind, IsBinaryOperator;
    EndIndex();
    KindIndex(cur.kind);
    assert Handle([z] + [FromToken(cur)]) == [FromToken(cur)];
  }

  lemma TopHandle(p: Stack, z: Sym, c: Sym, y: Sym)
    requires !c.handle && !y.handle
    ensures var h := Handle(p + [z, c] + [y]); h == [c, y] || (h == [z, c, y] && !z.handle)
  {
  }

  lemma TerminalConflict(p: Stack, z: Sym, zt: Tree, c: Sym, ct: Tree, cur: Token)
    requires c.terminal && !c.handle && Pair(z, zt, c, ct) && Prec(c.tok.kind, cur.kind) == X
    requires IndexOf(c.tok.kind) != IDollar
    ensures Diagnosed(Handle(p + [z, c] + [FromToken(cur)]))
  {
    hide IndexOf, IsOperandKind, IsBinaryOperator, Handle, Pair, Cell, Diagnosed;
    var y := FromToken(cur);
    TopHandle(p, z, c, y);
    if Handle(p + [z, c] + [y]) == [c, y] {
      TwoDiagnosed(c, cur);
    } else {
      ThreeDiagnosed(z, zt, c, ct, cur);
    }
  }

  lemma TwoDiagnosed(c: Sym, cur: Token)
    requires Prec(c.tok.kind, cur.kind) == X
    ensures Diagnosed([c, FromToken(cur)])
  {
    hide IndexOf, IsOperandKind, IsBinaryOperator;
    KindIndex(c.tok.kind);
    KindIndex(cur.kind);
  }

  lemma ThreeDiagnosed(z: Sym, zt: Tree, c: Sym, ct: Tree, cur: Token)
    requires c.terminal && !z.handle && Pair(z, zt, c, ct) && Prec(c.tok.kind, cur.kind) == X
    requires IndexOf(c.tok.kind) != IDollar
    ensures Diagnosed([z, c, FromToken(cur)])
  {
    hide IndexOf, IsOperandKind, IsBinaryOperator, Level;
    KindIndex(z.tok.kind);
    KindIndex(c.tok.kind);
    KindIndex(cur.kind);
    LevelBound(zt);
  }

  lemma NonterminalHandle(p: Stack, c: Sym, e: Sym, y: Sym)
    requires !c.handle && !e.handle && !y.handle
    ensures Handle(p + [c, e] + [y]) == if p == [] then [e, y] else [c, e, y]
  {
  }

  lemma NonterminalConflict(p: Stack, c: Sym, ct: Tree, e: Sym, et: Tree, cur: Token)
    requires !e.terminal && !e.handle && c.terminal && !c.handle && Pair(c, ct, e, et)
    requires Prec(c.tok.kind, cur.kind) == X && (IndexOf(c.tok.kind) == IDollar <==> p == [])
    ensures Diagnosed(Handle(p + [c, e] + [FromToken(cur)]))
  {
    hide IndexOf, IsOperandKind, IsBinaryOperator, Level, Handle;
    KindIndex(c.tok.kind);
    KindIndex(cur.kind);
    NonterminalHandle(p, c, e, FromToken(cur));
  }

  // ----- whole calls -----

  /** The first recorded error stays recorded. */
  lemma PassKeepsError(ctx: Ctx, s: PState)
    requires ctx.toks != [] && s.stack != [] && s.sem.err != NO_ERR
    ensures Pass(ctx, s).sem.err == s.sem.err
  {
    hide Operand, Unwrap, Arithmetic, Relational, HasEol, AboveEol, Handle, GetRule, Below, Cell, IndexOf;
    if Choose(s) == R && GetRule(Handle(s.stack)) != NoRule {
      ActKeepsError(ctx, s.sem, Handle(s.stack));
    }
  }

  lemma ActKeepsError(ctx: Ctx, sem: Sem, h: Stack)
    requires GetRule(h) != NoRule && sem.err != NO_ERR
    ensures Act(ctx, sem, GetRule(h), h).0.err == sem.err
  {
    hide Operand, Unwrap, Arithmetic, Relational, IsOperandKind;
  }

  lemma {:induction false} RunKeepsError(ctx: Ctx, s: PState, n: nat)
    requires ctx.toks != [] && Bottomed(s) && s.sem.err != NO_ERR
    ensures Run(ctx, s, n).sem.err == s.sem.err
    decreases n
  {
    hide Pass;
    if n > 0 && !Halted(s) {
      PassKeepsBottom(ctx, s);
      PassKeepsError(ctx, s);
      RunKeepsError(ctx, Pass(ctx, s), n - 1);
    }
  }

  /** `!` on top of the stack was the last token read. */
  lemma BangWasRead(ctx: Ctx, start: nat, s: PState, tr: seq<Tree>)
    requires Sound(ctx, start, s, tr) && NoBangParen(ctx.toks) && |s.stack| >= 2
    requires s.stack[|s.stack| - 1].tok.kind == KNotNil
    ensures s.cur.kind != KLPar
  {
    hide Pair, Triple, Stratified, Topped, IndexOf;
    var n := |tr|;
    assert Fits(s.stack[n - 1], tr[n - 1]);
    assert tr == tr[..n - 1] + [tr[n - 1]];
    ReadSnoc(tr[..n - 1], tr[n - 1]);
    assert Read(tr)[|Read(tr)| - 1] == s.stack[n - 1].tok;
    assert ctx.toks[start..s.pos][|Read(tr)| - 1] == ctx.toks[s.pos - 1];
  }

  /** A bad handle is an error on one line. */
  lemma NoRuleFails(ctx: Ctx, s: PState)
    requires CalmStack(s.stack) && GetRule(Handle(s.stack)) == NoRule
    ensures Precedence.Reduce(ctx, s).sem.err != NO_ERR
  {
    hide Handle, GetRule, Act, Diagnosed, ErrorSym;
    BelowCalm(s.stack, FreshExpr(Undefined, false));
  }

  lemma ConflictFails(ctx: Ctx, s: PState, tr: seq<Tree>)
    requires ctx.toks != [] && Bottomed(s) && CalmStack(s.stack) && !s.cur.eol
    requires Stacked(s.stack, tr) && Topped(s.stack, tr, s.cur) && Choose(s) == X
    ensures Conflict(ctx, s).sem.err != NO_ERR
  {
    hide Handle, Stacked, Topped, Diagnosed, ErrorSym, Below, Cell, IndexOf;
    TopTerminalExists(s.stack);
    ConflictDiagnosed(s.stack, tr, s.cur);
    var st := s.stack + [FromToken(s.cur)];
    assert forall i :: 0 <= i < |st| ==> !st[i].tok.eol;
  }

  lemma PassOfShift(ctx: Ctx, s: PState)
    requires OneLine(ctx) && s.pos < |ctx.toks| && s.cur == ctx.toks[s.pos] && s.stack != []
    requires (Choose(s) == S || Choose(s) == E) && IndexOf(s.cur.kind) != IDollar
    ensures s.pos + 1 < |ctx.toks|
    ensures var st := if Choose(s) == S then Flagged(s.stack) else s.stack;
            Pass(ctx, s) == s.(stack := st + [FromToken(s.cur)], pos := s.pos + 1, cur := ctx.toks[s.pos + 1])
  {
    hide IndexOf, Flagged, Choose, Precedence.Reduce, Conflict;
  }

  lemma ShiftKeepsSound(ctx: Ctx, start: nat, s: PState, tr: seq<Tree>) returns (tr': seq<Tree>)
    requires Calm(ctx, s) && Sound(ctx, start, s, tr) && (Choose(s) == S || Choose(s) == E)
    ensures Sound(ctx, start, Pass(ctx, s), tr')
  {
    hide Stacked, Topped, Cell, IndexOf, Flagged, CalmStack, Pass, Read, OneLine, Prec, TopKind;
    var op := ShiftOperation(s);
    ShiftFits(s.stack, tr, s.cur);
    ShiftTable(TopKind(s.stack), s.cur.kind);
    PassOfShift(ctx, s);
    tr' := tr + [Leaf(s.cur)];
    TreesOf(ctx, start, s, tr);
    ReadSnoc(tr, Leaf(s.cur));
    SliceSnoc(ctx.toks, start, s.pos);
    ShiftTopped(s.stack, tr, s.cur, ctx.toks[s.pos + 1]);
  }

  lemma SliceSnoc(s: seq<Token>, i: nat, j: nat)
    requires i <= j < |s|
    ensures s[i..j + 1] == s[i..j] + [s[j]]
  {
  }

  lemma ShiftOperation(s: PState) returns (op: Operation)
    requires Bottomed(s)
    ensures op == Choose(s) == Prec(TopKind(s.stack), s.cur.kind)
  {
    hide Cell, IndexOf;
    TopTerminalExists(s.stack);
    op := Choose(s);
  }

  lemma TreesOf(ctx: Ctx, start: nat, s: PState, tr: seq<Tree>)
    requires Sound(ctx, start, s, tr)
    ensures tr != [] && |tr| == |s.stack| == |Flagged(s.stack)|
  {
  }

  /** A shifted terminal is on top, whatever comes next. */
  lemma ShiftTopped(st: Stack, tr: seq<Tree>, cur: Token, next: Token)
    ensures |tr| == |Flagged(st)| ==> Topped(Flagged(st) + [FromToken(cur)], tr + [Leaf(cur)], next)
    ensures |tr| == |st| ==> Topped(st + [FromToken(cur)], tr + [Leaf(cur)], next)
  {
  }

  /** A pass that leaves no error keeps the invariant. */
  lemma PassKeepsSound(ctx: Ctx, start: nat, s: PState, tr: seq<Tree>) returns (tr': seq<Tree>)
    requires Calm(ctx, s) && NoBangParen(ctx.toks) && Sound(ctx, start, s, tr)
    requires |s.stack| == 1 || !Halted(s)
    requires Pass(ctx, s).sem.err == NO_ERR
    ensures Sound(ctx, start, Pass(ctx, s), tr')
  {
    hide Sound, Handle, GetRule, Precedence.Reduce, Conflict, Cell, IndexOf, Flagged;
    match Choose(s)
    case X =>
      ConflictOfSound(ctx, start, s, tr);
      assert false;
    case R =>
      if GetRule(Handle(s.stack)) == NoRule {
        NoRuleFails(ctx, s);
        assert false;
      }
      ReductionDue(ctx, start, s, tr);
      tr' := ReduceKeepsSound(ctx, start, s, tr);
    case _ =>
      tr' := ShiftKeepsSound(ctx, start, s, tr);
  }

  lemma ConflictOfSound(ctx: Ctx, start: nat, s: PState, tr: seq<Tree>)
    requires Calm(ctx, s) && Sound(ctx, start, s, tr) && Choose(s) == X
    ensures Conflict(ctx, s).sem.err != NO_ERR
  {
    hide Stacked, Topped, Choose, Conflict;
    ConflictFails(ctx, s, tr);
  }

  lemma ReductionDue(ctx: Ctx, start: nat, s: PState, tr: seq<Tree>)
    requires Calm(ctx, s) && NoBangParen(ctx.toks) && Sound(ctx, start, s, tr)
    requires (|s.stack| == 1 || !Halted(s)) && Choose(s) == R && GetRule(Handle(s.stack)) != NoRule
    ensures Reducing(s.stack, tr, s.cur)
  {
    hide Fits, Pair, Triple, IndexOf, Topped, Read, CalmStack;
    EndIndex();
    TopTerminalExists(s.stack);
    TopIsNear(s.stack, tr);
    if |s.stack| >= 2 && s.stack[|s.stack| - 1].tok.kind == KNotNil {
      BangWasRead(ctx, start, s, tr);
    }
  }

  lemma {:induction false} RunKeepsSound(ctx: Ctx, start: nat, s: PState, tr: seq<Tree>, n: nat)
    returns (tr': seq<Tree>)
    requires Calm(ctx, s) && NoBangParen(ctx.toks) && Sound(ctx, start, s, tr)
    requires Run(ctx, s, n).sem.err == NO_ERR
    ensures Sound(ctx, start, Run(ctx, s, n), tr')
    decreases n
  {
    hide Pass, Sound, OneLine;
    tr' := tr;
    if n > 0 && !Halted(s) {
      PassKeepsBottom(ctx, s);
      PassShrinks(ctx, s);
      if Pass(ctx, s).sem.err != NO_ERR {
        RunKeepsError(ctx, Pass(ctx, s), n - 1);
      }
      tr' := PassKeepsSound(ctx, start, s, tr);
      tr' := RunKeepsSound(ctx, start, Pass(ctx, s), tr', n - 1);
    }
  }

  /** A stopped loop with something above the bottom has read one sentence. */
  lemma HaltedReadsSentence(ctx: Ctx, start: nat, s: PState, tr: seq<Tree>) returns (t: Tree)
    requires Sound(ctx, start, s, tr) && Halted(s) && |s.stack| >= 2
    ensures Stratified(t) && Before(ctx, start, t) && s.pos == start + |Yield(t)|
  {
    hide IndexOf, Triple, Stratified, Level, Opens, FollowMin;
    TopIsNear(s.stack, tr);
    var n := |s.stack|;
    var c := TopTerminal(s.stack);
    assert c == 0 || Fits(s.stack[c], tr[c]);
    t := tr[1];
    assert Fits(s.stack[1], t);
    assert tr == [tr[0]] + [t];
    YieldsOfThree(t, t, t);
    assert tr[1..] == [t];
    assert Yield(t) == ctx.toks[start..s.pos];
  }

  lemma StartSound(ctx: Ctx, pos: nat, sem: Sem)
    requires pos + 1 < |ctx.toks|
    ensures Sound(ctx, pos + 1, Start(ctx, pos, sem), [Leaf(DOLLAR.tok)])
  {
  }

  /** The tree reads as a sentence before an end marker, and its actions find no error. */
  ghost predicate Accepted(ctx: Ctx, pos: nat, sem: Sem, t: Tree) {
    && Stratified(t) && Before(ctx, pos + 1, t)
    && IndexOf(ctx.toks[pos + 1 + |Yield(t)|].kind) == IDollar
    && TreeOutcome(ctx, pos + 1, sem, t).sem.err == NO_ERR
  }

  /** The loop of a call that finds no error stops on a sentence. */
  lemma LoopReadsSentence(ctx: Ctx, pos: nat, sem: Sem, n: nat) returns (t: Tree)
    requires OneLine(ctx) && NoBangParen(ctx.toks) && pos + 1 < |ctx.toks|
    requires var s := Loop(ctx, Start(ctx, pos, sem), n); Halted(s) && Finish(ctx, s).sem.err == NO_ERR
    ensures Stratified(t) && Before(ctx, pos + 1, t)
    ensures IndexOf(ctx.toks[pos + 1 + |Yield(t)|].kind) == IDollar
  {
    hide Pass, Sound, OneLine, IndexOf, Finish, Stratified, Stand, Calm;
    var s0 := Start(ctx, pos, sem);
    var s := Loop(ctx, s0, n);
    StartCalm(ctx, pos, sem);
    StartSound(ctx, pos, sem);
    PassKeepsBottom(ctx, s0);
    PassShrinks(ctx, s0);
    FinishKeepsError(ctx, s);
    if Pass(ctx, s0).sem.err != NO_ERR {
      RunKeepsError(ctx, Pass(ctx, s0), n);
    }
    var tr := PassKeepsSound(ctx, pos + 1, s0, [Leaf(DOLLAR.tok)]);
    tr := RunKeepsSound(ctx, pos + 1, Pass(ctx, s0), tr, n);
    t := HaltedReadsSentence(ctx, pos + 1, s, tr);
    CurrentOfSound(ctx, pos + 1, s, tr);
  }

  /** A call that returns without an error has consumed exactly a sentence and done exactly its actions. */
  lemma ReturnsSentence(ctx: Ctx, pos: nat, sem: Sem, out: Outcome) returns (t: Tree)
    requires OneLine(ctx) && NoBangParen(ctx.toks) && pos + 1 < |ctx.toks|
    requires Returns(ctx, pos, sem, out) && out.sem.err == NO_ERR
    ensures Accepted(ctx, pos, sem, t)
    ensures out == TreeOutcome(ctx, pos + 1, sem, t)
  {
    hide Loop, Start, OneLine, TreeOutcome, IndexOf, Finish, Stratified, NoBangParen, Stand, Halted;
    var n: nat :| ReturnsIn(ctx, pos, sem, out, n);
    t := LoopReadsSentence(ctx, pos, sem, n);
    SentenceReturns(ctx, pos, sem, t);
    ReturnsOnce(ctx, pos, sem, out, TreeOutcome(ctx, pos + 1, sem, t));
  }

  lemma CurrentOfSound(ctx: Ctx, start: nat, s: PState, tr: seq<Tree>)
    requires Sound(ctx, start, s, tr)
    ensures s.pos < |ctx.toks| && s.cur == ctx.toks[s.pos]
  {
  }

  /** Reading out a stopped loop without an error needs one symbol above the bottom and no earlier error. */
  lemma FinishKeepsError(ctx: Ctx, s: PState)
    requires ctx.toks != [] && s.stack != [] && Finish(ctx, s).sem.err == NO_ERR
    ensures s.sem.err == NO_ERR && |s.stack| >= 2
  {
  }

  /** The expression parser accepts exactly the well-typed sentences of the stratified grammar, on every token
      list that starts no line and has no `!` directly before `(`. */
  lemma AcceptsExactlySentences(ctx: Ctx, pos: nat, sem: Sem)
    requires OneLine(ctx) && NoBangParen(ctx.toks) && pos + 1 < |ctx.toks|
    ensures (exists out :: Returns(ctx, pos, sem, out) && out.sem.err == NO_ERR)
       <==> (exists t :: Accepted(ctx, pos, sem, t))
  {
    hide Returns, TreeOutcome, OneLine, NoBangParen, Stratified, IndexOf, Stand;
    if out :| Returns(ctx, pos, sem, out) && out.sem.err == NO_ERR {
      var t := ReturnsSentence(ctx, pos, sem, out);
    }
    if t :| Accepted(ctx, pos, sem, t) {
      SentenceReturns(ctx, pos, sem, t);
      assert Returns(ctx, pos, sem, TreeOutcome(ctx, pos + 1, sem, t));
    }
  }
}
