/** The stratified grammar is unambiguous: a token list has at most one tree. */
module Unambiguity {
  import opened Tokens
  import opened Semantics
  import opened Precedence
  import opened Grammar
  import opened Completeness
  import opened Sentences
  import opened Soundness

  function Delta(k: Kind): int {
    if k == KLPar then 1 else if k == KRPar then -1 else 0
  }

  /** Opening minus closing parentheses. */
  function Depth(y: seq<Token>): int {
    if y == [] then 0 else Depth(y[..|y| - 1]) + Delta(y[|y| - 1].kind)
  }

  lemma {:induction false} DepthConcat(a: seq<Token>, b: seq<Token>)
    ensures Depth(a + b) == Depth(a) + Depth(b)
    decreases |b|
  {
    if b == [] {
      assert a + b == a;
    } else {
      assert (a + b)[..|a + b| - 1] == a + b[..|b| - 1];
      DepthConcat(a, b[..|b| - 1]);
    }
  }

  lemma DepthOne(tok: Token)
    ensures Depth([tok]) == Delta(tok.kind)
  {
    assert [tok][..0] == [];
  }

  /** Where a prefix of three parts ends. */
  lemma DepthPrefix(a: seq<Token>, b: seq<Token>, c: seq<Token>, i: nat)
    requires i <= |a| + |b| + |c|
    ensures var y := a + b + c;
            Depth(y[..i]) ==
              if i <= |a| then Depth(a[..i])
              else if i <= |a| + |b| then Depth(a) + Depth(b[..i - |a|])
              else Depth(a) + Depth(b) + Depth(c[..i - |a| - |b|])
  {
    var y := a + b + c;
    if i <= |a| {
      assert y[..i] == a[..i];
    } else if i <= |a| + |b| {
      assert y[..i] == a + b[..i - |a|];
      DepthConcat(a, b[..i - |a|]);
    } else {
      assert y[..i] == a + b + c[..i - |a| - |b|];
      DepthConcat(a + b, c[..i - |a| - |b|]);
      DepthConcat(a, b);
    }
  }

  lemma NoParenthesis(k: Kind)
    ensures IsOperandKind(k) || k == KNotNil || IsBinaryOperator(k) ==> Delta(k) == 0
    ensures IsOperandKind(k) || k == KNotNil || k == KLPar || k == KRPar ==> !IsBinaryOperator(k)
  {
  }

  predicate NeverNegative(y: seq<Token>) {
    forall i :: 0 <= i <= |y| ==> Depth(y[..i]) >= 0
  }

  lemma OneNeverNegative(tok: Token)
    requires Delta(tok.kind) >= 0
    ensures NeverNegative([tok])
  {
    DepthOne(tok);
    assert [tok][..0] == [] && [tok][..1] == [tok];
  }

  lemma JoinNeverNegative(a: seq<Token>, b: seq<Token>, c: seq<Token>)
    requires NeverNegative(a) && NeverNegative(b)
    requires forall i :: 0 <= i <= |c| ==> Depth(a) + Depth(b) + Depth(c[..i]) >= 0
    ensures NeverNegative(a + b + c)
  {
    assert a[..|a|] == a && b[..|b|] == b;
    forall i | 0 <= i <= |a + b + c|
      ensures Depth((a + b + c)[..i]) >= 0
    {
      DepthPrefix(a, b, c, i);
    }
  }

  /** A tree's parentheses match. */
  lemma {:induction false} Balanced(t: Tree)
    requires Stratified(t)
    ensures Depth(Yield(t)) == 0 && NeverNegative(Yield(t))
    decreases t
  {
    hide IsOperandKind, IsBinaryOperator, Level, LeftMin, RightMin, NeverNegative, Depth;
    NoDepth();
    match t
    case Leaf(tok) =>
      NoParenthesis(tok.kind);
      DepthOne(tok);
      OneNeverNegative(tok);
    case Bang(e, bang) =>
      Balanced(e);
      NoParenthesis(bang.kind);
      BalancedParts(Yield(e), bang, []);
      assert Yield(e) + [bang] + [] == Yield(e) + [bang];
    case Paren(lp, e, rp) =>
      Balanced(e);
      ParenBalanced(lp, Yield(e), rp);
    case Bin(l, op, r) =>
      Balanced(l);
      Balanced(r);
      NoParenthesis(op.kind);
      BalancedParts(Yield(l), op, Yield(r));
  }

  lemma NoDepth()
    ensures Depth([]) == 0 && NeverNegative([])
  {
  }

  lemma BalancedParts(a: seq<Token>, op: Token, b: seq<Token>)
    requires Depth(a) == 0 && NeverNegative(a) && Depth(b) == 0 && NeverNegative(b) && Delta(op.kind) == 0
    ensures Depth(a + [op] + b) == 0 && NeverNegative(a + [op] + b)
  {
    DepthOne(op);
    OneNeverNegative(op);
    DepthConcat(a, [op]);
    DepthConcat(a + [op], b);
    JoinNeverNegative(a, [op], b);
  }

  lemma ParenBalanced(lp: Token, y: seq<Token>, rp: Token)
    requires lp.kind == KLPar && rp.kind == KRPar && Depth(y) == 0 && NeverNegative(y)
    ensures Depth([lp] + y + [rp]) == 0 && NeverNegative([lp] + y + [rp])
  {
    DepthOne(lp);
    DepthOne(rp);
    OneNeverNegative(lp);
    DepthConcat([lp], y);
    DepthConcat([lp] + y, [rp]);
    assert [rp][..0] == [] && [rp][..1] == [rp];
    JoinNeverNegative([lp], y, [rp]);
  }

  /** A binary operator outside parentheses. */
  predicate Outer(y: seq<Token>, i: nat) {
    i < |y| && IsBinaryOperator(y[i].kind) && Depth(y[..i]) == 0
  }

  lemma NoneOuter(lp: Token, e: seq<Token>, rp: Token, i: nat)
    requires lp.kind == KLPar && rp.kind == KRPar && NeverNegative(e)
    ensures !Outer([lp] + e + [rp], i)
  {
    hide IsBinaryOperator, Depth;
    NoParenthesis(lp.kind);
    NoParenthesis(rp.kind);
    DepthOne(lp);
    assert [lp][..1] == [lp];
    if 1 <= i <= |e| + 1 {
      DepthPrefix([lp], e, [rp], i);
      assert e[..0] == [];
      NoDepth();
      assert Depth(e[..i - 1]) >= 0;
    }
  }

  /** No outer operator of a tree binds weaker than the tree; operands and parentheses have none. */
  lemma {:induction false} OuterLevels(t: Tree, i: nat)
    requires Stratified(t) && Outer(Yield(t), i)
    ensures t.Bin? && OpLevel(Yield(t)[i].kind) >= Level(t)
    decreases t
  {
    hide IsOperandKind, IsBinaryOperator, Depth, OpLevel;
    var y := Yield(t);
    match t
    case Leaf(tok) => NoParenthesis(tok.kind);
    case Bang(e, bang) =>
      NoParenthesis(bang.kind);
      assert i < |Yield(e)|;
      assert y[..i] == Yield(e)[..i];
      OuterLevels(e, i);
      OpLevelSmall(y[i].kind);
      assert false;
    case Paren(lp, e, rp) =>
      Balanced(e);
      NoneOuter(lp, Yield(e), rp, i);
    case Bin(l, op, r) =>
      OuterInParts(l, op, r, i);
      MinAboveLevel(op.kind);
      if i < |Yield(l)| {
        OuterLevels(l, i);
      } else if i > |Yield(l)| {
        OuterLevels(r, i - |Yield(l)| - 1);
      }
  }

  lemma OpLevelSmall(k: Kind)
    ensures OpLevel(k) <= 3
  {
  }

  lemma MinAboveLevel(k: Kind)
    ensures LeftMin(k) >= OpLevel(k) && RightMin(k) >= OpLevel(k)
    ensures OpLevel(k) >= 2 ==> RightMin(k) > OpLevel(k)
    ensures OpLevel(k) < 2 ==> LeftMin(k) > OpLevel(k)
  {
  }

  lemma OuterLeft(a: seq<Token>, op: Token, b: seq<Token>, i: nat)
    requires i < |a|
    ensures var y := a + [op] + b;
            y[i] == a[i] && (Outer(y, i) <==> Outer(a, i))
  {
    hide IsBinaryOperator, Depth;
    var y := a + [op] + b;
    assert y[..i] == a[..i];
  }

  lemma OuterRight(a: seq<Token>, op: Token, b: seq<Token>, j: nat)
    requires j < |b| && Depth(a) == 0 && Depth([op]) == 0
    ensures var y := a + [op] + b;
            y[|a| + 1 + j] == b[j] && (Outer(y, |a| + 1 + j) <==> Outer(b, j))
  {
    hide IsBinaryOperator, Depth;
    var y := a + [op] + b;
    assert y[..|a| + 1 + j] == a + [op] + b[..j];
    DepthConcat(a + [op], b[..j]);
    DepthConcat(a, [op]);
  }

  lemma OuterMiddle(a: seq<Token>, op: Token, b: seq<Token>)
    requires Depth(a) == 0 && IsBinaryOperator(op.kind)
    ensures Outer(a + [op] + b, |a|)
  {
    hide IsBinaryOperator, Depth;
    assert (a + [op] + b)[..|a|] == a;
  }

  /** The outer operators of an operation: its parts' and its own. */
  lemma OuterInParts(l: Tree, op: Token, r: Tree, i: nat)
    requires Stratified(l) && Stratified(r) && IsBinaryOperator(op.kind)
    ensures var y := Yield(l) + [op] + Yield(r);
            && Outer(y, |Yield(l)|)
            && (Outer(y, i) && i < |Yield(l)| ==> Outer(Yield(l), i) && y[i] == Yield(l)[i])
            && (Outer(y, i) && i > |Yield(l)| ==>
                 Outer(Yield(r), i - |Yield(l)| - 1) && y[i] == Yield(r)[i - |Yield(l)| - 1])
  {
    hide IsBinaryOperator, IsOperandKind, Depth, Stratified, Yield, NeverNegative;
    var a, b := Yield(l), Yield(r);
    Balanced(l);
    Balanced(r);
    NoParenthesis(op.kind);
    DepthOne(op);
    OuterMiddle(a, op, b);
    if i < |a| {
      OuterLeft(a, op, b, i);
    } else if |a| < i < |a| + 1 + |b| {
      OuterRight(a, op, b, i - |a| - 1);
    } else if i != |a| {
      assert !Outer(a + [op] + b, i);
    }
  }

  /** Two operations with one yield split it at the same operator. */
  lemma SameSplit(t: Tree, u: Tree)
    requires t.Bin? && u.Bin? && Stratified(t) && Stratified(u) && Yield(t) == Yield(u)
    ensures |Yield(t.l)| == |Yield(u.l)|
  {
    hide IsBinaryOperator, IsOperandKind, Depth, OpLevel, Outer;
    var y, i, j := Yield(t), |Yield(t.l)|, |Yield(u.l)|;
    OuterInParts(t.l, t.op, t.r, j);
    OuterInParts(u.l, u.op, u.r, i);
    assert y[i] == t.op && y[j] == u.op;
    OuterLevels(t, j);
    OuterLevels(u, i);
    MinAboveLevel(t.op.kind);
    MinAboveLevel(u.op.kind);
    SplitNotBefore(t, u);
    SplitNotBefore(u, t);
  }

  lemma SplitNotBefore(t: Tree, u: Tree)
    requires t.Bin? && u.Bin? && Stratified(t) && Stratified(u) && Yield(t) == Yield(u)
    requires OpLevel(t.op.kind) == OpLevel(u.op.kind)
    ensures |Yield(t.l)| >= |Yield(u.l)|
  {
    hide IsBinaryOperator, IsOperandKind, Depth, OpLevel, Outer;
    var i, j := |Yield(t.l)|, |Yield(u.l)|;
    if i < j {
      OuterInParts(t.l, t.op, t.r, j);
      OuterInParts(u.l, u.op, u.r, i);
      MinAboveLevel(t.op.kind);
      OuterLevels(t.r, j - i - 1);
      OuterLevels(u.l, i);
      assert false;
    }
  }

  /** The first and last tokens tell apart what is no binary operation. */
  lemma Ends(t: Tree)
    requires Stratified(t)
    ensures var y := Yield(t);
            && (t.Leaf? ==> |y| == 1 && IsOperandKind(y[0].kind))
            && (t.Bang? ==> |y| >= 2 && y[0].kind != KLPar && y[|y| - 1] == t.bang)
            && (t.Paren? ==> |y| >= 2 && y[0] == t.lp && y[|y| - 1] == t.rp && y[0].kind == KLPar)
  {
    hide IsBinaryOperator, LeftMin, RightMin;
    if t.Leaf? {
      NoParenthesis(t.tok.kind);
    } else if t.Bang? {
      Ends(t.e);
      assert Yield(t)[0] == Yield(t.e)[0];
      NoParenthesis(Yield(t.e)[0].kind);
    }
  }

  lemma OperationIsOuter(t: Tree, u: Tree)
    requires t.Bin? && Stratified(t) && Stratified(u) && Yield(t) == Yield(u)
    ensures u.Bin?
  {
    hide IsBinaryOperator, Depth, OpLevel, Outer;
    OuterInParts(t.l, t.op, t.r, 0);
    OuterLevels(u, |Yield(t.l)|);
  }

  /** A token list has at most one tree. */
  lemma {:induction false} OneTree(t: Tree, u: Tree)
    requires Stratified(t) && Stratified(u) && Yield(t) == Yield(u)
    ensures t == u
    decreases t
  {
    hide IsBinaryOperator, IsOperandKind, Level, LeftMin, RightMin;
    var y := Yield(t);
    if t.Bin? || u.Bin? {
      if t.Bin? {
        OperationIsOuter(t, u);
      } else {
        OperationIsOuter(u, t);
      }
      SameSplit(t, u);
      var k := |Yield(t.l)|;
      assert Yield(t.l) == y[..k] == Yield(u.l) && t.op == y[k] == u.op && Yield(t.r) == y[k + 1..] == Yield(u.r);
      OneTree(t.l, u.l);
      OneTree(t.r, u.r);
    } else {
      Ends(t);
      Ends(u);
      if t.Bang? {
        assert Yield(t.e) == y[..|y| - 1] == Yield(u.e);
        OneTree(t.e, u.e);
      } else if t.Paren? {
        assert Yield(t.e) == y[1..|y| - 1] == Yield(u.e);
        OneTree(t.e, u.e);
      }
    }
  }

  /** No token of a sentence ends an expression. */
  lemma {:induction false} NoEndInside(t: Tree, i: nat)
    requires Stratified(t) && i < |Yield(t)|
    ensures IndexOf(Yield(t)[i].kind) != IDollar
    decreases t
  {
    hide IndexOf, IsBinaryOperator, IsOperandKind, Level, LeftMin, RightMin, OperatorRule;
    var k := Yield(t)[i].kind;
    KindIndex(k);
    match t
    case Leaf(_) =>
    case Bang(e, _) => if i < |Yield(e)| { NoEndInside(e, i); }
    case Paren(_, e, _) => if 0 < i <= |Yield(e)| { NoEndInside(e, i - 1); }
    case Bin(l, _, r) =>
      if i < |Yield(l)| {
        NoEndInside(l, i);
      } else if i > |Yield(l)| {
        NoEndInside(r, i - |Yield(l)| - 1);
      }
  }

  lemma NotLonger(ctx: Ctx, pos: nat, sem: Sem, t: Tree, u: Tree)
    requires Accepted(ctx, pos, sem, t) && Accepted(ctx, pos, sem, u)
    ensures |Yield(t)| <= |Yield(u)|
  {
    hide IndexOf, TreeOutcome, Stratified;
    var y, k := Yield(t), |Yield(u)|;
    if k < |y| {
      assert y[k] == ctx.toks[pos + 1..pos + 1 + |y|][k] == ctx.toks[pos + 1 + k];
      NoEndInside(t, k);
      assert false;
    }
  }

  /** A call accepts at most one tree, so that its reductions are the post-order of the only reading. */
  lemma AcceptedUnique(ctx: Ctx, pos: nat, sem: Sem, t: Tree, u: Tree)
    requires Accepted(ctx, pos, sem, t) && Accepted(ctx, pos, sem, u)
    ensures t == u
  {
    hide IndexOf, TreeOutcome, Stratified;
    NotLonger(ctx, pos, sem, t, u);
    NotLonger(ctx, pos, sem, u, t);
    OneTree(t, u);
  }
}
