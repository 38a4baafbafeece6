/** The expression loop stops on every token list without line starts, erroneous ones included; with a line
    start it may not. */
module Termination {
  import opened Tokens
  import opened Semantics
  import opened Precedence
  import opened ExprParsing
  import opened Completeness

  function Terminals(st: Stack): nat {
    if st == [] then 0 else Terminals(st[..|st| - 1]) + (if st[|st| - 1].terminal then 1 else 0)
  }

  function Flags(st: Stack): nat {
    if st == [] then 0 else Flags(st[..|st| - 1]) + (if st[|st| - 1].handle then 1 else 0)
  }

  /** No token starts a line, and the buffer ends with an end marker. */
  predicate OneLine(ctx: Ctx) {
    && ctx.toks != [] && IndexOf(ctx.toks[|ctx.toks| - 1].kind) == IDollar
    && forall i :: 0 <= i < |ctx.toks| ==> !ctx.toks[i].eol
  }

  /** Invariant of the loop on one line; the key part is that the top symbol is never a flagged terminal. */
  predicate Calm(ctx: Ctx, s: PState) {
    && OneLine(ctx) && Bottomed(s)
    && s.pos < |ctx.toks| && s.cur == ctx.toks[s.pos]
    && CalmStack(s.stack)
  }

  predicate CalmStack(st: Stack) {
    && st != []
    && !(st[|st| - 1].handle && st[|st| - 1].terminal)
    && forall i :: 0 <= i < |st| ==> !st[i].tok.eol && (st[i].handle ==> st[i].terminal)
  }

  /** Remaining tokens, stack size, terminals, flags: what a pass makes smaller. */
  datatype Measure = Measure(left: nat, size: nat, terminals: nat, flags: nat)

  function MeasureOf(ctx: Ctx, s: PState): Measure {
    Measure(if s.pos < |ctx.toks| then |ctx.toks| - s.pos else 0, |s.stack|, Terminals(s.stack), Flags(s.stack))
  }

  predicate Smaller(a: Measure, b: Measure) {
    || a.left < b.left
    || (a.left == b.left && a.size < b.size)
    || (a.left == b.left && a.size == b.size && a.terminals < b.terminals)
    || (a.left == b.left && a.size == b.size && a.terminals == b.terminals && a.flags < b.flags)
  }

  /** Replacing the top symbol and unflagging the one below it lowers the counts. */
  lemma CountsDrop(st: Stack, e: Sym)
    requires |st| >= 2 && !e.terminal && !e.handle
    requires st[|st| - 1].handle ==> st[|st| - 1].terminal
    requires st[|st| - 1].terminal || st[|st| - 2].handle
    ensures var n := |st|;
            var r := st[..n - 2] + [st[n - 2].(handle := false)] + [e];
            Terminals(r) < Terminals(st) || (Terminals(r) == Terminals(st) && Flags(r) < Flags(st))
  {
    var n := |st|;
    var x := st[n - 2].(handle := false);
    var r := st[..n - 2] + [x] + [e];
    assert r[..n - 1] == st[..n - 2] + [x] && (st[..n - 2] + [x])[..n - 2] == st[..n - 2];
    assert st[..n - 1][..n - 2] == st[..n - 2];
  }

  lemma ActCalm(ctx: Ctx, sem: Sem, h: Stack)
    requires GetRule(h) != NoRule
    requires forall i :: 0 <= i < |h| ==> !h[i].tok.eol && !h[i].handle
    ensures var e := Act(ctx, sem, GetRule(h), h).1; !e.terminal && !e.handle && !e.tok.eol
  {
  }

  lemma BelowCalm(st: Stack, e: Sym)
    requires CalmStack(st) && !e.terminal && !e.handle && !e.tok.eol
    ensures CalmStack(Below(st) + [e]) && !HasEol(Below(st))
  {
  }

  lemma HandleCalm(st: Stack)
    requires CalmStack(st)
    ensures forall i :: 0 <= i < |Handle(st)| ==> !Handle(st)[i].tok.eol && !Handle(st)[i].handle
    ensures |st| >= 2 ==> 1 <= HandleLen(st)
    ensures |st| >= 2 && HandleLen(st) == 1 ==> |st| == 2 || st[|st| - 2].handle
  {
    var h := Handle(st);
    assert forall i :: 0 <= i < |h| ==> h[i] == st[|st| - |h| + i];
  }

  /** The symbol a reduction leaves, good or bad handle alike. */
  function Reduced(ctx: Ctx, s: PState): Sym
    requires s.stack != []
  {
    var h := Handle(s.stack);
    if GetRule(h) == NoRule then ReduceError(ctx, s.sem, h).1 else Act(ctx, s.sem, GetRule(h), h).1
  }

  lemma ReducedCalm(ctx: Ctx, s: PState)
    requires CalmStack(s.stack)
    ensures var e := Reduced(ctx, s); !e.terminal && !e.handle && !e.tok.eol
  {
    hide Act, ReduceError, GetRule, Handle;
    var h := Handle(s.stack);
    HandleCalm(s.stack);
    if GetRule(h) != NoRule {
      ActCalm(ctx, s.sem, h);
    } else {
      ErrorCalm(ctx, s.sem, h);
    }
  }

  lemma ReduceStack(ctx: Ctx, s: PState)
    requires s.stack != [] && !HasEol(Below(s.stack))
    ensures var s' := Precedence.Reduce(ctx, s);
            s' == s.(stack := Below(s.stack) + [Reduced(ctx, s)], sem := s'.sem)
  {
    hide Act, ReduceError, GetRule, Handle, Below, HasEol;
  }

  lemma StackDrops(st: Stack, e: Sym)
    requires CalmStack(st) && !e.terminal && !e.handle && |st| >= 2 && (|st| == 2 ==> st[1].terminal)
    ensures var r := Below(st) + [e];
            |r| < |st| ||
            (|r| == |st| && (Terminals(r) < Terminals(st) || (Terminals(r) == Terminals(st) && Flags(r) < Flags(st))))
  {
    HandleCalm(st);
    if HandleLen(st) == 1 {
      CountsDrop(st, e);
    }
  }

  lemma ReduceShrinks(ctx: Ctx, s: PState)
    requires Calm(ctx, s) && Choose(s) == R
    ensures var s' := Precedence.Reduce(ctx, s);
            Calm(ctx, s') && (!Halted(s) ==> Smaller(MeasureOf(ctx, s'), MeasureOf(ctx, s)))
  {
    hide Reduced, Precedence.Reduce, IndexOf, Below, Choose, Halted, Terminals, Flags, HasEol, CalmStack;
    var e := Reduced(ctx, s);
    ReducedCalm(ctx, s);
    BelowCalm(s.stack, e);
    ReduceStack(ctx, s);
    ReduceKeepsBottom(ctx, s);
    if !Halted(s) {
      ReduceNeedsTwo(s);
      StackDrops(s.stack, e);
    }
  }

  lemma ErrorCalm(ctx: Ctx, sem: Sem, h: Stack)
    ensures var e := ReduceError(ctx, sem, h).1; !e.terminal && !e.handle && !e.tok.eol
  {
  }

  /** Above a lone bottom the loop reduces only when it has stopped. */
  lemma ReduceNeedsTwo(s: PState)
    requires Bottomed(s) && CalmStack(s.stack) && Choose(s) == R && !Halted(s)
    ensures |s.stack| >= 2
    ensures |s.stack| == 2 ==> s.stack[1].terminal
  {
    hide IndexOf;
    EndIndex();
    TopTerminalExists(s.stack);
  }

  /** The stack a conflict leaves. */
  lemma ConflictStack(ctx: Ctx, s: PState) returns (e: Sym)
    requires Calm(ctx, s)
    ensures !e.terminal && !e.handle && !e.tok.eol
    ensures var st := s.stack + [FromToken(s.cur)];
            var s' := Conflict(ctx, s);
            CalmStack(st) && s' == Next(ctx, s.(stack := Below(st) + [e], sem := s'.sem))
  {
    hide ReduceError, Handle, Below, OneLine;
    var st := s.stack + [FromToken(s.cur)];
    e := ReduceError(ctx, s.sem, Handle(st)).1;
    ErrorCalm(ctx, s.sem, Handle(st));
    OneLineAt(ctx, s.pos);
    assert forall i :: 0 <= i < |st| ==> !st[i].tok.eol;
  }

  lemma OneLineAt(ctx: Ctx, i: nat)
    requires OneLine(ctx) && i < |ctx.toks|
    ensures !ctx.toks[i].eol
  {
  }

  lemma ConflictShrinks(ctx: Ctx, s: PState)
    requires Calm(ctx, s) && Choose(s) == X
    ensures var s' := Conflict(ctx, s);
            Calm(ctx, s') && Smaller(MeasureOf(ctx, s'), MeasureOf(ctx, s))
  {
    hide Conflict, Cell, IndexOf, Choose, CalmStack, Terminals, Flags, Below;
    var e := ConflictStack(ctx, s);
    var st := s.stack + [FromToken(s.cur)];
    BelowCalm(st, e);
    ConflictKeepsBottom(ctx, s);
    if s.pos + 1 == |ctx.toks| {
      ConflictNeedsTwo(s);
      ConflictDrops(s.stack, FromToken(s.cur), e);
    }
  }

  /** Pushing a symbol and reducing it with its neighbours makes the stack no larger. */
  lemma ConflictDrops(st: Stack, y: Sym, e: Sym)
    requires CalmStack(st) && CalmStack(st + [y]) && |st| >= 2 && (|st| == 2 ==> st[1].terminal)
    requires !y.handle && !e.terminal && !e.handle
    ensures var r := Below(st + [y]) + [e];
            |r| < |st| ||
            (|r| == |st| && (Terminals(r) < Terminals(st) || (Terminals(r) == Terminals(st) && Flags(r) < Flags(st))))
  {
    var n, up := |st|, st + [y];
    HandleCalm(up);
    if HandleLen(up) == 2 {
      assert Below(up) == st[..n - 2] + [st[n - 2].(handle := false)];
      CountsDrop(st, e);
    }
  }

  /** At the end of the input only an open parenthesis is a conflict. */
  lemma ConflictNeedsTwo(s: PState)
    requires Bottomed(s) && Choose(s) == X && IndexOf(s.cur.kind) == IDollar
    ensures |s.stack| >= 2
    ensures |s.stack| == 2 ==> s.stack[1].terminal
  {
    hide IndexOf;
    EndIndex();
    TopTerminalExists(s.stack);
  }

  lemma PassShrinks(ctx: Ctx, s: PState)
    requires Calm(ctx, s)
    ensures Calm(ctx, Pass(ctx, s))
    ensures !Halted(s) ==> Smaller(MeasureOf(ctx, Pass(ctx, s)), MeasureOf(ctx, s))
  {
    hide IndexOf, Conflict, Precedence.Reduce, MeasureOf;
    PassKeepsBottom(ctx, s);
    match Choose(s)
    case R => ReduceShrinks(ctx, s);
    case X => ConflictShrinks(ctx, s);
    case _ => ShiftShrinks(ctx, s);
  }

  lemma ShiftShrinks(ctx: Ctx, s: PState)
    requires Calm(ctx, s) && (Choose(s) == E || Choose(s) == S)
    ensures Calm(ctx, Pass(ctx, s)) && Smaller(MeasureOf(ctx, Pass(ctx, s)), MeasureOf(ctx, s))
  {
    hide IndexOf, Conflict, Precedence.Reduce;
    PassKeepsBottom(ctx, s);
    var st := if Choose(s) == S then Flagged(s.stack) else s.stack;
    assert forall i :: 0 <= i < |st| ==> !st[i].tok.eol && (st[i].handle ==> st[i].terminal);
    assert IndexOf(s.cur.kind) != IDollar;
  }

  /** The loop stops after some number of passes. */
  lemma {:induction false} Stops(ctx: Ctx, s: PState) returns (n: nat)
    requires Calm(ctx, s)
    ensures Halted(Run(ctx, s, n))
    decreases MeasureOf(ctx, s).left, MeasureOf(ctx, s).size, MeasureOf(ctx, s).terminals, MeasureOf(ctx, s).flags
  {
    hide Pass, MeasureOf;
    if Halted(s) {
      n := 0;
    } else {
      PassShrinks(ctx, s);
      PassKeepsBottom(ctx, s);
      n := Stops(ctx, Pass(ctx, s));
      n := n + 1;
    }
  }

  /** Every call on one line returns, whatever its tokens. */
  lemma CallStops(ctx: Ctx, pos: nat, sem: Sem)
    requires OneLine(ctx) && pos < |ctx.toks|
    ensures exists n: nat :: Halted(Loop(ctx, Start(ctx, pos, sem), n))
  {
    hide Pass, OneLine;
    var s0 := Start(ctx, pos, sem);
    StartCalm(ctx, pos, sem);
    PassShrinks(ctx, s0);
    PassKeepsBottom(ctx, s0);
    var n := Stops(ctx, Pass(ctx, s0));
    assert Halted(Loop(ctx, s0, n));
  }

  lemma StartCalm(ctx: Ctx, pos: nat, sem: Sem)
    requires OneLine(ctx) && pos < |ctx.toks|
    ensures Calm(ctx, Start(ctx, pos, sem))
  {
  }
}
