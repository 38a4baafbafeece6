/** The table-driven shift/reduce machine of the expression parser, as a step function on its state.
    `ExprParser` performs these steps in place. */
module Precedence {
  import opened Tokens
  import opened Semantics

  datatype Operation = S | R | E | X

  datatype Index = IMulDiv | IAddSub | INilCheck | IOperand | IRel | ILPar | IRPar | INotNil | IDollar

  function IndexOf(k: Kind): Index {
    if k == KMul || k == KDiv then IMulDiv
    else if k == KAdd || k == KSub then IAddSub
    else if k == KNilCheck then INilCheck
    else if IsOperandKind(k) then IOperand
    else if IsRelational(k) then IRel
    else if k == KLPar then ILPar
    else if k == KRPar then IRPar
    else if k == KNotNil then INotNil
    else IDollar
  }

  /** The precedence table: the row of the topmost terminal, the column of the current token. */
  function Cell(top: Index, cur: Index): Operation {
    match top
    case IMulDiv => (match cur case IOperand | ILPar | INotNil => S case _ => R)
    case IAddSub => (match cur case IMulDiv | IOperand | ILPar | INotNil => S case _ => R)
    case INilCheck => (match cur case IRPar | IDollar => R case _ => S)
    case IOperand => (match cur case IOperand | ILPar => X case _ => R)
    case IRel => (match cur case INilCheck | IRPar | IDollar => R case IRel => E case _ => S)
    case ILPar => (match cur case IRPar => E case IDollar => X case _ => S)
    case IRPar => (match cur case IOperand | ILPar | INotNil => X case _ => R)
    case INotNil => R
    case IDollar => (match cur case IRPar => X case IDollar => R case _ => S)
  }

  function Prec(top: Kind, cur: Kind): Operation {
    Cell(IndexOf(top), IndexOf(cur))
  }

  lemma OperandIndex(k: Kind)
    ensures IsOperandKind(k) <==> IndexOf(k) == IOperand
    ensures k == KNotNil <==> IndexOf(k) == INotNil
    ensures k == KLPar <==> IndexOf(k) == ILPar
    ensures k == KRPar <==> IndexOf(k) == IRPar
  {
  }

  lemma OperatorIndex(k: Kind)
    ensures IsRelational(k) <==> IndexOf(k) == IRel
    ensures k == KNilCheck <==> IndexOf(k) == INilCheck
    ensures k == KAdd || k == KSub <==> IndexOf(k) == IAddSub
    ensures k == KMul || k == KDiv <==> IndexOf(k) == IMulDiv
  {
  }

  /** The kinds that the rules look at, told apart by their table index alone. */
  lemma KindIndex(k: Kind)
    ensures IsOperandKind(k) <==> IndexOf(k) == IOperand
    ensures k == KNotNil <==> IndexOf(k) == INotNil
    ensures k == KLPar <==> IndexOf(k) == ILPar
    ensures k == KRPar <==> IndexOf(k) == IRPar
    ensures IsRelational(k) <==> IndexOf(k) == IRel
    ensures k == KNilCheck <==> IndexOf(k) == INilCheck
    ensures OperatorRule(k) == (match IndexOf(k) case IMulDiv | IAddSub => ArithRule
                                                 case IRel | INilCheck => RelRule
                                                 case _ => NoRule)
    ensures IsBinaryOperator(k) <==> OperatorRule(k) != NoRule
  {
    hide IndexOf, IsOperandKind, IsRelational;
    OperandIndex(k);
    OperatorIndex(k);
  }

  lemma EndIndex()
    ensures IndexOf(KUndefined) == IDollar
  {
  }

  // ----- the stack -----

  type Stack = seq<Sym>

  /** Position of the terminal closest to the top, or -1. */
  function TopTerminal(st: Stack): (i: int)
    ensures -1 <= i < |st|
    ensures i >= 0 ==> st[i].terminal
    ensures forall j :: i < j < |st| ==> !st[j].terminal
  {
    if st == [] then -1
    else if st[|st| - 1].terminal then |st| - 1
    else TopTerminal(st[..|st| - 1])
  }

  /** The stack bottom: an initial `$`, whose `preceding_eol` is taken to be false. */
  const DOLLAR := Sym(EmptyToken(false), true, false, false, false, Undefined, false)

  /** How many symbols a reduction takes: up to the closest flagged symbol, the bottom or three. */
  function HandleLen(st: Stack): (k: nat)
    requires st != []
    ensures k <= 3 && k < |st|
  {
    var n := |st|;
    if st[n - 1].handle || n == 1 then 0
    else if st[n - 2].handle || n == 2 then 1
    else if st[n - 3].handle || n == 3 then 2
    else 3
  }

  function Handle(st: Stack): (h: Stack)
    requires st != []
    ensures |h| == HandleLen(st)
  {
    st[|st| - HandleLen(st)..]
  }

  /** The stack below the handle, its top symbol no longer flagged. */
  function Below(st: Stack): (r: Stack)
    requires st != []
    ensures |r| == |st| - HandleLen(st)
  {
    var n := |st| - HandleLen(st);
    st[..n - 1] + [st[n - 1].(handle := false)]
  }

  datatype Rule = OperandRule | UnwrapRule | ArithRule | RelRule | ParenRule | NoRule

  function OperatorRule(k: Kind): Rule {
    if k == KAdd || k == KSub || k == KMul || k == KDiv then ArithRule
    else if IsRelational(k) || k == KNilCheck then RelRule
    else NoRule
  }

  function GetRule(h: Stack): Rule {
    if |h| == 1 then (if IsOperandKind(h[0].tok.kind) then OperandRule else NoRule)
    else if |h| == 2 then (if !h[0].terminal && h[1].tok.kind == KNotNil then UnwrapRule else NoRule)
    else if |h| == 3 then
      if !h[0].terminal && !h[2].terminal then OperatorRule(h[1].tok.kind)
      else if h[0].tok.kind == KLPar && h[2].tok.kind == KRPar then ParenRule
      else NoRule
    else NoRule
  }

  /** The action of a rule on its handle. */
  function Act(ctx: Ctx, sem: Sem, rule: Rule, h: Stack): (Sem, Sym)
    requires rule != NoRule && rule == GetRule(h)
  {
    match rule
    case OperandRule => Operand(ctx, sem, h[0])
    case UnwrapRule => Unwrap(ctx, sem, h[0])
    case ArithRule => Arithmetic(ctx, sem, h[0], h[1].tok, h[2])
    case RelRule => Relational(ctx, sem, h[0], h[1].tok, h[2])
    case ParenRule => (sem, Parenthesis(h[1]))
  }

  /** Whether the diagnosis of a bad handle finds something to report. */
  predicate Diagnosed(h: Stack) {
    && h != []
    && var k1 := if |h| > 1 then h[1].tok.kind else KUndefined;
       if IsOperandKind(h[0].tok.kind)
       then k1 == KRPar || IsOperandKind(k1) || k1 == KLPar || IsBinaryOperator(k1)
       else true
  }

  /** The token kind of the symbol that replaces a bad handle. */
  function ErrorKind(h: Stack): Kind {
    if h == [] then KUndefined
    else
      var k0, k1 := h[0].tok.kind, if |h| > 1 then h[1].tok.kind else KUndefined;
      if IsOperandKind(k0) then (if IsOperandKind(k1) then k1 else k0)
      else if k0 == KLPar && IsOperandKind(k1) then k1
      else KUndefined
  }

  function ErrorSym(ctx: Ctx, sem: Sem, h: Stack): Sym {
    var junk := ctx.junk(sem.junkUsed);
    Sym(Token(false, ErrorKind(h), NoVal), false, false, junk.literal, junk.ident, Undefined, false)
  }

  function ReduceError(ctx: Ctx, sem: Sem, h: Stack): (Sem, Sym) {
    var s := if Diagnosed(h) then sem.Fail(ERR_SYNTAX) else sem;
    (s.UseJunk(), ErrorSym(ctx, sem, h))
  }

  predicate HasEol(st: Stack) {
    exists i :: 0 <= i < |st| && st[i].tok.eol
  }

  /** How many symbols lie above the topmost one that starts a line. */
  function AboveEol(st: Stack): (k: nat)
    ensures k <= |st|
    ensures k < |st| ==> st[|st| - 1 - k].tok.eol
  {
    if st == [] || st[|st| - 1].tok.eol then 0 else 1 + AboveEol(st[..|st| - 1])
  }

  // ----- the machine -----

  /** `multi` says that a newline ended the expression. */
  datatype PState = PState(stack: Stack, pos: nat, cur: Token, multi: bool, sem: Sem)

  function Back(pos: nat, k: nat): nat {
    if k <= pos then pos - k else 0
  }

  /** Reads the next token; the cursor stays on the buffer's last one. */
  function Next(ctx: Ctx, s: PState): PState
    requires ctx.toks != []
  {
    var pos := if s.pos + 1 < |ctx.toks| then s.pos + 1 else s.pos;
    s.(pos := pos, cur := if pos < |ctx.toks| then ctx.toks[pos] else ctx.toks[0])
  }

  function Flagged(st: Stack): Stack {
    var i := TopTerminal(st);
    if i < 0 then st else st[i := st[i].(handle := true)]
  }

  /** A handle `h` that fits no rule, already taken off the stack: an error, unless a line starts somewhere
      below it, in which case the expression ends there. */
  function BadHandle(ctx: Ctx, s: PState, h: Stack): PState {
    if !HasEol(s.stack) then
      var (sem, e) := ReduceError(ctx, s.sem, h);
      s.(stack := s.stack + [e], sem := sem.Fail(ERR_SYNTAX))
    else
      var k := AboveEol(s.stack);
      s.(stack := s.stack[..|s.stack| - k], pos := Back(s.pos, k + 1), cur := EmptyToken(s.cur.eol), multi := true)
  }

  function Reduce(ctx: Ctx, s: PState): PState
    requires s.stack != []
  {
    var h, below := Handle(s.stack), Below(s.stack);
    var rule := GetRule(h);
    if rule == NoRule then BadHandle(ctx, s.(stack := below), h)
    else
      var (sem, e) := Act(ctx, s.sem, rule, h);
      s.(stack := below + [e], sem := sem)
  }

  function Conflict(ctx: Ctx, s: PState): PState
    requires ctx.toks != []
  {
    var st := s.stack + [FromToken(s.cur)];
    if HasEol(st) then
      var k := AboveEol(st);
      var left := st[..|st| - k];
      s.(stack := if left == [] then left else left[..|left| - 1], pos := Back(s.pos, k + 1),
         cur := EmptyToken(false), multi := true)
    else
      var (sem, e) := ReduceError(ctx, s.sem, Handle(st));
      Next(ctx, s.(stack := Below(st) + [e], sem := sem))
  }

  function TopKind(st: Stack): Kind {
    var i := TopTerminal(st);
    if i < 0 then KUndefined else st[i].tok.kind
  }

  function Choose(s: PState): Operation {
    if TopTerminal(s.stack) < 0 then X else Prec(TopKind(s.stack), s.cur.kind)
  }

  /** One pass of the loop. */
  function Pass(ctx: Ctx, s: PState): PState
    requires ctx.toks != [] && s.stack != []
  {
    match Choose(s)
    case E => Next(ctx, s.(stack := s.stack + [FromToken(s.cur)]))
    case S => Next(ctx, s.(stack := Flagged(s.stack) + [FromToken(s.cur)]))
    case R => Reduce(ctx, s)
    case X => Conflict(ctx, s)
  }

  predicate Halted(s: PState) {
    IndexOf(TopKind(s.stack)) == IDollar && IndexOf(s.cur.kind) == IDollar
  }
}
