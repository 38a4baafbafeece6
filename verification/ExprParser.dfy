/** The expression parser as the program runs it: a symbol stack, a token cursor, the emitted code and the
    sticky error, all updated in place.  Every method is tied to the functions of `Precedence` and
    `Semantics`. */
module ExprParsing {
  import opened Tokens
  import opened Machine
  import opened Scopes
  import opened CodeGen
  import opened Semantics
  import opened Precedence

  /** The state when the loop has stopped, read-out of the result included. */
  datatype Outcome = Outcome(pos: nat, cur: Token, sem: Sem, result: Sym)

  function Start(ctx: Ctx, pos: nat, sem: Sem): PState
    requires ctx.toks != []
  {
    Next(ctx, PState([DOLLAR], pos, EmptyToken(false), false, sem))
  }

  function Finish(ctx: Ctx, s: PState): Outcome
    requires ctx.toks != [] && s.stack != []
  {
    var sem := if |s.stack| == 1 then s.sem.Fail(ERR_SYNTAX) else s.sem;
    var s' := if s.multi then Next(ctx, s) else s;
    var (sem', e) := VerifyLhs(ctx, sem, s.stack[|s.stack| - 1]);
    Outcome(s'.pos, s'.cur, sem', e)
  }

  /** What every state of the loop satisfies: the bottom symbol is the initial `$` and stays there. */
  predicate Bottomed(s: PState) {
    s.stack != [] && s.stack[0].(handle := false) == DOLLAR
  }

  lemma TopTerminalExists(st: Stack)
    requires st != [] && st[0].terminal
    ensures TopTerminal(st) >= 0
  {
  }

  lemma {:induction false} AboveEolFinds(st: Stack)
    requires HasEol(st)
    ensures AboveEol(st) < |st|
  {
    if !st[|st| - 1].tok.eol {
      var i :| 0 <= i < |st| && st[i].tok.eol;
      assert st[..|st| - 1][i].tok.eol;
      AboveEolFinds(st[..|st| - 1]);
    }
  }

  /** Cutting at the topmost line start leaves the bottom symbol, which starts no line. */
  lemma CutKeepsBottom(st: Stack)
    requires HasEol(st) && !st[0].tok.eol
    ensures AboveEol(st) + 1 < |st|
  {
    AboveEolFinds(st);
    assert st[|st| - 1 - AboveEol(st)].tok.eol;
  }

  lemma ReduceKeepsBottom(ctx: Ctx, s: PState)
    requires Bottomed(s)
    ensures Bottomed(Precedence.Reduce(ctx, s))
  {
    var below := Below(s.stack);
    assert below[0].(handle := false) == DOLLAR;
    if GetRule(Handle(s.stack)) == NoRule && HasEol(below) {
      CutKeepsBottom(below);
    }
  }

  lemma ConflictKeepsBottom(ctx: Ctx, s: PState)
    requires ctx.toks != [] && Bottomed(s)
    ensures Bottomed(Conflict(ctx, s))
  {
    var st := s.stack + [FromToken(s.cur)];
    assert Below(st)[0].(handle := false) == DOLLAR;
    if HasEol(st) {
      CutKeepsBottom(st);
    }
  }

  lemma PassKeepsBottom(ctx: Ctx, s: PState)
    requires ctx.toks != [] && Bottomed(s)
    ensures Bottomed(Pass(ctx, s))
  {
    match Choose(s)
    case E =>
    case S => assert Flagged(s.stack)[0].(handle := false) == DOLLAR;
    case R => ReduceKeepsBottom(ctx, s);
    case X => ConflictKeepsBottom(ctx, s);
  }

  /** `n` passes of the loop, none after it has stopped. */
  function Run(ctx: Ctx, s: PState, n: nat): (r: PState)
    requires ctx.toks != [] && Bottomed(s)
    ensures Bottomed(r)
    decreases n
  {
    if n == 0 || Halted(s) then s
    else
      PassKeepsBottom(ctx, s);
      Run(ctx, Pass(ctx, s), n - 1)
  }

  /** The whole call: one pass, then at most `n` more. */
  function Loop(ctx: Ctx, s: PState, n: nat): (r: PState)
    requires ctx.toks != [] && Bottomed(s)
    ensures Bottomed(r)
  {
    PassKeepsBottom(ctx, s);
    Run(ctx, Pass(ctx, s), n)
  }

  class ExprParser {
    const ctx: Ctx
    var stack: seq<Sym>
    var pos: nat
    var cur: Token
    var multi: bool
    var code: Program
    var err: nat
    var condUid: nat
    var allLits: bool
    var junkUsed: nat
    var curId: Option<Item>

    function Actions(): Sem
      reads this
    {
      Sem(code, err, condUid, allLits, junkUsed, curId)
    }

    function State(): PState
      reads this
    {
      PState(stack, pos, cur, multi, Actions())
    }

    constructor (ctx: Ctx, pos: nat, sem: Sem)
      ensures this.ctx == ctx && this.pos == pos && Actions() == sem && !multi && stack == []
    {
      this.ctx := ctx;
      stack, this.pos, cur, multi := [], pos, EmptyToken(false), false;
      code, err, condUid, allLits, junkUsed, curId :=
        sem.code, sem.err, sem.condUid, sem.allLits, sem.junkUsed, sem.curId;
    }

    method Fail(e: nat)
      modifies this`err
      ensures Actions() == old(Actions()).Fail(e)
    {
      if err == NO_ERR {
        err := e;
      }
    }

    method Emit(p: Program)
      modifies this`code
      ensures Actions() == old(Actions()).Emit(p)
    {
      code := code + p;
    }

    /** The flags a symbol is left with when nothing sets them. */
    method Unset() returns (j: Junk)
      modifies this`junkUsed
      ensures j == ctx.junk(old(junkUsed)) && Actions() == old(Actions()).UseJunk()
    {
      j := ctx.junk(junkUsed);
      junkUsed := junkUsed + 1;
    }

    method GetToken()
      requires ctx.toks != []
      modifies this`pos, this`cur
      ensures State() == Next(ctx, old(State()))
    {
      if pos + 1 < |ctx.toks| {
        pos := pos + 1;
      }
      cur := if pos < |ctx.toks| then ctx.toks[pos] else ctx.toks[0];
    }

    method PrevToken()
      modifies this`pos
      ensures pos == Back(old(pos), 1)
    {
      if pos > 0 {
        pos := pos - 1;
      }
    }

    method Push(s: Sym)
      modifies this`stack
      ensures stack == old(stack) + [s]
    {
      stack := stack + [s];
    }

    method Pop() returns (s: Sym)
      requires stack != []
      modifies this`stack
      ensures s == old(stack)[|old(stack)| - 1] && stack == old(stack)[..|old(stack)| - 1]
    {
      s := stack[|stack| - 1];
      stack := stack[..|stack| - 1];
    }

    // ----- walking and cutting the stack -----

    method ClosestTerminal() returns (i: int)
      ensures i == TopTerminal(stack)
    {
      i := |stack| - 1;
      assert stack[..i + 1] == stack;
      while i >= 0 && !stack[i].terminal
        invariant -1 <= i < |stack|
        invariant TopTerminal(stack[..i + 1]) == TopTerminal(stack)
      {
        assert stack[..i + 1][..i] == stack[..i];
        i := i - 1;
      }
    }

    method FindClosestEol() returns (found: bool)
      ensures found == HasEol(stack)
    {
      var i := |stack| - 1;
      found := false;
      while i >= 0
        invariant -1 <= i < |stack|
        invariant !found
        invariant forall j :: i < j < |stack| ==> !stack[j].tok.eol
      {
        if stack[i].tok.eol {
          return true;
        }
        i := i - 1;
      }
    }

    method ReduceToEol()
      modifies this`stack, this`pos
      ensures stack == old(stack)[..|old(stack)| - AboveEol(old(stack))]
      ensures pos == Back(old(pos), AboveEol(old(stack)))
    {
      ghost var k := 0;
      while stack != [] && !stack[|stack| - 1].tok.eol
        invariant k <= |old(stack)| && stack == old(stack)[..|old(stack)| - k]
        invariant k + AboveEol(stack) == AboveEol(old(stack))
        invariant pos == Back(old(pos), k)
        decreases |stack|
      {
        assert stack[..|stack| - 1] == old(stack)[..|old(stack)| - (k + 1)];
        PrevToken();
        var _ := Pop();
        k := k + 1;
      }
    }

    method MoveExprToArr() returns (arr: seq<Sym>)
      requires stack != []
      modifies this`stack
      ensures stack == Below(old(stack))
      ensures |arr| == HandleLen(old(stack))
      ensures forall i :: 0 <= i < |arr| ==> arr[i] == old(stack)[|old(stack)| - 1 - i]
    {
      arr := [];
      var current := Pop();
      while !current.handle && stack != [] && |arr| < 3
        invariant |arr| <= 3 && |arr| < |old(stack)|
        invariant current == old(stack)[|old(stack)| - 1 - |arr|]
        invariant stack == old(stack)[..|old(stack)| - 1 - |arr|]
        invariant forall i :: 0 <= i < |arr| ==> arr[i] == old(stack)[|old(stack)| - 1 - i]
        invariant forall i :: 0 <= i < |arr| ==> !arr[i].handle
        decreases |stack|
      {
        arr := arr + [current];
        current := Pop();
      }
      ghost var st := old(stack);
      assert |arr| > 0 ==> !arr[0].handle && arr[0] == st[|st| - 1];
      assert |arr| > 1 ==> !arr[1].handle && arr[1] == st[|st| - 2];
      assert |arr| > 2 ==> !arr[2].handle && arr[2] == st[|st| - 3];
      assert |arr| == HandleLen(st);
      current := current.(handle := false);
      Push(current);
    }

    /** The symbol array reversed by swapping its ends. */
    method Reverse(arr: seq<Sym>) returns (r: seq<Sym>)
      ensures |r| == |arr| && forall i :: 0 <= i < |arr| ==> r[i] == arr[|arr| - 1 - i]
    {
      r := arr;
      var start, end := 0, |arr| - 1;
      while start < end
        invariant 0 <= start <= end + 1 <= |arr| && start + end == |arr| - 1 && |r| == |arr|
        invariant forall i :: 0 <= i < start ==> r[i] == arr[|arr| - 1 - i]
        invariant forall i :: end < i < |arr| ==> r[i] == arr[|arr| - 1 - i]
        invariant forall i :: start <= i <= end ==> r[i] == arr[i]
      {
        var temp := r[start];
        r := r[start := r[end]];
        r := r[end := temp];
        start, end := start + 1, end - 1;
      }
    }

    method TakeHandle() returns (arr: seq<Sym>)
      requires stack != []
      modifies this`stack
      ensures arr == Handle(old(stack)) && stack == Below(old(stack))
    {
      var moved := MoveExprToArr();
      arr := Reverse(moved);
      ghost var h := Handle(old(stack));
      assert forall i :: 0 <= i < |arr| ==> arr[i] == h[i];
    }

    // ----- reductions -----

    method IdIsDefined(t: Token) returns (ok: bool)
      modifies this`curId, this`err
      ensures curId == Resolve(ctx, Text(t)) && ok == curId.Some?
      ensures Actions() == (var s := old(Actions()).(curId := curId);
                            if curId.None? || !curId.value.init then s.Fail(ERR_UNDEFINED_VARIABLE) else s)
    {
      if ctx.lhs.Some? {
        if !ctx.lhs.value.init && Text(t) == ctx.lhs.value.name && ctx.scopes != [] {
          curId := Search(ctx.scopes[1..], Text(t));
        } else {
          curId := Search(ctx.scopes, Text(t));
        }
      } else {
        curId := Search(ctx.scopes, Text(t));
      }
      if curId.Some? {
        if !curId.value.init {
          Fail(ERR_UNDEFINED_VARIABLE);
        }
        return true;
      }
      curId := Lookup(ctx.globals, Text(t));
      if curId.Some? {
        if !curId.value.init {
          Fail(ERR_UNDEFINED_VARIABLE);
        }
        return true;
      }
      Fail(ERR_UNDEFINED_VARIABLE);
      return false;
    }

    method ProcessOperand(operand: Sym) returns (e: Sym)
      modifies this`code, this`err, this`allLits, this`curId
      ensures (Actions(), e) == Semantics.Operand(ctx, old(Actions()), operand)
    {
      var t := operand.tok;
      e := Sym(t, false, false, IsLiteralKind(t.kind), t.kind == KIdentifier, Undefined, false);
      if !operand.terminal {
        return operand;
      }
      if t.kind == KIdentifier {
        allLits := false;
        var defined := IdIsDefined(t);
        if defined {
          e := e.(ty := curId.value.ty, nilable := curId.value.nilable);
        }
      } else if IsOperandKind(t.kind) {
        e := e.(ty := LiteralType(t.kind));
      }
      Emit(PushCode(ctx.scopes, ctx.globals, t));
    }

    method ProcessUnwrap(operand: Sym) returns (e: Sym)
      modifies this`err, this`junkUsed
      ensures (Actions(), e) == Unwrap(ctx, old(Actions()), operand)
    {
      var j := Unset();
      e := Sym(operand.tok, false, false, j.literal, j.ident, Undefined, false);
      if !operand.ident {
        Fail(ERR_INCOMPATIBLE_TYPE);
      }
      e := e.(ty := operand.ty);
      if !operand.nilable {
        e := e.(ty := Undefined);
        Fail(ERR_INCOMPATIBLE_TYPE);
      }
    }

    method Int2Doubles(depth: nat)
      modifies this`code
      ensures Actions() == old(Actions()).Emit(Int2DoublesCode(depth))
    {
      Emit([CreateFrame]);
      Emit([PushFrame]);
      SaveStack(depth);
      Emit([Int2Floats]);
      RestoreStack(depth);
      Emit([PopFrame]);
    }

    method SaveStack(depth: nat)
      modifies this`code
      ensures code == old(code) + SaveCode(depth)
    {
      var i := 0;
      while i < depth
        invariant i <= depth
        invariant code == old(code) + SaveCode(i)
      {
        Emit([DefVar(StackVar(i))]);
        Emit([Pops(StackVar(i))]);
        i := i + 1;
      }
    }

    method RestoreStack(depth: nat)
      modifies this`code
      ensures code == old(code) + RestoreCode(depth)
    {
      var i := depth;
      while i > 0
        invariant 0 <= i <= depth
        invariant code + RestoreCode(i) == old(code) + RestoreCode(depth)
      {
        assert code + [PushVar(StackVar(i - 1))] + RestoreCode(i - 1) == code + RestoreCode(i);
        i := i - 1;
        Emit([PushVar(StackVar(i))]);
      }
      assert code == code + RestoreCode(0);
    }

    method ConvertIfRetypeable(a: Sym, b: Sym) returns (a': Sym, b': Sym)
      modifies this`code, this`err
      ensures Actions() == Convert(old(Actions()), Retype(a, b))
      ensures a' == ConvertFirst(a, Retype(a, b)) && b' == ConvertSecond(b, Retype(a, b))
    {
      a', b' := a, b;
      var firstOk := (a.ty == Integer || a.ty == Double) && a.nilable == false;
      var secondOk := (b.ty == Integer || b.ty == Double) && b.nilable == false;
      if firstOk && secondOk {
        if a.literal && a.ty == Integer {
          Int2Doubles(1);
          a' := a.(ty := Double);
        } else if b.literal && b.ty == Integer {
          Int2Doubles(0);
          b' := b.(ty := Double);
        } else {
          Fail(ERR_INCOMPATIBLE_TYPE);
        }
      } else {
        Fail(ERR_INCOMPATIBLE_TYPE);
      }
    }

    method ProcessArithmetic(arr: seq<Sym>) returns (e: Sym)
      requires |arr| == 3
      modifies this`code, this`err, this`junkUsed
      ensures (Actions(), e) == Arithmetic(ctx, old(Actions()), arr[0], arr[1].tok, arr[2])
    {
      var first, op, second := arr[0], arr[1].tok, arr[2];
      e := FreshExpr(Undefined, first.literal && second.literal);
      if !SameType(first, second) && (first.literal || second.literal) {
        first, second := ConvertIfRetypeable(first, second);
      }
      if !first.literal && !second.literal {
        if !SameType(first, second) {
          Fail(ERR_INCOMPATIBLE_TYPE);
          return;
        }
      }
      if first.nilable || second.nilable {
        Fail(ERR_INCOMPATIBLE_TYPE);
        return;
      }
      if first.ty == String || second.ty == String {
        e := ProcessConcatenation(arr);
        return;
      }
      if op.kind == KDiv {
        e := ProcessDivision(first, second);
        return;
      }
      if SameType(first, second) {
        if first.ty == Integer || first.ty == Double {
          e := e.(ty := first.ty);
        } else {
          Fail(ERR_INCOMPATIBLE_TYPE);
          return;
        }
      }
      if first.ty == Double || second.ty == Double {
        e := e.(ty := Double);
      } else if first.ty == Integer && SameType(first, second) {
        e := e.(ty := Integer);
      }
      Emit(OpCode(op.kind, e.ty == Integer));
    }

    method ProcessConcatenation(arr: seq<Sym>) returns (e: Sym)
      requires |arr| == 3
      modifies this`code, this`err
      ensures (Actions(), e) == Concatenation(old(Actions()), arr[0], arr[1].tok, arr[2])
    {
      e := FreshExpr(String, arr[0].literal);
      if arr[1].tok.kind != KAdd {
        Fail(ERR_INCOMPATIBLE_TYPE);
        return;
      }
      if SameType(arr[0], arr[2]) {
        Emit(ConcatCode);
        return;
      }
      Fail(ERR_INCOMPATIBLE_TYPE);
    }

    method ProcessDivision(first: Sym, second: Sym) returns (e: Sym)
      modifies this`code, this`err, this`junkUsed
      ensures (Actions(), e) == Division(ctx, old(Actions()), first, second)
    {
      e := FreshExpr(if first.ty == Integer then Integer else Double, first.literal && second.literal);
      if !SameType(first, second) {
        Fail(ERR_INCOMPATIBLE_TYPE);
        return;
      }
      var zero := ReadsZero(ctx, Actions(), second);
      var _ := Unset();
      if second.ty == Integer || second.ty == Double {
        if zero {
          Fail(ERR_SEMANTIC);
          return;
        }
      }
      Emit(OpCode(KDiv, e.ty == Integer));
    }

    method ProcessRelational(arr: seq<Sym>) returns (e: Sym)
      requires |arr| == 3
      modifies this`code, this`err, this`condUid
      ensures (Actions(), e) == Relational(ctx, old(Actions()), arr[0], arr[1].tok, arr[2])
    {
      var first, op, second := arr[0], arr[1].tok, arr[2];
      e := FreshExpr(Bool, first.literal && second.literal);
      var firstIsNil, secondIsNil := first.ty == NilType, second.ty == NilType;
      if op.kind != KNilCheck && (firstIsNil || secondIsNil) {
        if firstIsNil {
          if !second.nilable {
            Fail(ERR_INCOMPATIBLE_TYPE);
            return;
          }
        } else {
          if !first.nilable {
            Fail(ERR_INCOMPATIBLE_TYPE);
            return;
          }
        }
      } else {
        if !SameType(first, second) {
          if op.kind != KNilCheck && (first.literal || second.literal) {
            first, second := ConvertIfRetypeable(first, second);
          } else if op.kind != KNilCheck {
            Fail(ERR_INCOMPATIBLE_TYPE);
            return;
          }
        }
      }
      if op.kind == KNilCheck {
        if first.ty != NilType && first.ty != second.ty {
          if second.literal && first.ty == Double && second.ty == Integer {
            Int2Doubles(0);
            second := second.(ty := Double);
          } else {
            Fail(ERR_INCOMPATIBLE_TYPE);
            return;
          }
        }
        if first.ty != NilType && (!first.nilable || second.nilable) {
          Fail(ERR_INCOMPATIBLE_TYPE);
          return;
        }
        e := e.(ty := if first.ty == NilType then second.ty else first.ty);
        Emit(NilCheckCode(condUid));
        condUid := condUid + 1;
        return;
      }
      Emit(OpCode(op.kind, false));
    }

    method Perform(rule: Rule, arr: seq<Sym>) returns (e: Sym)
      requires rule != NoRule && rule == GetRule(arr)
      modifies this`code, this`err, this`condUid, this`allLits, this`junkUsed, this`curId
      ensures (Actions(), e) == Act(ctx, old(Actions()), rule, arr)
    {
      match rule
      case OperandRule => e := ProcessOperand(arr[0]);
      case UnwrapRule => e := ProcessUnwrap(arr[0]);
      case ArithRule => e := ProcessArithmetic(arr);
      case RelRule => e := ProcessRelational(arr);
      case ParenRule => e := Parenthesis(arr[1]);
    }

    method DiagnoseAndPush(arr: seq<Sym>)
      modifies this`stack, this`err, this`junkUsed
      ensures stack == old(stack) + [ErrorSym(ctx, old(Actions()), arr)]
      ensures Actions() == ReduceError(ctx, old(Actions()), arr).0
    {
      var e := ErrorSym(ctx, Actions(), arr);
      if Diagnosed(arr) {
        Fail(ERR_SYNTAX);
      }
      var _ := Unset();
      Push(e);
    }

    method RejectHandle(arr: seq<Sym>)
      modifies this
      ensures State() == BadHandle(ctx, old(State()), arr)
    {
      var found := FindClosestEol();
      if !found {
        DiagnoseAndPush(arr);
        Fail(ERR_SYNTAX);
      } else {
        ReduceToEol();
        multi := true;
        PrevToken();
        cur := EmptyToken(cur.eol);
      }
    }

    method ReduceTop()
      requires stack != []
      modifies this
      ensures State() == Precedence.Reduce(ctx, old(State()))
    {
      hide Act, BadHandle, Handle, Below, GetRule;
      var arr := TakeHandle();
      var rule := GetRule(arr);
      if rule == NoRule {
        RejectHandle(arr);
        return;
      }
      var e := Perform(rule, arr);
      Push(e);
    }

    method EqualShift()
      modifies this`stack
      ensures stack == old(stack) + [FromToken(cur)]
    {
      Push(FromToken(cur));
    }

    method Shift()
      modifies this`stack
      ensures stack == Flagged(old(stack)) + [FromToken(cur)]
    {
      var i := ClosestTerminal();
      if i >= 0 {
        stack := stack[i := stack[i].(handle := true)];
      }
      Push(FromToken(cur));
    }

    method Mismatch()
      requires ctx.toks != []
      modifies this
      ensures State() == Conflict(ctx, old(State()))
    {
      hide Handle, Below, HasEol, AboveEol, Diagnosed, ErrorSym;
      Push(FromToken(cur));
      var found := FindClosestEol();
      if found {
        AboveEolFinds(stack);
        ReduceToEol();
        var _ := Pop();
        multi := true;
        PrevToken();
        cur := EmptyToken(false);
      } else {
        var arr := TakeHandle();
        DiagnoseAndPush(arr);
        GetToken();
      }
    }

    method OnePass()
      requires ctx.toks != [] && Bottomed(State())
      modifies this
      ensures State() == Pass(ctx, old(State()))
    {
      TopTerminalExists(stack);
      var i := ClosestTerminal();
      match Prec(stack[i].tok.kind, cur.kind) {
        case E => EqualShift(); GetToken();
        case S => Shift(); GetToken();
        case R => ReduceTop();
        case X => Mismatch();
      }
    }

    method AtEnd() returns (done: bool)
      requires Bottomed(State())
      ensures done == Halted(State())
    {
      TopTerminalExists(stack);
      var i := ClosestTerminal();
      done := IndexOf(stack[i].tok.kind) == IDollar && IndexOf(cur.kind) == IDollar;
    }

    method CheckLhsType(e: Sym) returns (e': Sym)
      modifies this`code, this`allLits
      ensures (Actions(), e') == VerifyLhs(ctx, old(Actions()), e)
    {
      e' := e;
      if ctx.lhs.Some? && allLits {
        if ctx.lhs.value.ty != e.ty {
          if ctx.lhs.value.ty == Double && e.ty == Integer {
            Int2Doubles(0);
            e' := e.(ty := Double);
          }
        }
      }
      allLits := true;
    }

    /** The do-while loop; `left` counts the passes it still has to make. */
    method PassUntilEnd(ghost n: nat)
      requires ctx.toks != [] && Bottomed(State())
      requires Halted(Loop(ctx, State(), n))
      modifies this
      ensures State() == Loop(ctx, old(State()), n)
    {
      hide Pass;
      ghost var end := Loop(ctx, State(), n);
      PassKeepsBottom(ctx, State());
      OnePass();
      ghost var left := n;
      var done := AtEnd();
      while !done
        invariant Bottomed(State())
        invariant Run(ctx, State(), left) == end
        invariant done == Halted(State())
        decreases left
      {
        PassKeepsBottom(ctx, State());
        OnePass();
        left := left - 1;
        done := AtEnd();
      }
    }

    method ReadOut() returns (result: Sym)
      requires ctx.toks != [] && stack != []
      modifies this
      ensures Outcome(pos, cur, Actions(), result) == Finish(ctx, old(State()))
      ensures stack == [] && !multi
    {
      result := Pop();
      if stack != [] {
        stack := [];
      } else {
        Fail(ERR_SYNTAX);
      }
      if multi {
        multi := false;
        GetToken();
      }
      result := CheckLhsType(result);
    }

    /** One expression.  The call returns exactly when its loop stops after some number `n` of passes. */
    method Expr(ghost n: nat) returns (result: Sym)
      requires ctx.toks != [] && stack == [] && !multi
      requires Halted(Loop(ctx, Start(ctx, pos, Actions()), n))
      modifies this
      ensures Outcome(pos, cur, Actions(), result) ==
              Finish(ctx, Loop(ctx, Start(ctx, old(pos), old(Actions())), n))
      ensures stack == [] && !multi
    {
      hide Loop, Finish;
      ghost var s0 := Start(ctx, pos, Actions());
      cur := EmptyToken(false);
      Push(DOLLAR);
      assert State() == PState([DOLLAR], old(pos), EmptyToken(false), false, old(Actions()));
      GetToken();
      assert State() == s0;
      PassUntilEnd(n);
      result := ReadOut();
    }
  }
}
