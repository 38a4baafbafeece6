/** Compiled expressions compute their meaning on the stack machine. */
module Correctness {
  import opened Tokens
  import opened Machine
  import opened CodeGen
  import opened Semantics
  import opened Precedence
  import opened Grammar
  import opened Meaning
  import opened Execution
  import opened ExprParsing
  import opened Completeness
  import opened Sentences
  import opened Soundness

  /** The global variables concatenation works in; no identifier contains `?`. */
  const SCRATCH: set<(string, nat)> := {("?PARAM", 1), ("?PARAM", 2), ("?RESULT", 1)}

  /** The prologue has declared them. */
  predicate Ready(m: State) {
    SCRATCH <= m.gf.Keys
  }

  /** Everything an expression may not touch: the local frames and all other globals. */
  predicate Keeps(m: State, m': State) {
    && m'.lf == m.lf && m'.calls == m.calls && m'.gf.Keys == m.gf.Keys
    && forall x :: x in m.gf && x !in SCRATCH ==> m'.gf[x] == m.gf[x]
  }

  predicate UserVars(e: Core) {
    match e
    case Lit(_) => true
    case Var(x) => x.frame != TF && (x.name, x.uid) !in SCRATCH
    case Force(x) => UserVars(x)
    case Op(l, _, _, _, r) => UserVars(l) && UserVars(r)
    case Join(l, r) => UserVars(l) && UserVars(r)
    case Else(l, _, r) => UserVars(l) && UserVars(r)
  }

  lemma {:induction false} EvalKept(ord: Order, m: State, m': State, e: Core)
    requires UserVars(e) && Keeps(m, m')
    ensures Eval(ord, m', e) == Eval(ord, m, e)
  {
    hide Operate, Concatenate, Choice;
    match e
    case Lit(_) =>
    case Var(_) =>
    case Force(x) => EvalKept(ord, m, m', x);
    case Op(l, _, _, _, r) => EvalKept(ord, m, m', l); EvalKept(ord, m, m', r);
    case Join(l, r) => EvalKept(ord, m, m', l); EvalKept(ord, m, m', r);
    case Else(l, _, r) => EvalKept(ord, m, m', l); EvalKept(ord, m, m', r);
  }

  lemma KeepsTrans(a: State, b: State, c: State)
    requires Keeps(a, b) && Keeps(b, c)
    ensures Keeps(a, c)
  {
  }

  // ----- single operations -----

  lemma OneInstr(ord: Order, p: Program, k: nat, m: State, s: seq<Value>, a: Value, b: Value, i: Instr, v: Value)
    requires m.stack == s + [a, b] && k < |p| && p[k] == i
    requires i.Adds? || i.Subs? || i.Muls? || i.Divs? || i.IDivs? || i.Lts? || i.Gts? || i.Eqs?
    requires Binary(ord, i, a, b) == Some(v)
    ensures Reaches(ord, p, Config(k, m), Config(k + 1, m.(stack := s + [v])))
  {
    assert m.stack[..|s|] == s;
    ReachesRefl(ord, p, Config(k, m));
    ReachesStep(ord, p, Config(k, m), Config(k, m), Config(k + 1, m.(stack := s + [v])));
  }

  lemma ThenNot(ord: Order, p: Program, k: nat, m: State, s: seq<Value>, a: Value, b: Value, i: Instr, v: bool)
    requires m.stack == s + [a, b] && k + 1 < |p| && p[k] == i && p[k + 1] == Nots
    requires i.Lts? || i.Gts? || i.Eqs?
    requires Binary(ord, i, a, b) == Some(VBool(v))
    ensures Reaches(ord, p, Config(k, m), Config(k + 2, m.(stack := s + [VBool(!v)])))
  {
    OneInstr(ord, p, k, m, s, a, b, i, VBool(v));
    var m1 := m.(stack := s + [VBool(v)]);
    assert m1.stack[..|s|] == s;
    ReachesStep(ord, p, Config(k, m), Config(k + 1, m1), Config(k + 2, m.(stack := s + [VBool(!v)])));
  }

  lemma LessIsBool(ord: Order, a: Value, b: Value)
    ensures Less(ord, a, b).Some? ==> Less(ord, a, b).value.VBool?
    ensures Equal(ord, a, b).Some? ==> Equal(ord, a, b).value.VBool?
  {
  }

  /** The instructions of an operator compute it. */
  lemma OperatorRuns(ord: Order, p: Program, k: nat, m: State, s: seq<Value>, op: Kind, isInt: bool,
                     a: Value, b: Value)
    requires m.stack == s + [a, b] && CodeAt(p, k, OpCode(op, isInt)) && Apply(ord, op, isInt, a, b).Val?
    ensures Reaches(ord, p, Config(k, m),
                    Config(k + |OpCode(op, isInt)|, m.(stack := s + [Apply(ord, op, isInt, a, b).v])))
  {
    hide CodeAt, Reaches, Less, Equal;
    LessIsBool(ord, a, b);
    LessIsBool(ord, b, a);
    var code := OpCode(op, isInt);
    OpCodeShape(op, isInt, ord, a, b);
    Nth(p, k, code, 0);
    if |code| == 1 {
      OneInstr(ord, p, k, m, s, a, b, code[0], Apply(ord, op, isInt, a, b).v);
    } else {
      Nth(p, k, code, 1);
      ThenNot(ord, p, k, m, s, a, b, code[0], !Apply(ord, op, isInt, a, b).v.b);
    }
  }

  predicate IsBinaryInstr(i: Instr) {
    i.Adds? || i.Subs? || i.Muls? || i.Divs? || i.IDivs? || i.Lts? || i.Gts? || i.Eqs?
  }

  /** The operator's code is one instruction computing it, or a comparison and a negation. */
  lemma OpCodeShape(op: Kind, isInt: bool, ord: Order, a: Value, b: Value)
    requires Apply(ord, op, isInt, a, b).Val?
    ensures var code := OpCode(op, isInt);
            var v := Apply(ord, op, isInt, a, b).v;
            || (|code| == 1 && IsBinaryInstr(code[0]) && Binary(ord, code[0], a, b) == Some(v))
            || (|code| == 2 && code[1] == Nots && (code[0].Lts? || code[0].Gts? || code[0].Eqs?) && v.VBool? &&
                Binary(ord, code[0], a, b) == Some(VBool(!v.b)))
  {
    hide Less, Equal;
    LessIsBool(ord, a, b);
    LessIsBool(ord, b, a);
  }

  /** The conversion code converts what the checker decided. */
  lemma ConversionRuns(ord: Order, p: Program, k: nat, m: State, s: seq<Value>, c: Conversion, a: Value, b: Value)
    returns (m': State)
    requires m.stack == s + [a, b] && CodeAt(p, k, ConversionCode(c))
    requires Converted(c, a, b).0.Val? && Converted(c, a, b).1.Val?
    ensures Reaches(ord, p, Config(k, m), Config(k + |ConversionCode(c)|, m'))
    ensures m'.stack == s + [Converted(c, a, b).0.v, Converted(c, a, b).1.v] && m'.lf == m.lf && m'.gf == m.gf &&
        m'.calls == m.calls
  {
    hide Reaches, Int2DoublesCode, CodeAt;
    match c
    case NoConversion =>
      m' := m;
      ReachesRefl(ord, p, Config(k, m));
    case First =>
      m' := Int2DoublesRuns(ord, p, k, m, 1);
      assert m'.stack == s + [VDbl(OfInt(a.i)), b];
    case Second =>
      m' := Int2DoublesRuns(ord, p, k, m, 0);
      assert m'.stack == s + [a, VDbl(OfInt(b.i))];
  }

  /** Concatenation works through three globals. */
  lemma ConcatRuns(ord: Order, p: Program, k: nat, m: State, s: seq<Value>, a: string, b: string)
    returns (m': State)
    requires m.stack == s + [VStr(a), VStr(b)] && CodeAt(p, k, ConcatCode) && Ready(m)
    ensures Reaches(ord, p, Config(k, m), Config(k + |ConcatCode|, m'))
    ensures m'.stack == s + [VStr(a + b)] && Keeps(m, m')
  {
    hide Reaches;
    Nth(p, k, ConcatCode, 0);
    Nth(p, k, ConcatCode, 1);
    Nth(p, k, ConcatCode, 2);
    Nth(p, k, ConcatCode, 3);
    var g1 := m.gf[("?PARAM", 2) := Some(VStr(b))];
    var g2 := g1[("?PARAM", 1) := Some(VStr(a))];
    var g3 := g2[("?RESULT", 1) := Some(VStr(a + b))];
    var m1 := m.(stack := s + [VStr(a)], gf := g1);
    var m2 := m.(stack := s, gf := g2);
    var m3 := m.(stack := s, gf := g3);
    m' := m.(stack := s + [VStr(a + b)], gf := g3);
    assert (s + [VStr(a), VStr(b)])[..|s| + 1] == s + [VStr(a)] && (s + [VStr(a)])[..|s|] == s;
    var c0 := Config(k, m);
    assert ("?PARAM", 1) in SCRATCH && ("?PARAM", 2) in SCRATCH && ("?RESULT", 1) in SCRATCH;
    assert Machine.Step(ord, p, c0) == Some(Config(k + 1, m1));
    assert Machine.Step(ord, p, Config(k + 1, m1)) == Some(Config(k + 2, m2));
    assert Machine.Step(ord, p, Config(k + 2, m2)) == Some(Config(k + 3, m3));
    assert Machine.Step(ord, p, Config(k + 3, m3)) == Some(Config(k + 4, m'));
    ReachesRefl(ord, p, c0);
    ReachesStep(ord, p, c0, c0, Config(k + 1, m1));
    ReachesStep(ord, p, c0, Config(k + 1, m1), Config(k + 2, m2));
    ReachesStep(ord, p, c0, Config(k + 2, m2), Config(k + 3, m3));
    ReachesStep(ord, p, c0, Config(k + 3, m3), Config(k + 4, m'));
  }

  // ----- whole expressions -----

  lemma OwnLabelsPart(p: Program, k: nat, n: nat, j: nat, l: nat)
    requires OwnLabels(p, k, n) && k <= j && j + l <= k + n
    ensures OwnLabels(p, j, l)
  {
  }

  /** The code of both operands leaves both values. */
  lemma {:induction false} OperandsRun(ord: Order, p: Program, k: nat, m: State, e: Core, uid: nat) returns (m': State)
    requires e.Op? || e.Join? || e.Else?
    requires Ready(m) && UserVars(e) && CodeAt(p, k, Compile(e, uid).0) && OwnLabels(p, k, |Compile(e, uid).0|)
    requires Eval(ord, m, e.l).Val? && Eval(ord, m, e.r).Val?
    ensures var (q, u) := Compile(e.l, uid);
            var (r, w) := Compile(e.r, u);
            var j := k + |q| + |r|;
            && Reaches(ord, p, Config(k, m), Config(j, m'))
            && m'.stack == m.stack + [Eval(ord, m, e.l).v, Eval(ord, m, e.r).v] && Keeps(m, m')
            && CodeAt(p, j, OwnCode(e, w)) && OwnLabels(p, j, |OwnCode(e, w)|)
            && k + |Compile(e, uid).0| == j + |OwnCode(e, w)|
    decreases e, 0
  {
    hide OwnCode, CodeAt, OwnLabels, Reaches, Compile, Eval;
    var (q, u) := Compile(e.l, uid);
    var (r, w) := Compile(e.r, u);
    BinCompile(e, uid);
    var own := OwnCode(e, w);
    assert q + r + own == q + (r + own);
    CodeParts(p, k, q, r + own);
    CodeParts(p, k + |q|, r, own);
    var n := |q| + |r| + |own|;
    OwnLabelsPart(p, k, n, k, |q|);
    OwnLabelsPart(p, k, n, k + |q|, |r|);
    OwnLabelsPart(p, k, n, k + |q| + |r|, |own|);
    var m1 := CompileRuns(ord, p, k, m, e.l, uid);
    EvalKept(ord, m, m1, e.r);
    m' := CompileRuns(ord, p, k + |q|, m1, e.r, u);
    KeepsTrans(m, m1, m');
    var a, b := Eval(ord, m, e.l).v, Eval(ord, m, e.r).v;
    assert m.stack + [a] + [b] == m.stack + [a, b];
    ReachesTrans(ord, p, Config(k, m), Config(k + |q|, m1), Config(k + |q| + |r|, m'));
  }

  /** From any state, code whose labels are its own pushes the expression's value and touches nothing else. */
  lemma {:induction false} CompileRuns(ord: Order, p: Program, k: nat, m: State, e: Core, uid: nat)
    returns (m': State)
    requires Ready(m) && UserVars(e) && CodeAt(p, k, Compile(e, uid).0) && OwnLabels(p, k, |Compile(e, uid).0|)
    requires Eval(ord, m, e).Val?
    ensures Reaches(ord, p, Config(k, m), Config(k + |Compile(e, uid).0|, m'))
    ensures m'.stack == m.stack + [Eval(ord, m, e).v] && Keeps(m, m')
    decreases e, 2
  {
    hide OwnCode, OwnLabels, Reaches, Operate, Concatenate, Choice, CodeAt;
    match e
    case Lit(_) => m' := PushRuns(ord, p, k, m, e, uid);
    case Var(_) => m' := PushRuns(ord, p, k, m, e, uid);
    case Force(x) => m' := CompileRuns(ord, p, k, m, x, uid);
    case _ => m' := BinaryRuns(ord, p, k, m, e, uid);
  }

  lemma PushRuns(ord: Order, p: Program, k: nat, m: State, e: Core, uid: nat) returns (m': State)
    requires e.Lit? || e.Var?
    requires CodeAt(p, k, Compile(e, uid).0) && Eval(ord, m, e).Val?
    ensures Reaches(ord, p, Config(k, m), Config(k + 1, m')) && |Compile(e, uid).0| == 1
    ensures m'.stack == m.stack + [Eval(ord, m, e).v] && Keeps(m, m')
  {
    hide Reaches;
    Nth(p, k, Compile(e, uid).0, 0);
    m' := m.(stack := m.stack + [Eval(ord, m, e).v]);
    ReachesRefl(ord, p, Config(k, m));
    ReachesStep(ord, p, Config(k, m), Config(k, m), Config(k + 1, m'));
  }

  lemma {:induction false} BinaryRuns(ord: Order, p: Program, k: nat, m: State, e: Core, uid: nat)
    returns (m': State)
    requires e.Op? || e.Join? || e.Else?
    requires Ready(m) && UserVars(e) && CodeAt(p, k, Compile(e, uid).0) && OwnLabels(p, k, |Compile(e, uid).0|)
    requires Eval(ord, m, e).Val?
    ensures Reaches(ord, p, Config(k, m), Config(k + |Compile(e, uid).0|, m'))
    ensures m'.stack == m.stack + [Eval(ord, m, e).v] && Keeps(m, m')
    decreases e, 1
  {
    hide OwnCode, OwnLabels, Reaches, Compile, CodeAt, Apply, Converted;
    var m1 := OperandsRun(ord, p, k, m, e, uid);
    var (q, u) := Compile(e.l, uid);
    var (r, w) := Compile(e.r, u);
    var j := k + |q| + |r|;
    m' := OwnRuns(ord, p, j, m1, m.stack, Eval(ord, m, e.l).v, Eval(ord, m, e.r).v, e, w);
    KeepsTrans(m, m1, m');
    ReachesTrans(ord, p, Config(k, m), Config(j, m1), Config(j + |OwnCode(e, w)|, m'));
  }

  /** What an operation makes of its operands' values. */
  function Combine(ord: Order, e: Core, a: Value, b: Value): Result
    requires e.Op? || e.Join? || e.Else?
  {
    match e
    case Op(_, op, isInt, conv, _) => Operate(ord, op, isInt, conv, Val(a), Val(b))
    case Join(_, _) => Concatenate(Val(a), Val(b))
    case Else(_, conv, _) => Choice(conv, Val(a), Val(b))
  }

  /** The operation's own code, above its operands' values. */
  lemma OwnRuns(ord: Order, p: Program, k: nat, m: State, s: seq<Value>, a: Value, b: Value, e: Core, uid: nat)
    returns (m': State)
    requires (e.Op? || e.Join? || e.Else?) && Ready(m) && m.stack == s + [a, b]
    requires CodeAt(p, k, OwnCode(e, uid)) && OwnLabels(p, k, |OwnCode(e, uid)|)
    requires Combine(ord, e, a, b).Val?
    ensures Reaches(ord, p, Config(k, m), Config(k + |OwnCode(e, uid)|, m'))
    ensures m'.stack == s + [Combine(ord, e, a, b).v] && Keeps(m, m')
  {
    hide OwnLabels, Reaches, CodeAt, Apply, ConversionCode, OpCode, NilCheckCode, Converted;
    match e
    case Op(_, op, isInt, conv, _) =>
      CodeParts(p, k, ConversionCode(conv), OpCode(op, isInt));
      var m1 := ConversionRuns(ord, p, k, m, s, conv, a, b);
      var j := k + |ConversionCode(conv)|;
      var a', b' := Converted(conv, a, b).0.v, Converted(conv, a, b).1.v;
      OperatorRuns(ord, p, j, m1, s, op, isInt, a', b');
      m' := m1.(stack := s + [Apply(ord, op, isInt, a', b').v]);
      ReachesTrans(ord, p, Config(k, m), Config(j, m1), Config(j + |OpCode(op, isInt)|, m'));
    case Join(_, _) =>
      m' := ConcatRuns(ord, p, k, m, s, a.s, b.s);
    case Else(_, conv, _) =>
      CodeParts(p, k, ConversionCode(conv), NilCheckCode(uid));
      var m1 := ConversionRuns(ord, p, k, m, s, conv, a, b);
      var j := k + |ConversionCode(conv)|;
      var a', b' := Converted(conv, a, b).0.v, Converted(conv, a, b).1.v;
      NilCheckLength(uid);
      OwnLabelsPart(p, k, |OwnCode(e, uid)|, j, 18);
      m' := NilCheckRuns(ord, p, j, m1, s, a', b', uid);
      ReachesTrans(ord, p, Config(k, m), Config(j, m1), Config(j + 18, m'));
  }

  lemma NilCheckLength(id: nat)
    ensures |NilCheckCode(id)| == 18
  {
  }

  // ----- labels -----

  /** The labels of `code` are pairwise different labels of conditions with ids in `lo..hi`. */
  ghost predicate Ranged(code: Program, lo: nat, hi: nat) {
    && lo <= hi
    && (forall i :: 0 <= i < |code| && code[i].Lab? ==> IsCondition(code[i].l) && lo <= code[i].l.id < hi)
    && (forall i, j :: 0 <= i < j < |code| && code[i].Lab? && code[j].Lab? ==> code[i] != code[j])
  }

  lemma RangedConcat(a: Program, b: Program, lo: nat, mid: nat, hi: nat)
    requires Ranged(a, lo, mid) && Ranged(b, mid, hi)
    ensures Ranged(a + b, lo, hi)
  {
  }

  lemma {:induction false} HelpersRanged(d: nat, lo: nat)
    ensures Ranged(SaveCode(d), lo, lo) && Ranged(RestoreCode(d), lo, lo)
  {
    if d > 0 {
      HelpersRanged(d - 1, lo);
    }
  }

  lemma ConversionRanged(c: Conversion, lo: nat)
    ensures Ranged(ConversionCode(c), lo, lo)
  {
    hide SaveCode, RestoreCode;
    HelpersRanged(0, lo);
    HelpersRanged(1, lo);
  }

  lemma NilCheckRanged(lo: nat)
    ensures Ranged(NilCheckCode(lo), lo, lo + 1)
  {
    var code := NilCheckCode(lo);
    forall i | 0 <= i < |code| && code[i].Lab?
      ensures IsCondition(code[i].l) && code[i].l.id == lo && (i == 14 || i == 16)
    {
    }
  }

  lemma OpCodeRanged(op: Kind, isInt: bool, lo: nat)
    ensures Ranged(OpCode(op, isInt), lo, lo) && Ranged(ConcatCode, lo, lo)
  {
  }

  lemma OwnRanged(e: Core, uid: nat)
    ensures Ranged(OwnCode(e, uid), uid, if e.Else? then uid + 1 else uid)
  {
    hide Ranged, ConversionCode, OpCode, NilCheckCode, ConcatCode;
    match e
    case Op(_, op, isInt, conv, _) =>
      ConversionRanged(conv, uid);
      OpCodeRanged(op, isInt, uid);
      RangedConcat(ConversionCode(conv), OpCode(op, isInt), uid, uid, uid);
    case Else(_, conv, _) =>
      ConversionRanged(conv, uid);
      NilCheckRanged(uid);
      RangedConcat(ConversionCode(conv), NilCheckCode(uid), uid, uid, uid + 1);
    case _ =>
      OpCodeRanged(KAdd, false, uid);
      NothingRanged(uid);
  }

  lemma NothingRanged(lo: nat)
    ensures Ranged([], lo, lo)
  {
  }

  /** Compilation draws its labels from the ids it reserves. */
  lemma {:induction false} CompileRanged(e: Core, uid: nat)
    ensures Ranged(Compile(e, uid).0, uid, Compile(e, uid).1)
  {
    hide OwnCode;
    match e
    case Lit(_) =>
    case Var(_) =>
    case Force(x) => CompileRanged(x, uid);
    case _ =>
      BinCompile(e, uid);
      var (p, u) := Compile(e.l, uid);
      var (q, w) := Compile(e.r, u);
      CompileRanged(e.l, uid);
      CompileRanged(e.r, u);
      OwnRanged(e, w);
      RangedConcat(p, q, uid, u, w);
      RangedConcat(p + q, OwnCode(e, w), uid, w, Compile(e, uid).1);
  }

  /** Outside `p[k..k + n]` no label of a condition has an id in `lo..hi`. */
  ghost predicate Reserved(p: Program, k: nat, n: nat, lo: nat, hi: nat) {
    forall j :: 0 <= j < |p| && !(k <= j < k + n) && p[j].Lab? && IsCondition(p[j].l) ==> !(lo <= p[j].l.id < hi)
  }

  lemma RangedOwn(p: Program, k: nat, code: Program, lo: nat, hi: nat)
    requires CodeAt(p, k, code) && Ranged(code, lo, hi) && Reserved(p, k, |code|, lo, hi)
    ensures OwnLabels(p, k, |code|)
  {
    forall j: nat | k <= j < k + |code| && j < |p| && p[j].Lab?
      ensures UniqueAt(p, p[j].l, j)
    {
      assert p[k + (j - k)] == code[j - k];
      forall i: nat | i < |p| && p[i] == p[j]
        ensures i == j
      {
        assert k <= i < k + |code| ==> p[k + (i - k)] == code[i - k];
      }
    }
  }

  // ----- whole calls -----

  /** The assigned variable makes the whole integer expression a double. */
  predicate Promoted(ctx: Ctx, sem: Sem, t: Tree) {
    var (s, e) := Fold(ctx, sem, t);
    ctx.lhs.Some? && s.allLits && ctx.lhs.value.ty == Double && e.ty == Integer
  }

  /** What the expression means, its conversion to the assigned variable's type included. */
  function Means(ord: Order, m: State, ctx: Ctx, sem: Sem, t: Tree): Result {
    var r := Eval(ord, m, Elaborate(ctx, sem, t));
    if Promoted(ctx, sem, t) && r.Val? then ToDouble(r.v) else r
  }

  function ExprCode(ctx: Ctx, sem: Sem, t: Tree): Program {
    var code := Compile(Elaborate(ctx, sem, t), sem.condUid).0;
    if Promoted(ctx, sem, t) then code + Int2DoublesCode(0) else code
  }

  /** No identifier contains `?`; the lexer makes no other. */
  predicate PlainNames(t: Tree) {
    match t
    case Leaf(tok) => tok.kind == KIdentifier ==> '?' !in Text(tok)
    case Bang(e, _) => PlainNames(e)
    case Paren(_, e, _) => PlainNames(e)
    case Bin(l, _, r) => PlainNames(l) && PlainNames(r)
  }

  lemma {:induction false} ElaborationUserVars(ctx: Ctx, sem: Sem, t: Tree)
    requires PlainNames(t)
    ensures UserVars(Elaborate(ctx, sem, t))
    decreases t
  {
    hide Fold, BinCore;
    match t
    case Leaf(tok) =>
      assert "?PARAM"[0] == '?' && "?RESULT"[0] == '?';
    case Bang(e, _) => ElaborationUserVars(ctx, sem, e);
    case Paren(_, e, _) => ElaborationUserVars(ctx, sem, e);
    case Bin(l, op, r) =>
      var (s1, a) := Fold(ctx, sem, l);
      var (s2, b) := Fold(ctx, s1, r);
      ElaborationUserVars(ctx, sem, l);
      ElaborationUserVars(ctx, s1, r);
      BinCoreParts(a, Elaborate(ctx, sem, l), op.kind, b, Elaborate(ctx, s1, r));
  }

  /** An accepted call appends exactly the code of its expression and reserves that code's labels. */
  lemma AcceptedEmits(ctx: Ctx, pos: nat, sem: Sem, t: Tree)
    requires Accepted(ctx, pos, sem, t)
    ensures var s := TreeOutcome(ctx, pos + 1, sem, t).sem;
            s.code == sem.code + ExprCode(ctx, sem, t) && Ranged(ExprCode(ctx, sem, t), sem.condUid, s.condUid)
  {
    hide Fold, Elaborate, Compile, Stratified, IndexOf, Yield, Int2DoublesCode, Ranged;
    FoldEmits(ctx, sem, t);
    var e := Elaborate(ctx, sem, t);
    var (p, u) := Compile(e, sem.condUid);
    CompileRanged(e, sem.condUid);
    PromotionRanged(u);
    RangedConcat(p, Int2DoublesCode(0), sem.condUid, u, u);
    assert sem.code + p + Int2DoublesCode(0) == sem.code + (p + Int2DoublesCode(0));
  }

  lemma PromotionRanged(u: nat)
    ensures Ranged(Int2DoublesCode(0), u, u)
  {
    ConversionRanged(Second, u);
  }

  /** Compiler correctness: wherever the code of an accepted expression stands in a program, running it from any
      state in which the expression means `v` pushes `v` and changes no frame or variable of the program. */
  lemma ExprCodeRuns(ord: Order, p: Program, k: nat, m: State, ctx: Ctx, pos: nat, sem: Sem, t: Tree)
    returns (m': State)
    requires Accepted(ctx, pos, sem, t) && PlainNames(t) && Ready(m)
    requires var code := ExprCode(ctx, sem, t);
             CodeAt(p, k, code) && Reserved(p, k, |code|, sem.condUid, TreeOutcome(ctx, pos + 1, sem, t).sem.condUid)
    requires Means(ord, m, ctx, sem, t).Val?
    ensures Reaches(ord, p, Config(k, m), Config(k + |ExprCode(ctx, sem, t)|, m'))
    ensures m'.stack == m.stack + [Means(ord, m, ctx, sem, t).v] && Keeps(m, m')
  {
    hide Fold, Elaborate, Compile, Stratified, IndexOf, Yield, Int2DoublesCode, Ranged, OwnLabels, CodeAt, Eval,
         Reaches, Promoted, Reserved, TreeOutcome;
    AcceptedEmits(ctx, pos, sem, t);
    ElaborationUserVars(ctx, sem, t);
    var e, code := Elaborate(ctx, sem, t), ExprCode(ctx, sem, t);
    var (q, _) := Compile(e, sem.condUid);
    RangedOwn(p, k, code, sem.condUid, TreeOutcome(ctx, pos + 1, sem, t).sem.condUid);
    OwnLabelsPart(p, k, |code|, k, |q|);
    if Promoted(ctx, sem, t) {
      CodeParts(p, k, q, Int2DoublesCode(0));
      var m1 := CompileRuns(ord, p, k, m, e, sem.condUid);
      m' := Int2DoublesRuns(ord, p, k + |q|, m1, 0);
      ReachesTrans(ord, p, Config(k, m), Config(k + |q|, m1), Config(k + |code|, m'));
    } else {
      m' := CompileRuns(ord, p, k, m, e, sem.condUid);
    }
  }
}
