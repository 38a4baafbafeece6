/** What hoisting does to the meaning of a loop body without jumps. */
module StraightLine {
  import opened Tokens
  import opened Machine
  import opened Execution
  import opened Hoisting

  /** One instruction that is no label, jump, call or return. */
  function One(ord: Order, m: State, i: Instr): Option<State> {
    if i.Lab? || i.Jump? || i.JumpIfNeqs? || i.Call? || i.Return? then None
    else
      var c := Machine.Step(ord, [i], Config(0, m));
      if c.Some? then Some(c.value.m) else None
  }

  /** Runs instructions in order; `None` as soon as one fails. */
  function Exec(ord: Order, m: State, code: seq<Instr>): Option<State>
    decreases |code|
  {
    if code == [] then Some(m) else
      var m' := Exec(ord, m, code[..|code| - 1]);
      if m'.Some? then One(ord, m'.value, code[|code| - 1]) else None
  }

  lemma ExecSnoc(ord: Order, m: State, code: seq<Instr>, i: Instr)
    ensures Exec(ord, m, code + [i]) ==
      if Exec(ord, m, code).Some? then One(ord, Exec(ord, m, code).value, i) else None
  {
    assert (code + [i])[..|code|] == code;
  }

  lemma {:induction false} ExecConcat(ord: Order, m: State, a: seq<Instr>, b: seq<Instr>)
    ensures Exec(ord, m, a + b) == if Exec(ord, m, a).Some? then Exec(ord, Exec(ord, m, a).value, b) else None
    decreases |b|
  {
    hide One;
    if b == [] {
      assert a + b == a;
    } else {
      assert (a + b)[..|a + b| - 1] == a + b[..|b| - 1];
      ExecConcat(ord, m, a, b[..|b| - 1]);
    }
  }

  /** Running on values is running on the machine. */
  lemma {:induction false} ExecReaches(ord: Order, p: Program, k: nat, m: State, code: seq<Instr>)
    requires CodeAt(p, k, code) && Exec(ord, m, code).Some?
    ensures Reaches(ord, p, Config(k, m), Config(k + |code|, Exec(ord, m, code).value))
    decreases |code|
  {
    hide Reaches, One, CodeAt, Exec;
    ExecNothing(ord, m);
    if code == [] {
      ReachesRefl(ord, p, Config(k, m));
    } else {
      var n := |code| - 1;
      assert code == code[..n] + [code[n]];
      ExecSnoc(ord, m, code[..n], code[n]);
      CodeParts(p, k, code[..n], [code[n]]);
      Nth(p, k, code, n);
      ExecReaches(ord, p, k, m, code[..n]);
      var m1 := Exec(ord, m, code[..n]).value;
      OneSteps(ord, p, k + n, m1, code[n]);
      ReachesStep(ord, p, Config(k, m), Config(k + n, m1), Config(k + n + 1, Exec(ord, m, code).value));
    }
  }

  lemma OneSteps(ord: Order, p: Program, k: nat, m: State, i: Instr)
    requires k < |p| && p[k] == i && One(ord, m, i).Some?
    ensures Machine.Step(ord, p, Config(k, m)) == Some(Config(k + 1, One(ord, m, i).value))
  {
    hide Binary;
  }

  // ----- moving a declaration forward -----

  /** Instructions that neither jump nor change which variables and frames there are. */
  predicate Calm(i: Instr) {
    !i.DefVar? && !i.CreateFrame? && !i.PushFrame? && !i.PopFrame? && !i.Lab? && !i.Jump? && !i.JumpIfNeqs? &&
        !i.Call? && !i.Return? && !i.Other?
  }

  lemma ReadDeclared(m: State, x: VarRef, y: VarRef)
    requires Machine.Declare(m, x).Some? && Read(m, y).Some?
    ensures Read(Machine.Declare(m, x).value, y) == Read(m, y)
  {
  }

  lemma WriteDeclares(m: State, x: VarRef, y: VarRef, v: Value)
    requires Write(m, y, v).Some? && Machine.Declare(Write(m, y, v).value, x).Some?
    ensures var d := Machine.Declare(m, x);
            d.Some? && Write(d.value, y, v).Some? &&
            Write(d.value, y, v) == Machine.Declare(Write(m, y, v).value, x)
  {
    hide WithFrame, TopFrame;
    var a, b := (x.name, x.uid), (y.name, y.uid);
    AfterWrite(m, y, v, x);
    var f: Frame, g: Frame := TopFrame(m, y.frame).value, TopFrame(m, x.frame).value;
    if x.frame == y.frame {
      WithFrameTwice(m, x.frame, f[b := Some(v)], f[b := Some(v)][a := None]);
      WithFrameTwice(m, x.frame, f[a := None], f[a := None][b := Some(v)]);
      var unset: Option<Value> := None;
      assert a != b ==> f[b := Some(v)][a := unset] == f[a := unset][b := Some(v)];
    } else {
      WithFrameApart(m, x.frame, y.frame, g[a := None], f[b := Some(v)]);
    }
  }

  /** Writing neither makes frames nor removes them. */
  lemma AfterWrite(m: State, y: VarRef, v: Value, x: VarRef)
    requires Write(m, y, v).Some? && TopFrame(Write(m, y, v).value, x.frame).Some?
    ensures TopFrame(m, x.frame).Some? && TopFrame(m, y.frame).Some?
    ensures x.frame == LF || y.frame == LF ==> |m.lf| > 0
  {
  }

  lemma WithFrameTwice(m: State, f: FrameName, g: Frame, h: Frame)
    requires f == LF ==> |m.lf| > 0
    ensures WithFrame(WithFrame(m, f, g), f, h) == WithFrame(m, f, h)
    ensures TopFrame(WithFrame(m, f, g), f) == Some(g)
  {
  }

  lemma WithFrameApart(m: State, e: FrameName, f: FrameName, g: Frame, h: Frame)
    requires e != f && (e == LF || f == LF ==> |m.lf| > 0)
    ensures WithFrame(WithFrame(m, e, g), f, h) == WithFrame(WithFrame(m, f, h), e, g)
    ensures TopFrame(WithFrame(m, e, g), f) == TopFrame(m, f) && TopFrame(WithFrame(m, f, h), e) == TopFrame(m, e)
  {
  }

  lemma StackKept(m: State, x: VarRef)
    requires Machine.Declare(m, x).Some?
    ensures Machine.Declare(m, x).value.stack == m.stack
  {
  }

  lemma DeclareOnlyVars(m: State, x: VarRef, stack: seq<Value>)
    ensures Machine.Declare(m.(stack := stack), x) ==
      if Machine.Declare(m, x).Some? then Some(Machine.Declare(m, x).value.(stack := stack)) else None
  {
  }

  /** A declaration may come before a calm instruction. */
  lemma DeclareFirst(ord: Order, m: State, i: Instr, x: VarRef)
    requires Calm(i) && One(ord, m, i).Some? && Machine.Declare(One(ord, m, i).value, x).Some?
    ensures var d := Machine.Declare(m, x);
            d.Some? && One(ord, d.value, i) == Machine.Declare(One(ord, m, i).value, x)
  {
    hide Machine.Declare, Read, Write, Binary;
    var m1 := One(ord, m, i).value;
    var s := m.stack;
    DeclareOnlyVars(m, x, m1.stack);
    match i
    case Pops(y) =>
      var n := |s| - 1;
      DeclareOnlyVars(m, x, s[..n]);
      WriteDeclares(m.(stack := s[..n]), x, y, s[n]);
      StackKept(m, x);
    case PushVar(y) =>
      assert m1 == m.(stack := m1.stack);
      StackKept(m, x);
      ReadDeclared(m, x, y);
    case Concat(d, a, b) =>
      WriteDeclares(m, x, d, VStr(Read(m, a).value.s + Read(m, b).value.s));
      ReadDeclared(m, x, a);
      ReadDeclared(m, x, b);
    case Move(d, o) =>
      WriteDeclares(m, x, d, ReadSource(m, o).value);
      if o.Variable? {
        ReadDeclared(m, x, o.x);
      }
    case _ => StackKept(m, x);
  }

  // ----- loop bodies -----

  /** Calls that only declare variables and emit calm instructions. */
  predicate Straight(calls: seq<Call>) {
    forall k :: 0 <= k < |calls| ==> calls[k].Declare? || (calls[k].Emit? && Calm(calls[k].i))
  }

  function InstrOf(line: Line): Instr {
    match line
    case Decl(x) => DefVar(x)
    case Code(i) => i
  }

  function Instrs(lines: seq<Line>): seq<Instr> {
    seq(|lines|, k requires 0 <= k < |lines| => InstrOf(lines[k]))
  }

  /** The calls' lines in the order of the source. */
  function InOrder(calls: seq<Call>): seq<Line> {
    if calls == [] then [] else InOrder(calls[..|calls| - 1]) + LinesOf(calls[|calls| - 1])
  }

  function Body(calls: seq<Call>): seq<Instr> {
    Instrs(InOrder(calls))
  }

  function HoistedBody(calls: seq<Call>): seq<Instr> {
    Instrs(Declarations(calls)) + Instrs(Others(calls))
  }

  predicate AllCalm(code: seq<Instr>) {
    forall k :: 0 <= k < |code| ==> Calm(code[k])
  }

  lemma OneDeclares(ord: Order, m: State, x: VarRef)
    ensures One(ord, m, DefVar(x)) == Machine.Declare(m, x)
  {
  }

  /** A declaration may come before a whole list of calm instructions. */
  lemma {:induction false} Bubble(ord: Order, m: State, code: seq<Instr>, x: VarRef)
    requires AllCalm(code) && Exec(ord, m, code + [DefVar(x)]).Some?
    ensures Exec(ord, m, [DefVar(x)] + code) == Exec(ord, m, code + [DefVar(x)])
    decreases |code|
  {
    hide One, Machine.Declare;
    ExecSnoc(ord, m, code, DefVar(x));
    if code == [] {
      assert [DefVar(x)] + code == code + [DefVar(x)];
    } else {
      var n := |code| - 1;
      var rest, i := code[..n], code[n];
      assert code == rest + [i] && [DefVar(x)] + code == ([DefVar(x)] + rest) + [i];
      ExecSnoc(ord, m, rest, i);
      var m1 := Exec(ord, m, rest).value;
      OneDeclares(ord, m1, x);
      OneDeclares(ord, One(ord, m1, i).value, x);
      DeclareFirst(ord, m1, i, x);
      ExecSnoc(ord, m, rest, DefVar(x));
      Bubble(ord, m, rest, x);
      ExecSnoc(ord, m, [DefVar(x)] + rest, i);
    }
  }

  lemma InstrsConcat(a: seq<Line>, b: seq<Line>)
    ensures Instrs(a + b) == Instrs(a) + Instrs(b)
  {
  }

  lemma {:induction false} OthersCalm(calls: seq<Call>)
    requires Straight(calls)
    ensures AllCalm(Instrs(Others(calls)))
    decreases |calls|
  {
    if calls != [] {
      OthersCalm(calls[..|calls| - 1]);
      InstrsConcat(Others(calls[..|calls| - 1]), OtherLines(calls[|calls| - 1]));
    }
  }

  function InstrOfCall(c: Call): Instr
    requires c.Declare? || c.Emit?
  {
    if c.Declare? then DefVar(c.x) else c.i
  }

  /** One more call at the end of a body. */
  lemma BodyNext(rest: seq<Call>, c: Call)
    requires c.Declare? || c.Emit?
    ensures var i := InstrOfCall(c);
            && Body(rest + [c]) == Body(rest) + [i]
            && Instrs(Declarations(rest + [c])) == Instrs(Declarations(rest)) + (if c.Declare? then [i] else [])
            && Instrs(Others(rest + [c])) == Instrs(Others(rest)) + (if c.Declare? then [] else [i])
  {
    hide Instrs, Declarations, Others;
    assert (rest + [c])[..|rest|] == rest;
    Snoc(rest, c);
    OneLine(c);
    NoLines();
    InstrsConcat(InOrder(rest), LinesOf(c));
    InstrsConcat(Declarations(rest), DeclLines(c));
    InstrsConcat(Others(rest), OtherLines(c));
  }

  lemma NoBody()
    ensures Body([]) == [] && Instrs(Declarations([])) == [] && Instrs(Others([])) == []
  {
  }

  /** Hoisting preserves meaning: where a body without jumps and frame changes runs, its hoisted form runs to the
      same state. */
  lemma {:induction false} HoistingKeepsMeaning(ord: Order, m: State, calls: seq<Call>)
    requires Straight(calls) && Exec(ord, m, Body(calls)).Some?
    ensures Exec(ord, m, HoistedBody(calls)) == Exec(ord, m, Body(calls))
    decreases |calls|
  {
    hide Exec, Machine.Declare, Calm, Instrs, Declarations, Others, Body;
    NoBody();
    if calls == [] {
      assert HoistedBody(calls) == Body(calls);
    } else {
      var rest, c := calls[..|calls| - 1], calls[|calls| - 1];
      var d, o := Instrs(Declarations(rest)), Instrs(Others(rest));
      var i := InstrOfCall(c);
      assert calls == rest + [c];
      BodyNext(rest, c);
      ExecSnoc(ord, m, Body(rest), i);
      HoistingKeepsMeaning(ord, m, rest);
      ExecSnoc(ord, m, d + o, i);
      if c.Declare? {
        OthersCalm(rest);
        ExecConcat(ord, m, d, o);
        var m1 := Exec(ord, m, d).value;
        ExecSnoc(ord, m1, o, i);
        Bubble(ord, m1, o, c.x);
        assert HoistedBody(calls) == d + [i] + o == d + ([i] + o);
        ExecConcat(ord, m, d, [i] + o);
      } else {
        assert HoistedBody(calls) == d + o + [i];
      }
    }
  }

  lemma OneLine(c: Call)
    requires c.Declare? || c.Emit?
    ensures Instrs(LinesOf(c)) == [if c.Declare? then DefVar(c.x) else c.i]
  {
  }

  lemma NoLines()
    ensures Instrs([]) == []
  {
  }

  // ----- why loops need it -----

  predicate Declared(m: State, x: VarRef) {
    var f := TopFrame(m, x.frame);
    f.Some? && (x.name, x.uid) in f.value
  }

  lemma OneKeepsDeclared(ord: Order, m: State, i: Instr, x: VarRef)
    requires (Calm(i) || i.DefVar?) && One(ord, m, i).Some?
    ensures Declared(m, x) ==> Declared(One(ord, m, i).value, x)
    ensures i == DefVar(x) ==> !Declared(m, x) && Declared(One(ord, m, i).value, x)
  {
    hide Binary;
  }

  /** What a straight body declares is declared after it, and was not before it. */
  lemma {:induction false} DeclaresOnce(ord: Order, m: State, calls: seq<Call>, x: VarRef)
    requires Straight(calls) && Exec(ord, m, Body(calls)).Some?
    ensures var m' := Exec(ord, m, Body(calls)).value;
            && (Declared(m, x) ==> Declared(m', x) && Call.Declare(x) !in calls)
            && (Call.Declare(x) in calls ==> Declared(m', x))
    decreases |calls|
  {
    hide Exec, Calm, Body, Declared, One;
    NoBody();
    ExecNothing(ord, m);
    if calls != [] {
      var rest, c := calls[..|calls| - 1], calls[|calls| - 1];
      var i := InstrOfCall(c);
      assert calls == rest + [c];
      BodyNext(rest, c);
      ExecSnoc(ord, m, Body(rest), i);
      DeclaresOnce(ord, m, rest, x);
      OneKeepsDeclared(ord, Exec(ord, m, Body(rest)).value, i, x);
      if c.Emit? {
        CalmDeclares(i, x);
      }
    }
  }

  lemma CalmDeclares(i: Instr, x: VarRef)
    requires Calm(i)
    ensures i != DefVar(x)
  {
  }

  lemma ExecNothing(ord: Order, m: State)
    ensures Exec(ord, m, []) == Some(m)
  {
  }

  /** Left where it was written, a declaration would stop the second round of its loop. */
  lemma SecondRoundFails(ord: Order, m: State, calls: seq<Call>, x: VarRef)
    requires Straight(calls) && Exec(ord, m, Body(calls)).Some? && Call.Declare(x) in calls
    ensures Exec(ord, Exec(ord, m, Body(calls)).value, Body(calls)).None?
  {
    hide Exec, Declared, Body;
    DeclaresOnce(ord, m, calls, x);
    var m' := Exec(ord, m, Body(calls)).value;
    if Exec(ord, m', Body(calls)).Some? {
      DeclaresOnce(ord, m', calls, x);
      assert false;
    }
  }

  // ----- where hoisting breaks code -----

  const TMP := VarRef(LF, "TMP", 0)

  /** The calls for an assignment to `_`: pop into a throw-away frame. */
  const DISCARD: seq<Call> :=
    [Emit(CreateFrame), Emit(PushFrame), Call.Declare(TMP), Emit(Pops(TMP)), Emit(PopFrame)]

  lemma DiscardBody()
    ensures Body(DISCARD) == [CreateFrame, PushFrame, DefVar(TMP), Pops(TMP), PopFrame]
    ensures HoistedBody(DISCARD) == [DefVar(TMP), CreateFrame, PushFrame] + [Pops(TMP)] + [PopFrame]
  {
    hide Body, Instrs, Declarations, Others;
    NoBody();
    BodyNext([], DISCARD[0]);
    BodyNext([] + [DISCARD[0]], DISCARD[1]);
    BodyNext([] + [DISCARD[0]] + [DISCARD[1]], DISCARD[2]);
    BodyNext([] + [DISCARD[0]] + [DISCARD[1]] + [DISCARD[2]], DISCARD[3]);
    BodyNext([] + [DISCARD[0]] + [DISCARD[1]] + [DISCARD[2]] + [DISCARD[3]], DISCARD[4]);
    assert DISCARD == [] + [DISCARD[0]] + [DISCARD[1]] + [DISCARD[2]] + [DISCARD[3]] + [DISCARD[4]];
  }

  /** Outside loops an assignment to `_` drops one value; inside a loop the hoisted declaration lands in the wrong
      frame and the assignment fails in every state. */
  lemma DiscardFailsInLoops(ord: Order, m: State)
    ensures m.stack != [] ==>
      var m' := Exec(ord, m, Body(DISCARD));
      m'.Some? && m'.value.stack == m.stack[..|m.stack| - 1] && m'.value.lf == m.lf && m'.value.gf == m.gf
    ensures Exec(ord, m, HoistedBody(DISCARD)).None?
  {
    hide Exec, Body, HoistedBody;
    DiscardBody();
    if m.stack != [] {
      DiscardRuns(ord, m);
    }
    var before := [DefVar(TMP), CreateFrame, PushFrame];
    ExecSnoc(ord, m, before + [Pops(TMP)], PopFrame);
    ExecSnoc(ord, m, before, Pops(TMP));
    assert before == [DefVar(TMP), CreateFrame] + [PushFrame];
    assert [DefVar(TMP), CreateFrame] == [DefVar(TMP)] + [CreateFrame];
    ExecSnoc(ord, m, [DefVar(TMP), CreateFrame], PushFrame);
    ExecSnoc(ord, m, [DefVar(TMP)], CreateFrame);
  }

  lemma DiscardRuns(ord: Order, m: State)
    requires m.stack != []
    ensures var m' := Exec(ord, m, [CreateFrame, PushFrame, DefVar(TMP), Pops(TMP), PopFrame]);
            m'.Some? && m'.value.stack == m.stack[..|m.stack| - 1] && m'.value.lf == m.lf && m'.value.gf == m.gf
  {
    hide Exec;
    ExecNothing(ord, m);
    ExecSnoc(ord, m, [], CreateFrame);
    ExecSnoc(ord, m, [] + [CreateFrame], PushFrame);
    ExecSnoc(ord, m, [] + [CreateFrame] + [PushFrame], DefVar(TMP));
    ExecSnoc(ord, m, [] + [CreateFrame] + [PushFrame] + [DefVar(TMP)], Pops(TMP));
    ExecSnoc(ord, m, [] + [CreateFrame] + [PushFrame] + [DefVar(TMP)] + [Pops(TMP)], PopFrame);
    assert [CreateFrame, PushFrame, DefVar(TMP), Pops(TMP), PopFrame] ==
      [] + [CreateFrame] + [PushFrame] + [DefVar(TMP)] + [Pops(TMP)] + [PopFrame];
  }
}
