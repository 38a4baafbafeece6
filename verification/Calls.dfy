/** The calling convention: arguments travel in a temporary frame as `??_0`, `??_1`, ...; the callee's prologue
    copies them into its parameters. */
module Calls {
  import opened Tokens
  import opened Machine
  import opened Hoisting
  import opened StraightLine

  /** What is emitted for the arguments: the frame with the first one, then a slot each. */
  function ArgumentCalls(args: seq<Source>): seq<Hoisting.Call> {
    if args == [] then [] else ArgumentCalls(args[..|args| - 1]) + SlotCalls(|args| - 1, args[|args| - 1])
  }

  /** Without arguments the call itself makes the frame. */
  function FrameCalls(args: seq<Source>): seq<Hoisting.Call> {
    ArgumentCalls(args) + if args == [] then [Emit(CreateFrame)] else []
  }

  function CallCalls(name: string, args: seq<Source>): seq<Hoisting.Call> {
    FrameCalls(args) + [Emit(Instr.Call(name))]
  }

  // ----- what the callee sees -----

  type Param = (string, nat)

  function ParamVar(p: Param): VarRef {
    VarRef(LF, p.0, p.1)
  }

  /** The callee's prologue: its local frame is the caller's temporary one. */
  function Prologue(params: seq<Param>): seq<Hoisting.Call> {
    if params == [] then [Emit(PushFrame)] else
      var n := |params| - 1;
      Prologue(params[..n])
        + [Hoisting.Call.Declare(ParamVar(params[n])), Emit(Move(ParamVar(params[n]), Variable(VarRef(LF, "??", n))))]
  }

  /** Arguments are constants and variables of the caller. */
  predicate Readable(m: State, arg: Source) {
    (arg.Variable? ==> arg.x.frame != TF) && ReadSource(m, arg).Some?
  }

  /** The temporary frame with the arguments' values. */
  function ArgFrame(m: State, args: seq<Source>): Frame {
    if args == [] then map[] else
      var n := |args| - 1;
      ArgFrame(m, args[..n])[("??", n) := ReadSource(m, args[n])]
  }

  /** The callee's frame once its parameters are copied. */
  function ParamFrame(f: Frame, params: seq<Param>): Frame {
    if params == [] then f else
      var n := |params| - 1;
      ParamFrame(f, params[..n])[params[n] := if ("??", n) in f then f[("??", n)] else None]
  }

  lemma {:induction false} ArgFrameAt(m: State, args: seq<Source>)
    ensures forall i: nat :: ("??", i) in ArgFrame(m, args) <==> i < |args|
    ensures forall i: nat :: i < |args| ==> ArgFrame(m, args)[("??", i)] == ReadSource(m, args[i])
    decreases |args|
  {
    if args != [] {
      ArgFrameAt(m, args[..|args| - 1]);
    }
  }

  /** Parameters are the program's names and differ from each other. */
  predicate Distinct(params: seq<Param>) {
    && (forall i :: 0 <= i < |params| ==> params[i].0 != "??")
    && forall i, j :: 0 <= i < j < |params| ==> params[i] != params[j]
  }

  lemma {:induction false} ParamFrameAt(f: Frame, params: seq<Param>)
    requires Distinct(params) && forall i: nat :: i < |params| ==> ("??", i) in f
    ensures var r := ParamFrame(f, params);
            && r.Keys == f.Keys + (set i | 0 <= i < |params| :: params[i])
            && (forall i: nat :: ("??", i) in f ==> r[("??", i)] == f[("??", i)])
            && (forall i: nat :: i < |params| ==> r[params[i]] == f[("??", i)])
    decreases |params|
  {
    if params != [] {
      ParamFrameAt(f, params[..|params| - 1]);
    }
  }

  lemma SlotDeclares(ord: Order, m: State, f: Frame, n: nat)
    requires ("??", n) !in f
    ensures One(ord, m.(tf := Some(f)), DefVar(Slot(n))) == Some(m.(tf := Some(f[("??", n) := None])))
  {
  }

  lemma SlotMoves(ord: Order, m: State, f: Frame, n: nat, arg: Source)
    requires ("??", n) in f && Readable(m, arg)
    ensures One(ord, m.(tf := Some(f)), Move(Slot(n), arg)) == Some(m.(tf := Some(f[("??", n) := ReadSource(m, arg)])))
  {
  }

  lemma FrameStep(ord: Order, m: State, args: seq<Source>)
    requires args != [] && Readable(m, args[|args| - 1])
    ensures var n := |args| - 1;
            var before := m.(tf := Some(ArgFrame(m, args[..n])));
            var declared := One(ord, before, DefVar(Slot(n)));
            && declared.Some?
            && One(ord, declared.value, Move(Slot(n), args[n])) == Some(m.(tf := Some(ArgFrame(m, args))))
  {
    hide One, Readable, ReadSource;
    var n := |args| - 1;
    ArgFrameAt(m, args[..n]);
    var f := ArgFrame(m, args[..n]);
    var unset: Option<Value> := None;
    SlotDeclares(ord, m, f, n);
    SlotMoves(ord, m, f[("??", n) := unset], n, args[n]);
    assert f[("??", n) := unset][("??", n) := ReadSource(m, args[n])] == ArgFrame(m, args);
  }

  /** The arguments' code fills the temporary frame and touches nothing else. */
  lemma {:induction false} ArgumentsRun(ord: Order, m: State, args: seq<Source>)
    requires forall i :: 0 <= i < |args| ==> Readable(m, args[i])
    ensures Exec(ord, m, Body(FrameCalls(args))) == Some(m.(tf := Some(ArgFrame(m, args))))
    decreases |args|
  {
    hide Exec, Body, One, ArgFrame, Readable;
    NoBody();
    ExecNothing(ord, m);
    if args == [] {
      BodyNext([], Emit(CreateFrame));
      ExecSnoc(ord, m, [], CreateFrame);
      CreatesFrame(ord, m);
    } else {
      var n := |args| - 1;
      var rest := args[..n];
      ArgumentsRun(ord, m, rest);
      var calls := if n == 0 then [] + [Emit(CreateFrame)] else ArgumentCalls(rest);
      assert calls == FrameCalls(rest);
      var d, e := Hoisting.Call.Declare(Slot(n)), Emit(Move(Slot(n), args[n]));
      assert FrameCalls(args) == calls + [d] + [e];
      BodyNext(calls, d);
      BodyNext(calls + [d], e);
      ExecSnoc(ord, m, Body(calls), DefVar(Slot(n)));
      ExecSnoc(ord, m, Body(calls) + [DefVar(Slot(n))], Move(Slot(n), args[n]));
      FrameStep(ord, m, args);
    }
  }

  lemma CreatesFrame(ord: Order, m: State)
    ensures One(ord, m, CreateFrame) == Some(m.(tf := Some(ArgFrame(m, []))))
  {
  }

  lemma PushesFrame(ord: Order, m: State, f: Frame)
    requires m.tf == Some(f)
    ensures One(ord, m, PushFrame) == Some(m.(tf := None, lf := m.lf + [f]))
  {
  }

  lemma TopDeclares(ord: Order, m: State, g: Frame, p: Param)
    requires p !in g
    ensures One(ord, m.(lf := m.lf + [g]), DefVar(ParamVar(p))) == Some(m.(lf := m.lf + [g[p := None]]))
  {
    var unset: Option<Value> := None;
    assert (m.lf + [g])[|m.lf| := g[p := unset]] == m.lf + [g[p := unset]];
  }

  lemma TopMoves(ord: Order, m: State, g: Frame, p: Param, n: nat)
    requires p in g
    ensures One(ord, m.(lf := m.lf + [g]), Move(ParamVar(p), Variable(VarRef(LF, "??", n)))) ==
      if ("??", n) in g && g[("??", n)].Some? then Some(m.(lf := m.lf + [g[p := g[("??", n)]]])) else None
  {
    if ("??", n) in g {
      assert (m.lf + [g])[|m.lf| := g[p := g[("??", n)]]] == m.lf + [g[p := g[("??", n)]]];
    }
  }

  lemma ParamStep(ord: Order, m: State, f: Frame, params: seq<Param>)
    requires params != [] && Distinct(params) && forall i: nat :: i < |params| ==> ("??", i) in f && f[("??", i)].Some?
    requires forall i :: 0 <= i < |params| ==> params[i] !in f
    ensures var n := |params| - 1;
            var before := m.(lf := m.lf + [ParamFrame(f, params[..n])]);
            var declared := One(ord, before, DefVar(ParamVar(params[n])));
            && declared.Some?
            && One(ord, declared.value, Move(ParamVar(params[n]), Variable(VarRef(LF, "??", n))))
               == Some(m.(lf := m.lf + [ParamFrame(f, params)]))
  {
    hide One;
    var n := |params| - 1;
    ParamFrameAt(f, params[..n]);
    var g := ParamFrame(f, params[..n]);
    var unset: Option<Value> := None;
    assert params[n] !in g;
    TopDeclares(ord, m, g, params[n]);
    TopMoves(ord, m, g[params[n] := unset], params[n], n);
    assert g[params[n] := unset][params[n] := f[("??", n)]] == ParamFrame(f, params);
  }

  /** The prologue of one parameter more. */
  lemma PrologueNext(ord: Order, m: State, params: seq<Param>)
    requires params != []
    ensures var n := |params| - 1;
            var start := Exec(ord, m, Body(Prologue(params[..n])));
            var declared := if start.Some? then One(ord, start.value, DefVar(ParamVar(params[n]))) else None;
            Exec(ord, m, Body(Prologue(params))) ==
              if declared.Some? then One(ord, declared.value, Move(ParamVar(params[n]), Variable(VarRef(LF, "??", n))))
              else None
  {
    hide Exec, Body, One;
    var n := |params| - 1;
    var calls := Prologue(params[..n]);
    var x, source := ParamVar(params[n]), Variable(VarRef(LF, "??", n));
    var d, e := Hoisting.Call.Declare(x), Emit(Move(x, source));
    assert Prologue(params) == calls + [d] + [e];
    BodyNext(calls, d);
    BodyNext(calls + [d], e);
    ExecSnoc(ord, m, Body(calls), DefVar(x));
    ExecSnoc(ord, m, Body(calls) + [DefVar(x)], Move(x, source));
  }

  lemma {:induction false} PrologueRuns(ord: Order, m: State, f: Frame, params: seq<Param>)
    requires m.tf == Some(f) && Distinct(params)
    requires forall i: nat :: i < |params| ==> ("??", i) in f && f[("??", i)].Some?
    requires forall i :: 0 <= i < |params| ==> params[i] !in f
    ensures Exec(ord, m, Body(Prologue(params))) == Some(m.(tf := None, lf := m.lf + [ParamFrame(f, params)]))
    decreases |params|
  {
    hide Exec, Body, One, ParamFrame;
    if params == [] {
      NoBody();
      ExecNothing(ord, m);
      BodyNext([], Emit(PushFrame));
      assert [] + [Emit(PushFrame)] == Prologue(params);
      ExecSnoc(ord, m, [], PushFrame);
      PushesFrame(ord, m, f);
      NoParams(f);
    } else {
      PrologueRuns(ord, m, f, params[..|params| - 1]);
      PrologueNext(ord, m, params);
      ParamStep(ord, m.(tf := None), f, params);
    }
  }

  lemma NoParams(f: Frame)
    ensures ParamFrame(f, []) == f
  {
  }

  /** Calling convention: for every number of arguments, after the call's code and the callee's prologue the i-th
      parameter holds the i-th argument's value, in a new local frame above the caller's untouched ones. */
  lemma ArgumentsArrive(ord: Order, m: State, args: seq<Source>, params: seq<Param>)
    requires |args| == |params| && Distinct(params)
    requires forall i :: 0 <= i < |args| ==> Readable(m, args[i])
    ensures var m' := Exec(ord, m, Body(FrameCalls(args)) + Body(Prologue(params)));
            && m'.Some? && m'.value.stack == m.stack && m'.value.gf == m.gf && m'.value.calls == m.calls
            && |m'.value.lf| == |m.lf| + 1 && m'.value.lf[..|m.lf|] == m.lf
            && forall i :: 0 <= i < |params| ==> Read(m'.value, ParamVar(params[i])) == ReadSource(m, args[i])
  {
    hide Exec, Body, ArgFrame, ParamFrame;
    var f := ArgFrame(m, args);
    var m1 := m.(tf := Some(f));
    ArgumentsRun(ord, m, args);
    ArgFrameAt(m, args);
    ArgFrameKeys(m, args);
    PrologueRuns(ord, m1, f, params);
    ExecConcat(ord, m, Body(FrameCalls(args)), Body(Prologue(params)));
    ParamFrameAt(f, params);
  }

  lemma {:induction false} ArgFrameKeys(m: State, args: seq<Source>)
    ensures forall p: Param :: p in ArgFrame(m, args) ==> p.0 == "??"
    decreases |args|
  {
    if args != [] {
      ArgFrameKeys(m, args[..|args| - 1]);
    }
  }

  // ----- calls in loops -----

  /** Apart from declarations, the arguments' code starts with the frame and the first slot. */
  lemma {:induction false} ArgumentOthers(args: seq<Source>) returns (o: seq<Instr>)
    requires args != []
    ensures Instrs(Others(ArgumentCalls(args))) == [CreateFrame, Move(Slot(0), args[0])] + o
    decreases |args|
  {
    hide Body, Instrs, Declarations, Others;
    var n := |args| - 1;
    var d, e := Hoisting.Call.Declare(Slot(n)), Emit(Move(Slot(n), args[n]));
    NoBody();
    if n == 0 {
      assert ArgumentCalls(args) == [] + [Emit(CreateFrame)] + [d] + [e];
      BodyNext([], Emit(CreateFrame));
      BodyNext([] + [Emit(CreateFrame)], d);
      BodyNext([] + [Emit(CreateFrame)] + [d], e);
      o := [];
    } else {
      var rest := ArgumentCalls(args[..n]);
      var part := ArgumentOthers(args[..n]);
      assert ArgumentCalls(args) == rest + [d] + [e];
      BodyNext(rest, d);
      BodyNext(rest + [d], e);
      o := part + [Move(Slot(n), args[n])];
      assert [CreateFrame, Move(Slot(0), args[0])] + part + [] + [Move(Slot(n), args[n])]
          == [CreateFrame, Move(Slot(0), args[0])] + o;
    }
  }

  lemma FreshFrameHasNoSlot(ord: Order, m: State, arg: Source)
    ensures var m' := One(ord, m, CreateFrame);
            m'.Some? && One(ord, m'.value, Move(Slot(0), arg)).None?
  {
  }

  /** A call with arguments inside a loop fails in every state: its slots are declared before the frame that
      replaces them is made. */
  lemma ArgumentsFailInLoops(ord: Order, m: State, args: seq<Source>)
    requires args != []
    ensures Exec(ord, m, HoistedBody(ArgumentCalls(args))).None?
  {
    hide Exec, Instrs, Declarations, Others, One;
    var ds := Instrs(Declarations(ArgumentCalls(args)));
    var o := ArgumentOthers(args);
    var first := Move(Slot(0), args[0]);
    assert HoistedBody(ArgumentCalls(args)) == ds + [CreateFrame] + [first] + o;
    ExecConcat(ord, m, ds + [CreateFrame] + [first], o);
    ExecSnoc(ord, m, ds + [CreateFrame], first);
    ExecSnoc(ord, m, ds, CreateFrame);
    if Exec(ord, m, ds).Some? {
      FreshFrameHasNoSlot(ord, Exec(ord, m, ds).value, args[0]);
    }
  }

  /** Inside a loop the code before a call works exactly when the call has no arguments. */
  lemma LoopCallsExactly(ord: Order, m: State, args: seq<Source>)
    ensures Exec(ord, m, HoistedBody(FrameCalls(args))).Some? <==> args == []
    ensures args == [] ==> Exec(ord, m, HoistedBody(FrameCalls(args))) == Some(m.(tf := Some(map[])))
  {
    hide Exec, Instrs, Declarations, Others, One;
    if args == [] {
      NoBody();
      BodyNext([], Emit(CreateFrame));
      assert FrameCalls(args) == [] + [Emit(CreateFrame)];
      assert HoistedBody(FrameCalls(args)) == [] + [CreateFrame];
      ExecNothing(ord, m);
      ExecSnoc(ord, m, [], CreateFrame);
      CreatesFrame(ord, m);
    } else {
      assert FrameCalls(args) == ArgumentCalls(args);
      ArgumentsFailInLoops(ord, m, args);
    }
  }
}
