/** Calls on the machine: into the function, through its prologue, and back. */
module CallRuns {
  import opened Tokens
  import opened Machine
  import opened Execution
  import opened StraightLine
  import opened Calls
  import opened Labels

  /** The code of a call, from its first argument's. */
  function CallCode(name: string, args: seq<Source>): Program {
    Body(FrameCalls(args)) + [Instr.Call(name)]
  }

  /** The function's label stands at `at`, and its prologue follows; nothing else has that label. */
  ghost predicate FunctionAt(p: Program, at: nat, name: string, params: seq<Param>) {
    UniqueAt(p, FunctionL(name), at) && CodeAt(p, at + 1, Body(Prologue(params)))
  }

  function AfterPrologue(at: nat, params: seq<Param>): nat {
    at + 1 + |Body(Prologue(params))|
  }

  /** The parameters hold the arguments, in a new local frame, and the return address is noted. */
  predicate Entered(m: State, m': State, back: nat, args: seq<Source>, params: seq<Param>)
    requires |args| == |params|
  {
    && m'.stack == m.stack && m'.gf == m.gf && m'.calls == m.calls + [back]
    && |m'.lf| == |m.lf| + 1 && m'.lf[..|m.lf|] == m.lf
    && forall i :: 0 <= i < |params| ==> Read(m', ParamVar(params[i])) == ReadSource(m, args[i])
  }

  lemma CallSteps(ord: Order, p: Program, k: nat, m: State, name: string, at: nat)
    requires k < |p| && p[k] == Instr.Call(name) && UniqueAt(p, FunctionL(name), at)
    ensures Machine.Step(ord, p, Config(k, m)) == Some(Config(at, m.(calls := m.calls + [k + 1])))
  {
    FindLabelUnique(p, FunctionL(name), at, 0);
  }

  lemma LabelSteps(ord: Order, p: Program, m: State, l: Label, at: nat)
    requires at < |p| && p[at] == Lab(l)
    ensures Machine.Step(ord, p, Config(at, m)) == Some(Config(at + 1, m))
  {
  }

  /** Noting a return address changes nothing that straight code sees. */
  lemma OneUnderCall(ord: Order, m: State, i: Instr, calls: seq<nat>)
    ensures One(ord, m.(calls := calls), i) ==
      if One(ord, m, i).Some? then Some(One(ord, m, i).value.(calls := calls)) else None
  {
    hide Binary;
  }

  lemma {:induction false} ExecUnderCall(ord: Order, m: State, code: seq<Instr>, calls: seq<nat>)
    ensures Exec(ord, m.(calls := calls), code) ==
      if Exec(ord, m, code).Some? then Some(Exec(ord, m, code).value.(calls := calls)) else None
    decreases |code|
  {
    hide One;
    if code != [] {
      var rest := code[..|code| - 1];
      ExecUnderCall(ord, m, rest, calls);
      if Exec(ord, m, rest).Some? {
        OneUnderCall(ord, Exec(ord, m, rest).value, code[|code| - 1], calls);
      }
    }
  }

  /** The calling convention on the machine: the call's code leads behind the callee's prologue, with every argument in
      its parameter. */
  lemma CallEnters(ord: Order, p: Program, k: nat, at: nat, m: State, name: string, args: seq<Source>, params: seq<Param>)
    returns (m': State)
    requires CodeAt(p, k, CallCode(name, args)) && FunctionAt(p, at, name, params)
    requires |args| == |params| && Distinct(params) && forall i :: 0 <= i < |args| ==> Readable(m, args[i])
    ensures Reaches(ord, p, Config(k, m), Config(AfterPrologue(at, params), m'))
    ensures Entered(m, m', k + |CallCode(name, args)|, args, params)
  {
    hide Exec, Body, Reaches, CodeAt, UniqueAt, One, Readable, Distinct, Prologue, FrameCalls;
    var a, b := Body(FrameCalls(args)), Body(Prologue(params));
    ArgumentsArrive(ord, m, args, params);
    ExecConcat(ord, m, a, b);
    var m1 := Exec(ord, m, a).value;
    ArgumentsRun(ord, m, args);
    CodeParts(p, k, a, [Instr.Call(name)]);
    Nth(p, k + |a|, [Instr.Call(name)], 0);
    ExecReaches(ord, p, k, m, a);
    var back := k + |a| + 1;
    var calls := m.calls + [back];
    var m2 := m1.(calls := calls);
    CallSteps(ord, p, k + |a|, m1, name, at);
    LabelThere(p, FunctionL(name), at);
    LabelSteps(ord, p, m2, FunctionL(name), at);
    ExecUnderCall(ord, m1, b, calls);
    ExecReaches(ord, p, at + 1, m2, b);
    m' := Exec(ord, m2, b).value;
    ReachesStep(ord, p, Config(k, m), Config(k + |a|, m1), Config(at, m2));
    ReachesStep(ord, p, Config(k, m), Config(at, m2), Config(at + 1, m2));
    ReachesTrans(ord, p, Config(k, m), Config(at + 1, m2), Config(AfterPrologue(at, params), m'));
    ReadUnderCall(Exec(ord, m, a + b).value, calls);
  }

  lemma LabelThere(p: Program, l: Label, at: nat)
    requires UniqueAt(p, l, at)
    ensures at < |p| && p[at] == Lab(l)
  {
  }

  lemma ReadUnderCall(m: State, calls: seq<nat>)
    ensures forall x :: Read(m.(calls := calls), x) == Read(m, x)
  {
  }

  /** The end of a function, or a `return`: its frame becomes the temporary one, and the caller goes on. */
  lemma LeavesFunction(ord: Order, p: Program, e: nat, m: State, back: nat)
    requires CodeAt(p, e, [PopFrame, Return]) && m.lf != [] && m.calls != [] && m.calls[|m.calls| - 1] == back
    ensures var m' := m.(lf := m.lf[..|m.lf| - 1], tf := Some(m.lf[|m.lf| - 1]), calls := m.calls[..|m.calls| - 1]);
            Reaches(ord, p, Config(e, m), Config(back, m'))
  {
    hide Reaches;
    Nth(p, e, [PopFrame, Return], 0);
    Nth(p, e, [PopFrame, Return], 1);
    var m1 := m.(lf := m.lf[..|m.lf| - 1], tf := Some(m.lf[|m.lf| - 1]));
    var m2 := m1.(calls := m.calls[..|m.calls| - 1]);
    ReachesRefl(ord, p, Config(e, m));
    ReachesStep(ord, p, Config(e, m), Config(e, m), Config(e + 1, m1));
    ReachesStep(ord, p, Config(e, m), Config(e + 1, m1), Config(back, m2));
  }

  /** A whole call: where the callee's body runs from its prologue to a way out and leaves the frames below its own and
      the return addresses alone, the call runs to the instruction behind it, in the caller's frames. */
  lemma CallReturns(ord: Order, p: Program, k: nat, at: nat, m: State, name: string, args: seq<Source>, params: seq<Param>,
                    m1: State, e: nat, m2: State)
    requires CodeAt(p, k, CallCode(name, args)) && CodeAt(p, e, [PopFrame, Return]) && |args| == |params|
    requires Reaches(ord, p, Config(k, m), Config(AfterPrologue(at, params), m1))
    requires Entered(m, m1, k + |CallCode(name, args)|, args, params)
    requires Reaches(ord, p, Config(AfterPrologue(at, params), m1), Config(e, m2))
    requires |m2.lf| == |m1.lf| && m2.lf[..|m.lf|] == m.lf && m2.calls == m1.calls
    ensures var m' := m2.(lf := m.lf, tf := Some(m2.lf[|m.lf|]), calls := m.calls);
            Reaches(ord, p, Config(k, m), Config(k + |CallCode(name, args)|, m'))
  {
    hide Reaches, CodeAt, CallCode, Read;
    var back := k + |CallCode(name, args)|;
    LeavesFunction(ord, p, e, m2, back);
    assert m2.calls[..|m2.calls| - 1] == m.calls;
    ReachesTrans(ord, p, Config(k, m), Config(AfterPrologue(at, params), m1), Config(e, m2));
    ReachesTrans(ord, p, Config(k, m), Config(e, m2),
                 Config(back, m2.(lf := m.lf, tf := Some(m2.lf[|m.lf|]), calls := m.calls)));
  }
}
