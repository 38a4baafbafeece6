/** Statements as the machine executes them: the labels and jumps of `while` and `if` do what these mean, whatever
    conditions and blocks they hold; definitions, assignments and `if let` move the values that they are about. */
module StatementRuns {
  import opened Tokens
  import opened Machine
  import opened Execution
  import opened Labels
  import opened StraightLine
  import opened Scopes
  import opened Symbols
  import opened CodeGen
  import Hoisting
  import opened Shadowing

  function LoopCode(id: nat, test: Program, body: Program): Program {
    LoopHead(id) + test + LoopTest(id) + body + LoopTail(id)
  }

  /** What follows a condition. */
  function IfCode(id: nat, yes: Program, no: Program): Program {
    IfHead(id) + yes + IfElse(id) + no + IfEnd(id)
  }

  function Push(m: State, b: bool): State {
    m.(stack := m.stack + [VBool(b)])
  }

  lemma PartsAt(p: Program, k: nat, a: Program, b: Program, c: Program, d: Program, e: Program)
    requires CodeAt(p, k, a + b + c + d + e)
    ensures CodeAt(p, k, a) && CodeAt(p, k + |a|, b) && CodeAt(p, k + |a| + |b|, c)
    ensures CodeAt(p, k + |a| + |b| + |c|, d) && CodeAt(p, k + |a| + |b| + |c| + |d|, e)
  {
    hide CodeAt;
    CodeParts(p, k, a + b + c + d, e);
    CodeParts(p, k, a + b + c, d);
    CodeParts(p, k, a + b, c);
    CodeParts(p, k, a, b);
  }

  lemma LabelFound(p: Program, k: nat, n: nat, j: nat, l: Label)
    requires OwnLabels(p, k, n) && k <= j < k + n && j < |p| && p[j] == Lab(l)
    ensures FindLabel(p, l, 0) == j
  {
    FindLabelUnique(p, l, j, 0);
  }

  // ----- `while` -----

  /** The loop stands at `k`, with labels of its own. */
  ghost predicate LoopAt(p: Program, k: nat, id: nat, test: Program, body: Program) {
    CodeAt(p, k, LoopCode(id, test, body)) && OwnLabels(p, k, |LoopCode(id, test, body)|)
  }

  lemma LoopShape(p: Program, k: nat, id: nat, test: Program, body: Program)
    requires LoopAt(p, k, id, test, body)
    ensures var t := k + 1 + |test|; var b := t + 4 + |body|;
            && |LoopCode(id, test, body)| == |test| + |body| + 7 && b + 2 <= |p|
            && p[k] == Lab(ForL(id)) && p[t] == Pushs(VBool(true)) && p[t + 1] == JumpIfNeqs(ForEndL(id))
            && p[t + 2] == Jump(ForBodyL(id)) && p[t + 3] == Lab(ForBodyL(id))
            && p[b] == Jump(ForL(id)) && p[b + 1] == Lab(ForEndL(id))
  {
    hide OwnLabels;
    PartsAt(p, k, LoopHead(id), test, LoopTest(id), body, LoopTail(id));
    var t := k + 1 + |test|;
    var b := t + 4 + |body|;
    assert |LoopTest(id)| == 4;
    Nth(p, k, LoopHead(id), 0);
    Nth(p, t, LoopTest(id), 0);
    Nth(p, t, LoopTest(id), 1);
    Nth(p, t, LoopTest(id), 2);
    Nth(p, t, LoopTest(id), 3);
    Nth(p, b, LoopTail(id), 0);
    Nth(p, b, LoopTail(id), 1);
  }

  lemma LoopLabels(p: Program, k: nat, id: nat, test: Program, body: Program)
    requires LoopAt(p, k, id, test, body)
    ensures var b := k + 1 + |test| + 4;
            && FindLabel(p, ForL(id), 0) == k && FindLabel(p, ForBodyL(id), 0) == b - 1
            && FindLabel(p, ForEndL(id), 0) == b + |body| + 1
  {
    hide CodeAt, FindLabel, LoopCode;
    LoopShape(p, k, id, test, body);
    var n, b := |LoopCode(id, test, body)|, k + 1 + |test| + 4;
    LabelFound(p, k, n, k, ForL(id));
    LabelFound(p, k, n, b - 1, ForBodyL(id));
    LabelFound(p, k, n, b + |body| + 1, ForEndL(id));
  }

  lemma OneStep(ord: Order, p: Program, a: Config, b: Config)
    requires Machine.Step(ord, p, a) == Some(b)
    ensures Reaches(ord, p, a, b)
  {
    hide Machine.Step;
    ReachesRefl(ord, p, a);
    ReachesStep(ord, p, a, a, b);
  }

  lemma TestPushed(ord: Order, p: Program, k: nat, m: State)
    requires k < |p| && p[k] == Pushs(VBool(true))
    ensures Machine.Step(ord, p, Config(k, m)) == Some(Config(k + 1, Push(m, true)))
  {
  }

  lemma TestMet(ord: Order, p: Program, k: nat, m: State, b: bool, l: Label)
    requires k < |p| && p[k] == JumpIfNeqs(l) && FindLabel(p, l, 0) < |p|
    ensures Machine.Step(ord, p, Config(k, Push(Push(m, b), true))) == Some(Config(if b then k + 1 else FindLabel(p, l, 0), m))
  {
    assert Push(Push(m, b), true).stack[..|m.stack|] == m.stack;
  }

  lemma TestStep(ord: Order, p: Program, k: nat, m: State, b: bool, l: Label)
    requires k + 1 < |p| && p[k] == Pushs(VBool(true)) && p[k + 1] == JumpIfNeqs(l) && FindLabel(p, l, 0) < |p|
    ensures Reaches(ord, p, Config(k, Push(m, b)), Config(if b then k + 2 else FindLabel(p, l, 0), m))
  {
    hide Machine.Step, Reaches, Push;
    var c0, c1 := Config(k, Push(m, b)), Config(k + 1, Push(Push(m, b), true));
    var c2 := Config(if b then k + 2 else FindLabel(p, l, 0), m);
    TestPushed(ord, p, k, Push(m, b));
    TestMet(ord, p, k + 1, m, b, l);
    OneStep(ord, p, c0, c1);
    OneStep(ord, p, c1, c2);
    ReachesTrans(ord, p, c0, c1, c2);
  }

  /** The condition, run from the state `m`, leaves `b` on top of `m1`. */
  ghost predicate Tests(ord: Order, p: Program, k: nat, test: Program, m: State, b: bool, m1: State) {
    Reaches(ord, p, Config(k + 1, m), Config(k + 1 + |test|, Push(m1, b)))
  }

  /** A false condition ends the loop. */
  lemma LoopStops(ord: Order, p: Program, k: nat, id: nat, test: Program, body: Program, m: State, m1: State)
    requires LoopAt(p, k, id, test, body) && Tests(ord, p, k, test, m, false, m1)
    ensures Reaches(ord, p, Config(k, m), Config(k + |LoopCode(id, test, body)|, m1))
  {
    hide LoopCode, LoopAt, Reaches;
    LoopShape(p, k, id, test, body);
    LoopLabels(p, k, id, test, body);
    var t := k + 1 + |test|;
    var end := t + 4 + |body| + 1;
    OneStep(ord, p, Config(k, m), Config(k + 1, m));
    TestStep(ord, p, t, m1, false, ForEndL(id));
    OneStep(ord, p, Config(end, m1), Config(end + 1, m1));
    ReachesTrans(ord, p, Config(k, m), Config(k + 1, m), Config(t, Push(m1, false)));
    ReachesTrans(ord, p, Config(k, m), Config(t, Push(m1, false)), Config(end, m1));
    ReachesTrans(ord, p, Config(k, m), Config(end, m1), Config(end + 1, m1));
  }

  /** One round: the condition is true and the body takes the state after it to `m2`. */
  ghost predicate Round(ord: Order, p: Program, k: nat, test: Program, body: Program, m: State, m2: State) {
    exists m1 :: RoundVia(ord, p, k, test, body, m, m1, m2)
  }

  ghost predicate RoundVia(ord: Order, p: Program, k: nat, test: Program, body: Program, m: State, m1: State, m2: State) {
    var b := k + 1 + |test| + 4;
    Tests(ord, p, k, test, m, true, m1) && Reaches(ord, p, Config(b, m1), Config(b + |body|, m2))
  }

  /** A round comes back to the loop's label. */
  lemma RoundReturns(ord: Order, p: Program, k: nat, id: nat, test: Program, body: Program, m: State, m2: State)
    requires LoopAt(p, k, id, test, body) && Round(ord, p, k, test, body, m, m2)
    ensures Reaches(ord, p, Config(k, m), Config(k, m2))
  {
    hide LoopCode, LoopAt, Reaches;
    var m1 :| RoundVia(ord, p, k, test, body, m, m1, m2);
    LoopShape(p, k, id, test, body);
    LoopLabels(p, k, id, test, body);
    var t := k + 1 + |test|;
    var b := t + 4;
    var e := b + |body|;
    OneStep(ord, p, Config(k, m), Config(k + 1, m));
    TestStep(ord, p, t, m1, true, ForEndL(id));
    OneStep(ord, p, Config(t + 2, m1), Config(t + 3, m1));
    OneStep(ord, p, Config(t + 3, m1), Config(b, m1));
    OneStep(ord, p, Config(e, m2), Config(k, m2));
    ReachesTrans(ord, p, Config(k, m), Config(k + 1, m), Config(t, Push(m1, true)));
    ReachesTrans(ord, p, Config(k, m), Config(t, Push(m1, true)), Config(t + 2, m1));
    ReachesTrans(ord, p, Config(k, m), Config(t + 2, m1), Config(t + 3, m1));
    ReachesTrans(ord, p, Config(k, m), Config(t + 3, m1), Config(b, m1));
    ReachesTrans(ord, p, Config(k, m), Config(b, m1), Config(e, m2));
    ReachesTrans(ord, p, Config(k, m), Config(e, m2), Config(k, m2));
  }

  /** `while`: for any number of rounds, each from the state that the one before it has left, and a false condition
      after the last, the loop runs to its end and leaves the state after that condition. */
  lemma {:induction false} WhileRuns(ord: Order, p: Program, k: nat, id: nat, test: Program, body: Program,
                                     states: seq<State>, m': State)
    requires LoopAt(p, k, id, test, body) && states != []
    requires forall i :: 0 <= i < |states| - 1 ==> Round(ord, p, k, test, body, states[i], states[i + 1])
    requires Tests(ord, p, k, test, states[|states| - 1], false, m')
    ensures Reaches(ord, p, Config(k, states[0]), Config(k + |LoopCode(id, test, body)|, m'))
    decreases |states|
  {
    hide LoopCode, LoopAt, Reaches, Round, Tests;
    if |states| == 1 {
      LoopStops(ord, p, k, id, test, body, states[0], m');
    } else {
      var rest := states[1..];
      forall i | 0 <= i < |rest| - 1
        ensures Round(ord, p, k, test, body, rest[i], rest[i + 1])
      {
        assert rest[i] == states[i + 1] && rest[i + 1] == states[i + 2];
      }
      WhileRuns(ord, p, k, id, test, body, rest, m');
      RoundReturns(ord, p, k, id, test, body, states[0], states[1]);
      ReachesTrans(ord, p, Config(k, states[0]), Config(k, states[1]), Config(k + |LoopCode(id, test, body)|, m'));
    }
  }

  // ----- `if` -----

  ghost predicate IfAt(p: Program, k: nat, id: nat, yes: Program, no: Program) {
    CodeAt(p, k, IfCode(id, yes, no)) && OwnLabels(p, k, |IfCode(id, yes, no)|)
  }

  lemma IfShape(p: Program, k: nat, id: nat, yes: Program, no: Program)
    requires IfAt(p, k, id, yes, no)
    ensures var y := k + 2 + |yes|; var n := y + 2 + |no|;
            && |IfCode(id, yes, no)| == |yes| + |no| + 5 && n < |p|
            && p[k] == Pushs(VBool(true)) && p[k + 1] == JumpIfNeqs(ElseL(id))
            && p[y] == Jump(IfEndL(id)) && p[y + 1] == Lab(ElseL(id)) && p[n] == Lab(IfEndL(id))
            && FindLabel(p, ElseL(id), 0) == y + 1 && FindLabel(p, IfEndL(id), 0) == n
  {
    hide OwnLabels;
    PartsAt(p, k, IfHead(id), yes, IfElse(id), no, IfEnd(id));
    var len, y := |IfCode(id, yes, no)|, k + 2 + |yes|;
    var n := y + 2 + |no|;
    Nth(p, k, IfHead(id), 0);
    Nth(p, k, IfHead(id), 1);
    Nth(p, y, IfElse(id), 0);
    Nth(p, y, IfElse(id), 1);
    Nth(p, n, IfEnd(id), 0);
    LabelFound(p, k, len, y + 1, ElseL(id));
    LabelFound(p, k, len, n, IfEndL(id));
  }

  /** `if`: after its condition the block that the condition chooses runs, and nothing of the other. */
  lemma IfRuns(ord: Order, p: Program, k: nat, id: nat, yes: Program, no: Program, m: State, b: bool, m': State)
    requires IfAt(p, k, id, yes, no)
    requires var start := if b then k + 2 else k + 2 + |yes| + 2;
             Reaches(ord, p, Config(start, m), Config(start + |if b then yes else no|, m'))
    ensures Reaches(ord, p, Config(k, Push(m, b)), Config(k + |IfCode(id, yes, no)|, m'))
  {
    hide IfCode, IfAt, Reaches;
    IfShape(p, k, id, yes, no);
    var y := k + 2 + |yes|;
    var n := y + 2 + |no|;
    var c0 := Config(k, Push(m, b));
    TestStep(ord, p, k, m, b, ElseL(id));
    OneStep(ord, p, Config(n, m'), Config(n + 1, m'));
    if b {
      OneStep(ord, p, Config(y, m'), Config(n, m'));
      ReachesTrans(ord, p, c0, Config(k + 2, m), Config(y, m'));
      ReachesTrans(ord, p, c0, Config(y, m'), Config(n, m'));
    } else {
      OneStep(ord, p, Config(y + 1, m), Config(y + 2, m));
      ReachesTrans(ord, p, c0, Config(y + 1, m), Config(y + 2, m));
      ReachesTrans(ord, p, c0, Config(y + 2, m), Config(n, m'));
    }
    ReachesTrans(ord, p, c0, Config(n, m'), Config(n + 1, m'));
  }

  // ----- definitions and assignments -----

  /** Everything but `x` has its value. */
  ghost predicate OthersKept(m: State, x: VarRef, m': State) {
    m'.calls == m.calls && forall y :: y != x ==> Read(m', y) == Read(m, y)
  }

  /** `m'` is `m` with the value on top of its stack moved into `x`. */
  ghost predicate Moved(m: State, s: seq<Value>, v: Value, x: VarRef, m': State) {
    m.stack == s + [v] && m'.stack == s && Read(m', x) == Some(v) && OthersKept(m, x, m')
  }

  lemma WriteReads(m: State, x: VarRef, v: Value)
    requires Write(m, x, v).Some?
    ensures var m' := Write(m, x, v).value; Read(m', x) == Some(v) && m'.stack == m.stack && OthersKept(m, x, m')
  {
  }

  lemma DeclareReads(m: State, x: VarRef)
    requires Machine.Declare(m, x).Some?
    ensures var m' := Machine.Declare(m, x).value; Declared(m', x) && m'.stack == m.stack && OthersKept(m, x, m')
  {
  }

  lemma PopMoves(ord: Order, p: Program, k: nat, m: State, s: seq<Value>, v: Value, x: VarRef) returns (m': State)
    requires k < |p| && p[k] == Pops(x) && m.stack == s + [v] && Declared(m, x)
    ensures Machine.Step(ord, p, Config(k, m)) == Some(Config(k + 1, m')) && Moved(m, s, v, x, m')
  {
    var n := |m.stack| - 1;
    assert m.stack[..n] == s && m.stack[n] == v;
    m' := Write(m.(stack := s), x, v).value;
    WriteReads(m.(stack := s), x, v);
    assert forall y :: Read(m.(stack := s), y) == Read(m, y);
  }

  /** The code of an expression, and what stores its value. */
  function AssignCode(code: Program, x: VarRef, stores: bool): Program {
    code + if stores then [Pops(x)] else []
  }

  /** An assignment whose expression has the value `v` gives it to its variable, and takes it off the stack, exactly where
      it has been told to store it. */
  lemma AssignRuns(ord: Order, p: Program, k: nat, m: State, code: Program, x: VarRef, stores: bool, v: Value, m1: State)
    returns (m2: State)
    requires CodeAt(p, k, AssignCode(code, x, stores)) && Declared(m1, x) && m1.stack == m.stack + [v]
    requires Reaches(ord, p, Config(k, m), Config(k + |code|, m1))
    ensures Reaches(ord, p, Config(k, m), Config(k + |AssignCode(code, x, stores)|, m2)) && OthersKept(m1, x, m2)
    ensures (m2.stack == m.stack <==> stores) && (Read(m2, x) == Some(v) <==> stores || Read(m1, x) == Some(v))
  {
    hide Reaches, Machine.Step, CodeAt, Declared, Read;
    if stores {
      CodeParts(p, k, code, [Pops(x)]);
      Nth(p, k + |code|, [Pops(x)], 0);
      m2 := PopMoves(ord, p, k + |code|, m1, m.stack, v, x);
      ReachesStep(ord, p, Config(k, m), Config(k + |code|, m1), Config(k + |code| + 1, m2));
    } else {
      m2 := m1;
    }
  }

  /** The checker accepts nil for a variable that can be nil and writes nothing that stores it: the variable keeps what it
      held, and the nil stays on the stack. */
  lemma NilAssignmentLost(ord: Order, p: Program, k: nat, m: State, it: Item, x: VarRef)
    requires it.nilable && it.ty != NilType && CodeAt(p, k, AssignCode([Pushs(VNil)], x, it.ty == NilType))
    ensures Received(Assign, it, NilType, false).Some?
    ensures var m' := m.(stack := m.stack + [VNil]);
            && Reaches(ord, p, Config(k, m), Config(k + |AssignCode([Pushs(VNil)], x, it.ty == NilType)|, m'))
            && Read(m', x) == Read(m, x)
  {
    hide Reaches;
    Nth(p, k, AssignCode([Pushs(VNil)], x, it.ty == NilType), 0);
    OneStep(ord, p, Config(k, m), Config(k + 1, m.(stack := m.stack + [VNil])));
  }

  /** A definition declares its variable and gives it the value on top of the stack. */
  lemma DefineRuns(ord: Order, p: Program, k: nat, m: State, s: seq<Value>, v: Value, x: VarRef) returns (m2: State)
    requires CodeAt(p, k, [DefVar(x), Pops(x)]) && m.stack == s + [v] && Machine.Declare(m, x).Some?
    ensures Reaches(ord, p, Config(k, m), Config(k + 2, m2)) && Moved(m, s, v, x, m2)
  {
    hide Reaches, CodeAt, Machine.Declare, Declared, Read;
    Nth(p, k, [DefVar(x), Pops(x)], 0);
    Nth(p, k, [DefVar(x), Pops(x)], 1);
    var m1 := Machine.Declare(m, x).value;
    DeclareReads(m, x);
    assert Machine.Step(ord, p, Config(k, m)) == Some(Config(k + 1, m1));
    m2 := PopMoves(ord, p, k + 1, m1, s, v, x);
    OneStep(ord, p, Config(k, m), Config(k + 1, m1));
    ReachesStep(ord, p, Config(k, m), Config(k + 1, m1), Config(k + 2, m2));
  }

  /** The test of `if let` and its constant. */
  function LetCode(x: VarRef, y: VarRef): Program {
    [PushVar(x), Pushs(VNil), Eqs, Nots, PushVar(x)] + [DefVar(y), Pops(y)]
  }

  /** It leaves whether the variable is nil, and its value in the constant. */
  lemma LetRuns(ord: Order, p: Program, k: nat, m: State, x: VarRef, y: VarRef, v: Value) returns (m2: State)
    requires CodeAt(p, k, LetCode(x, y)) && Read(m, x) == Some(v) && Machine.Declare(m, y).Some?
    ensures Reaches(ord, p, Config(k, m), Config(k + 7, Push(m2, v != VNil)))
    ensures m2.stack == m.stack && Read(m2, y) == Some(v) && OthersKept(m, y, m2)
  {
    hide CodeAt, Machine.Declare, Read, Reaches, Moved;
    var test := [PushVar(x), Pushs(VNil), Eqs, Nots, PushVar(x)];
    CodeParts(p, k, test, [DefVar(y), Pops(y)]);
    var b, s := VBool(v != VNil), m.stack;
    var m1 := m.(stack := s + [b] + [v]);
    TestPushes(ord, p, k, m, x, v);
    DeclareOnlyVars(m, y, s + [b] + [v]);
    var m3 := DefineRuns(ord, p, k + 5, m1, s + [b], v, y);
    ReachesTrans(ord, p, Config(k, m), Config(k + 5, m1), Config(k + 7, m3));
    m2 := m3.(stack := s);
    ReadStack(m, m1.stack);
    ReadStack(m3, s);
    MovedIs(m1, s + [b], v, y, m3);
  }

  lemma LetTestIs(n: Names, t: Token)
    requires n.tables != [] && t.kind == KIdentifier
    ensures var x := PlacesOf(n)(Text(t)); LetTest(n, t) == [PushVar(x), Pushs(VNil), Eqs, Nots, PushVar(x)]
  {
    hide GenVar;
  }

  lemma DeclareCode(y: VarRef)
    ensures Body(DeclareLines(y)) == [DefVar(y), Pops(y)]
  {
    hide Body;
    var d, e := Hoisting.Call.Declare(y), Hoisting.Emit(Pops(y));
    NoBody();
    BodyNext([], d);
    BodyNext([] + [d], e);
    assert DeclareLines(y) == [] + [d] + [e];
  }

  /** What the rule for conditions writes for `if let` is that code. */
  lemma LetWritten(n: Names, t: Token, y: VarRef)
    requires n.tables != [] && t.kind == KIdentifier
    ensures LetTest(n, t) + Body(DeclareLines(y)) == LetCode(PlacesOf(n)(Text(t)), y)
  {
    hide Body, LetTest, PlacesOf, DeclareLines;
    LetTestIs(n, t);
    DeclareCode(y);
  }

  lemma MovedIs(m: State, s: seq<Value>, v: Value, x: VarRef, m': State)
    requires Moved(m, s, v, x, m')
    ensures m'.stack == s && Read(m', x) == Some(v) && OthersKept(m, x, m')
  {
  }

  lemma ReadStack(m: State, s: seq<Value>)
    ensures forall x :: Read(m.(stack := s), x) == Read(m, x)
  {
  }

  lemma TestPushes(ord: Order, p: Program, k: nat, m: State, x: VarRef, v: Value)
    requires CodeAt(p, k, [PushVar(x), Pushs(VNil), Eqs, Nots, PushVar(x)]) && Read(m, x) == Some(v)
    ensures Reaches(ord, p, Config(k, m), Config(k + 5, m.(stack := m.stack + [VBool(v != VNil)] + [v])))
  {
    hide Read, CodeAt, Reaches;
    var test := [PushVar(x), Pushs(VNil), Eqs, Nots, PushVar(x)];
    Nth(p, k, test, 0);
    Nth(p, k, test, 1);
    Nth(p, k, test, 2);
    Nth(p, k, test, 3);
    Nth(p, k, test, 4);
    var s := m.stack;
    var c0, c1 := Config(k, m), Config(k + 1, m.(stack := s + [v]));
    var c2 := Config(k + 2, m.(stack := s + [v] + [VNil]));
    var c3, c4 := Config(k + 3, m.(stack := s + [VBool(v == VNil)])), Config(k + 4, m.(stack := s + [VBool(v != VNil)]));
    var c5 := Config(k + 5, m.(stack := s + [VBool(v != VNil)] + [v]));
    ReadStack(m, s + [VBool(v != VNil)]);
    EqualsNil(ord, p, k + 2, m, s, v);
    assert (s + [VBool(v == VNil)])[..|s|] == s;
    OneStep(ord, p, c0, c1);
    ReachesStep(ord, p, c0, c1, c2);
    ReachesStep(ord, p, c0, c2, c3);
    ReachesStep(ord, p, c0, c3, c4);
    ReachesStep(ord, p, c0, c4, c5);
  }

  lemma EqualsNil(ord: Order, p: Program, k: nat, m: State, s: seq<Value>, v: Value)
    requires k < |p| && p[k] == Eqs
    ensures Machine.Step(ord, p, Config(k, m.(stack := s + [v] + [VNil]))) ==
            Some(Config(k + 1, m.(stack := s + [VBool(v == VNil)])))
  {
    assert (s + [v] + [VNil])[..|s|] == s;
  }
}
