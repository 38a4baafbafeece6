/** The part of the IFJcode23 stack machine that compiled expressions and calls use. */
module Machine {
  import opened Tokens

  datatype Value = VInt(i: int) | VDbl(d: Dbl) | VStr(s: string) | VBool(b: bool) | VNil

  datatype FrameName = GF | LF | TF

  /** `frame@name_uid` in the emitted text. */
  datatype VarRef = VarRef(frame: FrameName, name: string, uid: nat)

  /** `$$ELSE_id` and `$$IF_END_id`, which conditions and nil checks share; the labels of loops; `$$FUNCTION_text`. */
  datatype Label =
    | ElseL(id: nat) | IfEndL(id: nat)
    | ForL(id: nat) | ForBodyL(id: nat) | ForEndL(id: nat)
    | FunctionL(text: string)

  predicate IsCondition(l: Label) {
    l.ElseL? || l.IfEndL?
  }

  datatype Instr =
    | Pushs(v: Value)
    | PushVar(x: VarRef)
    | Pops(x: VarRef)
    | DefVar(x: VarRef)
    | CreateFrame | PushFrame | PopFrame
    | Adds | Subs | Muls | Divs | IDivs
    | Lts | Gts | Eqs | Nots
    | Int2Floats
    | Concat(dst: VarRef, a: VarRef, b: VarRef)
    | Lab(l: Label)
    | Jump(l: Label)
    | JumpIfNeqs(l: Label)
    | Move(dst: VarRef, src: Source)
    | Call(name: string)
    | Return
    | Other(text: string)

  /** A constant or a variable. */
  datatype Source = Const(v: Value) | Variable(x: VarRef)

  type Program = seq<Instr>

  /** A frame maps a variable to its value; `None` is a declared but unset variable. */
  type Frame = map<(string, nat), Option<Value>>

  /** `calls` holds the positions that running calls return to. */
  datatype State = State(stack: seq<Value>, gf: Frame, lf: seq<Frame>, tf: Option<Frame>, calls: seq<nat>)

  /** How the target orders doubles and strings and rounds integer quotients; any functions will do. */
  datatype Order = Order(dblLt: (Dbl, Dbl) -> bool, dblEq: (Dbl, Dbl) -> bool, strLt: (string, string) -> bool,
                         quotient: (int, int) -> int)

  function TopFrame(m: State, f: FrameName): Option<Frame> {
    match f
    case GF => Some(m.gf)
    case LF => if |m.lf| == 0 then None else Some(m.lf[|m.lf| - 1])
    case TF => m.tf
  }

  function WithFrame(m: State, f: FrameName, fr: Frame): State
    requires f == LF ==> |m.lf| > 0
  {
    match f
    case GF => m.(gf := fr)
    case LF => m.(lf := m.lf[|m.lf| - 1 := fr])
    case TF => m.(tf := Some(fr))
  }

  function Read(m: State, x: VarRef): Option<Value> {
    var fr := TopFrame(m, x.frame);
    if fr.Some? && (x.name, x.uid) in fr.value then fr.value[(x.name, x.uid)] else None
  }

  function ReadSource(m: State, o: Source): Option<Value> {
    match o
    case Const(v) => Some(v)
    case Variable(x) => Read(m, x)
  }

  /** Writing needs a declared variable. */
  function Write(m: State, x: VarRef, v: Value): Option<State> {
    var fr := TopFrame(m, x.frame);
    if fr.Some? && (x.name, x.uid) in fr.value
    then Some(WithFrame(m, x.frame, fr.value[(x.name, x.uid) := Some(v)]))
    else None
  }

  /** A second declaration of the same variable in the same frame is an error. */
  function Declare(m: State, x: VarRef): Option<State> {
    var fr := TopFrame(m, x.frame);
    if fr.Some? && (x.name, x.uid) !in fr.value
    then Some(WithFrame(m, x.frame, fr.value[(x.name, x.uid) := None]))
    else None
  }

  /** Two-operand stack instructions; `None` is a run-time type error or a zero integer divisor. */
  function Binary(ord: Order, i: Instr, a: Value, b: Value): Option<Value> {
    match (i, a, b)
    case (Adds, VInt(x), VInt(y)) => Some(VInt(x + y))
    case (Adds, VDbl(x), VDbl(y)) => Some(VDbl(DblPlus(x, y)))
    case (Subs, VInt(x), VInt(y)) => Some(VInt(x - y))
    case (Subs, VDbl(x), VDbl(y)) => Some(VDbl(DblMinus(x, y)))
    case (Muls, VInt(x), VInt(y)) => Some(VInt(x * y))
    case (Muls, VDbl(x), VDbl(y)) => Some(VDbl(DblTimes(x, y)))
    case (Divs, VDbl(x), VDbl(y)) => Some(VDbl(DblOver(x, y)))
    case (IDivs, VInt(x), VInt(y)) => if y == 0 then None else Some(VInt(ord.quotient(x, y)))
    case (Lts, _, _) => Less(ord, a, b)
    case (Gts, _, _) => Less(ord, b, a)
    case (Eqs, _, _) => Equal(ord, a, b)
    case _ => None
  }

  /** Ordering needs two values of one type other than nil. */
  function Less(ord: Order, a: Value, b: Value): Option<Value> {
    match (a, b)
    case (VInt(x), VInt(y)) => Some(VBool(x < y))
    case (VDbl(x), VDbl(y)) => Some(VBool(ord.dblLt(x, y)))
    case (VStr(x), VStr(y)) => Some(VBool(ord.strLt(x, y)))
    case (VBool(x), VBool(y)) => Some(VBool(!x && y))
    case _ => None
  }

  /** Equality also compares anything with nil. */
  function Equal(ord: Order, a: Value, b: Value): Option<Value> {
    match (a, b)
    case (VInt(x), VInt(y)) => Some(VBool(x == y))
    case (VDbl(x), VDbl(y)) => Some(VBool(ord.dblEq(x, y)))
    case (VStr(x), VStr(y)) => Some(VBool(x == y))
    case (VBool(x), VBool(y)) => Some(VBool(x == y))
    case (VNil, VNil) => Some(VBool(true))
    case (VNil, _) => Some(VBool(false))
    case (_, VNil) => Some(VBool(false))
    case _ => None
  }

  /** Index of the first definition of `l` at or after `from`, or the program's length. */
  function FindLabel(p: Program, l: Label, from: nat): nat
    requires from <= |p|
    decreases |p| - from
  {
    if from == |p| || p[from] == Lab(l) then from else FindLabel(p, l, from + 1)
  }

  /** `l` is defined in `p` exactly once, at `i`; a loader accepts no other program. */
  ghost predicate UniqueAt(p: Program, l: Label, i: nat) {
    && i < |p| && p[i] == Lab(l)
    && forall j: nat :: j < |p| && p[j] == Lab(l) ==> j == i
  }

  lemma {:induction false} FindLabelUnique(p: Program, l: Label, i: nat, from: nat)
    requires UniqueAt(p, l, i) && from <= i
    ensures FindLabel(p, l, from) == i
    decreases i - from
  {
    if p[from] != Lab(l) {
      FindLabelUnique(p, l, i, from + 1);
    }
  }

  datatype Config = Config(pc: nat, m: State)

  /** One machine step; `None` when the program has ended or the instruction fails, as those outside this machine
      do. */
  function Step(ord: Order, p: Program, c: Config): Option<Config> {
    if c.pc >= |p| then None else
    var m := c.m;
    var n := |m.stack|;
    var next := c.pc + 1;
    match p[c.pc]
    case Pushs(v) => Some(Config(next, m.(stack := m.stack + [v])))
    case PushVar(x) =>
      var v := Read(m, x);
      if v.Some? then Some(Config(next, m.(stack := m.stack + [v.value]))) else None
    case Pops(x) =>
      if n == 0 then None else
      var m' := Write(m.(stack := m.stack[..n - 1]), x, m.stack[n - 1]);
      if m'.Some? then Some(Config(next, m'.value)) else None
    case DefVar(x) =>
      var m' := Declare(m, x);
      if m'.Some? then Some(Config(next, m'.value)) else None
    case CreateFrame => Some(Config(next, m.(tf := Some(map[]))))
    case PushFrame =>
      if m.tf.Some? then Some(Config(next, m.(lf := m.lf + [m.tf.value], tf := None))) else None
    case PopFrame =>
      if |m.lf| == 0 then None
      else Some(Config(next, m.(lf := m.lf[..|m.lf| - 1], tf := Some(m.lf[|m.lf| - 1]))))
    case Nots =>
      if n > 0 && m.stack[n - 1].VBool?
      then Some(Config(next, m.(stack := m.stack[..n - 1] + [VBool(!m.stack[n - 1].b)]))) else None
    case Int2Floats =>
      if n > 0 && m.stack[n - 1].VInt?
      then Some(Config(next, m.(stack := m.stack[..n - 1] + [VDbl(OfInt(m.stack[n - 1].i))]))) else None
    case Concat(d, a, b) =>
      var x, y := Read(m, a), Read(m, b);
      if x.Some? && y.Some? && x.value.VStr? && y.value.VStr? then
        var m' := Write(m, d, VStr(x.value.s + y.value.s));
        if m'.Some? then Some(Config(next, m'.value)) else None
      else None
    case Move(d, o) =>
      var v := ReadSource(m, o);
      if v.None? then None else
      var m' := Write(m, d, v.value);
      if m'.Some? then Some(Config(next, m'.value)) else None
    case Call(name) =>
      var t := FindLabel(p, FunctionL(name), 0);
      if t < |p| then Some(Config(t, m.(calls := m.calls + [next]))) else None
    case Return =>
      var d := |m.calls|;
      if d > 0 then Some(Config(m.calls[d - 1], m.(calls := m.calls[..d - 1]))) else None
    case Other(_) => None
    case Lab(_) => Some(Config(next, m))
    case Jump(l) =>
      var t := FindLabel(p, l, 0);
      if t < |p| then Some(Config(t, m)) else None
    case JumpIfNeqs(l) =>
      if n < 2 then None else
      var eq := Equal(ord, m.stack[n - 2], m.stack[n - 1]);
      var m' := m.(stack := m.stack[..n - 2]);
      var t := FindLabel(p, l, 0);
      if eq.None? || t >= |p| then None
      else Some(Config(if eq.value == VBool(true) then next else t, m'))
    case i =>
      if n < 2 then None else
      var v := Binary(ord, i, m.stack[n - 2], m.stack[n - 1]);
      if v.Some? then Some(Config(next, m.(stack := m.stack[..n - 2] + [v.value]))) else None
  }

  /** `n` steps; `None` as soon as one of them fails. */
  function Steps(ord: Order, p: Program, c: Config, n: nat): Option<Config>
    decreases n
  {
    if n == 0 then Some(c) else
    var c' := Step(ord, p, c);
    if c'.Some? then Steps(ord, p, c'.value, n - 1) else None
  }

  ghost predicate Reaches(ord: Order, p: Program, c: Config, c': Config) {
    exists n: nat :: Steps(ord, p, c, n) == Some(c')
  }

  lemma {:induction false} StepsCompose(ord: Order, p: Program, c: Config, n: nat, k: nat)
    requires Steps(ord, p, c, n).Some?
    ensures Steps(ord, p, c, n + k) == Steps(ord, p, Steps(ord, p, c, n).value, k)
    decreases n
  {
    hide Step;
    if n > 0 {
      StepsNext(ord, p, c, n);
      StepsNext(ord, p, c, n + k);
      StepsCompose(ord, p, Step(ord, p, c).value, n - 1, k);
    }
  }

  lemma StepsNext(ord: Order, p: Program, c: Config, n: nat)
    requires n > 0
    ensures Steps(ord, p, c, n) == (var c' := Step(ord, p, c); if c'.Some? then Steps(ord, p, c'.value, n - 1) else None)
  {
    hide Step;
  }

  lemma ReachesTrans(ord: Order, p: Program, a: Config, b: Config, c: Config)
    requires Reaches(ord, p, a, b) && Reaches(ord, p, b, c)
    ensures Reaches(ord, p, a, c)
  {
    var n: nat :| Steps(ord, p, a, n) == Some(b);
    var k: nat :| Steps(ord, p, b, k) == Some(c);
    StepsCompose(ord, p, a, n, k);
    assert Steps(ord, p, a, n + k) == Some(c);
  }

  lemma ReachesStep(ord: Order, p: Program, a: Config, b: Config, c: Config)
    requires Reaches(ord, p, a, b) && Step(ord, p, b) == Some(c)
    ensures Reaches(ord, p, a, c)
  {
    assert Steps(ord, p, b, 1) == Some(c) by {
      assert Steps(ord, p, c, 0) == Some(c);
    }
    ReachesTrans(ord, p, a, b, c);
  }

  lemma ReachesRefl(ord: Order, p: Program, a: Config)
    ensures Reaches(ord, p, a, a)
  {
    assert Steps(ord, p, a, 0) == Some(a);
  }
}
