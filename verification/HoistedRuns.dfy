/** What hoisting does to the meaning of loops as the machine runs them, with their jumps, the temporary frames of their
    expressions, and all their rounds. */
module HoistedRuns {
  import opened Tokens
  import opened Machine
  import opened Execution
  import opened Hoisting
  import opened StraightLine

  /** Declarations of variables, and no calls or returns. */
  predicate Fits(lines: seq<Line>) {
    forall k :: 0 <= k < |lines| ==>
      match lines[k]
      case Decl(x) => x.frame != TF
      case Code(i) => !i.Call? && !i.Return?
  }

  /** The declarations first, then the rest. */
  function Hoist(lines: seq<Line>): Program {
    Instrs(Only(lines, true) + Only(lines, false))
  }

  lemma {:induction false} OnlyIn(lines: seq<Line>, decl: bool)
    ensures forall l :: l in Only(lines, decl) <==> l in lines && l.Decl? == decl
    ensures |Only(lines, true)| + |Only(lines, false)| == |lines|
    decreases |lines|
  {
    if lines != [] {
      OnlyIn(lines[..|lines| - 1], decl);
      assert lines == lines[..|lines| - 1] + [lines[|lines| - 1]];
    }
  }

  // ----- positions -----

  /** Where the hoisted program stands when the other one stands at `pc`. */
  function Pos(k: nat, lines: seq<Line>, pc: nat): nat {
    if k <= pc <= k + |lines| then k + |Only(lines, true)| + |Only(lines[..pc - k], false)| else pc
  }

  lemma Ends(k: nat, lines: seq<Line>)
    ensures Pos(k, lines, k) == k + |Only(lines, true)| && Pos(k, lines, k + |lines|) == k + |lines|
  {
    assert lines[..0] == [] && lines[..|lines|] == lines;
    OnlyIn(lines, true);
  }

  lemma PosNext(a: Program, lines: seq<Line>, z: Program, pc: nat)
    requires |a| <= pc < |a| + |lines|
    ensures var l := lines[pc - |a|]; var q := Pos(|a|, lines, pc); var h := a + Hoist(lines) + z;
            && (a + Instrs(lines) + z)[pc] == InstrOf(l)
            && Pos(|a|, lines, pc + 1) == q + (if l.Decl? then 0 else 1)
            && (!l.Decl? ==> q < |h| && h[q] == InstrOf(l))
  {
    hide Only;
    var j, l := pc - |a|, lines[pc - |a|];
    var d := Only(lines, true);
    assert lines[..j + 1] == lines[..j] + [l] && lines == lines[..j] + [l] + lines[j + 1..];
    OnlyConcat(lines[..j], [l], false);
    OnlyConcat(lines[..j] + [l], lines[j + 1..], false);
    OnlyOne(l);
    if !l.Decl? {
      var n := |Only(lines[..j], false)|;
      assert Only(lines, false)[n] == l;
      assert (d + Only(lines, false))[|d| + n] == l;
    }
  }

  lemma OnlyOne(l: Line)
    ensures Only([l], false) == if l.Decl? then [] else [l]
  {
    assert [l][..0] == [];
  }

  /** What stands before the place of `t`. */
  lemma PosPrefix(a: Program, lines: seq<Line>, z: Program, t: nat)
    requires t < |a + Instrs(lines) + z|
    ensures var h := a + Hoist(lines) + z; var q := Pos(|a|, lines, t);
            && q <= |h|
            && h[..q] == if t < |a| then a[..t]
                         else if t <= |a| + |lines| then a + Instrs(Only(lines, true) + Only(lines[..t - |a|], false))
                         else a + Hoist(lines) + z[..t - |a| - |lines|]
  {
    hide Only;
    OnlyIn(lines, true);
    if |a| <= t <= |a| + |lines| {
      OnlyConcat(lines[..t - |a|], lines[t - |a|..], false);
      assert lines[..t - |a|] + lines[t - |a|..] == lines;
    }
  }

  lemma SourcePrefix(a: Program, lines: seq<Line>, z: Program, t: nat)
    requires t < |a + Instrs(lines) + z|
    ensures (a + Instrs(lines) + z)[..t] == if t < |a| then a[..t]
                                            else if t <= |a| + |lines| then a + Instrs(lines[..t - |a|])
                                            else a + Instrs(lines) + z[..t - |a| - |lines|]
  {
  }

  lemma LabelHoisted(lines: seq<Line>, part: seq<Line>, l: Label)
    requires Lab(l) in Instrs(Only(lines, true) + Only(part, false))
    ensures Lab(l) in Instrs(part)
  {
    hide Only;
    OnlyIn(lines, true);
    OnlyIn(part, false);
    var all := Only(lines, true) + Only(part, false);
    var k :| 0 <= k < |all| && Instrs(all)[k] == Lab(l);
    assert all[k] in part;
    var j :| 0 <= j < |part| && part[j] == all[k];
    assert Instrs(part)[j] == Lab(l);
  }

  /** A label before the place of `t` stands before `t`. */
  lemma BeforePos(a: Program, lines: seq<Line>, z: Program, t: nat, l: Label)
    requires t < |a + Instrs(lines) + z| && Pos(|a|, lines, t) <= |a + Hoist(lines) + z|
    requires Lab(l) in (a + Hoist(lines) + z)[..Pos(|a|, lines, t)]
    ensures Lab(l) in (a + Instrs(lines) + z)[..t]
  {
    hide Only, Pos, Instrs;
    PosPrefix(a, lines, z, t);
    SourcePrefix(a, lines, z, t);
    OneByOne(lines);
    if t < |a| {
    } else if t <= |a| + |lines| {
      if Lab(l) !in a {
        LabelHoisted(lines, lines[..t - |a|], l);
      }
    } else if Lab(l) !in a && Lab(l) !in z[..t - |a| - |lines|] {
      LabelHoisted(lines, lines, l);
    }
  }

  lemma AtPos(a: Program, lines: seq<Line>, z: Program, t: nat)
    requires t < |a + Instrs(lines) + z| && (a + Instrs(lines) + z)[t].Lab?
    ensures Pos(|a|, lines, t) < |a + Hoist(lines) + z|
    ensures (a + Hoist(lines) + z)[Pos(|a|, lines, t)] == (a + Instrs(lines) + z)[t]
  {
    OnlyIn(lines, true);
    if |a| <= t < |a| + |lines| {
      PosNext(a, lines, z, t);
    } else {
      Ends(|a|, lines);
    }
  }

  lemma {:induction false} LabelFirst(p: Program, l: Label, t: nat, from: nat)
    requires from <= t < |p| && p[t] == Lab(l) && forall i :: from <= i < t ==> p[i] != Lab(l)
    ensures FindLabel(p, l, from) == t
    decreases t - from
  {
    if from < t {
      LabelFirst(p, l, t, from + 1);
    }
  }

  lemma {:induction false} LabelThere(p: Program, l: Label, from: nat)
    requires from <= |p| && FindLabel(p, l, from) < |p|
    ensures var t := FindLabel(p, l, from);
            from <= t && p[t] == Lab(l) && forall i :: from <= i < t ==> p[i] != Lab(l)
    decreases |p| - from
  {
    if p[from] != Lab(l) {
      LabelThere(p, l, from + 1);
    }
  }

  /** Labels are found at the places of their places. */
  lemma LabelMoves(a: Program, lines: seq<Line>, z: Program, l: Label)
    requires FindLabel(a + Instrs(lines) + z, l, 0) < |a + Instrs(lines) + z|
    ensures FindLabel(a + Hoist(lines) + z, l, 0) == Pos(|a|, lines, FindLabel(a + Instrs(lines) + z, l, 0))
              < |a + Hoist(lines) + z|
  {
    hide Hoist, Pos, Only, Instrs;
    var p, h := a + Instrs(lines) + z, a + Hoist(lines) + z;
    var t := FindLabel(p, l, 0);
    LabelThere(p, l, 0);
    AtPos(a, lines, z, t);
    var q := Pos(|a|, lines, t);
    forall i | 0 <= i < q
      ensures h[i] != Lab(l)
    {
      if h[i] == Lab(l) {
        assert h[..q][i] == Lab(l);
        BeforePos(a, lines, z, t, l);
        assert false;
      }
    }
    LabelFirst(h, l, q, 0);
  }

  // ----- states -----

  type Keys = set<(string, nat)>

  /** The variables of a frame that the lines declare. */
  function Declares(lines: seq<Line>, f: FrameName): Keys {
    set l | l in lines && l.Decl? && l.x.frame == f :: (l.x.name, l.x.uid)
  }

  /** A frame with more variables declared. */
  function Padded(f: Frame, more: Keys): Frame {
    map k | k in f.Keys + more :: if k in f then f[k] else None
  }

  /** A state with more variables declared, in the global frame and in the local frame `d`. */
  function Pad(m: State, d: nat, gs: Keys, ls: Keys): State {
    m.(gf := Padded(m.gf, gs), lf := if 0 < d <= |m.lf| then m.lf[d - 1 := Padded(m.lf[d - 1], ls)] else m.lf)
  }

  lemma TopPadded(m: State, d: nat, gs: Keys, ls: Keys, f: FrameName)
    requires d <= |m.lf|
    ensures var more := if f == GF then gs else if f == LF && |m.lf| == d then ls else {};
            TopFrame(Pad(m, d, gs, ls), f) == if TopFrame(m, f).Some? then Some(Padded(TopFrame(m, f).value, more)) else None
  {
    assert TopFrame(m, f).Some? ==> Padded(TopFrame(m, f).value, {}) == TopFrame(m, f).value;
  }

  lemma WithPadded(m: State, d: nat, gs: Keys, ls: Keys, f: FrameName, g: Frame)
    requires d <= |m.lf| && (f == LF ==> |m.lf| > 0)
    ensures var more := if f == GF then gs else if f == LF && |m.lf| == d then ls else {};
            Pad(WithFrame(m, f, g), d, gs, ls) == WithFrame(Pad(m, d, gs, ls), f, Padded(g, more))
  {
    assert Padded(g, {}) == g;
  }

  lemma PaddedSet(f: Frame, more: Keys, k: (string, nat), v: Option<Value>)
    ensures k in f || v.Some? || k !in more ==> Padded(f[k := v], more) == Padded(f, more)[k := v]
    ensures k in more && k !in f ==> Padded(f[k := None], more) == Padded(f, more)
  {
  }

  lemma ReadPadded(m: State, d: nat, gs: Keys, ls: Keys, x: VarRef)
    requires d <= |m.lf|
    ensures Read(Pad(m, d, gs, ls), x) == Read(m, x)
  {
    hide Pad, TopFrame;
    TopPadded(m, d, gs, ls, x.frame);
  }

  lemma TopThere(m: State, f: FrameName)
    requires TopFrame(m, f).Some?
    ensures f == LF ==> |m.lf| > 0
  {
  }

  lemma WritePadded(m: State, d: nat, gs: Keys, ls: Keys, x: VarRef, v: Value)
    requires d <= |m.lf| && Write(m, x, v).Some?
    ensures Write(Pad(m, d, gs, ls), x, v) == Some(Pad(Write(m, x, v).value, d, gs, ls))
    ensures |Write(m, x, v).value.lf| == |m.lf|
  {
    hide Pad, TopFrame, WithFrame, Padded;
    var k, f := (x.name, x.uid), TopFrame(m, x.frame).value;
    var more := if x.frame == GF then gs else if x.frame == LF && |m.lf| == d then ls else {};
    TopThere(m, x.frame);
    TopPadded(m, d, gs, ls, x.frame);
    WithPadded(m, d, gs, ls, x.frame, f[k := Some(v)]);
    PaddedSet(f, more, k, Some(v));
    InPadded(f, more, k);
    FramesStay(m, x.frame, f[k := Some(v)]);
  }

  lemma InPadded(f: Frame, more: Keys, k: (string, nat))
    ensures k in Padded(f, more) <==> k in f || k in more
  {
  }

  lemma FramesStay(m: State, f: FrameName, g: Frame)
    requires f == LF ==> |m.lf| > 0
    ensures |WithFrame(m, f, g).lf| == |m.lf|
  {
  }

  /** A declaration in another frame than the padded ones. */
  lemma DeclareApart(m: State, d: nat, gs: Keys, ls: Keys, x: VarRef)
    requires d <= |m.lf| && Machine.Declare(m, x).Some? && (x.frame == TF || (x.frame == LF && |m.lf| > d))
    ensures Machine.Declare(Pad(m, d, gs, ls), x) == Some(Pad(Machine.Declare(m, x).value, d, gs, ls))
    ensures |Machine.Declare(m, x).value.lf| == |m.lf|
  {
    hide Pad, TopFrame, WithFrame, Padded;
    var k, f := (x.name, x.uid), TopFrame(m, x.frame).value;
    var unset: Option<Value> := None;
    TopThere(m, x.frame);
    TopPadded(m, d, gs, ls, x.frame);
    WithPadded(m, d, gs, ls, x.frame, f[k := unset]);
    PaddedSet(f, {}, k, unset);
    InPadded(f, {}, k);
    FramesStay(m, x.frame, f[k := unset]);
  }

  /** A declaration that the padding has made already. */
  lemma DeclareWithin(m: State, d: nat, gs: Keys, ls: Keys, x: VarRef)
    requires d <= |m.lf| && Machine.Declare(m, x).Some?
    requires (x.frame == GF && (x.name, x.uid) in gs) || (x.frame == LF && |m.lf| == d && (x.name, x.uid) in ls)
    ensures Pad(Machine.Declare(m, x).value, d, gs, ls) == Pad(m, d, gs, ls)
    ensures |Machine.Declare(m, x).value.lf| == |m.lf|
  {
    hide TopFrame, WithFrame, Padded;
    var k, f := (x.name, x.uid), TopFrame(m, x.frame).value;
    TopThere(m, x.frame);
    WithPadded(m, d, gs, ls, x.frame, f[k := None]);
    PaddedSet(f, if x.frame == GF then gs else ls, k, None);
    FramesStay(m, x.frame, f[k := None]);
    SameTop(m, d, gs, ls, x.frame);
  }

  lemma SameTop(m: State, d: nat, gs: Keys, ls: Keys, f: FrameName)
    requires d <= |m.lf| && TopFrame(m, f).Some? && (f == GF || (f == LF && |m.lf| == d))
    ensures WithFrame(Pad(m, d, gs, ls), f, Padded(TopFrame(m, f).value, if f == GF then gs else ls)) == Pad(m, d, gs, ls)
  {
    hide Padded;
  }

  /** The lines that may be met in a state above `d` local frames: variables are declared in the frame `d` or the global
      one, everything else in frames that are put on top of it, and it is not taken away. */
  predicate Keeps(m: State, d: nat, line: Line) {
    match line
    case Decl(x) => x.frame == GF || (x.frame == LF && |m.lf| == d)
    case Code(DefVar(x)) => x.frame == TF || (x.frame == LF && |m.lf| > d)
    case Code(PopFrame) => |m.lf| > d
    case Code(i) => !i.Call? && !i.Return?
  }

  predicate IsJump(i: Instr) {
    i.Lab? || i.Jump? || i.JumpIfNeqs?
  }

  /** An instruction that runs also runs with more declared. */
  lemma PadOne(ord: Order, m: State, d: nat, gs: Keys, ls: Keys, i: Instr)
    requires d <= |m.lf| && Keeps(m, d, Code(i)) && One(ord, m, i).Some?
    ensures One(ord, Pad(m, d, gs, ls), i) == Some(Pad(One(ord, m, i).value, d, gs, ls))
    ensures d <= |One(ord, m, i).value.lf|
  {
    if i.PushVar? || i.Pops? || i.Concat? || i.Move? {
      PadAccess(ord, m, d, gs, ls, i);
    } else if i.DefVar? || i.CreateFrame? || i.PushFrame? || i.PopFrame? {
      PadFrames(ord, m, d, gs, ls, i);
    } else {
      hide Binary, Padded;
    }
  }

  lemma PadAccess(ord: Order, m: State, d: nat, gs: Keys, ls: Keys, i: Instr)
    requires d <= |m.lf| && One(ord, m, i).Some? && (i.PushVar? || i.Pops? || i.Concat? || i.Move?)
    ensures One(ord, Pad(m, d, gs, ls), i) == Some(Pad(One(ord, m, i).value, d, gs, ls))
    ensures d <= |One(ord, m, i).value.lf|
  {
    hide Read, Write, Padded;
    match i
    case PushVar(x) => ReadPadded(m, d, gs, ls, x);
    case Pops(x) =>
      var n := |m.stack| - 1;
      WritePadded(m.(stack := m.stack[..n]), d, gs, ls, x, m.stack[n]);
    case Concat(x, a, b) =>
      ReadPadded(m, d, gs, ls, a);
      ReadPadded(m, d, gs, ls, b);
      WritePadded(m, d, gs, ls, x, VStr(Read(m, a).value.s + Read(m, b).value.s));
    case Move(x, o) =>
      if o.Variable? {
        ReadPadded(m, d, gs, ls, o.x);
      }
      WritePadded(m, d, gs, ls, x, ReadSource(m, o).value);
  }

  lemma PadFrames(ord: Order, m: State, d: nat, gs: Keys, ls: Keys, i: Instr)
    requires d <= |m.lf| && Keeps(m, d, Code(i)) && One(ord, m, i).Some?
    requires i.DefVar? || i.CreateFrame? || i.PushFrame? || i.PopFrame?
    ensures One(ord, Pad(m, d, gs, ls), i) == Some(Pad(One(ord, m, i).value, d, gs, ls))
    ensures d <= |One(ord, m, i).value.lf|
  {
    hide Machine.Declare, Padded;
    if i.DefVar? {
      OneDeclares(ord, m, i.x);
      OneDeclares(ord, Pad(m, d, gs, ls), i.x);
      DeclareApart(m, d, gs, ls, i.x);
    } else if i.PushFrame? {
      if d > 0 {
        var f := Padded(m.lf[d - 1], ls);
        assert (m.lf + [m.tf.value])[d - 1 := f] == m.lf[d - 1 := f] + [m.tf.value];
      }
    } else if i.PopFrame? {
      if d > 0 {
        var f, n := Padded(m.lf[d - 1], ls), |m.lf| - 1;
        assert m.lf[..n][d - 1 := f] == m.lf[d - 1 := f][..n];
      }
    }
  }

  lemma PadJump(ord: Order, p: Program, c: Config, h: Program, q: nat, d: nat, gs: Keys, ls: Keys)
    requires c.pc < |p| && q < |h| && h[q] == p[c.pc] && IsJump(p[c.pc]) && Machine.Step(ord, p, c).Some?
    requires !p[c.pc].Lab? && FindLabel(p, p[c.pc].l, 0) < |p| ==> FindLabel(h, p[c.pc].l, 0) < |h|
    ensures var s := Machine.Step(ord, p, c).value; var s' := Machine.Step(ord, h, Config(q, Pad(c.m, d, gs, ls)));
            && s'.Some? && s'.value.m == Pad(s.m, d, gs, ls) && s.m.lf == c.m.lf
            && ((s.pc == c.pc + 1 && s'.value.pc == q + 1)
                || (!p[c.pc].Lab? && s.pc == FindLabel(p, p[c.pc].l, 0) < |p| && s'.value.pc == FindLabel(h, p[c.pc].l, 0)))
  {
    hide FindLabel, Padded;
  }

  /** Declaring all of it at once, where that succeeds, is the padding. */
  lemma {:induction false} DeclsPad(ord: Order, m: State, ds: seq<Line>)
    requires (forall l :: l in ds ==> l.Decl? && l.x.frame != TF) && Exec(ord, m, Instrs(ds)).Some?
    ensures Exec(ord, m, Instrs(ds)).value == Pad(m, |m.lf|, Declares(ds, GF), Declares(ds, LF))
    decreases |ds|
  {
    hide One, Machine.Declare, Instrs, Pad;
    NoLines();
    if ds == [] {
      PadNothing(m);
      assert Declares([], GF) == {} == Declares([], LF);
    } else {
      var front, l := ds[..|ds| - 1], ds[|ds| - 1];
      assert ds == front + [l];
      InstrsConcat(front, [l]);
      OneInstr(l);
      ExecSnoc(ord, m, Instrs(front), InstrOf(l));
      DeclsPad(ord, m, front);
      OneDeclares(ord, Exec(ord, m, Instrs(front)).value, l.x);
      PadMore(m, Declares(front, GF), Declares(front, LF), l.x);
      var one: Keys := {(l.x.name, l.x.uid)};
      assert Declares(ds, GF) == if l.x.frame == GF then Declares(front, GF) + one else Declares(front, GF);
      assert Declares(ds, LF) == if l.x.frame == LF then Declares(front, LF) + one else Declares(front, LF);
    }
  }

  lemma PadNothing(m: State)
    ensures Pad(m, |m.lf|, {}, {}) == m
  {
    assert Padded(m.gf, {}) == m.gf;
    if |m.lf| > 0 {
      assert Padded(m.lf[|m.lf| - 1], {}) == m.lf[|m.lf| - 1];
    }
  }

  lemma OneInstr(l: Line)
    ensures Instrs([l]) == [InstrOf(l)]
  {
  }

  lemma PadMore(m: State, gs: Keys, ls: Keys, x: VarRef)
    requires x.frame != TF && Machine.Declare(Pad(m, |m.lf|, gs, ls), x).Some?
    ensures var one: Keys := {(x.name, x.uid)};
            Machine.Declare(Pad(m, |m.lf|, gs, ls), x).value
            == Pad(m, |m.lf|, if x.frame == GF then gs + one else gs, if x.frame == LF then ls + one else ls)
  {
    if x.frame == GF {
      PaddedMore(m.gf, gs, (x.name, x.uid));
    } else {
      PaddedMore(m.lf[|m.lf| - 1], ls, (x.name, x.uid));
    }
  }

  lemma PaddedMore(f: Frame, more: Keys, k: (string, nat))
    requires k !in Padded(f, more)
    ensures Padded(f, more)[k := None] == Padded(f, more + {k})
  {
  }

  // ----- runs -----

  /** A machine step at a line, except that declaring a variable again does nothing: what the rounds of a loop mean when
      its declarations are left where they were written. */
  function Lenient(ord: Order, p: Program, c: Config, line: Line): Option<Config> {
    if line.Decl? && Declared(c.m, line.x) then Some(Config(c.pc + 1, c.m)) else Machine.Step(ord, p, c)
  }

  /** `n` such steps, each of them at one of the lines at `k` that keeps to the `d` local frames. */
  function Run(ord: Order, p: Program, k: nat, lines: seq<Line>, d: nat, c: Config, n: nat): Option<Config>
    decreases n
  {
    if n == 0 then Some(c)
    else if c.pc < k || c.pc >= k + |lines| || !Keeps(c.m, d, lines[c.pc - k]) then None
    else
      var c' := Lenient(ord, p, c, lines[c.pc - k]);
      if c'.Some? then Run(ord, p, k, lines, d, c'.value, n - 1) else None
  }

  function Image(k: nat, lines: seq<Line>, d: nat, c: Config): Config {
    Config(Pos(k, lines, c.pc), Pad(c.m, d, Declares(lines, GF), Declares(lines, LF)))
  }

  lemma DeclStep(ord: Order, p: Program, c: Config, d: nat, lines: seq<Line>, x: VarRef)
    requires c.pc < |p| && p[c.pc] == DefVar(x) && d <= |c.m.lf| && Decl(x) in lines && Keeps(c.m, d, Decl(x))
    requires Lenient(ord, p, c, Decl(x)).Some?
    ensures var c' := Lenient(ord, p, c, Decl(x)).value; var gs, ls := Declares(lines, GF), Declares(lines, LF);
            c'.pc == c.pc + 1 && d <= |c'.m.lf| && Pad(c'.m, d, gs, ls) == Pad(c.m, d, gs, ls)
  {
    hide Machine.Declare, Pad;
    if !Declared(c.m, x) {
      DeclareWithin(c.m, d, Declares(lines, GF), Declares(lines, LF), x);
    }
  }

  lemma OneThere(ord: Order, p: Program, c: Config)
    requires c.pc < |p| && Machine.Step(ord, p, c).Some?
    requires var i := p[c.pc]; !IsJump(i) && !i.Call? && !i.Return?
    ensures One(ord, c.m, p[c.pc]).Some? && Machine.Step(ord, p, c) == Some(Config(c.pc + 1, One(ord, c.m, p[c.pc]).value))
  {
    hide Binary;
  }

  /** One such step is at most one step of the hoisted program. */
  lemma StepMoves(ord: Order, a: Program, lines: seq<Line>, z: Program, d: nat, c: Config)
    requires |a| <= c.pc < |a| + |lines| && d <= |c.m.lf| && Keeps(c.m, d, lines[c.pc - |a|])
    requires Lenient(ord, a + Instrs(lines) + z, c, lines[c.pc - |a|]).Some?
    ensures var c' := Lenient(ord, a + Instrs(lines) + z, c, lines[c.pc - |a|]).value;
            d <= |c'.m.lf| && Reaches(ord, a + Hoist(lines) + z, Image(|a|, lines, d, c), Image(|a|, lines, d, c'))
  {
    hide Reaches, Hoist, Pos, Machine.Step, Pad, Only, One, FindLabel, Instrs, Declares;
    var p, h, l := a + Instrs(lines) + z, a + Hoist(lines) + z, lines[c.pc - |a|];
    var gs, ls := Declares(lines, GF), Declares(lines, LF);
    var c', q := Lenient(ord, p, c, l).value, Pos(|a|, lines, c.pc);
    PosNext(a, lines, z, c.pc);
    OneByOne(lines);
    ReachesRefl(ord, h, Image(|a|, lines, d, c));
    if l.Decl? {
      DeclStep(ord, p, c, d, lines, l.x);
    } else {
      if IsJump(l.i) {
        if !l.i.Lab? && FindLabel(p, l.i.l, 0) < |p| {
          LabelMoves(a, lines, z, l.i.l);
        }
        PadJump(ord, p, c, h, q, d, gs, ls);
      } else {
        OneThere(ord, p, c);
        PadOne(ord, c.m, d, gs, ls, l.i);
        OneSteps(ord, h, q, Pad(c.m, d, gs, ls), l.i);
      }
      ReachesStep(ord, h, Image(|a|, lines, d, c), Image(|a|, lines, d, c), Image(|a|, lines, d, c'));
    }
  }

  lemma {:induction false} RunMoves(ord: Order, a: Program, lines: seq<Line>, z: Program, d: nat, c: Config, n: nat)
    requires d <= |c.m.lf| && Run(ord, a + Instrs(lines) + z, |a|, lines, d, c, n).Some?
    ensures var c' := Run(ord, a + Instrs(lines) + z, |a|, lines, d, c, n).value;
            d <= |c'.m.lf| && Reaches(ord, a + Hoist(lines) + z, Image(|a|, lines, d, c), Image(|a|, lines, d, c'))
    decreases n
  {
    hide Reaches, Hoist, Image, Lenient, Keeps, Instrs;
    var p, h := a + Instrs(lines) + z, a + Hoist(lines) + z;
    ReachesRefl(ord, h, Image(|a|, lines, d, c));
    if n > 0 {
      var c1 := Lenient(ord, p, c, lines[c.pc - |a|]).value;
      StepMoves(ord, a, lines, z, d, c);
      RunMoves(ord, a, lines, z, d, c1, n - 1);
      ReachesTrans(ord, h, Image(|a|, lines, d, c), Image(|a|, lines, d, c1),
                   Image(|a|, lines, d, Run(ord, p, |a|, lines, d, c, n).value));
    }
  }

  lemma HoistAt(a: Program, lines: seq<Line>, z: Program)
    ensures CodeAt(a + Hoist(lines) + z, |a|, Instrs(Only(lines, true)))
  {
    hide Only;
  }

  /** More declarations change neither the stack nor what any variable holds. */
  lemma PadReads(m: State, d: nat, gs: Keys, ls: Keys)
    requires d <= |m.lf|
    ensures var r := Pad(m, d, gs, ls);
            r.stack == m.stack && r.calls == m.calls && r.tf == m.tf && |r.lf| == |m.lf| && forall x :: Read(r, x) == Read(m, x)
  {
    hide Read;
    forall x
      ensures Read(Pad(m, d, gs, ls), x) == Read(m, x)
    {
      ReadPadded(m, d, gs, ls, x);
    }
  }

  /** The same stack, the same calls and temporary frame, and the same value in every variable. */
  ghost predicate SameValues(a: State, b: State) {
    && a.stack == b.stack && a.calls == b.calls && a.tf == b.tf && |a.lf| == |b.lf|
    && forall x :: Read(a, x) == Read(b, x)
  }

  /** Hoisting keeps the meaning of lines with jumps, through every round of their loops: whatever run they have from their
      start in the order of the source, the hoisted lines have one to the corresponding place with the same values,
      provided only that the declarations can be made first. */
  lemma RunHoists(ord: Order, a: Program, lines: seq<Line>, z: Program, m: State, n: nat) returns (m1: State)
    requires Fits(lines) && Exec(ord, m, Instrs(Only(lines, true))).Some?
    requires Run(ord, a + Instrs(lines) + z, |a|, lines, |m.lf|, Config(|a|, m), n).Some?
    ensures var c' := Run(ord, a + Instrs(lines) + z, |a|, lines, |m.lf|, Config(|a|, m), n).value;
            && Reaches(ord, a + Hoist(lines) + z, Config(|a|, m), Config(Pos(|a|, lines, c'.pc), m1))
            && SameValues(m1, c'.m)
  {
    hide Reaches, Pad, Read, Run, Exec, Only, Pos, CodeAt, Instrs, Declares, Hoist;
    var h, ds, d := a + Hoist(lines) + z, Only(lines, true), |m.lf|;
    var gs, ls := Declares(lines, GF), Declares(lines, LF);
    var c' := Run(ord, a + Instrs(lines) + z, |a|, lines, d, Config(|a|, m), n).value;
    RunMoves(ord, a, lines, z, d, Config(|a|, m), n);
    OnlyIn(lines, true);
    DeclsPad(ord, m, ds);
    SameDeclares(lines);
    HoistAt(a, lines, z);
    ExecReaches(ord, h, |a|, m, Instrs(ds));
    Ends(|a|, lines);
    OneByOne(ds);
    ReachesTrans(ord, h, Config(|a|, m), Image(|a|, lines, d, Config(|a|, m)), Image(|a|, lines, d, c'));
    PadReads(c'.m, d, gs, ls);
    m1 := Pad(c'.m, d, gs, ls);
  }

  lemma OneByOne(lines: seq<Line>)
    ensures |Instrs(lines)| == |lines|
  {
  }

  lemma SameDeclares(lines: seq<Line>)
    ensures forall f :: Declares(Only(lines, true), f) == Declares(lines, f)
  {
    hide Only;
    OnlyIn(lines, true);
  }

  // ----- the generator's loops -----

  /** The lines in the order of the source, sorted, are the generator's declarations and its other lines. */
  lemma {:induction false} CallsHoist(calls: seq<Hoisting.Call>)
    ensures Only(InOrder(calls), true) == Declarations(calls) && Only(InOrder(calls), false) == Others(calls)
    ensures Hoist(InOrder(calls)) == HoistedBody(calls)
    decreases |calls|
  {
    hide Only;
    if calls == [] {
      OnlySorted([], true);
    } else {
      var rest, c := calls[..|calls| - 1], calls[|calls| - 1];
      CallsHoist(rest);
      OnlySorted(LinesOf(c), c.Declare?);
      OnlyConcat(InOrder(rest), LinesOf(c), true);
      OnlyConcat(InOrder(rest), LinesOf(c), false);
    }
    InstrsConcat(Declarations(calls), Others(calls));
  }

  /** What the generator is called with for a loop, or for any other code: where the lines in the order of the source run
      to their end in `n` steps, through however many rounds, the lines that it writes run to their end too. */
  lemma LoopHoists(ord: Order, a: Program, calls: seq<Hoisting.Call>, z: Program, m: State, n: nat, m': State)
    returns (m1: State)
    requires Fits(InOrder(calls)) && Exec(ord, m, Instrs(Declarations(calls))).Some?
    requires Run(ord, a + Body(calls) + z, |a|, InOrder(calls), |m.lf|, Config(|a|, m), n)
             == Some(Config(|a| + |Body(calls)|, m'))
    ensures Reaches(ord, a + HoistedBody(calls) + z, Config(|a|, m), Config(|a| + |HoistedBody(calls)|, m1))
    ensures SameValues(m1, m')
  {
    hide Reaches, Run, Exec, Read, Instrs, Only, Pos, Fits, InOrder, SameValues, HoistedBody;
    CallsHoist(calls);
    m1 := RunHoists(ord, a, InOrder(calls), z, m, n);
    Ends(|a|, InOrder(calls));
    OnlyIn(InOrder(calls), true);
    OneByOne(InOrder(calls));
    OneByOne(Only(InOrder(calls), true) + Only(InOrder(calls), false));
  }
}
