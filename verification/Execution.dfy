/** Running the emitted code on the stack machine. */
module Execution {
  import opened Tokens
  import opened Machine
  import opened CodeGen
  import opened Semantics
  import opened Meaning

  /** `code` stands in `p` at `k`. */
  predicate CodeAt(p: Program, k: nat, code: Program) {
    k + |code| <= |p| && forall i :: 0 <= i < |code| ==> p[k + i] == code[i]
  }

  lemma Nth(p: Program, k: nat, code: Program, i: nat)
    requires CodeAt(p, k, code) && i < |code|
    ensures k + i < |p| && p[k + i] == code[i]
  {
  }

  lemma CodeParts(p: Program, k: nat, a: Program, b: Program)
    requires CodeAt(p, k, a + b)
    ensures CodeAt(p, k, a) && CodeAt(p, k + |a|, b)
  {
    assert forall i :: 0 <= i < |a| ==> (a + b)[i] == a[i];
    forall i | 0 <= i < |b|
      ensures p[k + |a| + i] == b[i]
    {
      assert (a + b)[|a| + i] == b[i];
    }
  }

  /** The labels in `p[k..k + n]` are defined nowhere else in `p`. */
  ghost predicate OwnLabels(p: Program, k: nat, n: nat) {
    forall j: nat :: k <= j < k + n && j < |p| && p[j].Lab? ==> UniqueAt(p, p[j].l, j)
  }

  // ----- int2doubles -----

  /** The local frame after saving the top `d` values of `s`. */
  function SavedFrame(s: seq<Value>, d: nat): Frame
    requires d <= |s|
  {
    if d == 0 then map[]
    else SavedFrame(s, d - 1)[("stack", d - 1) := Some(s[|s| - d])]
  }

  lemma {:induction false} SavedFrameAt(s: seq<Value>, d: nat)
    requires d <= |s|
    ensures forall i: nat {:trigger ("stack", i)} ::
              (("stack", i) in SavedFrame(s, d) <==> i < d) &&
              (i < d ==> SavedFrame(s, d)[("stack", i)] == Some(s[|s| - 1 - i]))
  {
    if d > 0 {
      SavedFrameAt(s, d - 1);
    }
  }

  /** A machine inside its own frame. */
  function Inside(m: State, s: seq<Value>, f: Frame): State {
    m.(stack := s, lf := m.lf + [f], tf := None)
  }

  lemma {:induction false} SaveRuns(ord: Order, p: Program, k: nat, m: State, d: nat)
    requires d <= |m.stack| && CodeAt(p, k, SaveCode(d))
    ensures Reaches(ord, p, Config(k, Inside(m, m.stack, map[])),
                    Config(k + |SaveCode(d)|, Inside(m, m.stack[..|m.stack| - d], SavedFrame(m.stack, d))))
  {
    var c0 := Config(k, Inside(m, m.stack, map[]));
    if d == 0 {
      assert m.stack[..|m.stack|] == m.stack;
      ReachesRefl(ord, p, c0);
    } else {
      var s, n := m.stack, |m.stack|;
      var x := StackVar(d - 1);
      CodeParts(p, k, SaveCode(d - 1), [DefVar(x), Pops(x)]);
      SaveRuns(ord, p, k, m, d - 1);
      SavedFrameAt(s, d - 1);
      var k1 := k + |SaveCode(d - 1)|;
      var f := SavedFrame(s, d - 1);
      var c1 := Config(k1, Inside(m, s[..n - d + 1], f));
      var c2 := Config(k1 + 1, Inside(m, s[..n - d + 1], f[(x.name, x.uid) := None]));
      SaveStep(ord, p, k1, m, s, d);
      ReachesTrans(ord, p, c0, c1, Config(k1 + 2, Inside(m, s[..n - d], SavedFrame(s, d))));
    }
  }

  /** One DEFVAR and POPS of the saving loop. */
  lemma SaveStep(ord: Order, p: Program, k: nat, m: State, s: seq<Value>, d: nat)
    requires 1 <= d <= |s| && CodeAt(p, k, [DefVar(StackVar(d - 1)), Pops(StackVar(d - 1))])
    ensures Reaches(ord, p, Config(k, Inside(m, s[..|s| - d + 1], SavedFrame(s, d - 1))),
                    Config(k + 2, Inside(m, s[..|s| - d], SavedFrame(s, d))))
  {
    var x := StackVar(d - 1);
    var f := SavedFrame(s, d - 1);
    SavedFrameAt(s, d - 1);
    var t := s[..|s| - d + 1];
    Nth(p, k, [DefVar(x), Pops(x)], 0);
    Nth(p, k, [DefVar(x), Pops(x)], 1);
    var c1 := Config(k, Inside(m, t, f));
    var c2 := Config(k + 1, Inside(m, t, f[(x.name, x.uid) := None]));
    assert ("stack", d - 1) !in f;
    assert (m.lf + [f])[|m.lf| := f[(x.name, x.uid) := None]] == m.lf + [f[(x.name, x.uid) := None]];
    assert Machine.Step(ord, p, c1) == Some(c2);
    var g := f[(x.name, x.uid) := None];
    var g' := g[(x.name, x.uid) := Some(t[|t| - 1])];
    assert (m.lf + [g])[|m.lf| := g'] == m.lf + [g'];
    assert g' == SavedFrame(s, d);
    assert t[..|t| - 1] == s[..|s| - d];
    var c3 := Config(k + 2, Inside(m, s[..|s| - d], SavedFrame(s, d)));
    assert Machine.Step(ord, p, c2) == Some(c3);
    ReachesRefl(ord, p, c1);
    ReachesStep(ord, p, c1, c1, c2);
    ReachesStep(ord, p, c1, c2, c3);
  }

  lemma {:induction false} RestoreRuns(ord: Order, p: Program, k: nat, m: State, s: seq<Value>, t: seq<Value>,
                                       f: Frame, d: nat)
    requires d <= |s| && CodeAt(p, k, RestoreCode(d))
    requires forall i: nat {:trigger ("stack", i)} :: i < d ==>
               ("stack", i) in f && f[("stack", i)] == Some(s[|s| - 1 - i])
    ensures Reaches(ord, p, Config(k, Inside(m, t, f)), Config(k + d, Inside(m, t + s[|s| - d..], f)))
    decreases d
  {
    var c0 := Config(k, Inside(m, t, f));
    if d == 0 {
      assert t + s[|s|..] == t;
      ReachesRefl(ord, p, c0);
    } else {
      var x := StackVar(d - 1);
      Nth(p, k, RestoreCode(d), 0);
      assert ("stack", d - 1) in f;
      var v := s[|s| - d];
      var c1 := Config(k + 1, Inside(m, t + [v], f));
      assert Machine.Step(ord, p, c0) == Some(c1);
      assert RestoreCode(d) == [PushVar(x)] + RestoreCode(d - 1);
      CodeParts(p, k, [PushVar(x)], RestoreCode(d - 1));
      RestoreRuns(ord, p, k + 1, m, s, t + [v], f, d - 1);
      assert t + [v] + s[|s| - d + 1..] == t + s[|s| - d..];
      ReachesRefl(ord, p, c0);
      ReachesStep(ord, p, c0, c0, c1);
      ReachesTrans(ord, p, c0, c1, Config(k + d, Inside(m, t + s[|s| - d..], f)));
    }
  }

  lemma {:induction false} CodeLengths(d: nat)
    ensures |SaveCode(d)| == 2 * d && |RestoreCode(d)| == d
  {
    if d > 0 {
      CodeLengths(d - 1);
    }
  }

  /** The conversion in the middle: the saved frame is in place before and after. */
  lemma ConvertAndRestore(ord: Order, p: Program, k: nat, m: State, d: nat)
    requires d < |m.stack| && m.stack[|m.stack| - 1 - d].VInt?
    requires k < |p| && p[k] == Int2Floats && CodeAt(p, k + 1, RestoreCode(d))
    ensures var s, n := m.stack, |m.stack|;
            var f := SavedFrame(s, d);
            Reaches(ord, p, Config(k, Inside(m, s[..n - d], f)),
                    Config(k + 1 + d, Inside(m, s[n - 1 - d := VDbl(OfInt(s[n - 1 - d].i))], f)))
  {
    var s, n := m.stack, |m.stack|;
    var f, v := SavedFrame(s, d), VDbl(OfInt(s[n - 1 - d].i));
    SavedFrameAt(s, d);
    var t := s[..n - d - 1] + [v];
    var a, b := Config(k, Inside(m, s[..n - d], f)), Config(k + 1, Inside(m, t, f));
    assert s[..n - d][..n - d - 1] == s[..n - d - 1];
    assert Machine.Step(ord, p, a) == Some(b);
    RestoreRuns(ord, p, k + 1, m, s, t, f, d);
    assert t + s[n - d..] == s[n - 1 - d := v];
    ReachesRefl(ord, p, a);
    ReachesStep(ord, p, a, a, b);
    ReachesTrans(ord, p, a, b, Config(k + 1 + d, Inside(m, s[n - 1 - d := v], f)));
  }

  lemma Int2DoublesParts(p: Program, k: nat, d: nat)
    requires CodeAt(p, k, Int2DoublesCode(d))
    ensures |Int2DoublesCode(d)| == 3 * d + 4
    ensures CodeAt(p, k, [CreateFrame, PushFrame]) && CodeAt(p, k + 2, SaveCode(d)) && |SaveCode(d)| == 2 * d
    ensures k + 2 + 2 * d < |p| && p[k + 2 + 2 * d] == Int2Floats
    ensures CodeAt(p, k + 3 + 2 * d, RestoreCode(d)) && CodeAt(p, k + 3 + 3 * d, [PopFrame])
  {
    hide CodeAt, SaveCode, RestoreCode;
    var save, back := SaveCode(d), RestoreCode(d);
    CodeLengths(d);
    assert Int2DoublesCode(d) == [CreateFrame, PushFrame] + (save + ([Int2Floats] + (back + [PopFrame])));
    CodeParts(p, k, [CreateFrame, PushFrame], save + ([Int2Floats] + (back + [PopFrame])));
    CodeParts(p, k + 2, save, [Int2Floats] + (back + [PopFrame]));
    CodeParts(p, k + 2 + 2 * d, [Int2Floats], back + [PopFrame]);
    CodeParts(p, k + 3 + 2 * d, back, [PopFrame]);
    Nth(p, k + 2 + 2 * d, [Int2Floats], 0);
  }

  /** For every depth: only the integer at that depth becomes a double; the rest of the stack, the local
      frames and the global frame stay. */
  lemma Int2DoublesRuns(ord: Order, p: Program, k: nat, m: State, d: nat) returns (m': State)
    requires d < |m.stack| && m.stack[|m.stack| - 1 - d].VInt?
    requires CodeAt(p, k, Int2DoublesCode(d))
    ensures Reaches(ord, p, Config(k, m), Config(k + |Int2DoublesCode(d)|, m'))
    ensures m'.stack == m.stack[|m.stack| - 1 - d := VDbl(OfInt(m.stack[|m.stack| - 1 - d].i))]
    ensures m'.lf == m.lf && m'.gf == m.gf && m'.calls == m.calls
  {
    hide CodeAt, Int2DoublesCode, SaveCode, RestoreCode, SavedFrame, Reaches;
    var s, n := m.stack, |m.stack|;
    Int2DoublesParts(p, k, d);
    var f := SavedFrame(s, d);
    var done := s[n - 1 - d := VDbl(OfInt(s[n - 1 - d].i))];
    EnterFrame(ord, p, k, m);
    SaveRuns(ord, p, k + 2, m, d);
    ConvertAndRestore(ord, p, k + 2 + 2 * d, m, d);
    LeaveFrame(ord, p, k + 3 + 3 * d, m, done, f);
    m' := m.(stack := done, tf := Some(f));
    var c0 := Config(k, m);
    var c1 := Config(k + 2 + 2 * d, Inside(m, s[..n - d], f));
    var c2 := Config(k + 3 + 3 * d, Inside(m, done, f));
    ReachesTrans(ord, p, c0, Config(k + 2, Inside(m, s, map[])), c1);
    ReachesTrans(ord, p, c0, c1, c2);
    ReachesTrans(ord, p, c0, c2, Config(k + 4 + 3 * d, m'));
  }

  lemma EnterFrame(ord: Order, p: Program, k: nat, m: State)
    requires CodeAt(p, k, [CreateFrame, PushFrame])
    ensures Reaches(ord, p, Config(k, m), Config(k + 2, Inside(m, m.stack, map[])))
  {
    var c0, c1 := Config(k, m), Config(k + 1, m.(tf := Some(map[])));
    var c2 := Config(k + 2, Inside(m, m.stack, map[]));
    Nth(p, k, [CreateFrame, PushFrame], 0);
    Nth(p, k, [CreateFrame, PushFrame], 1);
    assert Machine.Step(ord, p, c0) == Some(c1) && Machine.Step(ord, p, c1) == Some(c2);
    ReachesRefl(ord, p, c0);
    ReachesStep(ord, p, c0, c0, c1);
    ReachesStep(ord, p, c0, c1, c2);
  }

  lemma LeaveFrame(ord: Order, p: Program, k: nat, m: State, s: seq<Value>, f: Frame)
    requires CodeAt(p, k, [PopFrame])
    ensures Reaches(ord, p, Config(k, Inside(m, s, f)), Config(k + 1, m.(stack := s, tf := Some(f))))
  {
    var c0, c1 := Config(k, Inside(m, s, f)), Config(k + 1, m.(stack := s, tf := Some(f)));
    Nth(p, k, [PopFrame], 0);
    assert (m.lf + [f])[..|m.lf|] == m.lf;
    assert Machine.Step(ord, p, c0) == Some(c1);
    ReachesRefl(ord, p, c0);
    ReachesStep(ord, p, c0, c0, c1);
  }

  // ----- nil check -----

  /** Frame contents while a nil check runs. */
  function NilFrame(a: Value, b: Value): Frame {
    map[("op", 2) := Some(b), ("op", 1) := Some(a)]
  }

  lemma NilCheckHead(p: Program, k: nat, id: nat)
    requires CodeAt(p, k, NilCheckCode(id))
    ensures k + 5 < |p| && CodeAt(p, k, [CreateFrame, PushFrame])
    ensures p[k + 2] == DefVar(OP2) && p[k + 3] == Pops(OP2) && p[k + 4] == DefVar(OP1) && p[k + 5] == Pops(OP1)
  {
    var code := NilCheckCode(id);
    Nth(p, k, code, 0); Nth(p, k, code, 1); Nth(p, k, code, 2); Nth(p, k, code, 3);
    Nth(p, k, code, 4); Nth(p, k, code, 5);
  }

  lemma NilCheckMiddle(p: Program, k: nat, id: nat)
    requires CodeAt(p, k, NilCheckCode(id))
    ensures k + 10 < |p| && p[k + 6] == Pushs(VNil) && p[k + 7] == PushVar(OP1) && p[k + 8] == Eqs
    ensures p[k + 9] == Nots && p[k + 10] == Pushs(VBool(true))
  {
    var code := NilCheckCode(id);
    Nth(p, k, code, 6); Nth(p, k, code, 7); Nth(p, k, code, 8); Nth(p, k, code, 9);
    Nth(p, k, code, 10);
  }

  lemma NilCheckTail(p: Program, k: nat, id: nat)
    requires CodeAt(p, k, NilCheckCode(id))
    ensures k + 17 < |p| && p[k + 11] == JumpIfNeqs(ElseL(id)) && p[k + 12] == PushVar(OP1)
    ensures p[k + 13] == Jump(IfEndL(id)) && p[k + 14] == Lab(ElseL(id)) && p[k + 15] == PushVar(OP2)
    ensures p[k + 16] == Lab(IfEndL(id)) && CodeAt(p, k + 17, [PopFrame])
  {
    var code := NilCheckCode(id);
    Nth(p, k, code, 11); Nth(p, k, code, 12); Nth(p, k, code, 13); Nth(p, k, code, 14);
    Nth(p, k, code, 15); Nth(p, k, code, 16); Nth(p, k, code, 17);
  }

  /** The saved operands are compared with nil; the stack below is untouched. */
  lemma NilCheckSaves(ord: Order, p: Program, k: nat, m: State, s: seq<Value>, a: Value, b: Value, id: nat)
    requires m.stack == s + [a, b] && CodeAt(p, k, NilCheckCode(id))
    ensures Reaches(ord, p, Config(k, m), Config(k + 6, Inside(m, s, NilFrame(a, b))))
  {
    hide CodeAt, NilCheckCode, Reaches;
    NilCheckHead(p, k, id);
    EnterFrame(ord, p, k, m);
    var f2 := map[("op", 2) := Some(b)];
    var c2 := Config(k + 2, Inside(m, s + [a, b], map[]));
    var c4 := Config(k + 4, Inside(m, s + [a], f2));
    var c6 := Config(k + 6, Inside(m, s, NilFrame(a, b)));
    assert (s + [a])[..|s|] == s && (s + [a, b])[..|s| + 1] == s + [a];
    DefineAndPop(ord, p, k + 2, m, s + [a], b, map[], OP2);
    DefineAndPop(ord, p, k + 4, m, s, a, f2, OP1);
    assert s + [a] + [b] == s + [a, b];
    assert f2[("op", 1) := Some(a)] == NilFrame(a, b);
    ReachesTrans(ord, p, Config(k, m), c2, c4);
    ReachesTrans(ord, p, Config(k, m), c4, c6);
  }

  lemma DefineAndPop(ord: Order, p: Program, k: nat, m: State, s: seq<Value>, v: Value, f: Frame, x: VarRef)
    requires x.frame == LF && (x.name, x.uid) !in f && k + 1 < |p| && p[k] == DefVar(x) && p[k + 1] == Pops(x)
    ensures Reaches(ord, p, Config(k, Inside(m, s + [v], f)),
                    Config(k + 2, Inside(m, s, f[(x.name, x.uid) := Some(v)])))
  {
    var g := f[(x.name, x.uid) := None];
    var h := f[(x.name, x.uid) := Some(v)];
    var c0, c1 := Config(k, Inside(m, s + [v], f)), Config(k + 1, Inside(m, s + [v], g));
    var c2 := Config(k + 2, Inside(m, s, h));
    assert (m.lf + [f])[|m.lf| := g] == m.lf + [g];
    assert Machine.Step(ord, p, c0) == Some(c1);
    assert g[(x.name, x.uid) := Some(v)] == h;
    assert (m.lf + [g])[|m.lf| := h] == m.lf + [h];
    assert (s + [v])[..|s|] == s;
    assert Machine.Step(ord, p, c1) == Some(c2);
    ReachesRefl(ord, p, c0);
    ReachesStep(ord, p, c0, c0, c1);
    ReachesStep(ord, p, c0, c1, c2);
  }

  /** The comparison leaves whether the first operand differs from nil, above `true`. */
  lemma NilCheckCompares(ord: Order, p: Program, k: nat, m: State, s: seq<Value>, a: Value, b: Value, id: nat)
    requires CodeAt(p, k, NilCheckCode(id))
    ensures Reaches(ord, p, Config(k + 6, Inside(m, s, NilFrame(a, b))),
                    Config(k + 11, Inside(m, s + [VBool(a != VNil), VBool(true)], NilFrame(a, b))))
  {
    hide CodeAt, NilCheckCode, Reaches;
    var f := NilFrame(a, b);
    NilCheckMiddle(p, k, id);
    var c6, c7 := Config(k + 6, Inside(m, s, f)), Config(k + 7, Inside(m, s + [VNil], f));
    var c8 := Config(k + 8, Inside(m, s + [VNil] + [a], f));
    var c9 := Config(k + 9, Inside(m, s + [VBool(a == VNil)], f));
    var c10 := Config(k + 10, Inside(m, s + [VBool(a != VNil)], f));
    var c11 := Config(k + 11, Inside(m, s + [VBool(a != VNil), VBool(true)], f));
    assert Machine.Step(ord, p, c6) == Some(c7);
    assert Machine.Step(ord, p, c7) == Some(c8);
    assert (s + [VNil] + [a])[..|s|] == s;
    assert Machine.Step(ord, p, c8) == Some(c9);
    assert (s + [VBool(a == VNil)])[..|s|] == s;
    assert Machine.Step(ord, p, c9) == Some(c10);
    assert s + [VBool(a != VNil)] + [VBool(true)] == s + [VBool(a != VNil), VBool(true)];
    assert Machine.Step(ord, p, c10) == Some(c11);
    ReachesRefl(ord, p, c6);
    ReachesStep(ord, p, c6, c6, c7);
    ReachesStep(ord, p, c6, c7, c8);
    ReachesStep(ord, p, c6, c8, c9);
    ReachesStep(ord, p, c6, c9, c10);
    ReachesStep(ord, p, c6, c10, c11);
  }

  lemma LabelsFound(p: Program, k: nat, id: nat)
    requires CodeAt(p, k, NilCheckCode(id)) && OwnLabels(p, k, 18)
    ensures FindLabel(p, ElseL(id), 0) == k + 14 && FindLabel(p, IfEndL(id), 0) == k + 16
  {
    hide NilCheckCode, CodeAt;
    NilCheckTail(p, k, id);
    FindLabelUnique(p, ElseL(id), k + 14, 0);
    FindLabelUnique(p, IfEndL(id), k + 16, 0);
  }

  /** A value other than nil is kept. */
  lemma NilCheckKeeps(ord: Order, p: Program, k: nat, m: State, s: seq<Value>, a: Value, b: Value, id: nat)
    requires CodeAt(p, k, NilCheckCode(id)) && OwnLabels(p, k, 18) && a != VNil
    ensures Reaches(ord, p, Config(k + 11, Inside(m, s + [VBool(a != VNil), VBool(true)], NilFrame(a, b))),
                    Config(k + 16, Inside(m, s + [a], NilFrame(a, b))))
  {
    hide CodeAt, NilCheckCode, OwnLabels, Reaches;
    var f := NilFrame(a, b);
    NilCheckTail(p, k, id);
    LabelsFound(p, k, id);
    var top := s + [VBool(a != VNil), VBool(true)];
    assert top[..|s|] == s;
    var c11, c16 := Config(k + 11, Inside(m, top, f)), Config(k + 16, Inside(m, s + [a], f));
    var c12, c13 := Config(k + 12, Inside(m, s, f)), Config(k + 13, Inside(m, s + [a], f));
    ReachesRefl(ord, p, c11);
    assert Machine.Step(ord, p, c11) == Some(c12);
    assert Machine.Step(ord, p, c12) == Some(c13);
    assert Machine.Step(ord, p, c13) == Some(c16);
    ReachesStep(ord, p, c11, c11, c12);
    ReachesStep(ord, p, c11, c12, c13);
    ReachesStep(ord, p, c11, c13, c16);
  }

  /** Nil gives way to the other value. */
  lemma NilCheckReplaces(ord: Order, p: Program, k: nat, m: State, s: seq<Value>, a: Value, b: Value, id: nat)
    requires CodeAt(p, k, NilCheckCode(id)) && OwnLabels(p, k, 18) && a == VNil
    ensures Reaches(ord, p, Config(k + 11, Inside(m, s + [VBool(a != VNil), VBool(true)], NilFrame(a, b))),
                    Config(k + 16, Inside(m, s + [b], NilFrame(a, b))))
  {
    hide CodeAt, NilCheckCode, OwnLabels, Reaches;
    var f := NilFrame(a, b);
    NilCheckTail(p, k, id);
    LabelsFound(p, k, id);
    var top := s + [VBool(a != VNil), VBool(true)];
    assert top[..|s|] == s;
    var c11, c16 := Config(k + 11, Inside(m, top, f)), Config(k + 16, Inside(m, s + [b], f));
    var c14, c15 := Config(k + 14, Inside(m, s, f)), Config(k + 15, Inside(m, s, f));
    ReachesRefl(ord, p, c11);
    assert Machine.Step(ord, p, c11) == Some(c14);
    assert Machine.Step(ord, p, c14) == Some(c15);
    assert Machine.Step(ord, p, c15) == Some(c16);
    ReachesStep(ord, p, c11, c11, c14);
    ReachesStep(ord, p, c11, c14, c15);
    ReachesStep(ord, p, c11, c15, c16);
  }

  /** Both branches meet before the frame is left. */
  lemma NilCheckBranches(ord: Order, p: Program, k: nat, m: State, s: seq<Value>, a: Value, b: Value, id: nat)
    requires CodeAt(p, k, NilCheckCode(id)) && OwnLabels(p, k, 18)
    ensures Reaches(ord, p, Config(k + 11, Inside(m, s + [VBool(a != VNil), VBool(true)], NilFrame(a, b))),
                    Config(k + 17, Inside(m, s + [if a != VNil then a else b], NilFrame(a, b))))
  {
    hide CodeAt, NilCheckCode, OwnLabels, Reaches;
    var f := NilFrame(a, b);
    NilCheckTail(p, k, id);
    var c11 := Config(k + 11, Inside(m, s + [VBool(a != VNil), VBool(true)], f));
    var r := if a != VNil then a else b;
    var c16, c17 := Config(k + 16, Inside(m, s + [r], f)), Config(k + 17, Inside(m, s + [r], f));
    if a != VNil {
      NilCheckKeeps(ord, p, k, m, s, a, b, id);
    } else {
      NilCheckReplaces(ord, p, k, m, s, a, b, id);
    }
    assert Machine.Step(ord, p, c16) == Some(c17);
    ReachesStep(ord, p, c11, c16, c17);
  }

  /** The nil check replaces the top two values `a`, `b` by `a`, or by `b` when `a` is nil; the rest of the
      stack, the local frames and the global frame stay. */
  lemma NilCheckRuns(ord: Order, p: Program, k: nat, m: State, s: seq<Value>, a: Value, b: Value, id: nat)
    returns (m': State)
    requires m.stack == s + [a, b] && CodeAt(p, k, NilCheckCode(id)) && OwnLabels(p, k, 18)
    ensures Reaches(ord, p, Config(k, m), Config(k + 18, m')) && |NilCheckCode(id)| == 18
    ensures m'.stack == s + [if a != VNil then a else b] && m'.lf == m.lf && m'.gf == m.gf && m'.calls == m.calls
  {
    hide CodeAt, OwnLabels, NilFrame, Reaches;
    var f := NilFrame(a, b);
    var r := if a != VNil then a else b;
    NilCheckSaves(ord, p, k, m, s, a, b, id);
    NilCheckCompares(ord, p, k, m, s, a, b, id);
    NilCheckBranches(ord, p, k, m, s, a, b, id);
    NilCheckTail(p, k, id);
    LeaveFrame(ord, p, k + 17, m, s + [r], f);
    m' := m.(stack := s + [r], tf := Some(f));
    var c0 := Config(k, m);
    var c11 := Config(k + 11, Inside(m, s + [VBool(a != VNil), VBool(true)], f));
    ReachesTrans(ord, p, c0, Config(k + 6, Inside(m, s, f)), c11);
    ReachesTrans(ord, p, c0, c11, Config(k + 17, Inside(m, s + [r], f)));
    ReachesTrans(ord, p, c0, Config(k + 17, Inside(m, s + [r], f)), Config(k + 18, m'));
  }
}
