/** Which labels a piece of output defines and which it jumps to. */
module Labels {
  import opened Tokens
  import opened Machine
  import opened Hoisting
  import opened StraightLine
  import opened CodeGen
  import opened Correctness

  predicate IsLoop(l: Label) {
    l.ForL? || l.ForBodyL? || l.ForEndL?
  }

  predicate Targets(i: Instr, l: Label) {
    i == Jump(l) || i == JumpIfNeqs(l)
  }

  /** How often `l` is defined. */
  function Count(code: seq<Instr>, l: Label): nat {
    if code == [] then 0 else Count(code[..|code| - 1], l) + if code[|code| - 1] == Lab(l) then 1 else 0
  }

  lemma {:induction false} CountConcat(a: seq<Instr>, b: seq<Instr>, l: Label)
    ensures Count(a + b, l) == Count(a, l) + Count(b, l)
    decreases |b|
  {
    if b == [] {
      assert a + b == a;
    } else {
      assert (a + b)[..|a + b| - 1] == a + b[..|b| - 1];
      CountConcat(a, b[..|b| - 1], l);
    }
  }

  lemma CountOne(i: Instr, l: Label)
    ensures Count([i], l) == if i == Lab(l) then 1 else 0
  {
    assert [i][..0] == [];
  }

  /** The ids reserved for conditions and loops. */
  predicate Reserves(l: Label, c0: nat, c1: nat, l0: nat, l1: nat) {
    (IsCondition(l) && c0 <= l.id < c1) || (IsLoop(l) && l0 <= l.id < l1)
  }

  /** The labels of `code` are defined once each, from the reserved ids, and `code` jumps nowhere else. */
  ghost predicate Closed(code: seq<Instr>, c0: nat, c1: nat, l0: nat, l1: nat) {
    && c0 <= c1 && l0 <= l1
    && (forall l :: Count(code, l) <= 1)
    && (forall l :: Count(code, l) > 0 ==> Reserves(l, c0, c1, l0, l1))
    && (forall i, l :: 0 <= i < |code| && Targets(code[i], l) ==> Count(code, l) == 1)
  }

  /** Pieces that reserve successive ids. */
  lemma ClosedConcat(a: seq<Instr>, b: seq<Instr>, c0: nat, c1: nat, c2: nat, l0: nat, l1: nat, l2: nat)
    requires Closed(a, c0, c1, l0, l1) && Closed(b, c1, c2, l1, l2)
    ensures Closed(a + b, c0, c2, l0, l2)
  {
    forall l
      ensures Count(a + b, l) <= 1
      ensures Count(a + b, l) > 0 ==> Reserves(l, c0, c2, l0, l2)
    {
      CountConcat(a, b, l);
    }
    forall i, l | 0 <= i < |a + b| && Targets((a + b)[i], l)
      ensures Count(a + b, l) == 1
    {
      CountConcat(a, b, l);
      if i < |a| {
        assert (a + b)[i] == a[i];
      } else {
        assert (a + b)[i] == b[i - |a|];
      }
    }
  }

  predicate CallsNothing(code: seq<Instr>) {
    forall i :: 0 <= i < |code| ==> !code[i].Call?
  }

  /** Instructions that neither define labels nor jump. */
  predicate LabelFree(code: seq<Instr>) {
    forall i :: 0 <= i < |code| ==> !code[i].Lab? && !code[i].Jump? && !code[i].JumpIfNeqs?
  }

  lemma {:induction false} LabelFreeCount(code: seq<Instr>, l: Label)
    requires LabelFree(code)
    ensures Count(code, l) == 0
    decreases |code|
  {
    if code != [] {
      LabelFreeCount(code[..|code| - 1], l);
    }
  }

  lemma LabelFreeClosed(code: seq<Instr>, c: nat, l: nat)
    requires LabelFree(code)
    ensures Closed(code, c, c, l, l)
  {
    forall x
      ensures Count(code, x) == 0
    {
      LabelFreeCount(code, x);
    }
  }

  // ----- statements -----

  function LoopHead(id: nat): seq<Instr> {
    [Lab(ForL(id))]
  }

  function LoopIf(id: nat): seq<Instr> {
    [Pushs(VBool(true)), JumpIfNeqs(ForEndL(id)), Jump(ForBodyL(id))]
  }

  function LoopBody(id: nat): seq<Instr> {
    [Lab(ForBodyL(id))]
  }

  function LoopTest(id: nat): seq<Instr> {
    LoopIf(id) + LoopBody(id)
  }

  function LoopTail(id: nat): seq<Instr> {
    [Jump(ForL(id)), Lab(ForEndL(id))]
  }

  function IfHead(id: nat): seq<Instr> {
    [Pushs(VBool(true)), JumpIfNeqs(ElseL(id))]
  }

  function IfElse(id: nat): seq<Instr> {
    [Jump(IfEndL(id)), Lab(ElseL(id))]
  }

  function IfEnd(id: nat): seq<Instr> {
    [Lab(IfEndL(id))]
  }

  lemma CountFive(a: seq<Instr>, b: seq<Instr>, c: seq<Instr>, d: seq<Instr>, e: seq<Instr>, l: Label)
    ensures Count(a + b + c + d + e, l) == Count(a, l) + Count(b, l) + Count(c, l) + Count(d, l) + Count(e, l)
  {
    CountConcat(a, b, l);
    CountConcat(a + b, c, l);
    CountConcat(a + b + c, d, l);
    CountConcat(a + b + c + d, e, l);
  }

  lemma CountsOfLoop(id: nat, l: Label)
    ensures Count(LoopHead(id), l) == if l == ForL(id) then 1 else 0
    ensures Count(LoopTest(id), l) == if l == ForBodyL(id) then 1 else 0
    ensures Count(LoopTail(id), l) == if l == ForEndL(id) then 1 else 0
  {
    var p, j, k := Pushs(VBool(true)), JumpIfNeqs(ForEndL(id)), Jump(ForBodyL(id));
    CountOne(Lab(ForL(id)), l);
    CountOne(p, l);
    CountOne(j, l);
    CountOne(k, l);
    CountOne(Lab(ForBodyL(id)), l);
    CountOne(Jump(ForL(id)), l);
    CountOne(Lab(ForEndL(id)), l);
    assert LoopTest(id) == [p] + [j] + [k] + [Lab(ForBodyL(id))] + [];
    CountFive([p], [j], [k], [Lab(ForBodyL(id))], [], l);
    assert LoopTail(id) == [Jump(ForL(id))] + [Lab(ForEndL(id))];
    CountConcat([Jump(ForL(id))], [Lab(ForEndL(id))], l);
  }

  lemma CountsOfIf(id: nat, l: Label)
    ensures Count(IfHead(id), l) == 0
    ensures Count(IfElse(id), l) == if l == ElseL(id) then 1 else 0
    ensures Count(IfEnd(id), l) == if l == IfEndL(id) then 1 else 0
  {
    CountOne(Pushs(VBool(true)), l);
    CountOne(JumpIfNeqs(ElseL(id)), l);
    CountOne(Jump(IfEndL(id)), l);
    CountOne(Lab(ElseL(id)), l);
    CountOne(Lab(IfEndL(id)), l);
    assert IfHead(id) == [Pushs(VBool(true))] + [JumpIfNeqs(ElseL(id))];
    assert IfElse(id) == [Jump(IfEndL(id))] + [Lab(ElseL(id))];
    CountConcat([Pushs(VBool(true))], [JumpIfNeqs(ElseL(id))], l);
    CountConcat([Jump(IfEndL(id))], [Lab(ElseL(id))], l);
  }

  /** Where the jumps of a concatenation go. */
  lemma TargetIn(a: seq<Instr>, b: seq<Instr>, c: seq<Instr>, d: seq<Instr>, e: seq<Instr>, i: nat, l: Label)
    requires i < |a + b + c + d + e| && Targets((a + b + c + d + e)[i], l)
    ensures exists j :: (0 <= j < |a| && Targets(a[j], l)) || (0 <= j < |b| && Targets(b[j], l))
                     || (0 <= j < |c| && Targets(c[j], l)) || (0 <= j < |d| && Targets(d[j], l))
                     || (0 <= j < |e| && Targets(e[j], l))
  {
    var all := a + b + c + d + e;
    if i < |a| {
      assert all[i] == a[i];
    } else if i < |a + b| {
      assert all[i] == b[i - |a|];
    } else if i < |a + b + c| {
      assert all[i] == c[i - |a + b|];
    } else if i < |a + b + c + d| {
      assert all[i] == d[i - |a + b + c|];
    } else {
      assert all[i] == e[i - |a + b + c + d|];
    }
  }

  /** A loop reserves one loop id besides those of its condition and body. */
  lemma LoopClosed(test: seq<Instr>, body: seq<Instr>, id: nat, c0: nat, c1: nat, c2: nat, l2: nat)
    requires Closed(test, c0, c1, id + 1, id + 1) && Closed(body, c1, c2, id + 1, l2)
    ensures Closed(LoopHead(id) + test + LoopTest(id) + body + LoopTail(id), c0, c2, id, l2)
  {
    hide Count;
    var a, c, e := LoopHead(id), LoopTest(id), LoopTail(id);
    var all := a + test + c + body + e;
    forall l
      ensures Count(all, l) <= 1
      ensures Count(all, l) > 0 ==> Reserves(l, c0, c2, id, l2)
    {
      CountFive(a, test, c, body, e, l);
      CountsOfLoop(id, l);
    }
    forall i, l | 0 <= i < |all| && Targets(all[i], l)
      ensures Count(all, l) == 1
    {
      TargetIn(a, test, c, body, e, i, l);
      CountFive(a, test, c, body, e, l);
      CountsOfLoop(id, l);
    }
  }

  /** A conditional reserves one condition id besides those of its parts. */
  lemma IfClosed(cond: seq<Instr>, yes: seq<Instr>, no: seq<Instr>, id: nat, c0: nat, c2: nat, c3: nat,
                 l0: nat, l1: nat, l2: nat)
    requires Closed(cond, c0, id, l0, l0) && Closed(yes, id + 1, c2, l0, l1) && Closed(no, c2, c3, l1, l2)
    ensures Closed(cond + (IfHead(id) + yes + IfElse(id) + no + IfEnd(id)), c0, c3, l0, l2)
  {
    hide Count;
    var a, c, e := IfHead(id), IfElse(id), IfEnd(id);
    var all := a + yes + c + no + e;
    forall l
      ensures Count(all, l) <= 1
      ensures Count(all, l) > 0 ==> Reserves(l, id, c3, l0, l2)
    {
      CountFive(a, yes, c, no, e, l);
      CountsOfIf(id, l);
    }
    forall i, l | 0 <= i < |all| && Targets(all[i], l)
      ensures Count(all, l) == 1
    {
      TargetIn(a, yes, c, no, e, i, l);
      CountFive(a, yes, c, no, e, l);
      CountsOfIf(id, l);
    }
    ClosedConcat(cond, all, c0, id, c3, l0, l0, l2);
  }

  // ----- functions -----

  /** How many labels the functions in `names` give the text `text`. */
  function Times(names: seq<string>, text: string): nat {
    if names == [] then 0 else
      var n := names[|names| - 1];
      Times(names[..|names| - 1], text) + (if n == text then 1 else 0) + (if "END_" + n == text then 1 else 0)
  }

  lemma {:induction false} TimesConcat(a: seq<string>, b: seq<string>, text: string)
    ensures Times(a + b, text) == Times(a, text) + Times(b, text)
    decreases |b|
  {
    if b == [] {
      assert a + b == a;
    } else {
      assert (a + b)[..|a + b| - 1] == a + b[..|b| - 1];
      TimesConcat(a, b[..|b| - 1], text);
    }
  }

  /** Like `Closed`, with the labels of the functions in `names` besides. */
  ghost predicate ClosedWith(code: seq<Instr>, c0: nat, c1: nat, l0: nat, l1: nat, names: seq<string>) {
    && c0 <= c1 && l0 <= l1
    && (forall l :: Count(code, l) > 0 && !l.FunctionL? ==> Count(code, l) == 1 && Reserves(l, c0, c1, l0, l1))
    && (forall text :: Count(code, FunctionL(text)) == Times(names, text))
    && (forall i, l :: 0 <= i < |code| && Targets(code[i], l) ==> Count(code, l) > 0)
    && (forall f :: f in names ==> Jump(FunctionL("END_" + f)) in code)
  }

  lemma ClosedIsWith(code: seq<Instr>, c0: nat, c1: nat, l0: nat, l1: nat)
    requires Closed(code, c0, c1, l0, l1)
    ensures ClosedWith(code, c0, c1, l0, l1, [])
  {
    forall text
      ensures Count(code, FunctionL(text)) == Times([], text)
    {
      assert !Reserves(FunctionL(text), c0, c1, l0, l1);
    }
  }

  lemma ClosedWithConcat(a: seq<Instr>, b: seq<Instr>, c0: nat, c1: nat, c2: nat, l0: nat, l1: nat, l2: nat,
                         m: seq<string>, n: seq<string>)
    requires ClosedWith(a, c0, c1, l0, l1, m) && ClosedWith(b, c1, c2, l1, l2, n)
    ensures ClosedWith(a + b, c0, c2, l0, l2, m + n)
  {
    hide Count;
    forall l
      ensures Count(a + b, l) > 0 && !l.FunctionL? ==> Count(a + b, l) == 1 && Reserves(l, c0, c2, l0, l2)
    {
      CountConcat(a, b, l);
    }
    forall text
      ensures Count(a + b, FunctionL(text)) == Times(m + n, text)
    {
      CountConcat(a, b, FunctionL(text));
      TimesConcat(m, n, text);
    }
    forall i, l | 0 <= i < |a + b| && Targets((a + b)[i], l)
      ensures Count(a + b, l) > 0
    {
      CountConcat(a, b, l);
      if i < |a| {
        assert (a + b)[i] == a[i];
      } else {
        assert (a + b)[i] == b[i - |a|];
      }
    }
  }

  function FunctionHead(f: string): seq<Instr> {
    [Jump(FunctionL("END_" + f)), Lab(FunctionL(f)), PushFrame]
  }

  function FunctionEnd(f: string): seq<Instr> {
    [PopFrame, Return, Lab(FunctionL("END_" + f))]
  }

  lemma CountsOfFunction(f: string, l: Label)
    ensures Count(FunctionHead(f), l) == if l == FunctionL(f) then 1 else 0
    ensures Count(FunctionEnd(f), l) == if l == FunctionL("END_" + f) then 1 else 0
  {
    var j, p, o, r := Jump(FunctionL("END_" + f)), PushFrame, PopFrame, Return;
    CountOne(j, l);
    CountOne(p, l);
    CountOne(o, l);
    CountOne(r, l);
    CountOne(Lab(FunctionL(f)), l);
    CountOne(Lab(FunctionL("END_" + f)), l);
    assert FunctionHead(f) == [j] + [Lab(FunctionL(f))] + [p] + [] + [];
    CountFive([j], [Lab(FunctionL(f))], [p], [], [], l);
    assert FunctionEnd(f) == [o] + [r] + [Lab(FunctionL("END_" + f))] + [] + [];
    CountFive([o], [r], [Lab(FunctionL("END_" + f))], [], [], l);
  }

  lemma TimesOne(f: string, text: string)
    ensures Times([f], text) == (if f == text then 1 else 0) + (if "END_" + f == text then 1 else 0)
  {
    assert [f][..0] == [];
  }

  /** A function adds its two labels to those of its body. */
  lemma FunctionClosed(params: seq<Instr>, body: seq<Instr>, f: string, c0: nat, c1: nat, l0: nat, l1: nat)
    requires LabelFree(params) && Closed(body, c0, c1, l0, l1)
    ensures ClosedWith(FunctionHead(f) + params + body + FunctionEnd(f) + [], c0, c1, l0, l1, [f])
  {
    hide Count;
    var a, e := FunctionHead(f), FunctionEnd(f);
    var all := a + params + body + e + [];
    assert all[0] == a[0] == Jump(FunctionL("END_" + f));
    forall l
      ensures Count(all, l) == Count(body, l) + (if l == FunctionL(f) then 1 else 0)
                               + (if l == FunctionL("END_" + f) then 1 else 0)
    {
      CountFive(a, params, body, e, [], l);
      CountsOfFunction(f, l);
      LabelFreeCount(params, l);
      LabelFreeCount([], l);
    }
    forall text
      ensures Count(all, FunctionL(text)) == Times([f], text)
    {
      TimesOne(f, text);
      assert !Reserves(FunctionL(text), c0, c1, l0, l1);
    }
    forall i, l | 0 <= i < |all| && Targets(all[i], l)
      ensures Count(all, l) > 0
    {
      TargetIn(a, params, body, e, [], i, l);
    }
  }

  /** Function names as the labels need them: all different, and none made like the label of a function's end. */
  predicate GoodNames(names: seq<string>) {
    && (forall i, j :: 0 <= i < |names| && 0 <= j < |names| ==> names[i] != "END_" + names[j])
    && forall i, j :: 0 <= i < j < |names| ==> names[i] != names[j]
  }

  lemma EndInjective(m: string, n: string)
    ensures "END_" + m == "END_" + n ==> m == n
  {
    assert ("END_" + m)[4..] == m && ("END_" + n)[4..] == n;
  }

  lemma {:induction false} TimesPositive(names: seq<string>, text: string)
    ensures Times(names, text) > 0 <==> exists i :: 0 <= i < |names| && (names[i] == text || "END_" + names[i] == text)
    decreases |names|
  {
    if names != [] {
      TimesPositive(names[..|names| - 1], text);
    }
  }

  /** With good names every label of a function is defined once. */
  lemma {:induction false} TimesAtMostOnce(names: seq<string>, text: string)
    requires GoodNames(names)
    ensures Times(names, text) <= 1
    decreases |names|
  {
    if names != [] {
      var rest, n := names[..|names| - 1], names[|names| - 1];
      TimesAtMostOnce(rest, text);
      TimesPositive(rest, text);
      forall i | 0 <= i < |rest|
        ensures rest[i] != n && "END_" + rest[i] != "END_" + n && "END_" + rest[i] != n && rest[i] != "END_" + n
      {
        EndInjective(rest[i], n);
        assert names[i] == rest[i];
      }
    }
  }

  /** A name made like the label of another's end gives that label twice. */
  lemma {:induction false} ClashCounts(names: seq<string>, i: nat, j: nat)
    requires i < |names| && j < |names| && names[i] == "END_" + names[j]
    ensures Times(names, names[i]) >= 2
    decreases |names|
  {
    var n := |names| - 1;
    var rest := names[..n];
    assert i != j;
    if i == n {
      assert rest[j] == names[j];
      TimesPositive(rest, names[i]);
    } else if j == n {
      assert rest[i] == names[i];
      TimesPositive(rest, names[i]);
    } else {
      ClashCounts(rest, i, j);
    }
  }
}
