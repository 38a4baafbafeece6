/** The generator's output while loops are open: declarations are printed at once, everything else is kept back
    until the outermost loop closes. */
module Hoisting {
  import opened Tokens
  import opened Machine

  /** A line of output; `Decl` is one that the generator's declaration routine prints. */
  datatype Line = Decl(x: VarRef) | Code(i: Instr)

  /** A call of the generator. */
  datatype Call = Declare(x: VarRef) | Emit(i: Instr) | OpenLoop(id: nat) | CloseLoop(id: nat)

  datatype Gen = Gen(forOpen: int, buffer: seq<Line>, out: seq<Line>)

  class Generator {
    var forOpen: int
    var printBuffer: seq<Line>
    var out: seq<Line>
    var funcParamId: nat

    function State(): Gen
      reads this
    {
      Gen(forOpen, printBuffer, out)
    }

    constructor ()
      ensures State() == Gen(0, [], []) && funcParamId == 0
    {
      forOpen, printBuffer, out, funcParamId := 0, [], [], 0;
    }

    method BufferPrint(line: Line)
      modifies this`forOpen, this`printBuffer, this`out
      ensures State() == Print(old(State()), line)
    {
      if forOpen > 0 {
        printBuffer := printBuffer + [line];
      } else {
        out := out + [line];
      }
    }

    method BufferTransmit()
      modifies this`forOpen, this`printBuffer, this`out
      ensures State() == Gen(old(forOpen), [], old(out) + old(printBuffer))
    {
      out := out + printBuffer;
      printBuffer := [];
    }

    method Defvar(x: VarRef)
      modifies this`forOpen, this`printBuffer, this`out
      ensures State() == Do(old(State()), Declare(x))
    {
      out := out + [Decl(x)];
    }

    method EmitCode(i: Instr)
      modifies this`forOpen, this`printBuffer, this`out
      ensures State() == Do(old(State()), Emit(i))
    {
      BufferPrint(Code(i));
    }

    method LoopLabel(id: nat)
      modifies this`forOpen, this`printBuffer, this`out
      ensures State() == Do(old(State()), OpenLoop(id))
    {
      forOpen := forOpen + 1;
      BufferPrint(Code(Lab(ForL(id))));
    }

    method LoopEnd(id: nat)
      modifies this`forOpen, this`printBuffer, this`out
      ensures State() == Do(old(State()), CloseLoop(id))
    {
      BufferPrint(Code(Jump(ForL(id))));
      BufferPrint(Code(Lab(ForEndL(id))));
      forOpen := forOpen - 1;
      if forOpen <= 0 {
        BufferTransmit();
      }
    }

    /** A whole list of calls. */
    method Generate(calls: seq<Call>)
      modifies this`forOpen, this`printBuffer, this`out
      ensures State() == DoAll(old(State()), calls)
    {
      for k := 0 to |calls|
        invariant State() == DoAll(old(State()), calls[..k])
      {
        assert calls[..k + 1][..k] == calls[..k];
        match calls[k]
        case Declare(x) => Defvar(x);
        case Emit(i) => EmitCode(i);
        case OpenLoop(id) => LoopLabel(id);
        case CloseLoop(id) => LoopEnd(id);
      }
      assert calls[..|calls|] == calls;
    }
  
    method Frame()
      modifies this`forOpen, this`printBuffer, this`out
      ensures State() == DoAll(old(State()), [Emit(CreateFrame)])
    {
      EmitCode(CreateFrame);
      DoOne(old(State()), Emit(CreateFrame));
    }

    /** An argument of a call: its slot in the temporary frame, which the first argument makes. */
    method ParamAdd(arg: Source)
      modifies this
      ensures funcParamId == old(funcParamId) + 1
      ensures State() == DoAll(old(State()), SlotCalls(old(funcParamId), arg))
    {
      ghost var g := State();
      if funcParamId == 0 {
        Frame();
      }
      ghost var g1 := State();
      Defvar(Slot(funcParamId));
      EmitCode(Move(Slot(funcParamId), arg));
      ghost var d, e := Declare(Slot(funcParamId)), Emit(Move(Slot(funcParamId), arg));
      DoOne(g1, d);
      DoOne(DoAll(g1, [d]), e);
      DoAllConcat(g1, [d], [e]);
      assert [d] + [e] == [d, e];
      DoAllConcat(g, [Emit(CreateFrame)], [d, e]);
      assert [] + [d, e] == [d, e];
      funcParamId := funcParamId + 1;
    }

    /** The call itself, which makes the frame when there was no argument. */
    method FunctionCall(name: string)
      modifies this
      ensures funcParamId == 0
      ensures State() == DoAll(old(State()), LastCalls(old(funcParamId), name))
    {
      ghost var g := State();
      if funcParamId == 0 {
        Frame();
      }
      ghost var g1 := State();
      EmitCode(Instr.Call(name));
      DoOne(g1, Emit(Instr.Call(name)));
      DoAllConcat(g, [Emit(CreateFrame)], [Emit(Instr.Call(name))]);
      assert [] + [Emit(Instr.Call(name))] == [Emit(Instr.Call(name))];
      funcParamId := 0;
    }
  }

  // ----- specification -----

  function Print(g: Gen, line: Line): Gen {
    if g.forOpen > 0 then g.(buffer := g.buffer + [line]) else g.(out := g.out + [line])
  }

  function Do(g: Gen, c: Call): Gen {
    match c
    case Declare(x) => g.(out := g.out + [Decl(x)])
    case Emit(i) => Print(g, Code(i))
    case OpenLoop(id) => Print(g.(forOpen := g.forOpen + 1), Code(Lab(ForL(id))))
    case CloseLoop(id) =>
      var g' := Print(Print(g, Code(Jump(ForL(id)))), Code(Lab(ForEndL(id))));
      if g.forOpen <= 1 then Gen(g.forOpen - 1, [], g'.out + g'.buffer) else g'.(forOpen := g.forOpen - 1)
  }

  function DoAll(g: Gen, calls: seq<Call>): Gen {
    if calls == [] then g else Do(DoAll(g, calls[..|calls| - 1]), calls[|calls| - 1])
  }

  /** Arguments travel in a temporary frame as `??_0`, `??_1`, and so on. */
  function Slot(i: nat): VarRef {
    VarRef(TF, "??", i)
  }

  /** What is emitted for the argument in slot `k`. */
  function SlotCalls(k: nat, arg: Source): seq<Call> {
    (if k == 0 then [Emit(CreateFrame)] else []) + [Declare(Slot(k)), Emit(Move(Slot(k), arg))]
  }

  /** What is emitted for a call after `k` arguments. */
  function LastCalls(k: nat, name: string): seq<Call> {
    (if k == 0 then [Emit(CreateFrame)] else []) + [Emit(Instr.Call(name))]
  }

  lemma DoOne(g: Gen, c: Call)
    ensures DoAll(g, [c]) == Do(g, c)
  {
    assert [c][..0] == [];
    assert DoAll(g, []) == g;
  }

  lemma {:induction false} DoAllConcat(g: Gen, a: seq<Call>, b: seq<Call>)
    ensures DoAll(g, a + b) == DoAll(DoAll(g, a), b)
    decreases |b|
  {
    hide Do;
    if b == [] {
      assert a + b == a;
    } else {
      assert (a + b)[..|a + b| - 1] == a + b[..|b| - 1];
      DoAllConcat(g, a, b[..|b| - 1]);
    }
  }

  // ----- what the output should be -----

  function LinesOf(c: Call): seq<Line> {
    match c
    case Declare(x) => [Decl(x)]
    case Emit(i) => [Code(i)]
    case OpenLoop(id) => [Code(Lab(ForL(id)))]
    case CloseLoop(id) => [Code(Jump(ForL(id))), Code(Lab(ForEndL(id)))]
  }

  function Delta(c: Call): int {
    if c.OpenLoop? then 1 else if c.CloseLoop? then -1 else 0
  }

  function DeclLines(c: Call): seq<Line> {
    if c.Declare? then LinesOf(c) else []
  }

  function OtherLines(c: Call): seq<Line> {
    if c.Declare? then [] else LinesOf(c)
  }

  /** The declaration lines of the calls, in order. */
  function Declarations(calls: seq<Call>): seq<Line> {
    if calls == [] then [] else
      Declarations(calls[..|calls| - 1]) + DeclLines(calls[|calls| - 1])
  }

  /** All other lines, in order. */
  function Others(calls: seq<Call>): seq<Line> {
    if calls == [] then [] else
      Others(calls[..|calls| - 1]) + OtherLines(calls[|calls| - 1])
  }

  function Depth(calls: seq<Call>): int {
    if calls == [] then 0 else
      Depth(calls[..|calls| - 1]) + Delta(calls[|calls| - 1])
  }

  /** Loops close only what they opened. */
  predicate Nested(calls: seq<Call>) {
    forall k :: 0 <= k <= |calls| ==> Depth(calls[..k]) >= 0
  }

  /** Where the last outermost loop still open begins, or the length when none is open. */
  function Outermost(calls: seq<Call>): (k: nat)
    ensures k <= |calls|
  {
    if Depth(calls) <= 0 || calls == [] then |calls| else Outermost(calls[..|calls| - 1])
  }

  /** The hoisted output: outside loops line by line, and each outermost loop as its declarations followed by all
      its other lines. */
  function Hoisted(calls: seq<Call>): seq<Line>
    decreases |calls|
  {
    if calls == [] then [] else
      var rest := calls[..|calls| - 1];
      var k := Outermost(rest);
      Hoisted(calls[..k]) + Declarations(calls[k..]) + Others(calls[k..])
  }

  const INITIAL := Gen(0, [], [])

  lemma NestedPrefix(calls: seq<Call>, k: nat)
    requires Nested(calls) && k <= |calls|
    ensures Nested(calls[..k]) && Depth(calls[..k]) >= 0
  {
    forall j | 0 <= j <= k
      ensures Depth(calls[..k][..j]) >= 0
    {
      assert calls[..k][..j] == calls[..j];
    }
  }

  lemma Snoc(part: seq<Call>, c: Call)
    ensures Declarations(part + [c]) == Declarations(part) + DeclLines(c)
    ensures Others(part + [c]) == Others(part) + OtherLines(c)
    ensures Depth(part + [c]) == Depth(part) + Delta(c)
  {
    assert (part + [c])[..|part|] == part;
  }

  /** At every moment: what is printed is the hoisted output of the loops closed so far, followed by the open
      loop's declarations; what is kept back is the rest of the open loop. */
  ghost predicate Holds(calls: seq<Call>, g: Gen) {
    var k := Outermost(calls);
    g == Gen(Depth(calls), Others(calls[k..]), Hoisted(calls[..k]) + Declarations(calls[k..]))
  }

  lemma {:induction false} GeneratesHoisted(calls: seq<Call>)
    requires Nested(calls)
    ensures Holds(calls, DoAll(INITIAL, calls))
    decreases |calls|
  {
    if calls != [] {
      var n := |calls| - 1;
      NestedPrefix(calls, n);
      NestedPrefix(calls, n + 1);
      assert calls[..n + 1] == calls == calls[..n] + [calls[n]];
      GeneratesHoisted(calls[..n]);
      HoldsNext(calls[..n], calls[n], DoAll(INITIAL, calls[..n]));
    }
  }

  /** One call, in terms of what has been printed before the open loop (`h`), of the loop's declarations (`d`) and
      of its other lines (`o`). */
  lemma DoParts(depth: int, h: seq<Line>, d: seq<Line>, o: seq<Line>, c: Call)
    requires depth >= 0 && depth + Delta(c) >= 0 && (depth == 0 ==> d == [] && o == [])
    ensures Do(Gen(depth, o, h + d), c) ==
      if depth + Delta(c) == 0 then Gen(0, [], h + (d + DeclLines(c)) + (o + OtherLines(c)))
      else Gen(depth + Delta(c), o + OtherLines(c), h + (d + DeclLines(c)))
  {
  }

  lemma HoldsNext(rest: seq<Call>, c: Call, g: Gen)
    requires Holds(rest, g) && Depth(rest) >= 0 && Depth(rest + [c]) >= 0
    ensures Holds(rest + [c], Do(g, c))
  {
    hide Declarations, Others, Depth, Hoisted, Do, LinesOf;
    var calls, k := rest + [c], Outermost(rest);
    Snoc(rest, c);
    Snoc(rest[k..], c);
    Nothing();
    assert calls[..|rest|] == rest && calls[k..] == rest[k..] + [c] && calls[..k] == rest[..k];
    assert calls[..|calls|] == calls && calls[|calls|..] == [];
    HoistedNext(rest, c);
    OutermostNext(rest, c);
    DoParts(Depth(rest), Hoisted(rest[..k]), Declarations(rest[k..]), Others(rest[k..]), c);
    assert Hoisted(calls) + [] == Hoisted(calls);
  }

  lemma OutermostNext(rest: seq<Call>, c: Call)
    requires Depth(rest) >= 0
    ensures var calls := rest + [c];
            Outermost(calls) == if Depth(calls) <= 0 then |calls| else Outermost(rest)
    ensures Depth(rest) == 0 ==> rest[Outermost(rest)..] == []
  {
    assert (rest + [c])[..|rest|] == rest;
  }

  lemma Nothing()
    ensures Declarations([]) == [] && Others([]) == [] && Depth([]) == 0
  {
  }

  lemma HoistedNext(rest: seq<Call>, c: Call)
    ensures var k := Outermost(rest);
            Hoisted(rest + [c]) == Hoisted(rest[..k]) + Declarations(rest[k..] + [c]) + Others(rest[k..] + [c])
  {
    var calls, k := rest + [c], Outermost(rest);
    assert calls[..|rest|] == rest && calls[k..] == rest[k..] + [c] && calls[..k] == rest[..k];
  }

  /** When all loops are closed nothing is kept back, and the output is the hoisted output. */
  lemma ClosedOutput(calls: seq<Call>)
    requires Nested(calls) && Depth(calls) == 0
    ensures DoAll(INITIAL, calls) == Gen(0, [], Hoisted(calls))
  {
    hide Declarations, Others, Hoisted, DoAll, Nested;
    GeneratesHoisted(calls);
    Nothing();
    assert calls[..|calls|] == calls && calls[|calls|..] == [];
    assert Hoisted(calls) + [] == Hoisted(calls);
  }

  /** One outermost loop: open all the way, and closed by its last call. */
  predicate OneLoop(loop: seq<Call>) {
    && |loop| >= 2 && Depth(loop) == 0
    && forall k :: 0 < k < |loop| ==> Depth(loop[..k]) > 0
  }

  lemma {:induction false} DepthConcat(a: seq<Call>, b: seq<Call>)
    ensures Depth(a + b) == Depth(a) + Depth(b)
    decreases |b|
  {
    if b == [] {
      assert a + b == a;
    } else {
      assert (a + b)[..|a + b| - 1] == a + b[..|b| - 1];
      DepthConcat(a, b[..|b| - 1]);
    }
  }

  lemma {:induction false} OutermostOf(before: seq<Call>, part: seq<Call>)
    requires Depth(before) == 0 && part != [] && forall k :: 0 < k <= |part| ==> Depth(part[..k]) > 0
    ensures Outermost(before + part) == |before|
    decreases |part|
  {
    var calls := before + part;
    DepthConcat(before, part);
    assert part[..|part|] == part;
    assert calls[..|calls| - 1] == before + part[..|part| - 1];
    if |part| == 1 {
      assert calls[..|calls| - 1] == before;
    } else {
      var shorter := part[..|part| - 1];
      forall k | 0 < k <= |shorter|
        ensures Depth(shorter[..k]) > 0
      {
        assert shorter[..k] == part[..k];
      }
      OutermostOf(before, shorter);
    }
  }

  /** The output of each outermost loop is its declarations in order, then its label, body and end: no declaration
      lies between a loop's labels. */
  lemma LoopOutput(before: seq<Call>, loop: seq<Call>)
    requires Depth(before) == 0 && OneLoop(loop)
    ensures Hoisted(before + loop) == Hoisted(before) + Declarations(loop) + Others(loop)
    ensures forall j :: 0 <= j < |Declarations(loop)| ==> Declarations(loop)[j].Decl?
    ensures forall j :: 0 <= j < |Others(loop)| ==> !Others(loop)[j].Decl?
  {
    hide Declarations, Others, Depth, Hoisted;
    var n := |loop| - 1;
    var part, c := loop[..n], loop[n];
    assert loop == part + [c] && before + loop == (before + part) + [c];
    forall k | 0 < k <= |part|
      ensures Depth(part[..k]) > 0
    {
      assert part[..k] == loop[..k];
    }
    OutermostOf(before, part);
    HoistedNext(before + part, c);
    assert (before + part)[..|before|] == before && (before + part)[|before|..] == part;
    Sorted(loop);
  }

  lemma {:induction false} Sorted(calls: seq<Call>)
    ensures forall j :: 0 <= j < |Declarations(calls)| ==> Declarations(calls)[j].Decl?
    ensures forall j :: 0 <= j < |Others(calls)| ==> !Others(calls)[j].Decl?
    decreases |calls|
  {
    if calls != [] {
      Sorted(calls[..|calls| - 1]);
    }
  }

  /** The lines of one sort, in order. */
  function Only(lines: seq<Line>, decl: bool): seq<Line> {
    if lines == [] then [] else
      var last := lines[|lines| - 1];
      Only(lines[..|lines| - 1], decl) + if last.Decl? == decl then [last] else []
  }

  lemma {:induction false} OnlyConcat(a: seq<Line>, b: seq<Line>, decl: bool)
    ensures Only(a + b, decl) == Only(a, decl) + Only(b, decl)
    decreases |b|
  {
    if b == [] {
      assert a + b == a;
    } else {
      assert (a + b)[..|a + b| - 1] == a + b[..|b| - 1];
      OnlyConcat(a, b[..|b| - 1], decl);
    }
  }

  lemma {:induction false} OnlySorted(lines: seq<Line>, decl: bool)
    requires forall j :: 0 <= j < |lines| ==> lines[j].Decl? == decl
    ensures Only(lines, decl) == lines && Only(lines, !decl) == []
    decreases |lines|
  {
    if lines != [] {
      OnlySorted(lines[..|lines| - 1], decl);
    }
  }

  lemma {:induction false} PartsConcat(a: seq<Call>, b: seq<Call>)
    ensures Declarations(a + b) == Declarations(a) + Declarations(b) && Others(a + b) == Others(a) + Others(b)
    decreases |b|
  {
    hide DeclLines, OtherLines;
    if b == [] {
      assert a + b == a;
    } else {
      assert (a + b)[..|a + b| - 1] == a + b[..|b| - 1];
      PartsConcat(a, b[..|b| - 1]);
    }
  }

  /** Hoisting is a stable partition of every chunk: it loses no line, invents none, and keeps the order of the
      declarations and the order of everything else. */
  lemma {:induction false} HoistingIsStable(calls: seq<Call>)
    ensures Only(Hoisted(calls), true) == Declarations(calls)
    ensures Only(Hoisted(calls), false) == Others(calls)
    decreases |calls|
  {
    hide Declarations, Others, Only;
    if calls == [] {
      Nothing();
      OnlySorted([], true);
    } else {
      var k := Outermost(calls[..|calls| - 1]);
      var a, b := calls[..k], calls[k..];
      HoistingIsStable(a);
      Sorted(b);
      ChunkSorted(Hoisted(a), Declarations(b), Others(b));
      assert a + b == calls;
      PartsConcat(a, b);
    }
  }

  lemma ChunkSorted(h: seq<Line>, d: seq<Line>, o: seq<Line>)
    requires (forall j :: 0 <= j < |d| ==> d[j].Decl?) && (forall j :: 0 <= j < |o| ==> !o[j].Decl?)
    ensures Only(h + d + o, true) == Only(h, true) + d && Only(h + d + o, false) == Only(h, false) + o
  {
    OnlyDeclared(h, d, o);
    OnlyOther(h, d, o);
  }

  lemma OnlyDeclared(h: seq<Line>, d: seq<Line>, o: seq<Line>)
    requires (forall j :: 0 <= j < |d| ==> d[j].Decl?) && (forall j :: 0 <= j < |o| ==> !o[j].Decl?)
    ensures Only(h + d + o, true) == Only(h, true) + d
  {
    hide Only;
    OnlySorted(d, true);
    OnlySorted(o, false);
    OnlyConcat(h + d, o, true);
    OnlyConcat(h, d, true);
    EmptyEnd(Only(h, true) + d);
  }

  lemma OnlyOther(h: seq<Line>, d: seq<Line>, o: seq<Line>)
    requires (forall j :: 0 <= j < |d| ==> d[j].Decl?) && (forall j :: 0 <= j < |o| ==> !o[j].Decl?)
    ensures Only(h + d + o, false) == Only(h, false) + o
  {
    hide Only;
    OnlySorted(d, true);
    OnlySorted(o, false);
    OnlyConcat(h + d, o, false);
    OnlyConcat(h, d, false);
    EmptyEnd(Only(h, false));
  }

  lemma EmptyEnd(s: seq<Line>)
    ensures s + [] == s
  {
  }
}
