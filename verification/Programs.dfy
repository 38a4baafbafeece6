/** The output of functions and whole programs, and whether its jumps and calls are resolved. */
module Programs {
  import opened Tokens
  import opened Machine
  import opened Hoisting
  import opened StraightLine
  import opened Labels
  import opened Headers
  import opened Rules
  import opened Blocks

  /** Outside functions and blocks. */
  predicate AtTop(s: Snap) {
    s.depth == 0 && s.inCond == 0 && s.inLoop == 0
  }

  /** The calls a part of the program adds, with the labels of its functions. */
  ghost predicate ProgWrote(a: Snap, b: Snap, part: seq<Hoisting.Call>, names: seq<string>) {
    && b.emitted == a.emitted + part && Depth(part) == 0 && Nested(part)
    && ClosedWith(Body(part), a.condUid, b.condUid, a.loopUid, b.loopUid, names)
    && CallsKnown(Body(part), a.known)
  }

  lemma ProgTrans(a: Snap, b: Snap, c: Snap, p: seq<Hoisting.Call>, q: seq<Hoisting.Call>, m: seq<string>, n: seq<string>,
                  ended: bool)
    requires ProgWrote(a, b, p, m) && b.known == a.known && (ended ==> ProgWrote(b, c, q, n))
    ensures ended ==> ProgWrote(a, c, p + q, m + n)
  {
    hide ClosedWith, Body, Depth, Nested, CallsKnown;
    if ended {
      assert a.emitted + p + q == a.emitted + (p + q);
      DepthConcat(p, q);
      NestedJoin(p, q);
      BodyConcat(p, q);
      CallsKnownConcat(Body(p), Body(q), a.known);
      ClosedWithConcat(Body(p), Body(q), a.condUid, b.condUid, c.condUid, a.loopUid, b.loopUid, c.loopUid, m, n);
    }
  }

  lemma EndWrote(a: Snap, b: Snap, part: seq<Hoisting.Call>)
    requires part == Emits([Other("LABEL $$EOF")]) && b == a.(emitted := a.emitted + part)
    ensures ProgWrote(a, b, part, [])
  {
    CodeBody([Other("LABEL $$EOF")], part);
    LabelFreeClosed(Body(part), a.condUid, a.loopUid);
    ClosedIsWith(Body(part), a.condUid, a.condUid, a.loopUid, a.loopUid);
  }

  lemma StmtWrote(a: Snap, b: Snap) returns (part: seq<Hoisting.Call>)
    requires Follows(a, b)
    ensures ProgWrote(a, b, part, []) && b.known == a.known
  {
    hide Closed, Depth, Nested;
    part :| Wrote(a, b, part);
    ClosedIsWith(Body(part), a.condUid, b.condUid, a.loopUid, b.loopUid);
  }

  lemma TopKept(a: Snap, b: Snap)
    requires Follows(a, b) && AtTop(a)
    ensures AtTop(b) && b.known == a.known
  {
  }

  lemma FunctionWrote(a: Snap, d: Snap, u: Snap, z: Snap, name: string, h: seq<Hoisting.Call>)
    returns (part: seq<Hoisting.Call>)
    requires AtTop(a) && d == a.(depth := 2, emitted := a.emitted + Emits(FunctionHead(name)) + h) && IsPlain(h)
    requires Follows(d, u.(depth := u.depth + 1))
    requires z == u.(depth := 0, emitted := u.emitted + Emits(FunctionEnd(name)))
    ensures AtTop(z) && z.known == a.known && ProgWrote(a, z, part, [name])
  {
    hide Closed, Body, Depth, Nested;
    var q :| Wrote(d, u.(depth := u.depth + 1), q);
    var head, end := Emits(FunctionHead(name)), Emits(FunctionEnd(name));
    part := head + h + q + end + [];
    CodeBody(FunctionHead(name), head);
    CodeBody(FunctionEnd(name), end);
    PlainBody(h);
    NestedThree(head, h, q);
    NestedNothing();
    Nothing();
    NestedThree(head + h + q, end, []);
    NoBody();
    BodyFive(head, h, q, end, []);
    FunctionClosed(Body(h), Body(q), name, d.condUid, u.condUid, d.loopUid, u.loopUid);
    assert a.emitted + head + h + q + end == a.emitted + part;
  }

  lemma BuiltinWrote(a: Snap, b: Snap, name: string, h: seq<Hoisting.Call>) returns (part: seq<Hoisting.Call>)
    requires IsPlain(h) && b == a.(emitted := a.emitted + Emits(FunctionHead(name)) + h + Emits(FunctionEnd(name)))
    ensures ProgWrote(a, b, part, [name]) && CallsNothing(Body(part))
  {
    hide Closed, Body, Depth, Nested;
    var head, end := Emits(FunctionHead(name)), Emits(FunctionEnd(name));
    part := head + h + [] + end + [];
    CodeBody(FunctionHead(name), head);
    CodeBody(FunctionEnd(name), end);
    PlainBody(h);
    NestedNothing();
    Nothing();
    NoBody();
    NestedThree(head, h, end);
    assert part == head + h + end;
    BodyFive(head, h, [], end, []);
    LabelFreeClosed([], a.condUid, a.loopUid);
    FunctionClosed(Body(h), [], name, a.condUid, a.condUid, a.loopUid, a.loopUid);
    assert a.emitted + head + h + end == a.emitted + part;
  }

  /** What was written before the first pass calls nothing that the first pass could find. */
  lemma MoreFunctions(a: Snap, b: Snap, known: Option<set<string>>, p: seq<Hoisting.Call>, names: seq<string>)
    requires ProgWrote(a, b, p, names) && CallsNothing(Body(p))
    ensures ProgWrote(a.(known := known), b.(known := known), p, names)
  {
    hide ClosedWith, Body, Depth, Nested;
  }

  // ----- the parser's state -----

  /** What the parser's position and the generator have to do with the buffer and the calls made so far. */
  ghost predicate ValidAt(toks: seq<Token>, world: World, pos: nat, cur: Token, inLoop: nat,
                          emitted: seq<Hoisting.Call>, g: Gen) {
    && WellBuffered(toks) && Lawful(world, toks) && pos < |toks| && cur == toks[pos]
    && g == DoAll(Hoisting.INITIAL, emitted) && Depth(emitted) == inLoop && Nested(emitted)
  }

  /** The second pass starts where the first one did, with the generator as it is. */
  lemma Rewound(toks: seq<Token>, world: World, pos: nat, cur: Token, inLoop: nat, emitted: seq<Hoisting.Call>, g: Gen)
    requires ValidAt(toks, world, pos, cur, inLoop, emitted, g)
    ensures toks != [] && ValidAt(toks, world, 0, toks[0], inLoop, emitted, g)
  {
  }

  /** At the end no loop is open, so nothing is kept back. */
  lemma ClosedUp(toks: seq<Token>, world: World, pos: nat, z: Snap, cur: Token, g: Gen)
    requires ValidAt(toks, world, pos, cur, z.inLoop, z.emitted, g) && AtTop(z)
    ensures g == Gen(0, [], Hoisted(z.emitted))
  {
    hide Depth, Nested, Hoisted, DoAll, Lawful, WellBuffered;
    ClosedOutput(z.emitted);
  }

  // ----- the finished output -----

  /** Every jump has exactly one label to go to, and every call exactly one function. */
  ghost predicate Resolved(code: seq<Instr>) {
    && (forall i, l :: 0 <= i < |code| && Targets(code[i], l) ==> Count(code, l) == 1)
    && (forall i :: 0 <= i < |code| && code[i].Call? ==> Count(code, FunctionL(code[i].name)) == 1)
  }

  /** Code that keeps to its labels and calls known functions is resolved exactly when no name clashes. */
  lemma CodeResolved(code: seq<Instr>, c: nat, l: nat, names: seq<string>, functions: set<string>)
    requires ClosedWith(code, 0, c, 0, l, names) && CallsKnown(code, Some(functions))
    requires forall f :: f in functions && NeedsFrame(f) ==> f in names
    requires forall a, b :: 0 <= a < b < |names| ==> names[a] != names[b]
    ensures Resolved(code) <==> forall m, n :: m in names && n in names ==> m != "END_" + n
  {
    hide Count, Times, NeedsFrame;
    if m, n :| m in names && n in names && m == "END_" + n {
      var i: nat :| i < |names| && names[i] == m;
      var j: nat :| j < |names| && names[j] == n;
      ClashCounts(names, i, j);
      var k :| 0 <= k < |code| && code[k] == Jump(FunctionL("END_" + n));
      assert Targets(code[k], FunctionL(m));
    } else {
      forall i, j | 0 <= i < |names| && 0 <= j < |names|
        ensures names[i] != "END_" + names[j]
      {
        assert names[i] in names && names[j] in names;
      }
      forall i, x | 0 <= i < |code| && Targets(code[i], x)
        ensures Count(code, x) == 1
      {
        if x.FunctionL? {
          TimesAtMostOnce(names, x.text);
        }
      }
      forall i | 0 <= i < |code| && code[i].Call?
        ensures Count(code, FunctionL(code[i].name)) == 1
      {
        TimesAtMostOnce(names, code[i].name);
        TimesPositive(names, code[i].name);
      }
    }
  }

  /** The label counts and the instructions of a piece of output do not depend on its order. */
  lemma {:induction false} CountIsMultiplicity(code: seq<Instr>, l: Label)
    ensures Count(code, l) == multiset(code)[Lab(l)]
    decreases |code|
  {
    if code != [] {
      CountIsMultiplicity(code[..|code| - 1], l);
      assert code == code[..|code| - 1] + [code[|code| - 1]];
    }
  }

  lemma SameElement(a: seq<Instr>, b: seq<Instr>, i: nat)
    requires multiset(a) == multiset(b) && i < |b|
    ensures exists j :: 0 <= j < |a| && a[j] == b[i]
  {
    assert b[i] in multiset(b);
    assert b[i] in multiset(a);
    assert b[i] in a;
  }

  lemma ResolvedAnyOrder(a: seq<Instr>, b: seq<Instr>)
    requires multiset(a) == multiset(b)
    ensures Resolved(a) ==> Resolved(b)
  {
    hide Count;
    if Resolved(a) {
      forall i, l | 0 <= i < |b| && Targets(b[i], l)
        ensures Count(b, l) == 1
      {
        SameElement(a, b, i);
        CountIsMultiplicity(a, l);
        CountIsMultiplicity(b, l);
      }
      forall i | 0 <= i < |b| && b[i].Call?
        ensures Count(b, FunctionL(b[i].name)) == 1
      {
        SameElement(a, b, i);
        CountIsMultiplicity(a, FunctionL(b[i].name));
        CountIsMultiplicity(b, FunctionL(b[i].name));
      }
    }
  }

  lemma {:induction false} PartsSameLines(calls: seq<Hoisting.Call>)
    ensures multiset(Instrs(Declarations(calls)) + Instrs(Others(calls))) == multiset(Body(calls))
    decreases |calls|
  {
    hide Instrs, Declarations, Others, InOrder;
    if calls == [] {
      NoBody();
    } else {
      var rest, c := calls[..|calls| - 1], calls[|calls| - 1];
      assert calls == rest + [c];
      PartsSameLines(rest);
      Snoc(rest, c);
      BodyConcat(rest, [c]);
      OneCall(c);
      NoLines();
      InstrsConcat(Declarations(rest), DeclLines(c));
      InstrsConcat(Others(rest), OtherLines(c));
    }
  }

  /** Hoisting moves lines and does nothing else. */
  lemma {:induction false} HoistedSameLines(calls: seq<Hoisting.Call>)
    ensures multiset(Instrs(Hoisted(calls))) == multiset(Body(calls))
    decreases |calls|
  {
    hide Instrs, Declarations, Others, Body;
    if calls == [] {
      NoBody();
      NoLines();
    } else {
      var k := Outermost(calls[..|calls| - 1]);
      var a, b := calls[..k], calls[k..];
      assert calls == a + b;
      HoistedSameLines(a);
      PartsSameLines(b);
      BodyConcat(a, b);
      InstrsConcat(Hoisted(a), Declarations(b));
      InstrsConcat(Hoisted(a) + Declarations(b), Others(b));
    }
  }

  /** Label resolution in the finished output: `functions` are those that may be called, `names` those that have been
      written after the built-in ones. */
  lemma ResolvedExactly(toks: seq<Token>, a: Snap, b: Snap, c: Snap, z: Snap, p: seq<Hoisting.Call>,
                        q: seq<Hoisting.Call>, names: seq<string>, functions: set<string>)
    requires a.condUid == a.loopUid == 0 && a.emitted == []
    requires ProgWrote(a, b, p, ["ord", "substring"]) && CallsNothing(Body(p))
    requires c == b.(known := Some(functions)) && ProgWrote(c, z, q, names)
    requires Cover(toks, names) && forall f :: f in functions && NeedsFrame(f) ==> f in AllNames(toks)
    ensures Resolved(Instrs(Hoisted(z.emitted))) <==> NoEndNames(toks)
  {
    hide ClosedWith, Body, Depth, Nested, Resolved, Instrs, Hoisted, FuncNames, CallsKnown, CallsNothing;
    var all := ["ord", "substring"] + names;
    MoreFunctions(a, b, Some(functions), p, ["ord", "substring"]);
    ProgTrans(a.(known := Some(functions)), c, z, p, q, ["ord", "substring"], names, true);
    assert z.emitted == p + q;
    CoverAll(toks, names);
    CodeResolved(Body(p + q), z.condUid, z.loopUid, all, functions);
    HoistedSameLines(p + q);
    ResolvedAnyOrder(Body(p + q), Instrs(Hoisted(p + q)));
    ResolvedAnyOrder(Instrs(Hoisted(p + q)), Body(p + q));
  }

  /** The functions of the program, each once, in whatever order. */
  ghost predicate Cover(toks: seq<Token>, names: seq<string>) {
    && (forall n :: n in names <==> n in FuncNames(toks, 0))
    && (forall a, b :: 0 <= a < b < |names| ==> names[a] != names[b])
    && forall n :: n in names ==> n !in BUILTINS
  }

  lemma CoverAll(toks: seq<Token>, names: seq<string>)
    requires Cover(toks, names)
    ensures var all := ["ord", "substring"] + names;
            && (forall n :: n in all <==> n in AllNames(toks))
            && forall a, b :: 0 <= a < b < |all| ==> all[a] != all[b]
  {
    hide FuncNames;
    var all := ["ord", "substring"] + names;
    forall a, b | 0 <= a < b < |all|
      ensures all[a] != all[b]
    {
      assert b >= 2 ==> all[b] == names[b - 2] && names[b - 2] in names;
    }
  }
}
