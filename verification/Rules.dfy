/** What the rules of the recursive-descent parser have in common: the world that answers their questions, and
    what a successful rule may change. */
module Rules {
  import opened Tokens
  import opened Machine
  import opened Hoisting
  import opened StraightLine
  import opened Labels
  import opened Headers
  import opened Scopes
  import ExprParsing
  import Semantics
  import Sentences

  /** What a call of the expression parser comes to: an error, or the new cursor, the code, the ids drawn and the
      result's type. */
  datatype ExprResult = ExprResult(error: nat, pos: nat, code: seq<Instr>, condUid: nat, ty: Type, nilable: bool)

  /** The expressions, by the number of the question, the visible symbols, the assigned variable, the cursor and the
      next id; and the lines of the built-in functions, by the number of the question. */
  datatype World = World(expr: (nat, seq<Scope>, Scope, Option<Item>, nat, nat) -> ExprResult,
                         plain: nat -> seq<Hoisting.Call>)

  /** Calls of the generator that define no label, do not jump and call no function. */
  predicate IsPlain(calls: seq<Hoisting.Call>) {
    forall i :: 0 <= i < |calls| ==>
      calls[i].Declare? ||
      (calls[i].Emit? && !calls[i].i.Lab? && !calls[i].i.Jump? && !calls[i].i.JumpIfNeqs? && !calls[i].i.Call?)
  }

  /** A call of the expression parser from `pos` to `end` that keeps to what a sentence does: the cursor forward, over no
      function keyword, and code that keeps to the labels it draws. */
  ghost predicate GoodExpr(toks: seq<Token>, pos: nat, uid: nat, end: nat, code: seq<Instr>, uid': nat) {
    pos < end < |toks| && NoFunc(toks, pos + 1, end) && Closed(code, uid, uid', 0, 0) && CallsNothing(code)
  }

  /** A call without an error, with the result `r`. */
  ghost predicate ExprCall(toks: seq<Token>, scopes: seq<Scope>, globals: Scope, lhs: Option<Item>, pos: nat, uid: nat,
                           r: ExprResult, ctx: Semantics.Ctx, sem: Semantics.Sem, out: ExprParsing.Outcome)
    requires toks != []
  {
    && ctx.toks == toks && ctx.scopes == scopes && ctx.globals == globals && ctx.lhs == lhs && sem.condUid == uid
    && Sentences.Returns(ctx, pos, sem, out) && out.sem.err == NO_ERR
    && r.pos == out.pos && out.sem.code == sem.code + r.code && r.condUid == out.sem.condUid
    && r.ty == out.result.ty && r.nilable == out.result.nilable
  }

  /** What the expression parser returns, if it reports no error, is the outcome of one of its calls. */
  ghost predicate Genuine(toks: seq<Token>, scopes: seq<Scope>, globals: Scope, lhs: Option<Item>, pos: nat, uid: nat,
                          r: ExprResult)
    requires toks != []
  {
    r.error == NO_ERR ==> exists ctx, sem, out :: ExprCall(toks, scopes, globals, lhs, pos, uid, r, ctx, sem, out)
  }

  ghost predicate Lawful(w: World, toks: seq<Token>) {
    && (forall n :: IsPlain(w.plain(n)))
    && forall n: nat, scopes, globals, lhs, pos: nat, uid: nat :: pos + 1 < |toks| ==>
         Genuine(toks, scopes, globals, lhs, pos, uid, w.expr(n, scopes, globals, lhs, pos, uid))
  }

  // ----- what a rule may change -----

  /** `known` are the functions that may be called, where the program is such that only these are. */
  datatype Snap = Snap(depth: nat, inCond: nat, inLoop: nat, condUid: nat, loopUid: nat, emitted: seq<Hoisting.Call>,
                       known: Option<set<string>>)

  predicate CallsKnown(code: seq<Instr>, known: Option<set<string>>) {
    known.Some? ==> forall i :: 0 <= i < |code| && code[i].Call? ==> code[i].name in known.value && NeedsFrame(code[i].name)
  }

  /** The calls a rule adds: its loops are closed again, its labels are its own, and it calls known functions. */
  ghost predicate Wrote(a: Snap, b: Snap, part: seq<Hoisting.Call>) {
    && b.emitted == a.emitted + part && Depth(part) == 0 && Nested(part)
    && Closed(Body(part), a.condUid, b.condUid, a.loopUid, b.loopUid) && CallsKnown(Body(part), a.known)
  }

  /** A successful rule: scopes and counters are as before; what it wrote is closed. */
  ghost predicate Follows(a: Snap, b: Snap) {
    && b.depth == a.depth && b.inCond == a.inCond && b.inLoop == a.inLoop && b.known == a.known
    && exists part :: Wrote(a, b, part)
  }

  // ----- pieces of output -----

  lemma NestedNothing()
    ensures Nested([])
  {
    Nothing();
  }

  lemma {:induction false} BodyConcat(a: seq<Hoisting.Call>, b: seq<Hoisting.Call>)
    ensures Body(a + b) == Body(a) + Body(b)
    decreases |b|
  {
    if b == [] {
      assert a + b == a;
      assert Instrs(InOrder([])) == [];
    } else {
      var n := |b| - 1;
      assert (a + b)[..|a + b| - 1] == a + b[..n];
      BodyConcat(a, b[..n]);
      InstrsConcat(InOrder(a + b[..n]), LinesOf(b[n]));
      InstrsConcat(InOrder(b[..n]), LinesOf(b[n]));
    }
  }

  lemma {:induction false} NestedConcat(a: seq<Hoisting.Call>, b: seq<Hoisting.Call>)
    requires Nested(a) && forall k :: 0 <= k <= |b| ==> Depth(a) + Depth(b[..k]) >= 0
    ensures Nested(a + b)
  {
    forall k | 0 <= k <= |a + b|
      ensures Depth((a + b)[..k]) >= 0
    {
      if k <= |a| {
        assert (a + b)[..k] == a[..k];
      } else {
        assert (a + b)[..k] == a + b[..k - |a|];
        DepthConcat(a, b[..k - |a|]);
      }
    }
  }

  lemma NestedJoin(p: seq<Hoisting.Call>, q: seq<Hoisting.Call>)
    requires Nested(p) && Nested(q) && Depth(p) == 0
    ensures Nested(p + q)
  {
    NestedConcat(p, q);
  }

  lemma NestedMore(part: seq<Hoisting.Call>, c: Hoisting.Call)
    requires Nested(part) && Depth(part) == 0 && (c.Declare? || c.Emit?)
    ensures Nested(part + [c]) && Depth(part + [c]) == 0
  {
    Snoc(part, c);
    forall k | 0 <= k <= |part| + 1
      ensures Depth((part + [c])[..k]) >= 0
    {
      if k <= |part| {
        assert (part + [c])[..k] == part[..k];
      } else {
        assert (part + [c])[..k] == part + [c];
      }
    }
  }

  lemma OneCall(c: Hoisting.Call)
    ensures Depth([c]) == Delta(c) && Body([c]) == Instrs(LinesOf(c))
  {
    Snoc([], c);
    Nothing();
    assert [c][..0] == [] && [] + [c] == [c];
    NoBody();
    InstrsConcat([], LinesOf(c));
    assert [] + LinesOf(c) == LinesOf(c);
  }

  function Emits(code: seq<Instr>): seq<Hoisting.Call> {
    seq(|code|, i requires 0 <= i < |code| => Emit(code[i]))
  }

  lemma EmitsTwo(a: seq<Instr>, b: seq<Instr>, before: seq<Hoisting.Call>)
    ensures before + Emits(a) + Emits(b) == before + Emits(a + b)
  {
    assert Emits(a) + Emits(b) == Emits(a + b);
  }

  lemma {:induction false} CodeBody(code: seq<Instr>, calls: seq<Hoisting.Call>)
    requires |calls| == |code| && forall i :: 0 <= i < |code| ==> calls[i] == Emit(code[i])
    ensures Body(calls) == code && Depth(calls) == 0 && Nested(calls)
    decreases |code|
  {
    hide Body, Depth, Nested;
    if code == [] {
      NoBody();
      Nothing();
      NestedNothing();
    } else {
      var n := |code| - 1;
      CodeBody(code[..n], calls[..n]);
      BodyNext(calls[..n], calls[n]);
      NestedMore(calls[..n], calls[n]);
      assert calls == calls[..n] + [calls[n]] && code == code[..n] + [code[n]];
    }
  }

  lemma {:induction false} PlainBody(part: seq<Hoisting.Call>)
    requires IsPlain(part)
    ensures LabelFree(Body(part)) && CallsNothing(Body(part)) && Depth(part) == 0 && Nested(part)
    decreases |part|
  {
    if part != [] {
      var n := |part| - 1;
      PlainBody(part[..n]);
      BodyNext(part[..n], part[n]);
      assert part == part[..n] + [part[n]];
      NestedMore(part[..n], part[n]);
    }
  }

  lemma EvenKeeps(before: seq<Hoisting.Call>, calls: seq<Hoisting.Call>)
    requires Nested(before) && Depth(before) >= 0 && Nested(calls) && Depth(calls) == 0
    ensures Nested(before + calls) && Depth(before + calls) == Depth(before)
  {
    hide Depth;
    DepthConcat(before, calls);
    forall k | 0 <= k <= |calls|
      ensures Depth(before) + Depth(calls[..k]) >= 0
    {
    }
    NestedConcat(before, calls);
  }

  lemma LoopKeeps(before: seq<Hoisting.Call>, c: Hoisting.Call)
    requires Nested(before) && Depth(before) + Delta(c) >= 0 && Depth(before) >= 0
    ensures Nested(before + [c]) && Depth(before + [c]) == Depth(before) + Delta(c)
  {
    hide Depth;
    Snoc(before, c);
    OneCall(c);
    Nothing();
    forall k | 0 <= k <= 1
      ensures Depth(before) + Depth([c][..k]) >= 0
    {
      assert [c][..k] == if k == 0 then [] else [c];
    }
    NestedConcat(before, [c]);
  }

  // ----- successive steps -----

  lemma CallsKnownConcat(a: seq<Instr>, b: seq<Instr>, known: Option<set<string>>)
    requires CallsKnown(a, known) && CallsKnown(b, known)
    ensures CallsKnown(a + b, known)
  {
  }

  lemma WroteNothing(a: Snap, b: Snap)
    requires b.emitted == a.emitted && b.condUid == a.condUid && b.loopUid == a.loopUid
    ensures Wrote(a, b, [])
  {
    LabelFreeClosed([], a.condUid, a.loopUid);
    assert Body([]) == [];
    assert Depth([]) == 0;
  }

  lemma WroteTrans(a: Snap, b: Snap, c: Snap, p: seq<Hoisting.Call>, q: seq<Hoisting.Call>)
    requires Wrote(a, b, p) && Wrote(b, c, q) && b.known == a.known
    ensures Wrote(a, c, p + q)
  {
    hide Closed, Body, Depth, Nested, CallsKnown;
    assert a.emitted + p + q == a.emitted + (p + q);
    DepthConcat(p, q);
    NestedJoin(p, q);
    BodyConcat(p, q);
    CallsKnownConcat(Body(p), Body(q), a.known);
    ClosedConcat(Body(p), Body(q), a.condUid, b.condUid, c.condUid, a.loopUid, b.loopUid, c.loopUid);
  }

  lemma WrotePlain(a: Snap, b: Snap, part: seq<Hoisting.Call>)
    requires IsPlain(part) && b.emitted == a.emitted + part && b.condUid == a.condUid && b.loopUid == a.loopUid
    ensures Wrote(a, b, part)
  {
    PlainBody(part);
    LabelFreeClosed(Body(part), a.condUid, a.loopUid);
  }

  lemma FollowsRefl(a: Snap)
    ensures Follows(a, a)
  {
    WroteNothing(a, a);
  }

  lemma FollowsTrans(a: Snap, b: Snap, c: Snap)
    requires Follows(a, b) && Follows(b, c)
    ensures Follows(a, c)
  {
    hide Wrote;
    var p :| Wrote(a, b, p);
    var q :| Wrote(b, c, q);
    WroteTrans(a, b, c, p, q);
  }

  lemma FollowsWrite(from: Snap, a: Snap, b: Snap, part: seq<Hoisting.Call>)
    requires Follows(from, a) && Wrote(a, b, part)
    requires b == a.(emitted := b.emitted, condUid := b.condUid, loopUid := b.loopUid)
    ensures Follows(from, b)
  {
    hide Wrote;
    FollowsTrans(from, a, b);
  }

  lemma StaysNested(a: Snap, b: Snap, calls: seq<Hoisting.Call>)
    requires Wrote(a, b, calls)
    ensures Nested(a.emitted) && Depth(a.emitted) >= 0 ==> Nested(b.emitted) && Depth(b.emitted) == Depth(a.emitted)
  {
    DepthConcat(a.emitted, calls);
    if Nested(a.emitted) && Depth(a.emitted) >= 0 {
      forall k | 0 <= k <= |calls|
        ensures Depth(a.emitted) + Depth(calls[..k]) >= 0
      {
      }
      NestedConcat(a.emitted, calls);
    }
  }

  lemma EmittedPlain(a: Snap, b: Snap, calls: seq<Hoisting.Call>)
    requires IsPlain(calls) && b == a.(emitted := a.emitted + calls)
    ensures Wrote(a, b, calls)
    ensures Nested(a.emitted) && Depth(a.emitted) >= 0 ==> Nested(b.emitted) && Depth(b.emitted) == Depth(a.emitted)
  {
    WrotePlain(a, b, calls);
    StaysNested(a, b, calls);
  }

  lemma EmittedCall(a: Snap, b: Snap, name: string)
    requires b == a.(emitted := a.emitted + [Emit(Instr.Call(name))])
    requires a.known.Some? ==> name in a.known.value && NeedsFrame(name)
    ensures Wrote(a, b, [Emit(Instr.Call(name))])
    ensures Nested(a.emitted) && Depth(a.emitted) >= 0 ==> Nested(b.emitted) && Depth(b.emitted) == Depth(a.emitted)
  {
    var c := Emit(Instr.Call(name));
    NoBody();
    Nothing();
    BodyNext([], c);
    assert [] + [c] == [c];
    NestedMore([], c);
    assert Body([c]) == [Instr.Call(name)];
    LabelFreeClosed(Body([c]), a.condUid, a.loopUid);
    StaysNested(a, b, [c]);
  }

  lemma ClosedNoLoops(code: seq<Instr>, c0: nat, c1: nat, l: nat)
    requires Closed(code, c0, c1, 0, 0)
    ensures Closed(code, c0, c1, l, l)
  {
  }

  lemma EmittedCode(a: Snap, b: Snap, code: seq<Instr>, calls: seq<Hoisting.Call>)
    requires |calls| == |code| && forall i :: 0 <= i < |code| ==> calls[i] == Emit(code[i])
    requires b == a.(emitted := a.emitted + calls, condUid := b.condUid)
    requires Closed(code, a.condUid, b.condUid, 0, 0) && CallsNothing(code)
    ensures Wrote(a, b, calls)
    ensures Nested(a.emitted) && Depth(a.emitted) >= 0 ==> Nested(b.emitted) && Depth(b.emitted) == Depth(a.emitted)
  {
    hide Closed;
    CodeBody(code, calls);
    ClosedNoLoops(code, a.condUid, b.condUid, a.loopUid);
    StaysNested(a, b, calls);
  }

  lemma DepthKept(from: Snap, a: Snap, b: Snap)
    requires Follows(from, a) && Follows(from, b)
    ensures a.depth == b.depth
  {
  }

  lemma DepthAfter(d: Snap, u: Snap)
    requires Follows(d, u.(depth := u.depth + 1))
    ensures u.depth + 1 == d.depth && u.inCond == d.inCond && u.inLoop == d.inLoop && u.known == d.known
  {
  }
}
