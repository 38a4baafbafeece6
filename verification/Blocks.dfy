/** The output of whole loops and conditionals, put together from that of their parts. */
module Blocks {
  import opened Tokens
  import opened Machine
  import opened Hoisting
  import opened StraightLine
  import opened Labels
  import opened Headers
  import opened Rules

  lemma LoopEnds(id: nat)
    ensures Depth([OpenLoop(id)]) == 1 && Body([OpenLoop(id)]) == LoopHead(id)
    ensures Depth([CloseLoop(id)]) == -1 && Body([CloseLoop(id)]) == LoopTail(id)
  {
    OneCall(OpenLoop(id));
    OneCall(CloseLoop(id));
  }

  lemma NestedLoop(id: nat, inner: seq<Hoisting.Call>)
    requires Nested(inner) && Depth(inner) == 0
    ensures Nested([OpenLoop(id)] + inner + [CloseLoop(id)]) && Depth([OpenLoop(id)] + inner + [CloseLoop(id)]) == 0
  {
    hide Depth;
    LoopEnds(id);
    Nothing();
    var open, close := [OpenLoop(id)], [CloseLoop(id)];
    DepthConcat(open, inner);
    DepthConcat(open + inner, close);
    assert open[..0] == [] && open[..1] == open;
    assert Nested(open);
    forall k | 0 <= k <= |inner|
      ensures Depth(open) + Depth(inner[..k]) >= 0
    {
    }
    NestedConcat(open, inner);
    forall k | 0 <= k <= |close|
      ensures Depth(open + inner) + Depth(close[..k]) >= 0
    {
      assert k == 0 || close[..k] == close;
    }
    NestedConcat(open + inner, close);
  }

  lemma BodyFive(a: seq<Hoisting.Call>, b: seq<Hoisting.Call>, c: seq<Hoisting.Call>, d: seq<Hoisting.Call>,
                 e: seq<Hoisting.Call>)
    ensures Body(a + b + c + d + e) == Body(a) + Body(b) + Body(c) + Body(d) + Body(e)
  {
    BodyConcat(a, b);
    BodyConcat(a + b, c);
    BodyConcat(a + b + c, d);
    BodyConcat(a + b + c + d, e);
  }

  lemma NestedThree(p: seq<Hoisting.Call>, q: seq<Hoisting.Call>, r: seq<Hoisting.Call>)
    requires Nested(p) && Depth(p) == 0 && Nested(q) && Depth(q) == 0 && Nested(r) && Depth(r) == 0
    ensures Nested(p + q + r) && Depth(p + q + r) == 0
  {
    hide Depth, Nested;
    NestedJoin(p, q);
    DepthConcat(p, q);
    NestedJoin(p + q, r);
    DepthConcat(p + q, r);
  }

  /** A whole loop: from before its label, over its condition and its body, to after its end. */
  lemma LoopWrote(a: Snap, b: Snap, t: Snap, d: Snap, u: Snap, z: Snap, id: nat, p: seq<Hoisting.Call>,
                  q: seq<Hoisting.Call>)
    requires b.emitted == a.emitted + [OpenLoop(id)] && b.condUid == a.condUid && a.loopUid == id && b.loopUid == id + 1
    requires Wrote(b, t, p) && t.loopUid == b.loopUid
    requires d.emitted == t.emitted + Emits(LoopTest(id)) && d.condUid == t.condUid && d.loopUid == t.loopUid
    requires Wrote(d, u, q)
    requires z.emitted == u.emitted + [CloseLoop(id)] && z.condUid == u.condUid && z.loopUid == u.loopUid
    requires b.known == a.known && d.known == a.known
    ensures Wrote(a, z, [OpenLoop(id)] + p + Emits(LoopTest(id)) + q + [CloseLoop(id)])
  {
    hide Closed, Body, Depth, Nested;
    var open, test, close := [OpenLoop(id)], Emits(LoopTest(id)), [CloseLoop(id)];
    CodeBody(LoopTest(id), test);
    LoopEnds(id);
    NestedThree(p, test, q);
    NestedLoop(id, p + test + q);
    assert open + p + test + q + close == open + (p + test + q) + close;
    BodyFive(open, p, test, q, close);
    LoopClosed(Body(p), Body(q), id, a.condUid, t.condUid, u.condUid, u.loopUid);
    assert a.emitted + open + p + test + q + close == a.emitted + (open + p + test + q + close);
  }

  /** A whole conditional: its condition, one branch and the other. */
  lemma IfWrote(b: Snap, t: Snap, d: Snap, u: Snap, e: Snap, w: Snap, z: Snap, id: nat, p: seq<Hoisting.Call>,
                q: seq<Hoisting.Call>, r: seq<Hoisting.Call>)
    requires Wrote(b, t, p) && t.condUid == id && t.loopUid == b.loopUid
    requires d.emitted == t.emitted + Emits(IfHead(id)) && d.condUid == id + 1 && d.loopUid == t.loopUid
    requires Wrote(d, u, q)
    requires e.emitted == u.emitted + Emits(IfElse(id)) && e.condUid == u.condUid && e.loopUid == u.loopUid
    requires Wrote(e, w, r)
    requires z.emitted == w.emitted + Emits(IfEnd(id)) && z.condUid == w.condUid && z.loopUid == w.loopUid
    requires d.known == b.known && e.known == b.known
    ensures Wrote(b, z, p + (Emits(IfHead(id)) + q + Emits(IfElse(id)) + r + Emits(IfEnd(id))))
  {
    hide Closed, Body, Depth, Nested;
    var head, other, end := Emits(IfHead(id)), Emits(IfElse(id)), Emits(IfEnd(id));
    CodeBody(IfHead(id), head);
    CodeBody(IfElse(id), other);
    CodeBody(IfEnd(id), end);
    NestedThree(head, q, other);
    NestedThree(head + q + other, r, end);
    NestedJoin(p, head + q + other + r + end);
    DepthConcat(p, head + q + other + r + end);
    BodyFive(head, q, other, r, end);
    BodyConcat(p, head + q + other + r + end);
    IfClosed(Body(p), Body(q), Body(r), id, b.condUid, u.condUid, w.condUid, b.loopUid, u.loopUid, w.loopUid);
    assert b.emitted + p + head + q + other + r + end == b.emitted + (p + (head + q + other + r + end));
  }

  // ----- loops -----

  /** The states `a` at `while`, `b` before its condition, `t` after it, `d` in the block. */
  ghost predicate LoopTop(a: Snap, b: Snap, t: Snap, d: Snap, id: nat) {
    && a.loopUid == id && b == a.(inLoop := a.inLoop + 1, loopUid := id + 1, emitted := a.emitted + [OpenLoop(id)])
    && Follows(b, t) && t.loopUid == b.loopUid
    && d == t.(depth := t.depth + 1, emitted := t.emitted + Emits(LoopTest(id)))
  }

  lemma LoopTopFacts(a: Snap, b: Snap, t: Snap, d: Snap, id: nat)
    requires LoopTop(a, b, t, d, id)
    ensures d.depth == a.depth + 1 && d.inLoop == a.inLoop + 1 && d.inCond == a.inCond && d.known == a.known
  {
  }

  lemma LoopFollows(from: Snap, a: Snap, b: Snap, t: Snap, d: Snap, u: Snap, z: Snap, id: nat)
    requires Follows(from, a) && LoopTop(a, b, t, d, id) && Follows(d, u.(depth := u.depth + 1))
    requires z == u.(inLoop := a.inLoop, emitted := u.emitted + [CloseLoop(id)])
    ensures Follows(from, z)
  {
    hide Wrote;
    var p :| Wrote(b, t, p);
    var q :| Wrote(d, u.(depth := u.depth + 1), q);
    LoopWrote(a, b, t, d, u.(depth := u.depth + 1), z, id, p, q);
    assert Follows(a, z);
    FollowsTrans(from, a, z);
  }

  // ----- conditionals -----

  /** The states `a` at `if`, `b` before its condition, `t` after it, `d` in the first block. */
  ghost predicate IfTop(a: Snap, b: Snap, t: Snap, d: Snap, id: nat) {
    && b == a.(inCond := a.inCond + 1, depth := a.depth + 1) && Follows(b, t) && t.condUid == id && t.loopUid == b.loopUid
    && d == t.(depth := t.depth + 1, condUid := id + 1, emitted := t.emitted + Emits(IfHead(id)))
  }

  lemma IfTopFacts(a: Snap, b: Snap, t: Snap, d: Snap, id: nat)
    requires IfTop(a, b, t, d, id)
    ensures d.depth == a.depth + 2 && d.inCond == a.inCond + 1 && d.known == a.known
  {
  }

  /** The states `u` at the first block's end, `e` in the second, `w` at its end, `y` after it. */
  ghost predicate ElseShape(u: Snap, e: Snap, w: Snap, y: Snap, id: nat) {
    && e == u.(emitted := u.emitted + Emits(IfElse(id))) && Follows(e, w.(depth := w.depth + 1))
    && y == w.(emitted := w.emitted + Emits(IfEnd(id)))
  }

  lemma ElseFacts(u: Snap, e: Snap, w: Snap, y: Snap, id: nat)
    requires ElseShape(u, e, w, y, id)
    ensures y.inCond == u.inCond
  {
  }

  lemma SameStart(b: Snap, a: Snap, z: Snap, part: seq<Hoisting.Call>)
    requires Wrote(b, z, part) && a.emitted == b.emitted && a.condUid == b.condUid && a.loopUid == b.loopUid
    requires a.known == b.known
    ensures Wrote(a, z, part)
  {
  }

  lemma IfFollows(from: Snap, a: Snap, b: Snap, t: Snap, d: Snap, u: Snap, e: Snap, w: Snap, y: Snap, id: nat)
    requires Follows(from, a) && IfTop(a, b, t, d, id) && ElseShape(u, e, w, y, id)
    requires Follows(d, u.(depth := u.depth + 1))
    ensures Follows(from, y.(inCond := a.inCond))
  {
    hide Wrote;
    var z := y.(inCond := a.inCond);
    var u', w' := u.(depth := u.depth + 1), w.(depth := w.depth + 1);
    var p :| Wrote(b, t, p);
    var q :| Wrote(d, u', q);
    var r :| Wrote(e, w', r);
    IfWrote(b, t, d, u', e, w', z, id, p, q, r);
    SameStart(b, a, z, p + (Emits(IfHead(id)) + q + Emits(IfElse(id)) + r + Emits(IfEnd(id))));
    assert Follows(a, z);
    FollowsTrans(from, a, z);
  }
}
