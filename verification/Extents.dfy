/** Which tokens the rules of the second pass consume.  A successful rule ends at a place that the tokens and the
    functions' signatures determine, forwards or, after some calls of the expression parser, backwards; from that it
    follows that a program that is parsed to its end has had each of its functions translated exactly once. */
module Extents {
  import opened Tokens
  import opened Machine
  import opened Semantics
  import opened ExprParsing
  import opened Sentences
  import opened Headers
  import opened Arguments
  import opened Straying
  import Shapes
  import Programs
  import Rules
  import Labels
  import ExprLabels
  import FunctionTypes
  import Scopes

  /** Outside functions, in one without a result, or in one with a result. */
  datatype Where = Outside | InVoid | InValued

  type Sigs = map<string, Signature>

  // ----- expressions -----

  ghost predicate EndsBy(toks: seq<Token>, i: nat, j: nat, ctx: Ctx, sem: Sem, out: Outcome)
    requires toks != []
  {
    ctx.toks == toks && Returns(ctx, i, sem, out) && out.sem.err == NO_ERR && out.pos == j
  }

  /** Some call of the expression parser from `i` reports no error and ends at `j`. */
  ghost predicate ExprEnds(toks: seq<Token>, i: nat, j: nat)
    requires toks != []
  {
    exists ctx, sem, out :: EndsBy(toks, i, j, ctx, sem, out)
  }

  ghost function ExprEnd(toks: seq<Token>, i: nat): Option<nat>
    requires toks != []
  {
    if exists j: nat :: ExprEnds(toks, i, j) then
      var j: nat :| ExprEnds(toks, i, j);
      Some(j)
    else None
  }

  lemma ExprEndsOnce(toks: seq<Token>, i: nat, j: nat, k: nat)
    requires toks != [] && ExprEnds(toks, i, j) && ExprEnds(toks, i, k)
    ensures j == k
  {
    hide Returns;
    var ctx, sem, out :| EndsBy(toks, i, j, ctx, sem, out);
    var ctx', sem', out' :| EndsBy(toks, i, k, ctx', sem', out');
    Shapes.EndUnique(ctx, ctx', i, sem, sem', out, out');
  }

  /** All calls from one place that report no error end at one place. */
  lemma ExprEndIs(toks: seq<Token>, i: nat, j: nat)
    requires toks != [] && ExprEnds(toks, i, j)
    ensures ExprEnd(toks, i) == Some(j)
  {
    hide ExprEnds;
    ExprEndsOnce(toks, i, j, ExprEnd(toks, i).value);
  }

  /** What the statement parser learns from a call without an error. */
  lemma CallFacts(toks: seq<Token>, scopes: seq<Scopes.Scope>, globals: Scopes.Scope, lhs: Option<Scopes.Item>, pos: nat,
                  uid: nat, r: Rules.ExprResult)
    requires pos < |toks| && r.error == NO_ERR && Rules.Genuine(toks, scopes, globals, lhs, pos, uid, r)
    ensures r.pos < |toks| && ExprEnd(toks, pos) == Some(r.pos)
    ensures Labels.Closed(r.code, uid, r.condUid, 0, 0) && Labels.CallsNothing(r.code)
  {
    hide Returns, Labels.Closed, Labels.CallsNothing;
    var ctx, sem, out :| Rules.ExprCall(toks, scopes, globals, lhs, pos, uid, r, ctx, sem, out);
    Shapes.ReturnsOnCursor(ctx, pos, sem, out);
    assert EndsBy(toks, pos, r.pos, ctx, sem, out);
    ExprEndIs(toks, pos, r.pos);
    ExprLabels.ReturnsEmits(ctx, pos, sem, out);
    var part :| ExprLabels.EmitsPart(sem, out.sem, part);
    assert part == out.sem.code[|sem.code|..] == r.code;
  }

  /** Where no function can be read the result is no function. */
  lemma CallOrdinary(toks: seq<Token>, scopes: seq<Scopes.Scope>, globals: Scopes.Scope, lhs: Option<Scopes.Item>, pos: nat,
                     uid: nat, r: Rules.ExprResult)
    requires toks != [] && r.error == NO_ERR && Rules.Genuine(toks, scopes, globals, lhs, pos, uid, r)
    requires forall ctx: Ctx :: ctx.scopes == scopes && ctx.globals == globals ==> FunctionTypes.NoneReadable(ctx)
    ensures r.ty != Type.Function
  {
    hide Returns, FunctionTypes.NoneReadable;
    var ctx, sem, out :| Rules.ExprCall(toks, scopes, globals, lhs, pos, uid, r, ctx, sem, out);
    FunctionTypes.ResultOrdinary(ctx, pos, sem, out);
  }

  // ----- argument lists -----

  const NOWHERE: Places := id => VarRef(LF, id, 0)

  /** The position after an argument list and its closing parenthesis. */
  function ListEnd(toks: seq<Token>, i: nat, sig: Signature): Option<nat> {
    var r := ArgListAt(NOWHERE, toks, i, sig);
    if r.Some? then Some(r.value.0) else None
  }

  predicate SameEnd(r: Option<(nat, seq<Argument>)>, q: Option<(nat, seq<Argument>)>) {
    r.Some? == q.Some? && (r.Some? ==> r.value.0 == q.value.0)
  }

  lemma SameArg(p: Places, q: Places, toks: seq<Token>, i: nat, variadic: bool, param: ParamSig)
    ensures ArgAt(p, toks, i, variadic, param).Some? == ArgAt(q, toks, i, variadic, param).Some?
    ensures ArgAt(p, toks, i, variadic, param).Some? ==>
      ArgAt(p, toks, i, variadic, param).value.0 == ArgAt(q, toks, i, variadic, param).value.0
  {
  }

  lemma {:induction false} SameArgs(p: Places, q: Places, toks: seq<Token>, i: nat, sig: Signature, j: nat)
    requires HasParam(sig, j)
    ensures SameEnd(ArgsAt(p, toks, i, sig, j), ArgsAt(q, toks, i, sig, j))
    decreases |toks| - i
  {
    hide ArgAt;
    SameArg(p, q, toks, i, sig.variadic, ParamFor(sig, j));
    var a := ArgAt(p, toks, i, sig.variadic, ParamFor(sig, j));
    if a.Some? {
      var n := a.value.0 + 1;
      if KindAt(toks, n, KComma) && HasParam(sig, j + 1) {
        SameArgs(p, q, toks, n + 1, sig, j + 1);
      }
    }
  }

  /** Where a list ends has nothing to do with where its variables are read from. */
  lemma ListEndIs(place: Places, toks: seq<Token>, i: nat, sig: Signature)
    requires ArgListAt(place, toks, i, sig).Some?
    ensures ListEnd(toks, i, sig) == Some(ArgListAt(place, toks, i, sig).value.0)
  {
    hide ArgsAt;
    if HasParam(sig, 0) {
      SameArgs(place, NOWHERE, toks, i, sig, 0);
    }
  }

  // ----- parts of statements -----

  /** A call of `name`, from its opening parenthesis. */
  function CallEnd(toks: seq<Token>, sigs: Sigs, name: string, i: nat): Option<nat> {
    if KindAt(toks, i, KLPar) && name in sigs then ListEnd(toks, i + 1, sigs[name]) else None
  }

  /** What an equals sign at `i` begins. */
  ghost function SideEnd(toks: seq<Token>, sigs: Sigs, i: nat): Option<nat>
    requires toks != []
  {
    if KindAt(toks, i + 1, KIdentifier) && Text(toks[i + 1]) in sigs then CallEnd(toks, sigs, Text(toks[i + 1]), i + 2)
    else ExprEnd(toks, i)
  }

  /** A definition, from the name. */
  ghost function DefineEnd(toks: seq<Token>, sigs: Sigs, i: nat): Option<nat>
    requires toks != []
  {
    if !KindAt(toks, i, KIdentifier) then None
    else if KindAt(toks, i + 1, KAss) then SideEnd(toks, sigs, i + 1)
    else if KindAt(toks, i + 1, KCol) && i + 2 < |toks| && IsTypeKind(toks[i + 2].kind) then
      if KindAt(toks, i + 3, KAss) then SideEnd(toks, sigs, i + 3) else Some(i + 3)
    else None
  }

  /** What follows the name that a statement begins with. */
  ghost function AfterName(toks: seq<Token>, sigs: Sigs, name: string, i: nat): Option<nat>
    requires toks != []
  {
    if KindAt(toks, i, KAss) then SideEnd(toks, sigs, i) else CallEnd(toks, sigs, name, i)
  }

  /** The condition of `if`, from its first token. */
  ghost function CondEnd(toks: seq<Token>, i: nat): Option<nat>
    requires toks != []
  {
    if KindAt(toks, i, KLet) then (if KindAt(toks, i + 1, KIdentifier) then Some(i + 2) else None)
    else if i > 0 && i < |toks| then ExprEnd(toks, i - 1)
    else None
  }

  // ----- statements, blocks, functions -----

  ghost function StmtEnd(n: nat, toks: seq<Token>, sigs: Sigs, w: Where, i: nat): Option<nat>
    requires toks != []
    decreases n
  {
    if KindAt(toks, i, KVar) || KindAt(toks, i, KLet) then DefineEnd(toks, sigs, i + 1)
    else if KindAt(toks, i, KIdentifier) then AfterName(toks, sigs, Text(toks[i]), i + 1)
    else if KindAt(toks, i, KWhile) then
      var t := ExprEnd(toks, i);
      if n > 0 && t.Some? && KindAt(toks, t.value, KLBkt) then
        var u := BlockEnd(n - 1, toks, sigs, w, t.value + 1);
        if u.Some? then Some(u.value + 1) else None
      else None
    else if KindAt(toks, i, KIf) then
      var t := CondEnd(toks, i + 1);
      if n > 0 && t.Some? && KindAt(toks, t.value, KLBkt) then
        var u := BlockEnd(n - 1, toks, sigs, w, t.value + 1);
        if u.Some? && KindAt(toks, u.value + 1, KElse) && KindAt(toks, u.value + 2, KLBkt) then
          var v := BlockEnd(n - 1, toks, sigs, w, u.value + 3);
          if v.Some? then Some(v.value + 1) else None
        else None
      else None
    else if KindAt(toks, i, KReturn) && !w.Outside? && i + 1 < |toks| then
      if w.InVoid? then Some(i + 1) else ExprEnd(toks, i)
    else None
  }

  /** The closing brace of the block whose statements begin at `i`. */
  ghost function BlockEnd(n: nat, toks: seq<Token>, sigs: Sigs, w: Where, i: nat): (r: Option<nat>)
    requires toks != []
    ensures r.Some? ==> KindAt(toks, r.value, KRBkt)
    decreases n
  {
    if KindAt(toks, i, KRBkt) then Some(i)
    else if n == 0 then None
    else
      var j := StmtEnd(n - 1, toks, sigs, w, i);
      if j.Some? then BlockEnd(n - 1, toks, sigs, w, j.value) else None
  }

  function WhereIn(sigs: Sigs, name: string): Where {
    if name in sigs && sigs[name].ret == NilType then InVoid else InValued
  }

  /** A function or a statement outside functions. */
  ghost function TopEnd(n: nat, toks: seq<Token>, sigs: Sigs, i: nat): Option<nat>
    requires toks != []
  {
    if KindAt(toks, i, KFunc) then
      var h := HeaderEnd(toks, i);
      if h.Some? && KindAt(toks, h.value, KLBkt) then
        var u := BlockEnd(n, toks, sigs, WhereIn(sigs, NameAt(toks, i)), h.value + 1);
        if u.Some? then Some(u.value + 1) else None
      else None
    else StmtEnd(n, toks, sigs, Outside, i)
  }

  /** The places at which functions and outer statements begin, from `i` up to the end of the file. */
  ghost function Visits(n: nat, toks: seq<Token>, sigs: Sigs, i: nat): Option<seq<nat>>
    requires toks != []
    decreases n
  {
    if KindAt(toks, i, KEof) then Some([])
    else if n == 0 then None
    else
      var j := TopEnd(n - 1, toks, sigs, i);
      if j.None? then None
      else
        var v := Visits(n - 1, toks, sigs, j.value);
        if v.Some? then Some([i] + v.value) else None
  }

  // ----- the bound does not matter -----

  lemma {:induction false} StmtMore(n: nat, m: nat, toks: seq<Token>, sigs: Sigs, w: Where, i: nat)
    requires toks != [] && n <= m && StmtEnd(n, toks, sigs, w, i).Some?
    ensures StmtEnd(m, toks, sigs, w, i) == StmtEnd(n, toks, sigs, w, i)
    decreases n, 1
  {
    hide ExprEnd, DefineEnd, AfterName, CondEnd, BlockEnd;
    if KindAt(toks, i, KWhile) {
      BlockMore(n - 1, m - 1, toks, sigs, w, ExprEnd(toks, i).value + 1);
    } else if KindAt(toks, i, KIf) {
      IfMore(n, m, toks, sigs, w, i);
    }
  }

  lemma {:induction false} IfMore(n: nat, m: nat, toks: seq<Token>, sigs: Sigs, w: Where, i: nat)
    requires KindAt(toks, i, KIf) && 0 < n <= m && StmtEnd(n, toks, sigs, w, i).Some?
    ensures StmtEnd(m, toks, sigs, w, i) == StmtEnd(n, toks, sigs, w, i)
    decreases n, 0
  {
    hide ExprEnd, DefineEnd, AfterName, CondEnd, BlockEnd;
    var t := CondEnd(toks, i + 1).value;
    BlockMore(n - 1, m - 1, toks, sigs, w, t + 1);
    BlockMore(n - 1, m - 1, toks, sigs, w, BlockEnd(n - 1, toks, sigs, w, t + 1).value + 3);
  }

  lemma {:induction false} BlockMore(n: nat, m: nat, toks: seq<Token>, sigs: Sigs, w: Where, i: nat)
    requires toks != [] && n <= m && BlockEnd(n, toks, sigs, w, i).Some?
    ensures BlockEnd(m, toks, sigs, w, i) == BlockEnd(n, toks, sigs, w, i)
    decreases n, 0
  {
    hide StmtEnd, KindAt;
    if !KindAt(toks, i, KRBkt) {
      StmtMore(n - 1, m - 1, toks, sigs, w, i);
      BlockMore(n - 1, m - 1, toks, sigs, w, StmtEnd(n - 1, toks, sigs, w, i).value);
    }
  }

  lemma TopMore(n: nat, m: nat, toks: seq<Token>, sigs: Sigs, i: nat)
    requires toks != [] && n <= m && TopEnd(n, toks, sigs, i).Some?
    ensures TopEnd(m, toks, sigs, i) == TopEnd(n, toks, sigs, i)
  {
    hide StmtEnd, BlockEnd, HeaderEnd, NameAt;
    if KindAt(toks, i, KFunc) {
      BlockMore(n, m, toks, sigs, WhereIn(sigs, NameAt(toks, i)), HeaderEnd(toks, i).value + 1);
    } else {
      StmtMore(n, m, toks, sigs, Outside, i);
    }
  }

  lemma {:induction false} VisitsMore(n: nat, m: nat, toks: seq<Token>, sigs: Sigs, i: nat)
    requires toks != [] && n <= m && Visits(n, toks, sigs, i).Some?
    ensures Visits(m, toks, sigs, i) == Visits(n, toks, sigs, i)
    decreases n
  {
    hide TopEnd;
    if !KindAt(toks, i, KEof) {
      TopMore(n - 1, m - 1, toks, sigs, i);
      VisitsMore(n - 1, m - 1, toks, sigs, TopEnd(n - 1, toks, sigs, i).value);
    }
  }

  // ----- what the rules' contracts say -----

  ghost predicate StmtEnds(toks: seq<Token>, sigs: Sigs, w: Where, i: nat, j: nat)
    requires toks != []
  {
    exists n: nat :: StmtEnd(n, toks, sigs, w, i) == Some(j)
  }

  ghost predicate BlockEnds(toks: seq<Token>, sigs: Sigs, w: Where, i: nat, j: nat)
    requires toks != []
  {
    exists n: nat :: BlockEnd(n, toks, sigs, w, i) == Some(j)
  }

  ghost predicate TopEnds(toks: seq<Token>, sigs: Sigs, i: nat, j: nat)
    requires toks != []
  {
    exists n: nat :: TopEnd(n, toks, sigs, i) == Some(j)
  }

  ghost predicate Visited(toks: seq<Token>, sigs: Sigs, i: nat, v: seq<nat>)
    requires toks != []
  {
    exists n: nat :: Visits(n, toks, sigs, i) == Some(v)
  }

  lemma DefineStmt(toks: seq<Token>, sigs: Sigs, w: Where, i: nat, j: nat)
    requires KindAt(toks, i, KVar) || KindAt(toks, i, KLet)
    requires DefineEnd(toks, sigs, i + 1) == Some(j)
    ensures StmtEnds(toks, sigs, w, i, j)
  {
    hide DefineEnd;
    assert StmtEnd(0, toks, sigs, w, i) == Some(j);
  }

  lemma NameStmt(toks: seq<Token>, sigs: Sigs, w: Where, i: nat, j: nat)
    requires KindAt(toks, i, KIdentifier) && AfterName(toks, sigs, Text(toks[i]), i + 1) == Some(j)
    ensures StmtEnds(toks, sigs, w, i, j)
  {
    hide AfterName;
    assert StmtEnd(0, toks, sigs, w, i) == Some(j);
  }

  lemma ReturnStmt(toks: seq<Token>, sigs: Sigs, w: Where, i: nat, j: nat)
    requires KindAt(toks, i, KReturn) && i + 1 < |toks| && !w.Outside?
    requires if w.InVoid? then j == i + 1 else ExprEnd(toks, i) == Some(j)
    ensures StmtEnds(toks, sigs, w, i, j)
  {
    hide ExprEnd;
    assert StmtEnd(0, toks, sigs, w, i) == Some(j);
  }

  lemma WhileStmt(toks: seq<Token>, sigs: Sigs, w: Where, i: nat, t: nat, u: nat)
    requires KindAt(toks, i, KWhile) && ExprEnd(toks, i) == Some(t) && KindAt(toks, t, KLBkt)
    requires BlockEnds(toks, sigs, w, t + 1, u)
    ensures StmtEnds(toks, sigs, w, i, u + 1)
  {
    hide ExprEnd, BlockEnd;
    var n: nat :| BlockEnd(n, toks, sigs, w, t + 1) == Some(u);
    assert StmtEnd(n + 1, toks, sigs, w, i) == Some(u + 1);
  }

  lemma IfStmt(toks: seq<Token>, sigs: Sigs, w: Where, i: nat, t: nat, u: nat, v: nat)
    requires KindAt(toks, i, KIf) && CondEnd(toks, i + 1) == Some(t) && KindAt(toks, t, KLBkt)
    requires BlockEnds(toks, sigs, w, t + 1, u) && KindAt(toks, u + 1, KElse) && KindAt(toks, u + 2, KLBkt)
    requires BlockEnds(toks, sigs, w, u + 3, v)
    ensures StmtEnds(toks, sigs, w, i, v + 1)
  {
    hide CondEnd, BlockEnd;
    var n: nat :| BlockEnd(n, toks, sigs, w, t + 1) == Some(u);
    var m: nat :| BlockEnd(m, toks, sigs, w, u + 3) == Some(v);
    BlockMore(n, n + m, toks, sigs, w, t + 1);
    BlockMore(m, n + m, toks, sigs, w, u + 3);
    assert StmtEnd(n + m + 1, toks, sigs, w, i) == Some(v + 1);
  }

  lemma BlockDone(toks: seq<Token>, sigs: Sigs, w: Where, i: nat)
    requires KindAt(toks, i, KRBkt)
    ensures BlockEnds(toks, sigs, w, i, i)
  {
    assert BlockEnd(0, toks, sigs, w, i) == Some(i);
  }

  lemma BlockMeets(toks: seq<Token>, sigs: Sigs, w: Where, i: nat, j: nat, k: nat)
    requires toks != [] && !KindAt(toks, i, KRBkt) && StmtEnds(toks, sigs, w, i, j) && BlockEnds(toks, sigs, w, j, k)
    ensures BlockEnds(toks, sigs, w, i, k)
  {
    hide StmtEnd;
    var n: nat :| StmtEnd(n, toks, sigs, w, i) == Some(j);
    var m: nat :| BlockEnd(m, toks, sigs, w, j) == Some(k);
    StmtMore(n, n + m, toks, sigs, w, i);
    BlockMore(m, n + m, toks, sigs, w, j);
    assert BlockEnd(n + m + 1, toks, sigs, w, i) == Some(k);
  }

  lemma StmtTop(toks: seq<Token>, sigs: Sigs, i: nat, j: nat)
    requires toks != [] && !KindAt(toks, i, KFunc) && StmtEnds(toks, sigs, Outside, i, j)
    ensures TopEnds(toks, sigs, i, j)
  {
    hide StmtEnd;
    var n: nat :| StmtEnd(n, toks, sigs, Outside, i) == Some(j);
    assert TopEnd(n, toks, sigs, i) == Some(j);
  }

  lemma FunctionTop(toks: seq<Token>, sigs: Sigs, i: nat, u: nat)
    requires KindAt(toks, i, KFunc) && HeaderEnd(toks, i).Some? && KindAt(toks, HeaderEnd(toks, i).value, KLBkt)
    requires BlockEnds(toks, sigs, WhereIn(sigs, NameAt(toks, i)), HeaderEnd(toks, i).value + 1, u)
    ensures TopEnds(toks, sigs, i, u + 1)
  {
    hide BlockEnd, HeaderEnd, NameAt;
    var n: nat :| BlockEnd(n, toks, sigs, WhereIn(sigs, NameAt(toks, i)), HeaderEnd(toks, i).value + 1) == Some(u);
    assert TopEnd(n, toks, sigs, i) == Some(u + 1);
  }

  lemma VisitsDone(toks: seq<Token>, sigs: Sigs, i: nat)
    requires KindAt(toks, i, KEof)
    ensures Visited(toks, sigs, i, [])
  {
    assert Visits(0, toks, sigs, i) == Some([]);
  }

  lemma VisitsMeet(toks: seq<Token>, sigs: Sigs, i: nat, j: nat, v: seq<nat>)
    requires toks != [] && !KindAt(toks, i, KEof) && TopEnds(toks, sigs, i, j) && Visited(toks, sigs, j, v)
    ensures Visited(toks, sigs, i, [i] + v)
  {
    hide TopEnd;
    var n: nat :| TopEnd(n, toks, sigs, i) == Some(j);
    var m: nat :| Visits(m, toks, sigs, j) == Some(v);
    TopMore(n, n + m, toks, sigs, i);
    VisitsMore(m, n + m, toks, sigs, j);
    assert Visits(n + m + 1, toks, sigs, i) == Some([i] + v);
  }

  // ----- nothing is visited twice -----

  lemma VisitedOnce(toks: seq<Token>, sigs: Sigs, i: nat, v: seq<nat>, v': seq<nat>)
    requires toks != [] && Visited(toks, sigs, i, v) && Visited(toks, sigs, i, v')
    ensures v == v'
  {
    hide Visits;
    var n: nat :| Visits(n, toks, sigs, i) == Some(v);
    var m: nat :| Visits(m, toks, sigs, i) == Some(v');
    VisitsMore(n, n + m, toks, sigs, i);
    VisitsMore(m, n + m, toks, sigs, i);
  }

  lemma {:induction false} VisitedFrom(n: nat, toks: seq<Token>, sigs: Sigs, i: nat, v: seq<nat>, k: nat)
    requires toks != [] && Visits(n, toks, sigs, i) == Some(v) && k < |v|
    ensures Visited(toks, sigs, v[k], v[k..])
    decreases n
  {
    hide TopEnd;
    if k > 0 {
      VisitedFrom(n - 1, toks, sigs, TopEnd(n - 1, toks, sigs, i).value, v[1..], k - 1);
      assert v[1..][k - 1..] == v[k..];
    } else {
      assert v[0] == i && v[0..] == v;
    }
  }

  /** A parse that comes to the end of the file begins no function and no outer statement twice: from the same place it
      would go round for ever. */
  lemma VisitsDiffer(toks: seq<Token>, sigs: Sigs, i: nat, v: seq<nat>, a: nat, b: nat)
    requires toks != [] && Visited(toks, sigs, i, v) && a < b < |v|
    ensures v[a] != v[b]
  {
    hide Visits;
    var n: nat :| Visits(n, toks, sigs, i) == Some(v);
    VisitedFrom(n, toks, sigs, i, v, a);
    VisitedFrom(n, toks, sigs, i, v, b);
    assert |v[a..]| != |v[b..]|;
    if v[a] == v[b] {
      VisitedOnce(toks, sigs, v[a], v[a..], v[b..]);
    }
  }

  // ----- no function is passed over -----

  /** Every function has a header, and a brace after it. */
  ghost predicate Framed(toks: seq<Token>) {
    forall i :: KindAt(toks, i, KFunc) ==>
      HeaderEnd(toks, i).Some? && KindAt(toks, HeaderEnd(toks, i).value, KLBkt)
  }

  lemma FramedNamed(toks: seq<Token>, k: nat)
    requires Framed(toks) && KindAt(toks, k, KFunc)
    ensures Named(toks, k)
  {
  }

  lemma ExprCross(toks: seq<Token>, i: nat, k: nat)
    requires Framed(toks) && i + 1 < |toks| && ExprEnd(toks, i).Some? && KindAt(toks, k, KFunc)
    requires i < k < ExprEnd(toks, i).value
    ensures ExprEnd(toks, i).value == k + 1
  {
    hide Returns, Framed;
    var j := ExprEnd(toks, i).value;
    var ctx, sem, out :| EndsBy(toks, i, j, ctx, sem, out);
    forall x | i + 1 <= x < |toks| && toks[x].kind == KFunc && NoFunc(toks, i + 1, x)
      ensures Named(toks, x)
    {
      FramedNamed(toks, x);
    }
    PassesNoFunc(ctx, i, sem, out);
  }

  /** An argument list holds no function keyword; not even a label without a colon swallows one. */
  lemma {:induction false} ArgsCross(toks: seq<Token>, i: nat, sig: Signature, j: nat)
    requires Framed(toks) && HasParam(sig, j) && ArgsAt(NOWHERE, toks, i, sig, j).Some?
    ensures NoFunc(toks, i, ArgsAt(NOWHERE, toks, i, sig, j).value.0)
    decreases |toks| - i
  {
    hide Framed, HeaderEnd;
    var n := ArgAt(NOWHERE, toks, i, sig.variadic, ParamFor(sig, j)).value.0 + 1;
    forall k | i <= k < n && k < |toks|
      ensures toks[k].kind != KFunc
    {
      if toks[k].kind == KFunc {
        FramedNamed(toks, k);
      }
    }
    if KindAt(toks, n, KComma) && HasParam(sig, j + 1) {
      ArgsCross(toks, n + 1, sig, j + 1);
    }
  }

  lemma ListCross(toks: seq<Token>, i: nat, sig: Signature, k: nat)
    requires Framed(toks) && ListEnd(toks, i, sig).Some? && i <= k < ListEnd(toks, i, sig).value
    ensures !KindAt(toks, k, KFunc)
  {
    hide ArgsAt, Framed;
    if !KindAt(toks, i, KRPar) {
      ArgsCross(toks, i, sig, 0);
    }
  }

  lemma CallCross(toks: seq<Token>, sigs: Sigs, name: string, i: nat, k: nat)
    requires Framed(toks) && CallEnd(toks, sigs, name, i).Some? && i <= k < CallEnd(toks, sigs, name, i).value
    ensures !KindAt(toks, k, KFunc)
  {
    hide ListEnd, Framed;
    if k > i {
      ListCross(toks, i + 1, sigs[name], k);
    }
  }

  lemma SideCross(toks: seq<Token>, sigs: Sigs, i: nat, k: nat)
    requires Framed(toks) && KindAt(toks, i, KAss) && SideEnd(toks, sigs, i).Some? && KindAt(toks, k, KFunc)
    requires i <= k < SideEnd(toks, sigs, i).value && WellBuffered(toks)
    ensures SideEnd(toks, sigs, i).value == k + 1
  {
    hide ExprEnd, CallEnd, Framed;
    if KindAt(toks, i + 1, KIdentifier) && Text(toks[i + 1]) in sigs {
      if k >= i + 2 {
        CallCross(toks, sigs, Text(toks[i + 1]), i + 2, k);
      }
    } else {
      ExprCross(toks, i, k);
    }
  }

  /** The name and the parenthesis of a header read as a call: it ends where no statement begins. */
  lemma HeaderAsList(toks: seq<Token>, k: nat, sig: Signature)
    requires Framed(toks) && KindAt(toks, k, KFunc) && ListEnd(toks, k + 3, sig).Some?
    ensures var e := ListEnd(toks, k + 3, sig).value; KindAt(toks, e, KRetVal) || KindAt(toks, e, KLBkt)
  {
    assert HeaderEnd(toks, k).Some?;
    if !KindAt(toks, k + 3, KRPar) {
      assert ParamEnd(toks, k + 3).Some?;
      ParamAsArgument(toks, k + 3, sig);
    }
  }

  lemma ParamAsArgument(toks: seq<Token>, i: nat, sig: Signature)
    requires ParamEnd(toks, i).Some?
    ensures ListEnd(toks, i, sig).None?
  {
    if HasParam(sig, 0) {
      var a := ArgAt(NOWHERE, toks, i, sig.variadic, ParamFor(sig, 0));
      assert a.Some? ==> a.value.0 == i || a.value.0 == i + 1;
      assert a.Some? ==> RestAt(NOWHERE, toks, a.value.0 + 1, sig, 0).None?;
    }
  }

  /** A token that begins no statement and ends no block. */
  predicate Dead(toks: seq<Token>, i: nat) {
    KindAt(toks, i, KRetVal) || KindAt(toks, i, KLBkt)
  }

  lemma DeadEnds(n: nat, toks: seq<Token>, sigs: Sigs, w: Where, i: nat)
    requires Dead(toks, i)
    ensures StmtEnd(n, toks, sigs, w, i).None? && BlockEnd(n, toks, sigs, w, i).None? && Visits(n, toks, sigs, i).None?
  {
    hide HeaderEnd;
    assert StmtEnd(n, toks, sigs, w, i).None?;
    assert n > 0 ==> StmtEnd(n - 1, toks, sigs, w, i).None? && StmtEnd(n - 1, toks, sigs, Outside, i).None?;
  }

  /** Nor does the name of a header begin a block or a program. */
  lemma NameEnds(n: nat, toks: seq<Token>, sigs: Sigs, w: Where, k: nat)
    requires Framed(toks) && KindAt(toks, k, KFunc)
    ensures BlockEnd(n, toks, sigs, w, k + 1).None? && Visits(n, toks, sigs, k + 1).None?
  {
    hide Framed, StmtEnd, BlockEnd, Visits, HeaderEnd;
    FramedNamed(toks, k);
    if n > 0 {
      NameAsStmt(n - 1, toks, sigs, w, k);
      NameAsStmt(n - 1, toks, sigs, Outside, k);
      BlockNext(n, toks, sigs, w, k + 1);
      VisitsNext(n, toks, sigs, k + 1);
      var j := StmtEnd(n - 1, toks, sigs, w, k + 1);
      if j.Some? {
        DeadEnds(n - 1, toks, sigs, w, j.value);
      }
      j := StmtEnd(n - 1, toks, sigs, Outside, k + 1);
      if j.Some? {
        DeadEnds(n - 1, toks, sigs, w, j.value);
      }
    } else {
      BlockNext(n, toks, sigs, w, k + 1);
      VisitsNext(n, toks, sigs, k + 1);
    }
  }

  lemma BlockNext(n: nat, toks: seq<Token>, sigs: Sigs, w: Where, i: nat)
    requires toks != [] && !KindAt(toks, i, KRBkt)
    ensures BlockEnd(n, toks, sigs, w, i).Some? ==>
      n > 0 && StmtEnd(n - 1, toks, sigs, w, i).Some?
      && BlockEnd(n, toks, sigs, w, i) == BlockEnd(n - 1, toks, sigs, w, StmtEnd(n - 1, toks, sigs, w, i).value)
  {
    hide StmtEnd;
  }

  lemma VisitsNext(n: nat, toks: seq<Token>, sigs: Sigs, i: nat)
    requires toks != [] && !KindAt(toks, i, KEof) && !KindAt(toks, i, KFunc)
    ensures Visits(n, toks, sigs, i).Some? ==>
      n > 0 && StmtEnd(n - 1, toks, sigs, Outside, i).Some?
      && Visits(n - 1, toks, sigs, StmtEnd(n - 1, toks, sigs, Outside, i).value).Some?
  {
    hide StmtEnd;
  }

  lemma NameAsStmt(n: nat, toks: seq<Token>, sigs: Sigs, w: Where, k: nat)
    requires Framed(toks) && KindAt(toks, k, KFunc)
    ensures StmtEnd(n, toks, sigs, w, k + 1).Some? ==> Dead(toks, StmtEnd(n, toks, sigs, w, k + 1).value)
  {
    hide Framed, ListEnd, HeaderEnd;
    FramedNamed(toks, k);
    var name := Text(toks[k + 1]);
    if name in sigs && ListEnd(toks, k + 3, sigs[name]).Some? {
      HeaderAsList(toks, k, sigs[name]);
    }
  }

  lemma {:induction false} StmtCross(n: nat, toks: seq<Token>, sigs: Sigs, w: Where, i: nat, k: nat)
    requires WellBuffered(toks) && Framed(toks) && StmtEnd(n, toks, sigs, w, i).Some? && KindAt(toks, k, KFunc)
    requires i <= k < StmtEnd(n, toks, sigs, w, i).value
    ensures StmtEnd(n, toks, sigs, w, i).value == k + 1
    decreases n, 0
  {
    hide Framed, ExprEnd, SideEnd, CallEnd, HeaderEnd, WellBuffered;
    FramedNamed(toks, k);
    Inside(toks, i);
    if KindAt(toks, i, KVar) || KindAt(toks, i, KLet) {
      DefineCross(toks, sigs, i + 1, k);
    } else if KindAt(toks, i, KIdentifier) {
      if KindAt(toks, i + 1, KAss) {
        SideCross(toks, sigs, i + 1, k);
      } else {
        CallCross(toks, sigs, Text(toks[i]), i + 1, k);
      }
    } else if KindAt(toks, i, KWhile) {
      var t := ExprEnd(toks, i).value;
      if k < t {
        ExprCross(toks, i, k);
      } else {
        BlockCross(n - 1, toks, sigs, w, t + 1, k);
      }
    } else if KindAt(toks, i, KIf) {
      IfCross(n, toks, sigs, w, i, k);
    } else if w.InValued? {
      ExprCross(toks, i, k);
    }
  }

  lemma Inside(toks: seq<Token>, i: nat)
    requires WellBuffered(toks) && i < |toks| && toks[i].kind != KEof
    ensures i + 1 < |toks|
  {
  }

  lemma DefineCross(toks: seq<Token>, sigs: Sigs, i: nat, k: nat)
    requires WellBuffered(toks) && Framed(toks) && DefineEnd(toks, sigs, i).Some? && KindAt(toks, k, KFunc)
    requires i <= k < DefineEnd(toks, sigs, i).value
    ensures DefineEnd(toks, sigs, i).value == k + 1
  {
    hide Framed, SideEnd, HeaderEnd, WellBuffered;
    if KindAt(toks, i + 1, KAss) {
      SideCross(toks, sigs, i + 1, k);
    } else if KindAt(toks, i + 3, KAss) {
      if k >= i + 3 {
        SideCross(toks, sigs, i + 3, k);
      }
    }
  }

  lemma {:induction false} IfCross(n: nat, toks: seq<Token>, sigs: Sigs, w: Where, i: nat, k: nat)
    requires WellBuffered(toks) && Framed(toks) && KindAt(toks, i, KIf) && KindAt(toks, k, KFunc) && n > 0
    requires StmtEnd(n, toks, sigs, w, i).Some? && i <= k < StmtEnd(n, toks, sigs, w, i).value
    ensures false
    decreases n - 1, 2
  {
    hide Framed, ExprEnd, HeaderEnd, BlockEnd, WellBuffered;
    FramedNamed(toks, k);
    var t := CondEnd(toks, i + 1).value;
    var u := BlockEnd(n - 1, toks, sigs, w, t + 1).value;
    if k < t {
      if !KindAt(toks, i + 1, KLet) {
        ExprCross(toks, i, k);
      }
      assert false;
    } else if k <= u {
      BlockCross(n - 1, toks, sigs, w, t + 1, k);
    } else if k >= u + 3 {
      BlockCross(n - 1, toks, sigs, w, u + 3, k);
    }
  }

  lemma {:induction false} BlockCross(n: nat, toks: seq<Token>, sigs: Sigs, w: Where, i: nat, k: nat)
    requires WellBuffered(toks) && Framed(toks) && BlockEnd(n, toks, sigs, w, i).Some? && KindAt(toks, k, KFunc)
    requires i <= k <= BlockEnd(n, toks, sigs, w, i).value
    ensures false
    decreases n, 1
  {
    hide Framed, StmtEnd, HeaderEnd, WellBuffered;
    if KindAt(toks, i, KRBkt) {
      assert false;
    } else {
      var j := StmtEnd(n - 1, toks, sigs, w, i).value;
      if j <= k {
        BlockCross(n - 1, toks, sigs, w, j, k);
      } else {
        StmtCross(n - 1, toks, sigs, w, i, k);
        NameEnds(n - 1, toks, sigs, w, k);
      }
    }
  }

  lemma TopCross(n: nat, toks: seq<Token>, sigs: Sigs, i: nat, k: nat)
    requires WellBuffered(toks) && Framed(toks) && TopEnd(n, toks, sigs, i).Some? && KindAt(toks, k, KFunc)
    requires i <= k < TopEnd(n, toks, sigs, i).value
    ensures k == i || TopEnd(n, toks, sigs, i).value == k + 1
  {
    hide Framed, StmtEnd, HeaderEnd, BlockEnd, NameAt, WellBuffered;
    if KindAt(toks, i, KFunc) {
      var h := HeaderEnd(toks, i).value;
      HeaderPlain(toks, i);
      if k > i {
        assert k > h;
        BlockCross(n, toks, sigs, WhereIn(sigs, NameAt(toks, i)), h + 1, k);
      }
    } else {
      StmtCross(n, toks, sigs, Outside, i, k);
    }
  }

  /** A parse that comes to the end of the file has begun every function ahead of it: an expression may step over a
      function's keyword, but then nothing goes on from the function's name. */
  lemma {:induction false} FunctionsVisited(n: nat, toks: seq<Token>, sigs: Sigs, i: nat, k: nat)
    requires WellBuffered(toks) && Framed(toks) && Visits(n, toks, sigs, i).Some? && KindAt(toks, k, KFunc) && i <= k
    ensures k in Visits(n, toks, sigs, i).value
    decreases n
  {
    hide Framed, TopEnd;
    if KindAt(toks, i, KEof) {
      assert false;
    } else {
      var j := TopEnd(n - 1, toks, sigs, i).value;
      if j <= k {
        FunctionsVisited(n - 1, toks, sigs, j, k);
      } else {
        TopCross(n - 1, toks, sigs, i, k);
        if k != i {
          NameEnds(n - 1, toks, sigs, Outside, k);
        }
      }
    }
  }

  // ----- the functions' names -----

  /** The names of the functions among the places `v`. */
  function NamesOf(toks: seq<Token>, v: seq<nat>): seq<string> {
    if v == [] then [] else (if KindAt(toks, v[0], KFunc) then [NameAt(toks, v[0])] else []) + NamesOf(toks, v[1..])
  }

  lemma {:induction false} NamesOfAre(toks: seq<Token>, v: seq<nat>, n: string)
    ensures n in NamesOf(toks, v) <==> exists a :: 0 <= a < |v| && KindAt(toks, v[a], KFunc) && NameAt(toks, v[a]) == n
    decreases |v|
  {
    hide NameAt;
    if v != [] {
      NamesOfAre(toks, v[1..], n);
      assert forall a :: 0 < a < |v| ==> v[a] == v[1..][a - 1];
      assert forall a :: 0 <= a < |v| - 1 ==> v[1..][a] == v[a + 1];
    }
  }

  lemma {:induction false} NamesOfDiffer(toks: seq<Token>, sigs: Sigs, v: seq<nat>)
    requires Known(toks, sigs) && forall a, b :: 0 <= a < b < |v| ==> v[a] != v[b]
    ensures var names := NamesOf(toks, v);
            && (forall a, b :: 0 <= a < b < |names| ==> names[a] != names[b])
            && forall n :: n in names ==> n !in BUILTINS
    decreases |v|
  {
    hide NameAt, HeaderEnd, SignatureAt, BuiltinSignature;
    if v != [] {
      var rest := NamesOf(toks, v[1..]);
      NamesOfDiffer(toks, sigs, v[1..]);
      if KindAt(toks, v[0], KFunc) {
        var n := NameAt(toks, v[0]);
        NamesOfAre(toks, v[1..], n);
        assert forall a :: 0 <= a < |v| - 1 ==> v[1..][a] == v[a + 1] && v[a + 1] != v[0];
        assert n !in rest;
        assert NamesOf(toks, v) == [n] + rest;
      } else {
        assert NamesOf(toks, v) == [] + rest == rest;
      }
    }
  }

  lemma KnownFramed(toks: seq<Token>, sigs: Sigs)
    requires Known(toks, sigs) && Braced(toks)
    ensures Framed(toks)
  {
    hide HeaderEnd, NameAt, SignatureAt, BuiltinSignature;
  }

  /** In a parse from the first token to the end of the file every function of the program is translated, and none
      twice. */
  lemma EachFunctionOnce(toks: seq<Token>, sigs: Sigs, v: seq<nat>)
    requires WellBuffered(toks) && Known(toks, sigs) && Braced(toks) && Visited(toks, sigs, 0, v)
    ensures Programs.Cover(toks, NamesOf(toks, v))
    ensures forall k :: KindAt(toks, k, KFunc) ==> k in v
    ensures forall a, b :: 0 <= a < b < |v| ==> v[a] != v[b]
  {
    hide NameAt, Visits, Known, Framed, FuncNames, NamesOf, Braced, Visited;
    KnownFramed(toks, sigs);
    forall a, b | 0 <= a < b < |v|
      ensures v[a] != v[b]
    {
      VisitsDiffer(toks, sigs, 0, v, a, b);
    }
    forall k | KindAt(toks, k, KFunc)
      ensures k in v
    {
      AheadVisited(toks, sigs, v, k);
    }
    NamesOfDiffer(toks, sigs, v);
    forall n
      ensures n in NamesOf(toks, v) <==> n in FuncNames(toks, 0)
    {
      NamesOfAre(toks, v, n);
      NamesFrom(toks, 0, n);
      if k: nat :| k < |toks| && toks[k].kind == KFunc && NameAt(toks, k) == n {
        assert KindAt(toks, k, KFunc);
        var a :| 0 <= a < |v| && v[a] == k;
      }
    }
  }

  lemma AheadVisited(toks: seq<Token>, sigs: Sigs, v: seq<nat>, k: nat)
    requires WellBuffered(toks) && Framed(toks) && Visited(toks, sigs, 0, v) && KindAt(toks, k, KFunc)
    ensures k in v
  {
    hide Visits, Framed;
    var n: nat :| Visits(n, toks, sigs, 0) == Some(v);
    FunctionsVisited(n, toks, sigs, 0, k);
  }

  /** The functions that need a label are the built-in ones with a frame and those of the program. */
  lemma KnownCovered(toks: seq<Token>, sigs: Sigs)
    requires Known(toks, sigs)
    ensures forall f :: f in sigs.Keys && NeedsFrame(f) ==> f in AllNames(toks)
  {
    hide NameAt, HeaderEnd, SignatureAt, BuiltinSignature, FuncNames;
    forall f | f in sigs.Keys && NeedsFrame(f)
      ensures f in AllNames(toks)
    {
      if f !in BUILTINS {
        NamesFrom(toks, 0, f);
        var i: nat :| KindAt(toks, i, KFunc) && NameAt(toks, i) == f;
      }
    }
  }
}
