/** Programs that are accepted although their output calls or defines a function without a label: what `Tame` shuts
    out.  Each is shown with the guards of the statement rules, from any symbol tables that fit. */
module Impostors {
  import opened Tokens
  import opened Machine
  import opened Scopes
  import opened CodeGen
  import opened Semantics
  import opened Precedence
  import opened ExprParsing
  import opened Grammar
  import opened Completeness
  import opened Sentences
  import opened Headers
  import opened Arguments
  import opened Symbols
  import opened Extents
  import Anomalies
  import Calls
  import Hoisting
  import Labels
  import Programs
  import Shadowing
  import StraightLine

  // ----- expressions as the statement rules see them -----

  predicate Sees(ctx: Ctx, toks: seq<Token>, n: Shadowing.Names, lhs: Option<Item>)
    requires n.tables != []
  {
    ctx.toks == toks && ctx.scopes == Shadowing.Locals(n) && ctx.globals == Shadowing.Globals(n) && ctx.lhs == lhs
  }

  /** `nil` alone. */
  lemma NilReturns(ctx: Ctx, pos: nat, sem: Sem) returns (out: Outcome)
    requires pos + 2 < |ctx.toks| && ctx.toks[pos + 1].kind == KNil && sem.err == NO_ERR
    requires IndexOf(ctx.toks[pos + 2].kind) == IDollar
    ensures Returns(ctx, pos, sem, out) && out.sem.err == NO_ERR && out.pos == pos + 2
    ensures out.result.ty == NilType && !out.result.nilable
  {
    hide IndexOf, Returns;
    var t := Leaf(ctx.toks[pos + 1]);
    assert Yield(t) == [ctx.toks[pos + 1]] == ctx.toks[pos + 1..pos + 2];
    SentenceReturns(ctx, pos, sem, t);
    out := TreeOutcome(ctx, pos + 1, sem, t);
  }

  /** `(f)` before a line with a name, where `f` is a function that may be read. */
  lemma FunctionReturns(ctx: Ctx, pos: nat, sem: Sem, f: Item) returns (out: Outcome)
    requires pos + 4 < |ctx.toks| && sem.err == NO_ERR
    requires ctx.toks[pos + 1].kind == KLPar && ctx.toks[pos + 2].kind == KIdentifier && ctx.toks[pos + 3].kind == KRPar
    requires ctx.toks[pos + 4].kind == KIdentifier && ctx.toks[pos + 4].eol
    requires Resolve(ctx, Text(ctx.toks[pos + 2])) == Some(f) && f.init && f.ty == Function
    ensures Returns(ctx, pos, sem, out) && out.sem.err == NO_ERR && out.pos == pos + 4
    ensures out.result.ty == Function && !out.result.nilable
  {
    hide Returns, Resolve, IndexOf;
    var x, t := Leaf(ctx.toks[pos + 2]), Paren(ctx.toks[pos + 1], Leaf(ctx.toks[pos + 2]), ctx.toks[pos + 3]);
    assert Yield(x) == [ctx.toks[pos + 2]];
    assert Yield(t) == [ctx.toks[pos + 1], ctx.toks[pos + 2], ctx.toks[pos + 3]] == ctx.toks[pos + 1..pos + 4];
    OperandStarts();
    LineReturns(ctx, pos, sem, t);
    FunctionFolds(ctx, sem, ctx.toks[pos + 2], f);
    assert Fold(ctx, sem, t) == (Fold(ctx, sem, x).0, Parenthesis(Fold(ctx, sem, x).1));
    out := TreeOutcome(ctx, pos + 1, sem, t);
  }

  lemma OperandStarts()
    ensures IndexOf(KIdentifier) == IOperand && IsOperandKind(KIdentifier)
  {
  }

  lemma FunctionFolds(ctx: Ctx, sem: Sem, t: Token, f: Item)
    requires t.kind == KIdentifier && Resolve(ctx, Text(t)) == Some(f) && f.init && f.ty == Function && sem.err == NO_ERR
    ensures var (s, e) := Fold(ctx, sem, Leaf(t)); s.err == NO_ERR && e.ty == Function
  {
    hide Resolve;
  }

  // ----- statements on the symbol tables -----

  /** An assignment whose equals sign stands at `i`. */
  ghost predicate Assigns(toks: seq<Token>, i: nat, n: Shadowing.Names, s: Spot, n': Shadowing.Names)
    requires toks != [] && IsThere(n, s)
  {
    var it := ItemAt(n, s);
    (it.mutable || !it.init) && Stores(toks, i, n, s, Assign, n')
  }

  /** A definition without a type, of `id` in the table `k`. */
  ghost predicate Infers(toks: seq<Token>, i: nat, n: Shadowing.Names, s: Spot, n': Shadowing.Names)
    requires toks != [] && s.k < |n.tables|
  {
    s.id !in n.tables[s.k] && Stores(toks, i, NewItem(n, s), s, Infer, n')
  }

  ghost predicate Stores(toks: seq<Token>, i: nat, n: Shadowing.Names, s: Spot, mode: Mode, n': Shadowing.Names)
    requires toks != [] && IsThere(n, s)
  {
    exists ctx, sem, out :: StoresBy(toks, i, n, s, mode, n', ctx, sem, out)
  }

  ghost predicate StoresBy(toks: seq<Token>, i: nat, n: Shadowing.Names, s: Spot, mode: Mode, n': Shadowing.Names,
                           ctx: Ctx, sem: Sem, out: Outcome)
    requires toks != [] && IsThere(n, s)
  {
    && Sees(ctx, toks, n, Some(ItemAt(n, s))) && Returns(ctx, i, sem, out) && out.sem.err == NO_ERR
    && var given := Received(mode, ItemAt(n, s), out.result.ty, out.result.nilable);
       given.Some? && n' == PutItem(n, s, given.value)
  }

  /** A statement `id (` at `i` is a call of `fn`. */
  predicate CallsAs(toks: seq<Token>, i: nat, n: Shadowing.Names, signatures: Sigs, id: string, fn: Fn) {
    var s := Callee(n, id);
    && s.Some? && FnAt(n, signatures, s.value) == fn
    && KindAt(toks, i + 1, KLPar) && ListEnd(toks, i + 2, fn.sig).Some?
  }

  /** An expression parser to ask, with nothing recorded. */
  function Asked(toks: seq<Token>, n: Shadowing.Names, lhs: Option<Item>): Ctx
    requires n.tables != []
  {
    Ctx(Shadowing.Locals(n), Shadowing.Globals(n), lhs, toks, _ => Junk(false, false, false), _ => false)
  }

  const BLANK_SEM := Sem([], NO_ERR, 0, true, 0, None)

  // ----- a function that has become a value -----

  /** `let g = (f)` and `g()` on a line of its own, from `i` on. */
  predicate CopiesAndCalls(toks: seq<Token>, i: nat, f: string, g: string) {
    && i + 9 < |toks| && toks[i].kind == KLet
    && toks[i + 1].kind == KIdentifier && Text(toks[i + 1]) == g && toks[i + 2].kind == KAss
    && toks[i + 3].kind == KLPar && toks[i + 4].kind == KIdentifier && Text(toks[i + 4]) == f && toks[i + 5].kind == KRPar
    && toks[i + 6].kind == KIdentifier && Text(toks[i + 6]) == g && toks[i + 6].eol
    && toks[i + 7].kind == KLPar && toks[i + 8].kind == KRPar
  }

  /** Once a function may be read, it can be bound to any other name, and the name called, with no arguments whatever
      its parameters are. */
  lemma CopyIsCalled(toks: seq<Token>, i: nat, n: Shadowing.Names, signatures: Sigs, f: string, k: nat, g: string)
    returns (n': Shadowing.Names)
    requires CopiesAndCalls(toks, i, f, g) && f != g && k < |n.tables| && (forall j :: 0 <= j <= k ==> g !in n.tables[j])
    requires g !in signatures && ReadableFunction(n, f)
    ensures Infers(toks, i + 2, n, Spot(k, g), n')
    ensures CallsAs(toks, i + 6, n', signatures, g, Fn(g, BLANK))
  {
    var s := Spot(k, g);
    var m := NewItem(n, s);
    var ctx := Asked(toks, m, Some(ItemAt(m, s)));
    StillReadable(n, f, s);
    var it := ResolvesTo(m, f, ctx);
    var out := FunctionReturns(ctx, i + 2, BLANK_SEM, it);
    var given := Received(Infer, ItemAt(m, s), Function, false).value;
    n' := PutItem(m, s, given);
    assert StoresBy(toks, i + 2, m, s, Infer, n', ctx, BLANK_SEM, out);
    FindsNew(n, m, n', s, given);
  }

  /** The innermost item named `f` is a function and may be read. */
  predicate ReadableFunction(n: Shadowing.Names, f: string) {
    var k := Find(n.tables, f);
    k.Some? && n.tables[k.value][f].ty == Function && n.tables[k.value][f].init
  }

  lemma StillReadable(n: Shadowing.Names, f: string, s: Spot)
    requires ReadableFunction(n, f) && s.k < |n.tables| && s.id != f
    ensures ReadableFunction(NewItem(n, s), f)
  {
    var m := NewItem(n, s);
    FindSame(n.tables, m.tables, f);
  }

  lemma FindSame(a: seq<Scope>, b: seq<Scope>, id: string)
    requires |a| == |b| && forall k :: 0 <= k < |a| ==> (id in a[k] <==> id in b[k])
    ensures Find(a, id) == Find(b, id)
  {
    var x, y := Find(a, id), Find(b, id);
    assert x.Some? <==> y.Some?;
  }

  lemma ResolvesTo(n: Shadowing.Names, f: string, ctx: Ctx) returns (it: Item)
    requires n.tables != [] && ReadableFunction(n, f) && ctx.scopes == Shadowing.Locals(n) &&
        ctx.globals == Shadowing.Globals(n)
    requires ctx.lhs.Some? ==> ctx.lhs.value.name != f
    ensures Resolve(ctx, f) == Some(it) && it.ty == Function && it.init
  {
    var k := Find(n.tables, f).value;
    it := n.tables[k][f];
    SearchIsFind(n, f);
  }

  lemma SearchIsFind(n: Shadowing.Names, id: string)
    requires n.tables != []
    ensures var k := Find(n.tables, id);
            k.Some? ==>
              var local := Search(Shadowing.Locals(n), id);
              (if local.Some? then local else Lookup(Shadowing.Globals(n), id)) == Some(n.tables[k.value][id])
  {
    var local := Search(Shadowing.Locals(n), id);
    if local.Some? {
      var j := SearchFinds(Shadowing.Locals(n), id);
      SearchFirst(Shadowing.Locals(n), id, j);
    } else {
      SearchNone(Shadowing.Locals(n), id);
    }
  }

  lemma {:induction false} SearchFirst(scopes: seq<Scope>, id: string, j: nat)
    requires j < |scopes| && id in scopes[j]
    ensures Find(scopes, id).Some? && Search(scopes, id) == Some(scopes[Find(scopes, id).value][id])
  {
    if id !in scopes[0] {
      SearchFirst(scopes[1..], id, j - 1);
    }
  }

  lemma {:induction false} SearchNone(scopes: seq<Scope>, id: string)
    requires Search(scopes, id).None?
    ensures forall j :: 0 <= j < |scopes| ==> id !in scopes[j]
  {
    if scopes != [] {
      SearchNone(scopes[1..], id);
      assert forall j :: 0 < j < |scopes| ==> scopes[j] == scopes[1..][j - 1];
    }
  }

  lemma FindsNew(n: Shadowing.Names, m: Shadowing.Names, n': Shadowing.Names, s: Spot, it: Item)
    requires s.k < |n.tables| && (forall j :: 0 <= j <= s.k ==> s.id !in n.tables[j])
    requires m == NewItem(n, s) && n' == PutItem(m, s, it)
    ensures Find(n'.tables, s.id) == Some(s.k) && ItemAt(n', s).ty == it.ty
  {
    assert forall j :: 0 <= j < s.k ==> s.id !in n'.tables[j];
  }

  // ----- by an assignment -----

  /** `f = nil` on a line of its own. */
  predicate AssignsNil(toks: seq<Token>, i: nat, f: string) {
    && i + 3 < |toks| && toks[i].kind == KIdentifier && Text(toks[i]) == f && toks[i + 1].kind == KAss
    && toks[i + 2].kind == KNil && IndexOf(toks[i + 3].kind) == IDollar
  }

  /** After `f = nil`, `let g = (f)`, `g()` the program calls `g`, which no header declares: from all tables before which
      only functions have been declared, for every function whose result can be nil and every new name. */
  lemma FunctionVariableCalled(toks: seq<Token>, i: nat, n: Shadowing.Names, signatures: Sigs, f: string, g: string)
    returns (n1: Shadowing.Names, n2: Shadowing.Names)
    requires AssignsNil(toks, i, f) && CopiesAndCalls(toks, i + 3, f, g)
    requires OnlyFunctions(n, signatures) && f in signatures && signatures[f].nilable && !n.tables[0][f].mutable
    requires g !in signatures
    ensures Assigns(toks, i + 1, n, Spot(0, f), n1)
    ensures Infers(toks, i + 5, n1, Spot(0, g), n2)
    ensures CallsAs(toks, i + 9, n2, signatures, g, Fn(g, BLANK))
  {
    hide Infers, CallsAs, Assigns, CopiesAndCalls;
    n1 := NilInitializes(toks, i, n, signatures, f);
    n2 := CopyIsCalled(toks, i + 3, n1, signatures, f, 0, g);
  }

  /** The assignment makes the function readable, and changes nothing else. */
  lemma NilInitializes(toks: seq<Token>, i: nat, n: Shadowing.Names, signatures: Sigs, f: string)
    returns (n1: Shadowing.Names)
    requires AssignsNil(toks, i, f)
    requires OnlyFunctions(n, signatures) && f in signatures && signatures[f].nilable && !n.tables[0][f].mutable
    ensures Assigns(toks, i + 1, n, Spot(0, f), n1)
    ensures ReadableFunction(n1, f) && |n1.tables| == 1 && n1.tables[0].Keys == signatures.Keys
  {
    hide Returns, IndexOf;
    var s := Spot(0, f);
    var it := ItemAt(n, s);
    var ctx := Asked(toks, n, Some(it));
    var out := NilReturns(ctx, i + 1, BLANK_SEM);
    var given := Received(Assign, it, NilType, false).value;
    n1 := PutItem(n, s, given);
    assert StoresBy(toks, i + 1, n, s, Assign, n1, ctx, BLANK_SEM, out);
  }

  // ----- by `if let` -----

  /** In `if let f` the constant is a function without parameters, whatever the header of `f` says; it can be called and
      copied. */
  lemma LetFunctionCalled(n: Shadowing.Names, signatures: Sigs, f: string) returns (n': Shadowing.Names)
    requires Plain(n, signatures) && f in signatures && signatures[f].nilable && !Shadowing.Globals(n)[f].mutable
    requires Find(n.tables, f) == Some(|n.tables| - 1)
    ensures LetNames(Opened(n), f) == Some(n')
    ensures ReadableFunction(n', f) && Callee(n', f) == Some(Spot(0, f))
    ensures FnAt(n', signatures, Spot(0, f)) == Fn(f, BLANK)
    ensures forall toks, i: nat :: ListEnd(toks, i, BLANK).Some? <==> KindAt(toks, i, KRPar)
  {
    var o := Opened(n);
    assert o.tables[1..] == n.tables;
    assert Find(o.tables, f) == Some(|n.tables|);
    n' := LetNames(o, f).value;
    assert f in n'.tables[0];
  }

  /** Such a call runs into the function exactly when the function has no parameters. */
  lemma CopyCallsExactly(ord: Order, m: State, params: seq<Calls.Param>)
    requires Calls.Distinct(params)
    ensures StraightLine.Exec(ord, m, StraightLine.Body(Calls.FrameCalls([])) + StraightLine.Body(Calls.Prologue(params))).Some?
            <==> params == []
  {
    hide StraightLine.Exec, StraightLine.Body, Calls.FrameCalls, Calls.Prologue;
    if params == [] {
      Calls.ArgumentsArrive(ord, m, [], []);
    } else {
      TooFewFail(ord, m, [], params);
    }
  }

  /** `if let f`, then `let g = (f)` and `g()` in its block. */
  lemma LetCopyCalled(toks: seq<Token>, i: nat, n: Shadowing.Names, signatures: Sigs, f: string, g: string)
    returns (n1: Shadowing.Names, n2: Shadowing.Names)
    requires CopiesAndCalls(toks, i, f, g) && f != g && g !in signatures
    requires Plain(n, signatures) && f in signatures && signatures[f].nilable && !Shadowing.Globals(n)[f].mutable
    requires Find(n.tables, f) == Some(|n.tables| - 1)
    ensures LetNames(Opened(n), f) == Some(n1) && Infers(toks, i + 2, Opened(n1), Spot(0, g), n2)
    ensures CallsAs(toks, i + 6, n2, signatures, g, Fn(g, BLANK))
  {
    n1 := LetFunctionCalled(n, signatures, f);
    assert Opened(n1).tables[1..] == n1.tables;
    n2 := CopyIsCalled(toks, i, Opened(n1), signatures, f, 0, g);
  }

  // ----- what becomes of the output -----

  /** Code with the labels of the functions `names` that calls another function is not resolved. */
  lemma UnknownUnresolved(code: seq<Instr>, c: nat, l: nat, names: seq<string>, g: string)
    requires Labels.ClosedWith(code, 0, c, 0, l, names) && Instr.Call(g) in code
    requires g !in names && forall n :: n in names ==> g != "END_" + n
    ensures !Programs.Resolved(code)
  {
    hide Labels.Count;
    Labels.TimesPositive(names, g);
    var i :| 0 <= i < |code| && code[i] == Instr.Call(g);
    forall k | 0 <= k < |names|
      ensures names[k] != g && "END_" + names[k] != g
    {
      assert names[k] in names;
    }
    assert Labels.Count(code, FunctionL(g)) == 0;
  }

  // ----- by an expression that steps over the keyword -----

  /** `var y = ((a!`, `(((b)) func`, `f()` and the end of the file, from `i` on. */
  predicate StepsOverHeader(toks: seq<Token>, i: nat) {
    && i + 18 == |toks| && WellBuffered(toks)
    && toks[i].kind == KVar && toks[i + 1].kind == KIdentifier && toks[i + 2].kind == KAss
    && Anomalies.KeywordAfterLine(toks, i + 3) && toks[i + 14].eol && toks[i + 16].kind == KRPar
  }

  /** The definition ends at the function's name, the header goes on as a call of the function, and the parse comes to the
      end of the file without having translated the function: where the expression's own actions succeed, for every
      such program.  No brace follows the header. */
  lemma HeaderCalled(toks: seq<Token>, i: nat, signatures: Sigs, ctx: Ctx, sem: Sem)
    requires StepsOverHeader(toks, i) && ctx.toks == toks && sem.err == NO_ERR
    requires var a := Fold(ctx, sem, Anomalies.BangAt(toks, i + 5)).0;
             Fold(ctx, a, Paren(toks[i + 8], Anomalies.ParenAt(toks, i + 9), toks[i + 12])).0.err == NO_ERR
    requires var f := Text(toks[i + 14]); f in signatures && signatures[f].params == [] && !signatures[f].variadic
    ensures HeaderEnd(toks, i + 13) == Some(i + 17) && !Braced(toks)
    ensures Visited(toks, signatures, i, [i, i + 14])
    ensures KindAt(toks, i + 13, KFunc) && NamesOf(toks, [i, i + 14]) == []
    ensures forall it: Item :: Received(Infer, it, Undefined, false).Some?
  {
    hide Fold, Returns, Visited, StmtEnds, TopEnds, NameAt;
    var out := Anomalies.StepsOverKeyword(ctx, i + 2, sem);
    assert EndsBy(toks, i + 2, i + 14, ctx, sem, out);
    ExprEndIs(toks, i + 2, i + 14);
    assert SideEnd(toks, signatures, i + 2) == Some(i + 14);
    DefineStmt(toks, signatures, Outside, i, i + 14);
    assert ListEnd(toks, i + 16, signatures[Text(toks[i + 14])]) == Some(i + 17);
    NameStmt(toks, signatures, Outside, i + 14, i + 17);
    StmtTop(toks, signatures, i, i + 14);
    StmtTop(toks, signatures, i + 14, i + 17);
    VisitsDone(toks, signatures, i + 17);
    VisitsMeet(toks, signatures, i + 14, i + 17, []);
    VisitsMeet(toks, signatures, i, i + 14, [i + 14] + []);
    assert [i] + ([i + 14] + []) == [i, i + 14];
    assert NamesOf(toks, [i, i + 14][1..]) == NamesOf(toks, [i, i + 14][1..][1..]);
  }
}
