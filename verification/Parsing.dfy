/** The recursive-descent parser: its two passes over the token buffer, the symbol tables and counters its rules keep,
    and what it has the generator write.  Expressions are those of the expression parser; wherever one of them ends,
    parsing goes on from there. */
module Parsing {
  import opened Tokens
  import opened Machine
  import opened Scopes
  import opened Hoisting
  import opened StraightLine
  import opened CodeGen
  import opened Labels
  import opened Headers
  import opened Rules
  import opened Blocks
  import opened Programs
  import opened Arguments
  import opened Symbols
  import opened Extents
  import Calls
  import Naming
  import Shadowing
  import FunctionTypes
  import Semantics

  const ERR_UNDEFINED_FUNCTION: nat := 3
  const ERR_REDEFINING_VARIABLE: nat := 3
  const ERR_FUNCTION_PARAMETER: nat := 4
  const ERR_RETURN_TYPE: nat := 4
  const ERR_FUNCTION_RETURN: nat := 6
  const ERR_MISSING_TYPE: nat := 8
  const ERR_INTERNAL: nat := 99

  /** No error of the program's: the parse has more statements than it was to be followed for. */
  const UNFINISHED: nat := 100

  /** In a tame program the first pass has found every function, and nothing else is one. */
  ghost predicate AgreeOn(toks: seq<Token>, names: Shadowing.Names, signatures: map<string, Signature>) {
    Tame(toks) ==> Plain(names, signatures) && Known(toks, signatures)
  }

  /** Which statements may stand inside and outside functions, and what `return` means in them. */
  ghost predicate Stands(fn: Fn, inFunction: bool, w: Where) {
    && (inFunction <==> !w.Outside?) && (inFunction ==> (w.InVoid? <==> fn.sig.ret == NilType))
  }

  /** In a tame program no function that could be nil is assigned to. */
  ghost predicate Assignable(toks: seq<Token>, it: Item, mode: Mode) {
    Tame(toks) ==> it.ty == Type.Function ==> !mode.Infer? && !it.nilable
  }

  /** There is an assigned variable. */
  predicate LhsIn(names: Shadowing.Names, lhs: Option<Spot>) {
    lhs.Some? && IsThere(names, lhs.value)
  }

  ghost predicate LhsOrdinary(toks: seq<Token>, names: Shadowing.Names, lhs: Option<Spot>) {
    LhsIn(names, lhs) && (Tame(toks) ==> ItemAt(names, lhs.value).ty != Type.Function)
  }

  ghost predicate LhsSuits(toks: seq<Token>, names: Shadowing.Names, lhs: Option<Spot>, mode: Mode) {
    LhsIn(names, lhs) && Assignable(toks, ItemAt(names, lhs.value), mode)
  }

  /** A variable that is open to it has been assigned to, and nothing else has changed. */
  predicate Assigned(n: Shadowing.Names, lhs: Option<Spot>, n': Shadowing.Names) {
    && LhsIn(n, lhs) && (ItemAt(n, lhs.value).mutable || !ItemAt(n, lhs.value).init)
    && Stored(n, Assign, lhs.value, n')
  }

  /** A definition has gone on after its name, which stands at `i`: only its variable has changed; that has the written
      type or, without one, a value. */
  predicate Continued(n: Shadowing.Names, s: Spot, n': Shadowing.Names, toks: seq<Token>, i: nat) {
    && OnlyPut(n, s, n') && i + 2 < |toks|
    && var it := ItemAt(n', s);
       if toks[i + 1].kind == KCol
       then it.ty == TypeOf(toks[i + 2].kind) && (it.nilable <==> toks[i + 2].val == NilableVal(true))
       else it.init
  }

  /** A definition has made its variable, which is new in its table. */
  predicate Defined(n: Shadowing.Names, s: Spot, n': Shadowing.Names, toks: seq<Token>, i: nat) {
    s.k < |n.tables| && s.id !in n.tables[s.k] && Continued(NewItem(n, s), s, n', toks, i)
  }

  class Parser {
    const toks: seq<Token>
    const world: World
    const gen: Generator
    ghost var seen: set<nat>
    ghost var emitted: seq<Hoisting.Call>
    var pos: nat
    var cur: Token
    var names: Shadowing.Names
    var signatures: map<string, Signature>
    var lhs: Option<Spot>
    var curId: Option<Item>
    var lastFn: Fn
    var inCond: nat
    var inLoop: nat
    var condUid: nat
    var loopUid: nat
    var params: seq<ParamSig>
    var paramCnt: nat
    var firstStmt: bool
    var inFuncHead: bool
    var inFuncBody: bool
    var inParam: bool
    var returnFound: bool
    var asked: nat
    var left: nat

    ghost function Now(): Snap
      reads this
    {
      Snap(if names.tables == [] then 0 else |names.tables| - 1, inCond, inLoop, condUid, loopUid, emitted,
           if Tame(toks) then Some(signatures.Keys) else None)
    }

    /** The buffer is well-formed and the generator has as many loops open as the parser is in. */
    ghost predicate Placed()
      reads this, gen
    {
      ValidAt(toks, world, pos, cur, inLoop, emitted, gen.State()) && names.tables != [] && Sound(names) && Sane(signatures)
    }

    /** And no arguments are being passed. */
    ghost predicate Valid()
      reads this, gen
    {
      Placed() && gen.funcParamId == 0
    }

    ghost predicate Agreed()
      reads this
    {
      AgreeOn(toks, names, signatures)
    }

    /** The second pass, perhaps among the arguments of a call. */
    ghost predicate InCall()
      reads this, gen
    {
      Placed() && Agreed()
    }

    /** The same outside calls. */
    ghost predicate Ready()
      reads this, gen
    {
      InCall() && gen.funcParamId == 0
    }

    /** The assigned variable, if there is one, is in its table. */
    predicate LhsHeld()
      reads this
    {
      lhs.Some? ==> IsThere(names, lhs.value)
    }

    /** Parses at most `left` functions and statements. */
    constructor (toks: seq<Token>, world: World, gen: Generator, left: nat)
      requires WellBuffered(toks) && Lawful(world, toks) && gen.State() == Hoisting.INITIAL && gen.funcParamId == 0
      ensures this.toks == toks && this.world == world && this.gen == gen && this.left == left && Valid()
      ensures Fresh()
    {
      hide StartNames, StartSigs, OnlyFunctions, KnownSeen, Sound, Sane, BUILTINS, Lawful, Nested, Hoisting.Depth;
      this.toks, this.world, this.gen, this.left := toks, world, gen, left;
      seen, emitted, pos, cur := {}, [], 0, toks[0];
      names, signatures := StartNames(), StartSigs();
      inCond, inLoop, condUid, loopUid := 0, 0, 0, 0;
      lhs, curId, lastFn, params, paramCnt := None, None, Fn("", BLANK), [], 0;
      firstStmt, inFuncHead, inFuncBody, inParam, returnFound, asked := true, false, false, false, false, 0;
      new;
      Nothing();
      NestedNothing();
      FreshTables(toks);
    }

    /** As constructed. */
    ghost predicate Fresh()
      reads this
    {
      && seen == {} && emitted == [] && inCond == inLoop == condUid == loopUid == 0 && lhs.None? && firstStmt
      && OnlyFunctions(names, signatures) && KnownSeen(toks, {}, signatures) && signatures.Keys == BUILTINS
    }

    lemma InBuffer()
      requires Placed()
      ensures pos < |toks| && cur == toks[pos] && WellBuffered(toks) && toks[|toks| - 1].kind == KEof
      ensures cur.kind != KEof ==> pos + 1 < |toks|
    {
      hide Lawful, Nested, Depth, DoAll;
    }

    // ----- primitives -----

    method GetToken()
      requires Placed()
      modifies this`pos, this`cur
      ensures Placed() && pos == After(toks, old(pos))
      ensures cur == toks[pos] && (old(cur.kind) != KEof ==> pos == old(pos) + 1)
    {
      if pos + 1 < |toks| {
        pos := pos + 1;
      }
      cur := toks[pos];
    }

    method PrevToken()
      requires Placed()
      modifies this`pos, this`cur
      ensures Placed() && pos == if old(pos) > 0 then old(pos) - 1 else 0
    {
      if pos > 0 {
        pos := pos - 1;
      }
      cur := toks[pos];
    }

    /** The next token, which exists after any but the last. */
    method Next()
      requires InCall() && cur.kind != KEof
      modifies this`pos, this`cur
      ensures InCall() && pos == old(pos) + 1 && pos < |toks| && cur == toks[pos] && old(cur) == toks[old(pos)]
    {
      hide Lawful, Nested, Depth, DoAll, AgreeOn;
      GetToken();
    }

    /** Calls of the generator. */
    method Generate(calls: seq<Hoisting.Call>)
      requires gen.State() == DoAll(Hoisting.INITIAL, emitted)
      modifies this`emitted, gen
      ensures emitted == old(emitted) + calls && gen.State() == DoAll(Hoisting.INITIAL, emitted)
      ensures gen.funcParamId == old(gen.funcParamId)
    {
      DoAllConcat(Hoisting.INITIAL, emitted, calls);
      gen.Generate(calls);
      emitted := emitted + calls;
    }

    /** Lines without labels. */
    method EmitLines(calls: seq<Hoisting.Call>, ghost from: Snap)
      requires InCall() && Follows(from, Now()) && IsPlain(calls)
      modifies this`emitted, gen
      ensures InCall() && Follows(from, Now()) && gen.funcParamId == old(gen.funcParamId)
      ensures emitted == old(emitted) + calls
    {
      hide AgreeOn, Follows, Nested, Depth, DoAll, IsPlain, Tame, Sound, Sane;
      ghost var a := Now();
      Generate(calls);
      EmittedPlain(a, Now(), calls);
      FollowsWrite(from, a, Now(), calls);
    }

    /** The lines of a built-in function. */
    method EmitPlain(ghost from: Snap)
      requires InCall() && Follows(from, Now())
      modifies this`asked, this`emitted, gen
      ensures InCall() && Follows(from, Now()) && gen.funcParamId == old(gen.funcParamId)
    {
      hide AgreeOn, Follows, Nested, Depth, DoAll, IsPlain, Tame, Sound, Sane;
      var calls := world.plain(asked);
      asked := asked + 1;
      EmitLines(calls, from);
    }

    /** An argument of the called function: a slot of its frame, or lines of a function that has none. */
    method ParamAdd(source: Source, ghost from: Snap)
      requires InCall() && Follows(from, Now())
      modifies this`asked, this`emitted, gen
      ensures InCall() && Follows(from, Now())
      ensures Passed(NeedsFrame(lastFn.name), old(emitted), emitted, old(gen.funcParamId), gen.funcParamId, [source])
    {
      hide AgreeOn, Follows, Nested, Depth, DoAll, Lawful, IsPlain, Tame, Sound, Sane;
      if NeedsFrame(lastFn.name) {
        ghost var a := Now();
        ghost var calls := SlotCalls(gen.funcParamId, source);
        gen.ParamAdd(source);
        emitted := emitted + calls;
        DoAllConcat(Hoisting.INITIAL, a.emitted, calls);
        SlotPlain(old(gen.funcParamId), source);
        EmittedPlain(a, Now(), calls);
        FollowsWrite(from, a, Now(), calls);
        SlotsOne(old(gen.funcParamId), source);
      } else {
        EmitPlain(from);
      }
    }

    /** The call of a function after its arguments: `CALL` for those that have a frame. */
    method EmitCall(name: string, ghost from: Snap)
      requires InCall() && Follows(from, Now()) && (!NeedsFrame(name) ==> gen.funcParamId == 0)
      requires Tame(toks) ==> name in signatures
      modifies this`asked, this`emitted, gen
      ensures Ready() && Follows(from, Now())
      ensures NeedsFrame(name) ==> emitted == old(emitted) + LastCalls(old(gen.funcParamId), name)
    {
      hide AgreeOn, Follows, Nested, Depth, DoAll, CallsKnown, Lawful, Wrote, Tame, Sound, Sane;
      if NeedsFrame(name) {
        ghost var a := Now();
        ghost var calls := LastCalls(gen.funcParamId, name);
        gen.FunctionCall(name);
        emitted := emitted + calls;
        DoAllConcat(Hoisting.INITIAL, a.emitted, calls);
        LastWrote(a, Now(), old(gen.funcParamId), name);
        FollowsWrite(from, a, Now(), calls);
      } else {
        EmitPlain(from);
      }
    }

    /** `r` is what a call of the expression parser from `at` returned without an error. */
    ghost predicate Answered(at: nat, uid: nat, r: ExprResult)
      requires toks != [] && names.tables != [] && LhsHeld()
      reads this
    {
      var it := if lhs.Some? then Some(ItemAt(names, lhs.value)) else None;
      r.error == NO_ERR && Genuine(toks, Shadowing.Locals(names), Shadowing.Globals(names), it, at, uid, r)
    }

    /** The expression parser. */
    method Expr(ghost from: Snap) returns (error: nat, ty: Type, nilable: bool, ghost r: ExprResult)
      requires Ready() && Follows(from, Now()) && LhsHeld() && pos + 1 < |toks|
      modifies this`pos, this`cur, this`asked, this`emitted, this`condUid, gen
      ensures error == NO_ERR ==>
        && Ready() && Follows(from, Now()) && ExprEnd(toks, old(pos)) == Some(pos) && (Tame(toks) ==> ty != Type.Function)
        && Answered(old(pos), old(condUid), r) && ty == r.ty && nilable == r.nilable && pos == r.pos && condUid == r.condUid
        && emitted == old(emitted) + Emits(r.code)
    {
      hide AgreeOn, Follows, Nested, Depth, DoAll, Closed, Genuine, Tame, ExprEnd, Sound, Sane;
      ghost var a := Now();
      var it := if lhs.Some? then Some(ItemAt(names, lhs.value)) else None;
      var scopes, globals := Shadowing.Locals(names), Shadowing.Globals(names);
      var answer := world.expr(asked, scopes, globals, it, pos, condUid);
      r := answer;
      assert Genuine(toks, scopes, globals, it, pos, condUid, r);
      asked := asked + 1;
      error, ty, nilable := answer.error, answer.ty, answer.nilable;
      if error != NO_ERR {
        return;
      }
      CallFacts(toks, scopes, globals, it, pos, condUid, r);
      Ordinary(it, r);
      var calls := Emits(answer.code);
      Generate(calls);
      condUid := answer.condUid;
      pos := answer.pos;
      cur := toks[pos];
      EmittedCode(a, Now(), r.code, calls);
      FollowsWrite(from, a, Now(), calls);
    }

    lemma Ordinary(it: Option<Item>, r: ExprResult)
      requires Agreed() && names.tables != [] && toks != [] && r.error == NO_ERR
      requires Genuine(toks, Shadowing.Locals(names), Shadowing.Globals(names), it, pos, condUid, r)
      ensures Tame(toks) ==> r.ty != Type.Function
    {
      hide Plain, Known, Tame, FunctionTypes.NoneReadable, Genuine;
      if Tame(toks) {
        forall ctx: Semantics.Ctx | ctx.scopes == Shadowing.Locals(names) && ctx.globals == Shadowing.Globals(names)
          ensures FunctionTypes.NoneReadable(ctx)
        {
          PlainUnreadable(names, signatures, ctx);
        }
        CallOrdinary(toks, Shadowing.Locals(names), Shadowing.Globals(names), it, pos, condUid, r);
      }
    }

    /** Sets the assigned variable. */
    method SetLhs(it: Item)
      requires InCall() && LhsOrdinary(toks, names, lhs) && (Tame(toks) ==> it.ty != Type.Function)
      modifies this`names
      ensures InCall() && Now() == old(Now()) && LhsOrdinary(toks, names, lhs)
      ensures names == PutItem(old(names), lhs.value, it)
    {
      hide Plain, Known, Nested, Depth, DoAll, Lawful, Tame, Sound, Sane;
      if Tame(toks) {
        PlainPut(names, lhs.value, it, signatures);
      }
      SoundPut(names, lhs.value, it);
      names := PutItem(names, lhs.value, it);
    }

    // ----- arguments -----

    method Literal(sig: Signature, p: ParamSig, ghost from: Snap) returns (error: nat, ghost v: Source)
      requires InCall() && Follows(from, Now())
      modifies this`asked, this`emitted, gen
      ensures error == NO_ERR ==>
        && InCall() && Follows(from, Now()) && LiteralAt(toks, pos, sig.variadic, p) == Some(v)
        && Passed(NeedsFrame(lastFn.name), old(emitted), emitted, old(gen.funcParamId), gen.funcParamId, [v])
    {
      hide Follows, Lawful, Nested, DoAll, Depth, AgreeOn, Tame, Sound, Sane;
      v := Const(VNil);
      var literal := LiteralValue(cur);
      if literal.None? {
        return ERR_SYNTAX, v;
      }
      if !sig.variadic && !LiteralSuits(cur, p) {
        return ERR_FUNCTION_PARAMETER, v;
      }
      v := Const(literal.value);
      ParamAdd(Const(literal.value), from);
      error := NO_ERR;
    }

    /** The variable that the current identifier denotes, which becomes the current item.  What the generator reads for
        it is that variable exactly when it is initialised or global. */
    method ArgVariable(ghost from: Snap) returns (it: Option<Item>)
      requires InCall() && Follows(from, Now())
      modifies this`curId
      ensures InCall() && Follows(from, Now()) && it == ArgItem(names, old(curId), Text(cur)) && curId == it
      ensures CurrentSuits(names, old(curId)) ==>
        && CurrentSuits(names, curId)
        && (it.Some? ==>
              var local := ArgLocal(names, old(curId), Text(cur));
              PlacesOf(names)(Text(cur)) == VarRef(if local then LF else GF, Text(cur), it.value.uid)
              <==> it.value.init || !local)
    {
      hide Follows, ValidAt, AgreeOn, Sound, Sane, PlacesOf, CurrentSuits, ArgItem;
      if CurrentSuits(names, curId) {
        CurrentKept(names, curId, Text(cur));
        if ArgItem(names, curId, Text(cur)).Some? {
          ArgumentAgreesExactly(names, curId, Text(cur));
        }
      }
      it := ArgItem(names, curId, Text(cur));
      curId := it;
    }

    /** A labelled value: a variable of the right type, initialised or not, or a literal. */
    method Term(sig: Signature, p: ParamSig, ghost from: Snap) returns (error: nat, ghost v: Source)
      requires InCall() && Follows(from, Now())
      modifies this`asked, this`emitted, this`curId, gen
      ensures error == NO_ERR ==>
        && InCall() && Follows(from, Now()) && TermAt(PlacesOf(names), toks, pos, sig.variadic, p) == Some(v)
        && Passed(NeedsFrame(lastFn.name), old(emitted), emitted, old(gen.funcParamId), gen.funcParamId, [v])
    {
      hide Follows, Lawful, Nested, DoAll, Depth, AgreeOn, Tame, Sound, Sane, GenVar;
      if cur.kind != KIdentifier {
        error, v := Literal(sig, p, from);
        return;
      }
      v := Variable(PlacesOf(names)(Text(cur)));
      var it := ArgVariable(from);
      if it.None? {
        return ERR_UNDEFINED_VARIABLE, v;
      }
      if it.value.ty != p.ty {
        return ERR_FUNCTION_PARAMETER, v;
      }
      ParamAdd(Variable(PlacesOf(names)(Text(cur))), from);
      error := NO_ERR;
    }

    /** After a label: a colon and a value, or nothing. */
    method OptArg(sig: Signature, p: ParamSig, ghost from: Snap) returns (error: nat, ghost v: Option<Source>)
      requires InCall() && Follows(from, Now())
      modifies this`pos, this`cur, this`asked, this`emitted, this`curId, gen
      ensures error == NO_ERR ==>
        && InCall() && Follows(from, Now())
        && (if toks[old(pos)].kind == KCol
            then pos == old(pos) + 1 && v.Some? && TermAt(PlacesOf(names), toks, pos, sig.variadic, p) == v
            else pos == old(pos) && v.None?)
        && Passed(NeedsFrame(lastFn.name), old(emitted), emitted, old(gen.funcParamId), gen.funcParamId,
                  if v.Some? then [v.value] else [])
    {
      hide Follows, Lawful, Nested, DoAll, Depth, AgreeOn, Tame, Sound, Sane, PlacesOf;
      v := None;
      if cur.kind == KCol {
        Next();
        ghost var t;
        error, t := Term(sig, p, from);
        v := Some(t);
      } else {
        error := NO_ERR;
      }
    }

    /** A variable without a label: initialised, of the parameter's type and nilability. */
    method PlainArg(sig: Signature, p: ParamSig, ghost from: Snap) returns (error: nat, ghost v: Source)
      requires InCall() && Follows(from, Now()) && cur.kind == KIdentifier
      modifies this`asked, this`emitted, this`curId, gen
      ensures error == NO_ERR ==>
        && InCall() && Follows(from, Now()) && TermAt(PlacesOf(names), toks, pos, sig.variadic, p) == Some(v)
        && Passed(NeedsFrame(lastFn.name), old(emitted), emitted, old(gen.funcParamId), gen.funcParamId, [v])
    {
      hide Follows, Lawful, Nested, DoAll, Depth, AgreeOn, Tame, Sound, Sane, GenVar;
      v := Variable(PlacesOf(names)(Text(cur)));
      var it := ArgVariable(from);
      if it.None? || !it.value.init {
        return ERR_UNDEFINED_VARIABLE, v;
      }
      if !sig.variadic && (it.value.ty != p.ty || it.value.nilable != p.nilable) {
        return ERR_FUNCTION_PARAMETER, v;
      }
      ParamAdd(Variable(PlacesOf(names)(Text(cur))), from);
      error := NO_ERR;
    }

    /** An argument: a value where the parameter has no label, else its label and, after a colon, a value. */
    method Arg(sig: Signature, p: ParamSig, ghost from: Snap) returns (error: nat, ghost arg: Argument)
      requires InCall() && Follows(from, Now())
      modifies this`pos, this`cur, this`asked, this`emitted, this`curId, gen
      ensures error == NO_ERR ==>
        && InCall() && Follows(from, Now()) && ArgAt(PlacesOf(names), toks, old(pos), sig.variadic, p) == Some((pos, arg))
        && Passed(NeedsFrame(lastFn.name), old(emitted), emitted, old(gen.funcParamId), gen.funcParamId, Values([arg]))
    {
      hide Follows, Lawful, Nested, DoAll, Depth, AgreeOn, Passed, TermAt, LiteralAt, Tame, Sound, Sane, PlacesOf;
      ghost var v;
      arg := Argument(pos, None);
      if cur.kind != KIdentifier {
        if p.tag != "_" {
          return ERR_FUNCTION_PARAMETER, arg;
        }
        error, v := Literal(sig, p, from);
        arg := Argument(pos, Some(v));
        NoVariable(PlacesOf(names), toks, pos, sig.variadic, p);
        assert Values([arg]) == [v] + Values([]) == [v];
      } else if p.tag == "_" {
        error, v := PlainArg(sig, p, from);
        arg := Argument(pos, Some(v));
        assert Values([arg]) == [v] + Values([]) == [v];
      } else {
        if p.tag != Text(cur) {
          return ERR_FUNCTION_PARAMETER, arg;
        }
        Next();
        ghost var o;
        error, o := OptArg(sig, p, from);
        arg := Argument(old(pos), o);
        assert Values([arg]) == (if o.Some? then [o.value] else []) + Values([]) == if o.Some? then [o.value] else [];
      }
    }

    /** After an argument, whose last token is still the current one. */
    method NextArg(sig: Signature, ghost j: nat, next: seq<ParamSig>, ghost from: Snap)
      returns (error: nat, ghost args: seq<Argument>)
      requires InCall() && Follows(from, Now()) && Left(sig, j, next)
      modifies this`pos, this`cur, this`asked, this`emitted, this`curId, gen
      ensures error == NO_ERR ==>
        && InCall() && Follows(from, Now())
        && RestAt(PlacesOf(names), toks, old(pos) + 1, sig, j) == Some((pos, args))
        && Passed(NeedsFrame(lastFn.name), old(emitted), emitted, old(gen.funcParamId), gen.funcParamId, Values(args))
      decreases |toks| - pos, 1
    {
      hide Follows, Lawful, Nested, DoAll, Depth, AgreeOn, Passed, Left, RestAt, Tame, Sound, Sane, PlacesOf;
      args := [];
      GetToken();
      if cur.kind == KComma || cur.kind == KRPar {
        error, args := ArgNext(sig, j, next, from);
      } else {
        error := ERR_SYNTAX;
      }
    }

    method ArgNext(sig: Signature, ghost j: nat, next: seq<ParamSig>, ghost from: Snap)
      returns (error: nat, ghost args: seq<Argument>)
      requires InCall() && Follows(from, Now()) && Left(sig, j, next) && (cur.kind == KComma || cur.kind == KRPar)
      modifies this`pos, this`cur, this`asked, this`emitted, this`curId, gen
      ensures error == NO_ERR ==>
        && InCall() && Follows(from, Now())
        && RestAt(PlacesOf(names), toks, old(pos), sig, j) == Some((pos, args))
        && Passed(NeedsFrame(lastFn.name), old(emitted), emitted, old(gen.funcParamId), gen.funcParamId, Values(args))
      decreases |toks| - pos, 0
    {
      hide Follows, Lawful, Nested, DoAll, Depth, AgreeOn, Passed, ArgAt, Tame, Sound, Sane, PlacesOf;
      args := [];
      if cur.kind == KComma {
        if !sig.variadic && next == [] {
          return ERR_FUNCTION_PARAMETER, args;
        }
        Next();
        ghost var start := pos;
        ghost var arg;
        error, arg := Arg(sig, if sig.variadic then sig.params[0] else next[0], from);
        if error != NO_ERR {
          return;
        }
        ghost var e, k := emitted, gen.funcParamId;
        ghost var more;
        error, more := NextArg(sig, j + 1, if sig.variadic then next else next[1..], from);
        args := [arg] + more;
        if error == NO_ERR {
          ValuesSnoc(arg, more);
          PassedOn(NeedsFrame(lastFn.name), old(emitted), e, emitted, old(gen.funcParamId), k, gen.funcParamId,
                   Values([arg]), Values(more));
        }
      } else {
        if !sig.variadic && next != [] {
          return ERR_FUNCTION_PARAMETER, args;
        }
        Next();
        PassedNothing(NeedsFrame(lastFn.name), emitted, gen.funcParamId);
        error := NO_ERR;
      }
    }

    method ArgList(sig: Signature, ghost from: Snap) returns (error: nat, ghost args: seq<Argument>)
      requires InCall() && Follows(from, Now()) && (sig.variadic ==> sig.params != [])
      modifies this`pos, this`cur, this`asked, this`emitted, this`curId, gen
      ensures error == NO_ERR ==>
        && InCall() && Follows(from, Now())
        && ArgListAt(PlacesOf(names), toks, old(pos), sig) == Some((pos, args))
        && Passed(NeedsFrame(lastFn.name), old(emitted), emitted, old(gen.funcParamId), gen.funcParamId, Values(args))
    {
      hide Follows, Lawful, Nested, DoAll, Depth, AgreeOn, Passed, ArgAt, RestAt, Tame, Sound, Sane, PlacesOf;
      args := [];
      if cur.kind == KRPar {
        if !sig.variadic && sig.params != [] {
          return ERR_FUNCTION_PARAMETER, args;
        }
        Next();
        PassedNothing(NeedsFrame(lastFn.name), emitted, gen.funcParamId);
        return NO_ERR, args;
      }
      if sig.params == [] {
        return ERR_FUNCTION_PARAMETER, args;
      }
      ghost var arg;
      error, arg := Arg(sig, sig.params[0], from);
      if error != NO_ERR {
        return;
      }
      ghost var e, k := emitted, gen.funcParamId;
      ghost var more;
      error, more := NextArg(sig, 0, sig.params[1..], from);
      args := [arg] + more;
      if error == NO_ERR {
        ValuesSnoc(arg, more);
        PassedOn(NeedsFrame(lastFn.name), old(emitted), e, emitted, old(gen.funcParamId), k, gen.funcParamId,
                 Values([arg]), Values(more));
      }
    }

    /** A call from its opening parenthesis on, of the item that was found: for a function with a frame, exactly the
        specified calls of the generator with the values that the argument list spells for that item's parameters. */
    method CallRule(s: Spot, ghost from: Snap) returns (error: nat, ghost args: seq<Argument>)
      requires Ready() && Follows(from, Now()) && cur.kind == KLPar
      requires Callee(names, s.id) == Some(s) || GlobalCallee(names, s.id) == Some(s)
      modifies this`pos, this`cur, this`asked, this`emitted, this`curId, this`lastFn, gen
      ensures error == NO_ERR ==>
        && Ready() && Follows(from, Now()) && lastFn == old(lastFn)
        && ArgListAt(PlacesOf(names), toks, old(pos) + 1, FnAt(names, signatures, s).sig) == Some((pos, args))
        && (NeedsFrame(s.id) ==> emitted == old(emitted) + Calls.CallCalls(s.id, Values(args)))
        && (Tame(toks) ==> CallEnd(toks, signatures, s.id, old(pos)) == Some(pos))
    {
      hide AgreeOn, Follows, ValidAt, ArgListAt, Tame, Sound, Sane, Callee, GlobalCallee, PlacesOf, ListEnd, SlotsFrom,
           LastCalls, Calls.CallCalls;
      InBuffer();
      var fn := FnAt(names, signatures, s);
      KnownCallee(s);
      SaneFn(s);
      var temp := lastFn;
      lastFn := fn;
      Next();
      error, args := ArgList(fn.sig, from);
      if error == NO_ERR {
        EmitCall(s.id, from);
        lastFn := temp;
        ListEndIs(PlacesOf(names), toks, old(pos) + 1, fn.sig);
        CallJoined(old(emitted), Values(args), s.id);
      }
    }

    lemma KnownCallee(s: Spot)
      requires Agreed() && names.tables != [] && (Callee(names, s.id) == Some(s) || GlobalCallee(names, s.id) == Some(s))
      ensures Tame(toks) ==> s.id in signatures && FnAt(names, signatures, s) == Fn(s.id, signatures[s.id])
    {
      hide Plain, Known, Tame, Callee, GlobalCallee, FnAt;
      if Tame(toks) {
        CalleeKnown(names, signatures, s.id);
      }
    }

    lemma SaneFn(s: Spot)
      requires Sane(signatures)
      ensures var sig := FnAt(names, signatures, s).sig; sig.variadic ==> sig.params != []
    {
    }

    /** A call from its name on. */
    method Funccall(s: Spot, ghost from: Snap) returns (error: nat, ghost args: seq<Argument>)
      requires Ready() && Follows(from, Now()) && cur.kind == KIdentifier && GlobalCallee(names, s.id) == Some(s)
      modifies this`pos, this`cur, this`asked, this`emitted, this`curId, this`lastFn, gen
      ensures error == NO_ERR ==>
        && Ready() && Follows(from, Now()) && lastFn == old(lastFn)
        && ArgListAt(PlacesOf(names), toks, old(pos) + 2, FnAt(names, signatures, s).sig) == Some((pos, args))
        && (NeedsFrame(s.id) ==> emitted == old(emitted) + Calls.CallCalls(s.id, Values(args)))
        && (Tame(toks) ==> CallEnd(toks, signatures, s.id, old(pos) + 1) == Some(pos))
    {
      hide Follows, AgreeOn, ArgListAt, ValidAt, Tame, Sound, Sane, Callee, GlobalCallee, FnAt, PlacesOf;
      InBuffer();
      args := [];
      Next();
      if cur.kind != KLPar {
        return ERR_SYNTAX, args;
      }
      error, args := CallRule(s, from);
    }

    // ----- statements without blocks -----

    /** Declares the assigned variable with its first value, or assigns to it. */
    method EmitStore(mode: Mode, ghost from: Snap)
      requires Ready() && Follows(from, Now()) && lhs.Some?
      modifies this`emitted, gen
      ensures Ready() && Follows(from, Now()) && emitted == old(emitted) + StoreLines(mode, names, lhs.value.id)
    {
      hide AgreeOn, Follows, ValidAt, Tame, Sound, Sane, PlacesOf, ItemVar;
      var id := lhs.value.id;
      if mode.Assign? {
        EmitLines(AssignLines(PlacesOf(names)(id)), from);
      } else {
        EmitLines(DeclareLines(ItemVar(names, id)), from);
      }
    }

    /** A call whose value is assigned; a variable without a type gets the result's before the arguments are read. */
    method CallSide(mode: Mode, s: Spot, ghost from: Snap) returns (error: nat, ghost args: seq<Argument>)
      requires Ready() && Follows(from, Now()) && cur.kind == KIdentifier && GlobalCallee(names, s.id) == Some(s)
      requires LhsSuits(toks, names, lhs, mode)
      modifies this`pos, this`cur, this`asked, this`emitted, this`names, this`curId, this`lastFn, gen
      ensures error == NO_ERR ==>
        && Ready() && Follows(from, Now()) && lastFn == old(lastFn) && LhsIn(names, lhs)
        && (Tame(toks) ==> CallEnd(toks, signatures, s.id, old(pos) + 1) == Some(pos))
        && Stored(old(names), mode, lhs.value, names) && IsThere(old(names), s)
        && var sig := FnAt(old(names), signatures, s).sig;
           var given := Promised(mode, ItemAt(old(names), lhs.value), sig.ret, ItemAt(old(names), s).nilable);
           && given.Some?
           && ArgListAt(PlacesOf(PutItem(old(names), lhs.value, given.value)), toks, old(pos) + 2, sig) == Some((pos, args))
           && (NeedsFrame(s.id) ==>
                 emitted == old(emitted) + Calls.CallCalls(s.id, Values(args)) + StoreLines(mode, names, lhs.value.id))
    {
      hide AgreeOn, Follows, ValidAt, ArgListAt, Tame, Sound, Sane, Callee, GlobalCallee, FnAt, PutItem, PlacesOf, CallEnd,
           StoreLines, Stored, Calls.CallCalls;
      args := [];
      var it := ItemAt(names, lhs.value);
      var sig := FnAt(names, signatures, s).sig;
      GlobalThere(s);
      var given := Promised(mode, it, sig.ret, ItemAt(names, s).nilable);
      if given.None? {
        return ERR_INCOMPATIBLE_TYPE, args;
      }
      PromisedSuits(mode, s);
      SetLhs(given.value);
      curId := Some(ItemAt(names, lhs.value));
      StillCallee(old(names), s, given.value);
      error, args := Funccall(s, from);
      if error == NO_ERR {
        StoredType(old(names), lhs.value, given.value);
        ghost var between := names;
        SetLhs(ItemAt(names, lhs.value).(init := true));
        PromisedStored(old(names), mode, lhs.value, sig.ret, ItemAt(old(names), s).nilable, between, names);
        EmitStore(mode, from);
      }
    }

    lemma GlobalThere(s: Spot)
      requires names.tables != [] && GlobalCallee(names, s.id) == Some(s)
      ensures IsThere(names, s) && s.k + 1 == |names.tables|
    {
    }

    lemma PromisedSuits(mode: Mode, s: Spot)
      requires Agreed() && names.tables != [] && GlobalCallee(names, s.id) == Some(s) && IsThere(names, s)
      requires LhsSuits(toks, names, lhs, mode)
      requires Promised(mode, ItemAt(names, lhs.value), FnAt(names, signatures, s).sig.ret, ItemAt(names, s).nilable).Some?
      ensures var it := ItemAt(names, lhs.value);
              var given := Promised(mode, it, FnAt(names, signatures, s).sig.ret, ItemAt(names, s).nilable).value;
              Tame(toks) ==> it.ty != Type.Function && given.ty != Type.Function
    {
      hide Known, Tame, Callee, GlobalCallee, FnAt, Promised;
      if Tame(toks) {
        KnownCallee(s);
        ReceivedPlain(mode, ItemAt(names, lhs.value), signatures[s.id].ret, ItemAt(names, s).nilable);
      }
    }

    /** Setting a variable does not change what a call on the right of the equals sign calls. */
    lemma StillCallee(before: Shadowing.Names, s: Spot, it: Item)
      requires names.tables != [] && before.tables != [] && GlobalCallee(before, s.id) == Some(s)
      requires lhs.Some? && IsThere(before, lhs.value) && names == PutItem(before, lhs.value, it)
      requires it.ty == ItemAt(before, lhs.value).ty || ItemAt(before, lhs.value).ty == Undefined
      ensures GlobalCallee(names, s.id) == Some(s) && FnAt(names, signatures, s) == FnAt(before, signatures, s)
    {
    }

    lemma StoredType(before: Shadowing.Names, at: Spot, it: Item)
      requires IsThere(before, at) && names == PutItem(before, at, it)
      ensures IsThere(names, at) && ItemAt(names, at).ty == it.ty
    {
    }

    /** What follows an equals sign: a call of a function, or an expression. */
    method RightSide(mode: Mode, ghost from: Snap) returns (error: nat)
      requires Ready() && Follows(from, Now()) && cur.kind == KAss
      requires LhsSuits(toks, names, lhs, mode)
      modifies this`pos, this`cur, this`asked, this`emitted, this`condUid, this`names, this`curId, this`lastFn, gen
      ensures error == NO_ERR ==>
        && Ready() && Follows(from, Now()) && lastFn == old(lastFn) && LhsIn(names, lhs)
        && (Tame(toks) ==> SideEnd(toks, signatures, old(pos)) == Some(pos))
        && Stored(old(names), mode, lhs.value, names)
    {
      hide AgreeOn, Follows, ValidAt, Tame, Sound, Sane, GlobalCallee, CallEnd, ExprEnd, LhsSuits, Stored, StoreLines,
           PutItem, Received, Promised, FnAt, PlacesOf, ArgListAt, Emits, Calls.CallCalls, Genuine, Answered, Values;
      InBuffer();
      Next();
      if cur.kind == KIdentifier {
        var name := Text(cur);
        var callee := GlobalCallee(names, name);
        SideCallee(name);
        if callee.Some? {
          ghost var args;
          error, args := CallSide(mode, callee.value, from);
          return;
        }
        if name in Shadowing.Globals(names) {
          GetToken();
          if cur.kind == KLPar {
            return ERR_UNDEFINED_FUNCTION;
          }
          PrevToken();
        }
      }
      PrevToken();
      ghost var r;
      error, r := ExprSide(mode, from);
    }

    lemma SideCallee(name: string)
      requires Agreed() && names.tables != []
      ensures GlobalCallee(names, name).Some? ==> GlobalCallee(names, name).value.id == name
      ensures Tame(toks) ==> (GlobalCallee(names, name).Some? <==> name in signatures)
    {
      hide Plain, Known, Tame;
      if Tame(toks) {
        CalleeKnown(names, signatures, name);
      }
    }

    /** An expression whose value is assigned, from the equals sign.  Assigning nil to a variable of another type writes
        the code of the expression and nothing that stores its value. */
    method ExprSide(mode: Mode, ghost from: Snap) returns (error: nat, ghost r: ExprResult)
      requires Ready() && Follows(from, Now()) && pos + 1 < |toks|
      requires LhsSuits(toks, names, lhs, mode)
      modifies this`pos, this`cur, this`asked, this`emitted, this`condUid, this`names, gen
      ensures error == NO_ERR ==>
        && Ready() && Follows(from, Now()) && LhsIn(names, lhs) && ExprEnd(toks, old(pos)) == Some(pos)
        && old(Answered(pos, condUid, r)) && pos == r.pos && condUid == r.condUid
        && var it := ItemAt(old(names), lhs.value);
           && Received(mode, it, r.ty, r.nilable).Some?
           && names == PutItem(old(names), lhs.value, Received(mode, it, r.ty, r.nilable).value)
           && Stored(old(names), mode, lhs.value, names)
           && emitted == old(emitted) + Emits(r.code)
                         + if mode.Assign? && it.ty != r.ty then [] else StoreLines(mode, names, lhs.value.id)
    {
      hide AgreeOn, Follows, ValidAt, Tame, Sound, Sane, ExprEnd, PutItem, StoreLines, Emits, Genuine, Stored;
      var ty, nilable;
      error, ty, nilable, r := Expr(from);
      if error != NO_ERR {
        return;
      }
      var it := ItemAt(names, lhs.value);
      var given := Received(mode, it, ty, nilable);
      if given.None? {
        return if mode.Infer? then ERR_MISSING_TYPE else ERR_INCOMPATIBLE_TYPE, r;
      }
      if Tame(toks) {
        ReceivedPlain(mode, it, ty, nilable);
      }
      ReceivedStored(names, mode, lhs.value, ty, nilable);
      SetLhs(given.value);
      if !mode.Assign? || it.ty == ty {
        EmitStore(mode, from);
      }
    }

    method OptAssign(ghost from: Snap) returns (error: nat)
      requires Ready() && Follows(from, Now()) && LhsSuits(toks, names, lhs, Typed)
      modifies this`pos, this`cur, this`asked, this`emitted, this`condUid, this`names, this`curId, this`lastFn, gen
      ensures error == NO_ERR ==>
        && Ready() && Follows(from, Now()) && lastFn == old(lastFn) && LhsIn(names, lhs)
        && (Tame(toks) ==>
              if toks[old(pos)].kind == KAss then SideEnd(toks, signatures, old(pos)) == Some(pos) else pos == old(pos))
        && (if old(cur.kind) == KAss then Stored(old(names), Typed, lhs.value, names) else names == old(names))
    {
      hide AgreeOn, Follows, ValidAt, Tame, Sound, Sane, SideEnd, Stored;
      InBuffer();
      if cur.kind == KAss {
        error := RightSide(Typed, from);
      } else {
        var x := ItemVar(names, lhs.value.id);
        if ItemAt(names, lhs.value).nilable {
          EmitLines([Emit(Pushs(VNil))] + DeclareLines(x), from);
        } else {
          EmitLines([Hoisting.Call.Declare(x)], from);
        }
        error := NO_ERR;
      }
    }

    /** A new variable's type; one that can be nil has a value. */
    method TypeRule(ghost from: Snap) returns (error: nat)
      requires Ready() && Follows(from, Now()) && LhsOrdinary(toks, names, lhs)
      modifies this`pos, this`cur, this`names
      ensures error == NO_ERR ==>
        && Ready() && Follows(from, Now()) && LhsOrdinary(toks, names, lhs)
        && IsTypeKind(old(cur.kind)) && pos == old(pos) + 1
        && names == PutItem(old(names), lhs.value, WithType(ItemAt(old(names), lhs.value), old(cur)))
    {
      hide AgreeOn, Follows, ValidAt, Tame, Sound, Sane, PutItem;
      InBuffer();
      if !IsTypeKind(cur.kind) {
        return ERR_SYNTAX;
      }
      var typed := WithType(ItemAt(names, lhs.value), cur);
      SetLhs(typed);
      StoredType(old(names), lhs.value, typed);
      Next();
      error := NO_ERR;
    }

    /** After the name of a new variable. */
    method VarDefCont(ghost start: nat, ghost from: Snap) returns (error: nat)
      requires Ready() && Follows(from, Now()) && LhsOrdinary(toks, names, lhs) && After(toks, start) == pos == start + 1
      requires KindAt(toks, start, KIdentifier)
      modifies this`pos, this`cur, this`asked, this`emitted, this`condUid, this`names, this`curId, this`lastFn, gen
      ensures error == NO_ERR ==>
        && Ready() && Follows(from, Now()) && lastFn == old(lastFn) && LhsIn(names, lhs)
        && (Tame(toks) ==> DefineEnd(toks, signatures, start) == Some(pos))
        && Continued(old(names), lhs.value, names, toks, start)
    {
      hide AgreeOn, Follows, ValidAt, Tame, Sound, Sane, SideEnd, Stored, OnlyPut, PutItem;
      InBuffer();
      if cur.kind == KCol {
        Next();
        error := TypeRule(from);
        if error == NO_ERR {
          ghost var typed := names;
          InBuffer();
          error := OptAssign(from);
          if error == NO_ERR {
            TypedStays(old(names), lhs.value, toks[start + 2], typed, names);
          }
        }
      } else if cur.kind == KAss {
        error := RightSide(Infer, from);
        if error == NO_ERR {
          StoredPut(old(names), Infer, lhs.value, names);
        }
      } else {
        error := ERR_SYNTAX;
      }
    }

    /** Definitions go to the innermost scope. */
    predicate InBody()
      reads this
    {
      inCond > 0 || inLoop > 0 || inFuncBody
    }

    /** `var` or `let`, from the name. */
    method Define(ghost from: Snap) returns (error: nat)
      requires Ready() && Follows(from, Now())
      modifies this`pos, this`cur, this`asked, this`emitted, this`condUid, this`names, this`lhs, this`curId,
               this`lastFn, gen
      ensures error == NO_ERR ==>
        && Ready() && Follows(from, Now()) && lastFn == old(lastFn) && LhsIn(names, lhs)
        && (Tame(toks) ==> DefineEnd(toks, signatures, old(pos)) == Some(pos))
        && lhs == Some(Spot(Naming.TableOf(old(names), InBody()), Text(toks[old(pos)])))
        && Defined(old(names), lhs.value, names, toks, old(pos))
    {
      hide AgreeOn, Follows, ValidAt, Tame, Sound, Sane, DefineEnd, Continued;
      InBuffer();
      if cur.kind != KIdentifier {
        return ERR_SYNTAX;
      }
      if InBody() && |names.tables| == 1 {
        return ERR_INTERNAL;
      }
      var s := Spot(Naming.TableOf(names, InBody()), Text(cur));
      if s.id in names.tables[s.k] {
        return ERR_REDEFINING_VARIABLE;
      }
      NewLhs(s);
      Next();
      error := VarDefCont(old(pos), from);
    }

    /** A new variable, which is the assigned one. */
    method NewLhs(s: Spot)
      requires Ready() && s.k < |names.tables| && s.id !in names.tables[s.k]
      modifies this`names, this`lhs, this`curId
      ensures Ready() && Now() == old(Now()) && LhsOrdinary(toks, names, lhs)
      ensures lhs == Some(s) && names == NewItem(old(names), s)
    {
      hide Plain, Known, Nested, Depth, DoAll, Lawful, Tame, Sound, Sane;
      if Tame(toks) {
        PlainNew(names, s, signatures);
      }
      SoundNew(names, s);
      names := NewItem(names, s);
      lhs := Some(s);
      curId := Some(ItemAt(names, s));
    }

    /** After the identifier that a statement starts with, whose item is the assigned one. */
    method ExprType(id: string, ghost from: Snap) returns (error: nat)
      requires Ready() && Follows(from, Now()) && LhsHeld() && (lhs.Some? ==> lhs.value.id == id)
      requires pos > 0 && KindAt(toks, pos - 1, KIdentifier) && Text(toks[pos - 1]) == id
      modifies this`pos, this`cur, this`asked, this`emitted, this`condUid, this`names, this`curId, this`lastFn, gen
      ensures error == NO_ERR ==>
        && Ready() && Follows(from, Now()) && lastFn == old(lastFn)
        && (Tame(toks) ==> AfterName(toks, signatures, id, old(pos)) == Some(pos))
        && if old(cur.kind) == KAss then Assigned(old(names), lhs, names)
           else old(cur.kind) == KLPar && Callee(names, id).Some? && names == old(names)
    {
      hide AgreeOn, Follows, ValidAt, Tame, Sound, Sane, SideEnd, CallEnd, Callee, Stored;
      InBuffer();
      if cur.kind == KAss {
        if lhs.None? {
          return ERR_UNDEFINED_VARIABLE;
        }
        if !ItemAt(names, lhs.value).mutable && ItemAt(names, lhs.value).init {
          return ERR_SEMANTIC;
        }
        AssignedSuits();
        error := RightSide(Assign, from);
      } else if cur.kind == KLPar {
        var callee := Callee(names, id);
        if callee.None? {
          return ERR_UNDEFINED_FUNCTION;
        }
        CalleeNamed(id);
        curId := None;
        ghost var args;
        error, args := CallRule(callee.value, from);
      } else {
        error := ERR_SYNTAX;
      }
    }

    lemma CalleeNamed(id: string)
      requires Callee(names, id).Some?
      ensures Callee(names, id).value.id == id
    {
    }

    lemma AssignedSuits()
      requires Ready() && LhsIn(names, lhs) && pos > 0 && cur.kind == KAss
      requires KindAt(toks, pos - 1, KIdentifier) && Text(toks[pos - 1]) == lhs.value.id
      ensures LhsSuits(toks, names, lhs, Assign)
    {
      hide Plain, Known, Tame, Lawful, Nested, DoAll, Depth, Sound, Sane;
      if Tame(toks) {
        assert KindAt(toks, pos, KAss);
        AssignedPlain(toks, names, signatures, lhs.value, pos - 1);
      }
    }

    /** `let` and a constant, or an expression. */
    method CondClause(ghost from: Snap) returns (error: nat)
      requires Ready() && Follows(from, Now()) && lhs.None? && |names.tables| > 1 && names.tables[0] == map[]
      requires pos > 0 && KindAt(toks, pos - 1, KIf)
      modifies this`pos, this`cur, this`asked, this`emitted, this`condUid, this`names, this`curId, gen
      ensures error == NO_ERR ==>
        && Ready() && Follows(from, Now()) && (Tame(toks) ==> CondEnd(toks, old(pos)) == Some(pos))
        && if old(cur.kind) == KLet then LetNames(old(names), Text(toks[old(pos) + 1])) == Some(names)
           else names == old(names)
    {
      hide AgreeOn, Follows, ValidAt, Tame, Sound, Sane, ExprEnd, LetNames, Genuine, Emits;
      InBuffer();
      if cur.kind == KLet {
        Next();
        InBuffer();
        if cur.kind != KIdentifier {
          return ERR_SYNTAX;
        }
        var id := Text(cur);
        if Find(names.tables, id).None? {
          return ERR_UNDEFINED_VARIABLE;
        }
        var let := LetNames(names, id);
        if let.None? {
          return ERR_SEMANTIC;
        }
        EmitTest(from);
        EnterLet(let.value);
        EmitLines(DeclareLines(ItemVar(names, id)), from);
        Next();
        error := NO_ERR;
      } else {
        PrevToken();
        InBuffer();
        var ty, nilable;
        ghost var r;
        error, ty, nilable, r := Expr(from);
        if error == NO_ERR && ty != Bool {
          error := ERR_INCOMPATIBLE_TYPE;
        }
      }
    }

    method EmitTest(ghost from: Snap)
      requires Ready() && Follows(from, Now())
      modifies this`emitted, gen
      ensures Ready() && Follows(from, Now())
    {
      hide AgreeOn, Follows, ValidAt, Tame, Sound, Sane, LetTest;
      var code := LetTest(names, cur);
      LetTestPlain(names, cur);
      EmitLines(Emits(code), from);
    }

    method EnterLet(let: Shadowing.Names)
      requires Ready() && names.tables[0] == map[] && pos > 1 && LetNames(names, Text(cur)) == Some(let)
      requires KindAt(toks, pos, KIdentifier) && KindAt(toks, pos - 1, KLet) && KindAt(toks, pos - 2, KIf)
      modifies this`names, this`curId
      ensures Ready() && Now() == old(Now()) && names == let
    {
      hide Plain, Known, Nested, Depth, DoAll, Lawful, Tame, Sound, Sane, LetNames, Find;
      if Tame(toks) {
        LetKeepsPlain(toks, names, signatures, pos);
      }
      SoundLet(names, Text(cur));
      var k := Find(names.tables, Text(cur));
      curId := if k.Some? then Some(names.tables[k.value][Text(cur)]) else None;
      names := let;
    }

    /** A function without a result returns before a new line or its end; any other returns the value of an expression. */
    method OptRet(ghost w: Where, ghost from: Snap) returns (error: nat)
      requires Ready() && Follows(from, Now()) && cur.kind == KReturn && lhs.None?
      requires !w.Outside? && (w.InVoid? <==> lastFn.sig.ret == NilType)
      modifies this`pos, this`cur, this`asked, this`emitted, this`condUid, gen
      ensures error == NO_ERR ==> Ready() && Follows(from, Now()) && StmtEnds(toks, signatures, w, old(pos), pos)
    {
      hide AgreeOn, Follows, ValidAt, Tame, Sound, Sane, ExprEnd, StmtEnds;
      InBuffer();
      if lastFn.sig.ret == NilType {
        Next();
        if !cur.eol && cur.kind != KRBkt {
          return ERR_FUNCTION_RETURN;
        }
      } else {
        if toks[After(toks, pos)].kind == KRBkt {
          return ERR_FUNCTION_RETURN;
        }
        var ty, nilable;
        ghost var r;
        error, ty, nilable, r := Expr(from);
        if error != NO_ERR {
          return;
        }
        if lastFn.sig.ret != ty {
          return ERR_RETURN_TYPE;
        }
      }
      ReturnStmt(toks, signatures, w, old(pos), pos);
      EmitLines(Emits([PopFrame, Return]), from);
      error := NO_ERR;
    }

    // ----- statements with blocks -----

    /** Instructions in order. */
    method EmitCode(code: seq<Instr>)
      requires Valid()
      modifies this`emitted, gen
      ensures Valid() && emitted == old(emitted) + Emits(code)
      ensures old(Agreed()) ==> Agreed()
    {
      hide Lawful, Nested, DoAll, Depth, Sound, Sane;
      Generate(Emits(code));
      CodeBody(code, Emits(code));
      EvenKeeps(old(emitted), Emits(code));
    }

    method EnterLoop() returns (id: nat)
      requires Valid()
      modifies this`inLoop, this`loopUid, this`emitted, gen
      ensures Valid() && id == old(loopUid) && loopUid == id + 1 && inLoop == old(inLoop) + 1
      ensures emitted == old(emitted) + [OpenLoop(id)]
      ensures old(Agreed()) ==> Agreed()
    {
      hide Lawful, Nested, DoAll, Depth, Sound, Sane;
      inLoop := inLoop + 1;
      id := loopUid;
      loopUid := loopUid + 1;
      Generate([OpenLoop(id)]);
      LoopEnds(id);
      LoopKeeps(old(emitted), OpenLoop(id));
    }

    method LeaveLoop(id: nat)
      requires Valid() && inLoop > 0
      modifies this`inLoop, this`emitted, gen
      ensures Valid() && inLoop == old(inLoop) - 1 && emitted == old(emitted) + [CloseLoop(id)]
      ensures old(Agreed()) ==> Agreed()
    {
      hide Lawful, Nested, DoAll, Depth, Sound, Sane;
      Generate([CloseLoop(id)]);
      inLoop := inLoop - 1;
      LoopEnds(id);
      LoopKeeps(old(emitted), CloseLoop(id));
    }

    method AddScope()
      requires names.tables != [] && Sound(names)
      modifies this`names
      ensures Sound(names)
      ensures names == Opened(old(names)) && |names.tables| == |old(names.tables)| + 1
      ensures names.tables[0] == map[] && (old(Agreed()) ==> Agreed())
    {
      hide Plain, Known, Tame, Sound;
      if Tame(toks) && Plain(names, signatures) {
        PlainOpen(names, signatures);
      }
      SoundStep(names, Shadowing.Step.Open);
      names := Opened(names);
    }

    method PopScope()
      requires |names.tables| > 1 && Sound(names)
      modifies this`names
      ensures Sound(names)
      ensures names == Shadowing.Do(old(names), Shadowing.Step.Close) && |names.tables| == |old(names.tables)| - 1
      ensures old(Agreed()) ==> Agreed()
    {
      hide Plain, Known, Tame, Sound;
      if Tame(toks) && Plain(names, signatures) {
        PlainClose(names, signatures);
      }
      SoundStep(names, Shadowing.Step.Close);
      names := Shadowing.Do(names, Shadowing.Step.Close);
    }

    /** Into a block. */
    method OpenBlock() returns (error: nat)
      requires Ready()
      modifies this`pos, this`cur, this`names, this`firstStmt
      ensures error == NO_ERR ==>
        && Ready() && KindAt(toks, old(pos), KLBkt) && pos == old(pos) + 1
        && Now() == old(Now()).(depth := old(Now()).depth + 1)
    {
      hide ValidAt, AgreeOn, Tame, Sound, Sane;
      InBuffer();
      if cur.kind != KLBkt {
        return ERR_SYNTAX;
      }
      Next();
      AddScope();
      firstStmt := true;
      error := NO_ERR;
    }

    /** From `while` into its block. */
    method LoopStart() returns (error: nat, id: nat, ghost b: Snap, ghost t: Snap, ghost end: nat)
      requires Ready() && cur.kind == KWhile && lhs.None?
      modifies this`pos, this`cur, this`asked, this`emitted, this`condUid, this`loopUid, this`inLoop, this`names,
               this`firstStmt, gen
      ensures error == NO_ERR ==>
        && Ready() && LoopTop(old(Now()), b, t, Now(), id)
        && ExprEnd(toks, old(pos)) == Some(end) && KindAt(toks, end, KLBkt) && pos == end + 1
    {
      hide AgreeOn, Follows, ValidAt, Wrote, Emits, LoopIf, LoopBody, IfHead, IfElse, IfEnd, Tame, Sound, Sane, ExprEnd,
           Genuine, Answered;
      InBuffer();
      end := 0;
      id := EnterLoop();
      b, t := Now(), Now();
      FollowsRefl(b);
      var ty, nilable;
      ghost var r;
      error, ty, nilable, r := Expr(b);
      t := Now();
      if error != NO_ERR {
        return;
      }
      end := pos;
      EmitCode(LoopIf(id));
      if ty != Bool {
        return ERR_INCOMPATIBLE_TYPE, id, b, t, end;
      }
      error := OpenBlock();
      if error != NO_ERR {
        return;
      }
      EmitCode(LoopBody(id));
      EmitsTwo(LoopIf(id), LoopBody(id), t.emitted);
    }

    /** `while` condition and block. */
    method WhileRule(inFunction: bool, ghost w: Where, ghost from: Snap) returns (error: nat)
      requires Ready() && Follows(from, Now()) && cur.kind == KWhile && lhs.None? && Stands(lastFn, inFunction, w)
      modifies this`pos, this`cur, this`asked, this`left, this`emitted, this`names, this`lhs, this`curId, this`lastFn,
               this`inCond, this`inLoop, this`condUid, this`loopUid, this`firstStmt, this`returnFound, gen
      ensures error == NO_ERR ==>
        && Ready() && Follows(from, Now()) && lhs.None? && lastFn == old(lastFn) && left <= old(left)
        && (Tame(toks) ==> StmtEnds(toks, signatures, w, old(pos), pos))
      decreases left, 4
    {
      hide AgreeOn, Follows, ValidAt, Wrote, Emits, LoopIf, LoopBody, LoopTop, Tame, Sound, Sane, ExprEnd, StmtEnds,
           BlockEnds;
      InBuffer();
      ghost var a := Now();
      var id;
      ghost var b, t, end;
      error, id, b, t, end := LoopStart();
      if error != NO_ERR {
        return;
      }
      ghost var d := Now();
      LoopTopFacts(a, b, t, d, id);
      FollowsRefl(d);
      error := Block(inFunction, w, d);
      if error != NO_ERR {
        return;
      }
      ghost var u := Now();
      DepthAfter(d, u);
      InBuffer();
      Next();
      LeaveLoop(id);
      LoopFollows(from, a, b, t, d, u, Now(), id);
      if Tame(toks) {
        WhileStmt(toks, signatures, w, old(pos), end, pos - 1);
      }
    }

    /** A block's statements up to its closing brace, where its scope is popped. */
    method Block(inFunction: bool, ghost w: Where, ghost from: Snap) returns (error: nat)
      requires Ready() && Follows(from, Now()) && |names.tables| > 1 && lhs.None? && Stands(lastFn, inFunction, w)
      modifies this`pos, this`cur, this`asked, this`left, this`emitted, this`names, this`lhs, this`curId, this`lastFn,
               this`inCond, this`inLoop, this`condUid, this`loopUid, this`firstStmt, this`returnFound, gen
      ensures error == NO_ERR ==>
        && Ready() && Follows(from, Now().(depth := Now().depth + 1)) && cur.kind == KRBkt
        && lhs.None? && lastFn == old(lastFn) && left <= old(left)
        && (Tame(toks) ==> BlockEnds(toks, signatures, w, old(pos), pos))
      decreases left, 3
    {
      hide AgreeOn, Follows, ValidAt, Wrote, Tame, Sound, Sane, StmtEnds, BlockEnds;
      InBuffer();
      if cur.kind == KRBkt {
        if inFunction {
          if inCond == 0 && inLoop == 0 && lastFn.sig.ret != NilType && !returnFound {
            return ERR_RETURN_TYPE;
          }
          returnFound := false;
        }
        PopScope();
        if Tame(toks) {
          BlockDone(toks, signatures, w, pos);
        }
        return NO_ERR;
      }
      error := Stmt(inFunction, w, from);
      if error != NO_ERR {
        return;
      }
      firstStmt := false;
      DepthKept(from, old(Now()), Now());
      ghost var mid := pos;
      error := Block(inFunction, w, from);
      if error == NO_ERR && Tame(toks) {
        BlockMeets(toks, signatures, w, old(pos), mid, pos);
      }
    }

    /** From `if` into its first block. */
    method IfStart() returns (error: nat, id: nat, ghost b: Snap, ghost t: Snap, ghost end: nat)
      requires Ready() && cur.kind == KIf && lhs.None?
      modifies this`pos, this`cur, this`asked, this`emitted, this`condUid, this`inCond, this`names, this`curId,
               this`firstStmt, gen
      ensures error == NO_ERR ==>
        && Ready() && IfTop(old(Now()), b, t, Now(), id)
        && KindAt(toks, end, KLBkt) && pos == end + 1 && (Tame(toks) ==> CondEnd(toks, old(pos) + 1) == Some(end))
    {
      hide AgreeOn, Follows, ValidAt, Wrote, Emits, IfHead, Tame, Sound, Sane, CondEnd, LetNames;
      InBuffer();
      id, end := 0, 0;
      inCond := inCond + 1;
      Next();
      AddScope();
      b, t := Now(), Now();
      FollowsRefl(b);
      error := CondClause(b);
      t := Now();
      if error != NO_ERR {
        return;
      }
      end := pos;
      id := condUid;
      condUid := condUid + 1;
      EmitCode(IfHead(id));
      error := OpenBlock();
    }

    /** `if` condition, block, `else` and block. */
    method IfRule(inFunction: bool, ghost w: Where, ghost from: Snap) returns (error: nat)
      requires Ready() && Follows(from, Now()) && cur.kind == KIf && lhs.None? && Stands(lastFn, inFunction, w)
      modifies this`pos, this`cur, this`asked, this`left, this`emitted, this`names, this`lhs, this`curId, this`lastFn,
               this`inCond, this`inLoop, this`condUid, this`loopUid, this`firstStmt, this`returnFound, gen
      ensures error == NO_ERR ==>
        && Ready() && Follows(from, Now()) && lhs.None? && lastFn == old(lastFn) && left <= old(left)
        && (Tame(toks) ==> StmtEnds(toks, signatures, w, old(pos), pos))
      decreases left, 5
    {
      hide AgreeOn, Follows, ValidAt, Wrote, Emits, IfHead, IfElse, IfEnd, IfTop, ElseShape, Tame, Sound, Sane, CondEnd,
           StmtEnds, BlockEnds;
      InBuffer();
      ghost var a := Now();
      var id;
      ghost var b, t, end;
      error, id, b, t, end := IfStart();
      if error != NO_ERR {
        return;
      }
      ghost var d := Now();
      IfTopFacts(a, b, t, d, id);
      FollowsRefl(d);
      error := Block(inFunction, w, d);
      if error != NO_ERR {
        return;
      }
      ghost var u, close := Now(), pos;
      DepthAfter(d, u);
      ghost var e, z;
      error, e, z := ElsePart(inFunction, w, id);
      if error != NO_ERR {
        return;
      }
      ghost var y := Now();
      ElseFacts(u, e, z, y, id);
      inCond := inCond - 1;
      IfFollows(from, a, b, t, d, u, e, z, y, id);
      if Tame(toks) {
        IfStmt(toks, signatures, w, old(pos), end, close, pos - 1);
      }
    }

    /** From the brace that closes the first block into the second. */
    method ElseStart(id: nat) returns (error: nat)
      requires Ready() && cur.kind == KRBkt && |names.tables| > 1
      modifies this`pos, this`cur, this`names, this`emitted, this`firstStmt, gen
      ensures error == NO_ERR ==>
        && Ready() && pos == old(pos) + 3 && KindAt(toks, old(pos) + 1, KElse) && KindAt(toks, old(pos) + 2, KLBkt)
        && |names.tables| > 1 && Now() == old(Now()).(emitted := old(emitted) + Emits(IfElse(id)))
    {
      hide ValidAt, AgreeOn, Emits, IfElse, Tame, Sound, Sane;
      InBuffer();
      PopScope();
      Next();
      if cur.kind != KElse {
        return ERR_SYNTAX;
      }
      AddScope();
      EmitCode(IfElse(id));
      InBuffer();
      Next();
      if cur.kind != KLBkt {
        return ERR_SYNTAX;
      }
      InBuffer();
      Next();
      firstStmt := true;
      error := NO_ERR;
    }

    /** From the brace that closes the first block to after the one that closes the second. */
    method ElsePart(inFunction: bool, ghost w: Where, id: nat) returns (error: nat, ghost e: Snap, ghost z: Snap)
      requires Ready() && cur.kind == KRBkt && |names.tables| > 1 && lhs.None? && Stands(lastFn, inFunction, w)
      modifies this`pos, this`cur, this`asked, this`left, this`emitted, this`names, this`lhs, this`curId, this`lastFn,
               this`inCond, this`inLoop, this`condUid, this`loopUid, this`firstStmt, this`returnFound, gen
      ensures error == NO_ERR ==>
        && Ready() && ElseShape(old(Now()), e, z, Now(), id) && lhs.None? && lastFn == old(lastFn) && left <= old(left)
        && KindAt(toks, old(pos) + 1, KElse) && KindAt(toks, old(pos) + 2, KLBkt) && pos > 0
        && (Tame(toks) ==> BlockEnds(toks, signatures, w, old(pos) + 3, pos - 1))
      decreases left, 4
    {
      hide AgreeOn, Follows, ValidAt, Wrote, Emits, IfElse, IfEnd, Tame, Sound, Sane, BlockEnds;
      error := ElseStart(id);
      e, z := Now(), Now();
      if error != NO_ERR {
        return;
      }
      FollowsRefl(e);
      error := Block(inFunction, w, e);
      z := Now();
      if error != NO_ERR {
        return;
      }
      InBuffer();
      Next();
      EmitCode(IfEnd(id));
    }

    /** `var` or `let`. */
    method DefineRule(ghost w: Where, ghost from: Snap) returns (error: nat)
      requires Ready() && Follows(from, Now()) && (cur.kind == KVar || cur.kind == KLet)
      modifies this`pos, this`cur, this`asked, this`emitted, this`condUid, this`names, this`lhs, this`curId,
               this`lastFn, gen
      ensures error == NO_ERR ==>
        && Ready() && Follows(from, Now()) && lastFn == old(lastFn) && lhs.None?
        && (Tame(toks) ==> StmtEnds(toks, signatures, w, old(pos), pos))
        && var s := Spot(Naming.TableOf(old(names), old(InBody())), Text(toks[old(pos) + 1]));
           && s.k < |old(names).tables| && s.id !in old(names).tables[s.k]
           && OnlyPut(NewItem(old(names), s), s, names) && (ItemAt(names, s).mutable <==> old(cur.kind) == KVar)
    {
      hide AgreeOn, Follows, ValidAt, Tame, Sound, Sane, DefineEnd, StmtEnds, PutItem, OnlyPut, NewItem;
      InBuffer();
      var mutable := cur.kind == KVar;
      Next();
      error := Define(from);
      if error != NO_ERR {
        return;
      }
      ghost var defined, s := names, lhs.value;
      SetMutable(mutable);
      PutTwice(NewItem(old(names), s), s, defined, names);
      lhs := None;
      if Tame(toks) {
        DefineStmt(toks, signatures, w, old(pos), pos);
      }
    }

    method SetMutable(mutable: bool)
      requires Ready() && LhsIn(names, lhs)
      modifies this`names
      ensures Ready() && Now() == old(Now())
      ensures OnlyPut(old(names), lhs.value, names) && ItemAt(names, lhs.value).mutable == mutable
    {
      hide PutItem, OnlyPut, AgreeOn, Nested, Depth, DoAll, Lawful, Tame, Sound, Sane;
      var it := ItemAt(names, lhs.value).(mutable := mutable);
      PutIs(names, lhs.value, it);
      AgreeMutable(it);
      SoundPut(names, lhs.value, it);
      names := PutItem(names, lhs.value, it);
    }

    lemma AgreeMutable(it: Item)
      requires Agreed() && LhsIn(names, lhs) && it == ItemAt(names, lhs.value).(mutable := it.mutable)
      ensures AgreeOn(toks, PutItem(names, lhs.value, it), signatures)
    {
      hide PutItem, Plain, Known, Tame;
      if Tame(toks) {
        PlainSame(names, lhs.value, it, signatures);
      }
    }

    /** A statement that begins with a name. */
    method NameRule(ghost w: Where, ghost from: Snap) returns (error: nat)
      requires Ready() && Follows(from, Now()) && cur.kind == KIdentifier
      modifies this`pos, this`cur, this`asked, this`emitted, this`condUid, this`names, this`lhs, this`curId,
               this`lastFn, gen
      ensures error == NO_ERR ==>
        && Ready() && Follows(from, Now()) && lastFn == old(lastFn) && lhs.None?
        && (Tame(toks) ==> StmtEnds(toks, signatures, w, old(pos), pos))
        && var id := Text(toks[old(pos)]);
           var k := Find(old(names).tables, id);
           if toks[old(pos) + 1].kind == KAss
           then Assigned(old(names), if k.Some? then Some(Spot(k.value, id)) else None, names)
           else Callee(names, id).Some? && names == old(names)
    {
      hide AgreeOn, Follows, ValidAt, Tame, Sound, Sane, AfterName, StmtEnds, Assigned, Callee;
      InBuffer();
      var id := Text(cur);
      var k := Find(names.tables, id);
      lhs := if k.Some? then Some(Spot(k.value, id)) else None;
      curId := if k.Some? then Some(names.tables[k.value][id]) else None;
      Next();
      error := ExprType(id, from);
      lhs := None;
      if error == NO_ERR && Tame(toks) {
        NameStmt(toks, signatures, w, old(pos), pos);
      }
    }

    /** A statement; `return` only in a function. */
    method Stmt(inFunction: bool, ghost w: Where, ghost from: Snap) returns (error: nat)
      requires Ready() && Follows(from, Now()) && lhs.None? && Stands(lastFn, inFunction, w)
      modifies this`pos, this`cur, this`asked, this`left, this`emitted, this`names, this`lhs, this`curId, this`lastFn,
               this`inCond, this`inLoop, this`condUid, this`loopUid, this`firstStmt, this`returnFound, gen
      ensures error == NO_ERR ==>
        && Ready() && Follows(from, Now()) && lhs.None? && lastFn == old(lastFn) && left < old(left)
        && (Tame(toks) ==> StmtEnds(toks, signatures, w, old(pos), pos))
      decreases left, 2
    {
      hide AgreeOn, Follows, ValidAt, Tame, Sound, Sane, StmtEnds, Stands;
      if left == 0 {
        return UNFINISHED;
      }
      left := left - 1;
      if !firstStmt && !cur.eol {
        return ERR_SYNTAX;
      }
      if cur.kind == KVar || cur.kind == KLet {
        error := DefineRule(w, from);
      } else if cur.kind == KIdentifier {
        error := NameRule(w, from);
      } else if cur.kind == KWhile {
        error := WhileRule(inFunction, w, from);
      } else if cur.kind == KIf {
        error := IfRule(inFunction, w, from);
      } else if inFunction && cur.kind == KReturn {
        returnFound := true;
        ReturnsHere(lastFn, w);
        error := OptRet(w, from);
      } else {
        error := ERR_SYNTAX;
      }
    }

    // ----- the second pass: functions and the program -----

    method Lines(calls: seq<Hoisting.Call>)
      requires Valid() && IsPlain(calls)
      modifies this`emitted, gen
      ensures Valid() && emitted == old(emitted) + calls && (old(Agreed()) ==> Agreed())
    {
      hide Nested, DoAll, Depth, IsPlain, Sound, Sane, Lawful;
      PlainBody(calls);
      EvenKeeps(emitted, calls);
      Generate(calls);
    }

    method PlainLines() returns (ghost h: seq<Hoisting.Call>)
      requires Valid()
      modifies this`asked, this`emitted, gen
      ensures Valid() && emitted == old(emitted) + h && IsPlain(h)
    {
      hide Nested, DoAll, Depth, IsPlain, Sound, Sane;
      var calls := world.plain(asked);
      h := calls;
      asked := asked + 1;
      Lines(calls);
    }

    method TypeToken() returns (error: nat)
      requires Valid()
      modifies this`pos, this`cur
      ensures error == NO_ERR ==>
        Valid() && IsTypeKind(toks[old(pos)].kind) && pos == old(pos) + 1 && old(pos) < |toks|
    {
      hide ValidAt, Sound, Sane;
      InBuffer();
      if !IsTypeKind(cur.kind) {
        return ERR_SYNTAX;
      }
      GetToken();
      error := NO_ERR;
    }

    /** The parameter whose name is current, in the innermost scope. */
    method EnterParam(ghost start: nat) returns (p: Calls.Param)
      requires Ready() && |names.tables| > 1 && pos == start + 1
      modifies this`names, this`curId
      ensures Ready() && Now() == old(Now()) && names == DeclaredParam(old(names), toks, start)
      ensures p == ParamVarAt(old(names), toks, start)
    {
      hide Plain, Known, Nested, Depth, DoAll, Lawful, Tame, Sound, Sane;
      var s := Spot(0, Text(cur));
      if Tame(toks) {
        PlainNew(names, s, signatures);
      }
      SoundNew(names, s);
      names := NewItem(names, s);
      curId := Some(ItemAt(names, s));
      p := (s.id, ItemAt(names, s).uid);
    }

    /** Its type; a parameter has a value. */
    method TypeParam(id: string, ty: Type)
      requires Ready() && |names.tables| > 1 && id in names.tables[0] && ty != Type.Function
      modifies this`names
      ensures Ready() && Now() == old(Now())
      ensures var it := old(names).tables[0][id];
              names == Shadowing.Do(old(names), Shadowing.Step.Set(0, id, ty, it.mutable, true, it.nilable))
    {
      hide Plain, Known, Nested, Depth, DoAll, Lawful, Tame, Sound, Sane;
      var s := Spot(0, id);
      var it := ItemAt(names, s).(ty := ty, init := true);
      if Tame(toks) {
        LocalOrdinary(names, s, signatures);
        PlainPut(names, s, it, signatures);
      }
      SoundPut(names, s, it);
      names := PutItem(names, s, it);
    }

    /** A parameter's label and name, which enters the innermost scope. */
    method ParamName() returns (error: nat, p: Calls.Param)
      requires Ready() && |names.tables| > 1
      modifies this`pos, this`cur, this`names, this`curId
      ensures error == NO_ERR ==>
        && Ready() && Now() == old(Now()) && pos == old(pos) + 1 && old(pos) + 1 < |toks|
        && (KindAt(toks, old(pos), KUndScr) || KindAt(toks, old(pos), KIdentifier))
        && KindAt(toks, old(pos) + 1, KIdentifier)
        && names == DeclaredParam(old(names), toks, old(pos)) && p == ParamVarAt(old(names), toks, old(pos))
    {
      hide ValidAt, AgreeOn, Tame, Sound, Sane, ParamVarAt, DeclaredParam;
      InBuffer();
      p := ("", 0);
      if cur.kind != KUndScr && cur.kind != KIdentifier {
        return ERR_SYNTAX, p;
      }
      GetToken();
      if cur.kind != KIdentifier {
        return ERR_SYNTAX, p;
      }
      InBuffer();
      p := EnterParam(old(pos));
      error := NO_ERR;
    }

    /** A parameter, copied from its slot. */
    method ParamSkip() returns (error: nat, ghost h: seq<Hoisting.Call>)
      requires Ready() && |names.tables| > 1
      modifies this`pos, this`cur, this`paramCnt, this`emitted, this`names, this`curId, gen
      ensures error == NO_ERR ==>
        && Ready() && ParamEnd(toks, old(pos)) == Some(pos) && emitted == old(emitted) + h
        && h == ParamLine(old(paramCnt), ParamVarAt(old(names), toks, old(pos))) && paramCnt == old(paramCnt) + 1
        && names == ParamNames(old(names), toks, old(pos)) && Now() == old(Now()).(emitted := emitted)
    {
      hide ValidAt, AgreeOn, IsPlain, Tame, Sound, Sane, ParamVarAt, DeclaredParam, ParamLine, Shadowing.Do;
      h := [];
      var p;
      error, p := ParamName();
      if error != NO_ERR {
        return;
      }
      InBuffer();
      var id := Text(cur);
      DeclaredThere(old(names), toks, old(pos));
      h := ParamLine(paramCnt, p);
      LinePlain(paramCnt, p);
      Lines(ParamLine(paramCnt, p));
      paramCnt := paramCnt + 1;
      GetToken();
      if cur.kind != KCol {
        return ERR_SYNTAX, h;
      }
      InBuffer();
      GetToken();
      TypeParam(id, TypeOf(cur.kind));
      error := TypeToken();
      if error == NO_ERR {
        InBuffer();
      }
    }

    method ParamNextSkip() returns (error: nat, ghost h: seq<Hoisting.Call>)
      requires Ready() && |names.tables| > 1
      modifies this`pos, this`cur, this`paramCnt, this`emitted, this`names, this`curId, this`inParam, gen
      ensures error == NO_ERR ==>
        && Ready() && MoreParamsEnd(toks, old(pos)) == Some(pos) && emitted == old(emitted) + h
        && h == ParamLines(old(paramCnt), MoreVars(old(names), toks, old(pos)))
        && Now() == old(Now()).(emitted := emitted)
      decreases |toks| - pos
    {
      hide ValidAt, AgreeOn, ParamLine, ParamVarAt, ParamNames, Tame, Sound, Sane;
      InBuffer();
      h := [];
      if cur.kind == KRPar {
        inParam := false;
        error := NO_ERR;
        assert emitted == old(emitted) + h;
      } else if cur.kind == KComma {
        GetToken();
        ghost var i := pos;
        error, h := ParamSkip();
        if error != NO_ERR {
          return;
        }
        InBuffer();
        ghost var more;
        error, more := ParamNextSkip();
        assert old(emitted) + h + more == old(emitted) + (h + more);
        h := h + more;
        if error == NO_ERR {
          LinesCons(old(paramCnt), ParamVarAt(old(names), toks, i), MoreVars(ParamNames(old(names), toks, i), toks, i + 4));
        }
      } else {
        error := ERR_SYNTAX;
      }
    }

    method ParamListSkip() returns (error: nat, ghost h: seq<Hoisting.Call>)
      requires Ready() && |names.tables| > 1
      modifies this`pos, this`cur, this`paramCnt, this`emitted, this`names, this`curId, this`inParam, gen
      ensures error == NO_ERR ==>
        && Ready() && ParamsEnd(toks, old(pos)) == Some(pos) && emitted == old(emitted) + h
        && h == ParamLines(old(paramCnt), VarsAt(old(names), toks, old(pos)))
        && Now() == old(Now()).(emitted := emitted)
    {
      hide ValidAt, AgreeOn, ParamLine, ParamVarAt, ParamNames, Tame, Sound, Sane;
      InBuffer();
      h := [];
      inParam := true;
      if cur.kind == KRPar {
        inParam := false;
        error := NO_ERR;
        assert emitted == old(emitted) + h;
        return;
      }
      ghost var i := pos;
      error, h := ParamSkip();
      if error != NO_ERR {
        return;
      }
      ghost var more;
      error, more := ParamNextSkip();
      assert old(emitted) + h + more == old(emitted) + (h + more);
      h := h + more;
      if error == NO_ERR {
        LinesCons(old(paramCnt), ParamVarAt(old(names), toks, i), MoreVars(ParamNames(old(names), toks, i), toks, i + 4));
      }
    }

    method FuncRetTypeSkip() returns (error: nat)
      requires Valid()
      modifies this`pos, this`cur
      ensures error == NO_ERR ==> Valid() && ReturnTypeEnd(toks, old(pos)) == Some(pos)
    {
      hide ValidAt, Sound, Sane;
      InBuffer();
      error := NO_ERR;
      if cur.kind == KRetVal {
        GetToken();
        error := TypeToken();
      }
    }

    /** A function: its header, its body, its labels. */
    method FunctionRule() returns (error: nat, ghost part: seq<Hoisting.Call>)
      requires Ready() && cur.kind == KFunc && AtTop(Now()) && lhs.None?
      modifies this`pos, this`cur, this`asked, this`left, this`emitted, this`names, this`lhs, this`curId, this`lastFn,
               this`inCond, this`inLoop, this`condUid, this`loopUid, this`firstStmt, this`returnFound, this`paramCnt,
               this`inParam, this`inFuncHead, this`inFuncBody, gen
      ensures error == NO_ERR ==>
        && Ready() && AtTop(Now()) && lhs.None? && left < old(left)
        && ProgWrote(old(Now()), Now(), part, [NameAt(toks, old(pos))]) && Now().known == old(Now()).known
        && Began(old(emitted), emitted, NameAt(toks, old(pos)),
                 HeaderVars(Opened(old(names)), toks, old(pos)))
        && (Tame(toks) ==> TopEnds(toks, signatures, old(pos), pos))
    {
      hide AgreeOn, Follows, ValidAt, Wrote, Emits, FunctionHead, FunctionEnd, IsPlain, ProgWrote, Began, HeaderVars,
           ParamLines, HeaderEnd, Tame, Sound, Sane, BlockEnds, TopEnds, WhereIn;
      InBuffer();
      ghost var a := Now();
      ghost var vars := HeaderVars(Opened(names), toks, pos);
      part := [];
      if left == 0 {
        return UNFINISHED, part;
      }
      left := left - 1;
      if !firstStmt && !cur.eol {
        return ERR_SYNTAX, part;
      }
      ghost var h;
      var name;
      error, name, h := FunctionHeader();
      if error != NO_ERR {
        return;
      }
      ghost var d, start := Now(), pos;
      LinesPlain(0, vars);
      ghost var u;
      error, u := FunctionBody(WhereIn(signatures, name));
      if error != NO_ERR {
        return;
      }
      FunctionBegins(a.emitted, d, u, Emits(FunctionEnd(name)), name, vars);
      part := FunctionWrote(a, d, u, Now(), name, h);
      if Tame(toks) {
        FunctionTop(toks, signatures, old(pos), pos - 1);
      }
    }

    /** From the body to after the closing brace. */
    method FunctionBody(ghost w: Where) returns (error: nat, ghost u: Snap)
      requires Ready() && |names.tables| == 3 && lhs.None? && Stands(lastFn, true, w)
      modifies this`pos, this`cur, this`asked, this`left, this`emitted, this`names, this`lhs, this`curId, this`lastFn,
               this`inCond, this`inLoop, this`condUid, this`loopUid, this`firstStmt, this`returnFound, this`inFuncBody, gen
      ensures error == NO_ERR ==>
        && Ready() && Follows(old(Now()), u.(depth := u.depth + 1)) && lhs.None? && left <= old(left) && pos > 0
        && Now() == u.(depth := 0, emitted := u.emitted + Emits(FunctionEnd(old(lastFn.name))))
        && (Tame(toks) ==> BlockEnds(toks, signatures, w, old(pos), pos - 1))
    {
      hide AgreeOn, Follows, ValidAt, Wrote, Emits, FunctionEnd, Tame, Sound, Sane, BlockEnds;
      ghost var d := Now();
      FollowsRefl(d);
      error := Block(true, w, d);
      u := Now();
      if error != NO_ERR {
        return;
      }
      DepthAfter(d, u);
      PopScope();
      inFuncBody := false;
      firstStmt := false;
      EmitCode(FunctionEnd(lastFn.name));
      InBuffer();
      Next();
    }

    /** From the keyword to the parameters: the labels and the parameters' scope.  A function that the first pass has
        not found has no item, and the program reads a null pointer. */
    method FunctionName() returns (error: nat, name: string)
      requires Ready() && cur.kind == KFunc
      modifies this`pos, this`cur, this`emitted, this`inFuncHead, this`names, this`lastFn, this`paramCnt, gen
      ensures error == NO_ERR ==>
        && Ready() && name == NameAt(toks, old(pos)) && pos == old(pos) + 3 && paramCnt == 0
        && KindAt(toks, old(pos) + 1, KIdentifier) && KindAt(toks, old(pos) + 2, KLPar)
        && names == Opened(old(names)) && |names.tables| == |old(names.tables)| + 1
        && lastFn.name == name && Stands(lastFn, true, WhereIn(signatures, name))
        && Now() == old(Now()).(depth := old(Now()).depth + 1, emitted := old(emitted) + Emits(FunctionHead(name)))
    {
      hide ValidAt, AgreeOn, Emits, FunctionHead, Tame, Sound, Sane;
      InBuffer();
      name := "";
      inFuncHead := true;
      GetToken();
      if cur.kind != KIdentifier {
        return ERR_SYNTAX, name;
      }
      InBuffer();
      name := Text(cur);
      if name !in Shadowing.Globals(names) {
        return ERR_INTERNAL, name;
      }
      lastFn := FnAt(names, signatures, Spot(|names.tables| - 1, name));
      EmitCode(FunctionHead(name));
      InBuffer();
      GetToken();
      if cur.kind != KLPar {
        return ERR_SYNTAX, name;
      }
      InBuffer();
      AddScope();
      paramCnt := 0;
      GetToken();
      error := NO_ERR;
    }

    /** From the parameters to the opening brace. */
    method FunctionParams() returns (error: nat, ghost h: seq<Hoisting.Call>)
      requires Ready() && paramCnt == 0 && |names.tables| > 1
      modifies this`pos, this`cur, this`paramCnt, this`emitted, this`names, this`curId, this`inParam, this`inFuncHead,
               this`inFuncBody, gen
      ensures error == NO_ERR ==>
        && Ready() && cur.kind == KLBkt && ParamsEnd(toks, old(pos)).Some?
        && h == ParamLines(0, VarsAt(old(names), toks, old(pos)))
        && Now() == old(Now()).(emitted := old(emitted) + h)
        && ReturnTypeEnd(toks, ParamsEnd(toks, old(pos)).value + 1) == Some(pos)
    {
      hide ValidAt, AgreeOn, IsPlain, ParamsEnd, VarsAt, ParamLines, Tame, Sound, Sane;
      error, h := ParamListSkip();
      if error != NO_ERR {
        return;
      }
      InBuffer();
      ParamsClosed(toks, old(pos));
      GetToken();
      error := FuncRetTypeSkip();
      if error != NO_ERR {
        return;
      }
      inFuncHead := false;
      inFuncBody := true;
      if cur.kind != KLBkt {
        return ERR_SYNTAX, h;
      }
    }

    /** From the keyword into the body: the labels, the parameters and two scopes. */
    method FunctionHeader() returns (error: nat, name: string, ghost h: seq<Hoisting.Call>)
      requires Ready() && cur.kind == KFunc && AtTop(Now())
      modifies this`pos, this`cur, this`paramCnt, this`emitted, this`inParam, this`inFuncHead, this`inFuncBody,
               this`names, this`curId, this`firstStmt, this`lastFn, gen
      ensures error == NO_ERR ==>
        && Ready() && name == NameAt(toks, old(pos)) && lastFn.name == name
        && Stands(lastFn, true, WhereIn(signatures, name))
        && h == ParamLines(0, HeaderVars(Opened(old(names)), toks, old(pos)))
        && |names.tables| == 3 && HeaderEnd(toks, old(pos)).Some?
        && KindAt(toks, HeaderEnd(toks, old(pos)).value, KLBkt) && pos == HeaderEnd(toks, old(pos)).value + 1
        && Now() == old(Now()).(depth := 2, emitted := old(emitted) + Emits(FunctionHead(name)) + h)
    {
      hide ValidAt, AgreeOn, Emits, FunctionHead, IsPlain, ParamsEnd, ReturnTypeEnd, HeaderEnd, VarsAt, ParamLines, Tame,
           Sound, Sane, Stands, WhereIn;
      InBuffer();
      ghost var start := pos;
      h := [];
      error, name := FunctionName();
      if error != NO_ERR {
        return;
      }
      error, h := FunctionParams();
      if error != NO_ERR {
        return;
      }
      InBuffer();
      HeaderWalk(toks, start, pos);
      Next();
      firstStmt := true;
      AddScope();
    }

    /** The program: functions and statements up to the end of the file; `v` are the places where they begin. */
    method Prog() returns (error: nat, ghost part: seq<Hoisting.Call>, ghost v: seq<nat>)
      requires Ready() && AtTop(Now()) && lhs.None?
      modifies this`pos, this`cur, this`asked, this`left, this`emitted, this`names, this`lhs, this`curId, this`lastFn,
               this`inCond, this`inLoop, this`condUid, this`loopUid, this`firstStmt, this`returnFound, this`paramCnt,
               this`inParam, this`inFuncHead, this`inFuncBody, gen
      ensures error == NO_ERR ==>
        && Ready() && AtTop(Now()) && cur.kind == KEof && Now().known == old(Now()).known
        && ProgWrote(old(Now()), Now(), part, NamesOf(toks, v))
        && (Tame(toks) ==> Visited(toks, signatures, old(pos), v))
      decreases left
    {
      hide AgreeOn, Follows, ValidAt, Wrote, Emits, ProgWrote, Tame, Sound, Sane, TopEnds, StmtEnds, Visited, NameAt;
      InBuffer();
      ghost var a := Now();
      part, v := [], [];
      if cur.kind == KEof {
        EmitCode([Other("LABEL $$EOF")]);
        InBuffer();
        error := NO_ERR;
        part := Emits([Other("LABEL $$EOF")]);
        EndWrote(a, Now(), part);
        if Tame(toks) {
          VisitsDone(toks, signatures, pos);
        }
        return;
      }
      ghost var names;
      error, part, names := TopRule();
      if error != NO_ERR {
        return;
      }
      ghost var b, i := Now(), pos;
      ghost var rest, more;
      error, rest, more := Prog();
      ProgTrans(a, b, Now(), part, rest, names, NamesOf(toks, more), error == NO_ERR);
      part := part + rest;
      v := [old(pos)] + more;
      if error == NO_ERR {
        NamesCons(toks, old(pos), more);
        if Tame(toks) {
          VisitsMeet(toks, signatures, old(pos), i, more);
        }
      }
    }

    /** A function, or a statement outside functions. */
    method TopRule() returns (error: nat, ghost part: seq<Hoisting.Call>, ghost names: seq<string>)
      requires Ready() && AtTop(Now()) && lhs.None? && cur.kind != KEof
      modifies this`pos, this`cur, this`asked, this`left, this`emitted, this`names, this`lhs, this`curId, this`lastFn,
               this`inCond, this`inLoop, this`condUid, this`loopUid, this`firstStmt, this`returnFound, this`paramCnt,
               this`inParam, this`inFuncHead, this`inFuncBody, gen
      ensures error == NO_ERR ==>
        && Ready() && AtTop(Now()) && lhs.None? && left < old(left) && Now().known == old(Now()).known
        && ProgWrote(old(Now()), Now(), part, names)
        && names == (if KindAt(toks, old(pos), KFunc) then [NameAt(toks, old(pos))] else [])
        && (Tame(toks) ==> TopEnds(toks, signatures, old(pos), pos))
    {
      hide AgreeOn, Follows, ValidAt, Wrote, ProgWrote, Tame, Sound, Sane, TopEnds, StmtEnds, NameAt, Began, HeaderVars;
      InBuffer();
      ghost var a := Now();
      part := [];
      names := if cur.kind == KFunc then [NameAt(toks, pos)] else [];
      if cur.kind == KFunc {
        error, part := FunctionRule();
        return;
      }
      FollowsRefl(a);
      error := Stmt(false, Outside, a);
      firstStmt := false;
      if error != NO_ERR {
        return;
      }
      part := StmtWrote(a, Now());
      TopKept(a, Now());
      if Tame(toks) {
        StmtTop(toks, signatures, old(pos), pos);
      }
    }

    // ----- the first pass -----

    method Param() returns (error: nat)
      requires Valid()
      modifies this`pos, this`cur, this`params
      ensures error == NO_ERR ==>
        && Valid() && ParamEnd(toks, old(pos)) == Some(pos)
        && params == AddParam(old(params), ParamSigAt(toks, old(pos)))
    {
      hide ValidAt, AddParam, Sound, Sane;
      InBuffer();
      ghost var start := pos;
      var tag := LabelOf(cur);
      if cur.kind != KUndScr && cur.kind != KIdentifier {
        return ERR_SYNTAX;
      }
      GetToken();
      if cur.kind != KIdentifier {
        return ERR_SYNTAX;
      }
      InBuffer();
      var name := Text(cur);
      GetToken();
      if cur.kind != KCol {
        return ERR_SYNTAX;
      }
      GetToken();
      InBuffer();
      params := AddParam(params, ParamSig(name, tag, TypeOf(cur.kind), cur.val == NilableVal(true)));
      error := TypeToken();
      if error == NO_ERR {
        InBuffer();
      }
    }

    method ParamNext() returns (error: nat)
      requires Valid()
      modifies this`pos, this`cur, this`inParam, this`params
      ensures error == NO_ERR ==>
        Valid() && MoreParamsEnd(toks, old(pos)) == Some(pos) && params == MoreSigs(toks, old(pos), old(params))
      decreases |toks| - pos
    {
      hide ValidAt, AddParam, ParamSigAt, Sound, Sane;
      InBuffer();
      if cur.kind == KRPar {
        inParam := false;
        error := NO_ERR;
      } else if cur.kind == KComma {
        GetToken();
        error := Param();
        if error == NO_ERR {
          InBuffer();
          error := ParamNext();
        }
      } else {
        error := ERR_SYNTAX;
      }
    }

    method ParamList() returns (error: nat)
      requires Valid() && params == []
      modifies this`pos, this`cur, this`inParam, this`params
      ensures error == NO_ERR ==>
        Valid() && ParamsEnd(toks, old(pos)) == Some(pos) && params == SigsAt(toks, old(pos))
    {
      hide ValidAt, AddParam, ParamSigAt, Sound, Sane;
      InBuffer();
      inParam := true;
      if cur.kind == KRPar {
        inParam := false;
        return NO_ERR;
      }
      error := Param();
      if error == NO_ERR {
        error := ParamNext();
      }
    }

    /** The type after an arrow, if there is one. */
    method FuncRetType() returns (error: nat, t: Option<Token>)
      requires Valid()
      modifies this`pos, this`cur
      ensures error == NO_ERR ==>
        && Valid() && ReturnTypeEnd(toks, old(pos)) == Some(pos)
        && t == (if KindAt(toks, old(pos), KRetVal) then Some(toks[old(pos) + 1]) else None)
    {
      hide ValidAt, Sound, Sane;
      InBuffer();
      error, t := NO_ERR, None;
      if cur.kind == KRetVal {
        GetToken();
        t := Some(cur);
        error := TypeToken();
      }
    }

    /** Declares the function whose keyword is current, up to its parameters. */
    method HeaderName() returns (error: nat, name: string)
      requires Valid() && cur.kind == KFunc && OnlyFunctions(names, signatures)
      modifies this`pos, this`cur, this`inFuncHead, this`lastFn, this`names
      ensures error == NO_ERR ==>
        && Valid() && pos == old(pos) + 3 && KindAt(toks, old(pos) + 1, KIdentifier) && KindAt(toks, old(pos) + 2, KLPar)
        && name == NameAt(toks, old(pos)) && name !in signatures && names == NewFunction(old(names), name)
    {
      hide ValidAt, OnlyFunctions, NewFunction, Sound, Sane;
      InBuffer();
      name := "";
      inFuncHead := true;
      GetToken();
      if cur.kind != KIdentifier {
        return ERR_SYNTAX, name;
      }
      InBuffer();
      name := Text(cur);
      KeysSame(names, signatures, name);
      if name in Shadowing.Globals(names) {
        return ERR_REDEFINING_VARIABLE, name;
      }
      SoundFunction(names, name);
      names := NewFunction(names, name);
      lastFn := Fn(name, BLANK);
      GetToken();
      if cur.kind != KLPar {
        return ERR_SYNTAX, name;
      }
      InBuffer();
      GetToken();
      error := NO_ERR;
    }

    /** The parameters and the return type. */
    method HeaderTypes() returns (error: nat, t: Option<Token>)
      requires Valid()
      modifies this`pos, this`cur, this`inParam, this`params
      ensures error == NO_ERR ==>
        && Valid() && ParamsEnd(toks, old(pos)).Some? && params == SigsAt(toks, old(pos))
        && var r := ParamsEnd(toks, old(pos)).value + 1;
           ReturnTypeEnd(toks, r) == Some(pos) && t == if KindAt(toks, r, KRetVal) then Some(toks[r + 1]) else None
    {
      hide ValidAt, ParamsEnd, ReturnTypeEnd, SigsAt, Sound, Sane;
      t := None;
      params := [];
      error := ParamList();
      if error != NO_ERR {
        return;
      }
      InBuffer();
      ParamsClosed(toks, old(pos));
      GetToken();
      error, t := FuncRetType();
    }

    /** Declares the function whose keyword is current. */
    method FuncHeader() returns (error: nat)
      requires Valid() && cur.kind == KFunc && OnlyFunctions(names, signatures)
      modifies this`pos, this`cur, this`inParam, this`inFuncHead, this`lastFn, this`names, this`params, this`signatures
      ensures error == NO_ERR ==>
        && Valid() && HeaderEnd(toks, old(pos)) == Some(pos) && NameAt(toks, old(pos)) !in old(signatures)
        && signatures == old(signatures)[NameAt(toks, old(pos)) := SignatureAt(toks, old(pos))]
        && OnlyFunctions(names, signatures)
    {
      hide ValidAt, ParamsEnd, ReturnTypeEnd, SigsAt, OnlyFunctions, NewFunction, SetNilable, Sound, Sane,
           ReturnSig, NameAt,
           KindAt;
      var name;
      error, name := HeaderName();
      if error != NO_ERR {
        return;
      }
      var t;
      error, t := HeaderTypes();
      if error != NO_ERR {
        return;
      }
      inFuncHead := false;
      HeaderWalk(toks, old(pos), pos);
      var sig := Signature(false, params, ReturnSig(t).0, ReturnSig(t).1);
      assert sig == SignatureAt(toks, old(pos));
      KeysSame(old(names), signatures, name);
      OnlyFunctionsMore(old(names), signatures, name, sig);
      SoundNilable(names, name, sig.nilable);
      names := SetNilable(names, name, sig.nilable);
      SaneMore(signatures, name, sig);
      signatures := signatures[name := sig];
    }

    /** Looks for function headers from here to the end. */
    method Skip() returns (error: nat)
      requires Valid() && ScannedTo(toks, seen, signatures.Keys, pos) && KnownSeen(toks, seen, signatures)
      requires OnlyFunctions(names, signatures)
      modifies this`pos, this`cur, this`inParam, this`inFuncHead, this`lastFn, this`names, this`seen, this`params,
               this`signatures
      ensures error == NO_ERR ==>
        && Valid() && Scanned(toks, seen, signatures.Keys) && KnownSeen(toks, seen, signatures) && old(pos) in seen
        && OnlyFunctions(names, signatures) && old(seen) <= seen
      decreases |toks| - pos
    {
      hide ValidAt, ScannedTo, Scanned, HeaderEnd, KnownSeen, OnlyFunctions, SignatureAt, Sound, Sane;
      InBuffer();
      ghost var start := pos;
      if cur.kind == KEof {
        seen := seen + {pos};
        ScanEnds(toks, old(seen), signatures.Keys, pos);
        KnownPlain(toks, old(seen), signatures, pos);
        return NO_ERR;
      }
      if cur.kind == KFunc {
        error := FuncHeader();
        if error != NO_ERR {
          return;
        }
        HeaderPlain(toks, start);
        KnownHeader(toks, old(seen), old(signatures), start);
      } else {
        KnownPlain(toks, old(seen), signatures, start);
      }
      seen := seen + {start};
      GetToken();
      ScanGoes(toks, old(seen), old(signatures).Keys, start, pos);
      KeysMore(old(signatures), signatures, start);
      error := Skip();
    }

    lemma KeysMore(before: map<string, Signature>, after: map<string, Signature>, start: nat)
      requires start < |toks|
      requires var id := NameAt(toks, start);
               if toks[start].kind == KFunc then id in after && after == before[id := after[id]] else after == before
      ensures after.Keys == if toks[start].kind == KFunc then before.Keys + {NameAt(toks, start)} else before.Keys
    {
    }

    // ----- both passes -----

    /** The built-in functions that have a frame, before anything else. */
    method Prolog() returns (ghost part: seq<Hoisting.Call>)
      requires Valid() && inLoop == 0
      modifies this`asked, this`emitted, gen
      ensures Valid() && ProgWrote(old(Now()), Now(), part, ["ord", "substring"]) && CallsNothing(Body(part))
      ensures Now() == old(Now()).(emitted := emitted)
    {
      hide ValidAt, Emits, IsPlain, FunctionHead, FunctionEnd, ProgWrote, Tame, Sound, Sane, Body, CallsNothing;
      ghost var a := Now();
      EmitCode(FunctionHead("ord"));
      ghost var h := PlainLines();
      EmitCode(FunctionEnd("ord"));
      ghost var b := Now();
      ghost var p := BuiltinWrote(a, b, "ord", h);
      EmitCode(FunctionHead("substring"));
      h := PlainLines();
      EmitCode(FunctionEnd("substring"));
      ghost var q := BuiltinWrote(b, Now(), "substring", h);
      ProgTrans(a, b, Now(), p, q, ["ord"], ["substring"], true);
      assert ["ord"] + ["substring"] == ["ord", "substring"];
      part := p + q;
      BodyConcat(p, q);
      NothingTwice(Body(p), Body(q));
    }

    /** Parses a whole file: collects the headers, goes back to the start, and translates.  Where a brace follows every
        header, and no function that can be nil is assigned to or bound by `if let`, the output is resolved exactly when
        no name clashes. */
    method Parse() returns (error: nat)
      requires Valid() && Fresh() && pos == 0
      modifies this, gen
      ensures error == NO_ERR ==>
        && |names.tables| == 1 && inCond == 0 && inLoop == 0 && cur.kind == KEof
        && gen.forOpen == 0 && gen.printBuffer == []
      ensures error == NO_ERR && Braced(toks) && Untouched(toks) ==> (Resolved(Instrs(gen.out)) <==> NoEndNames(toks))
    {
      hide ValidAt, Scanned, ScannedTo, ProgWrote, Resolved, NoEndNames, KnownSeen, OnlyFunctions, Braced, Untouched,
           CallsNothing, Body, Known, Plain, Visited;
      OneTable(names, signatures);
      ghost var part := Prolog();
      ghost var b := Now();
      StartScan(toks);
      error := Skip();
      if error != NO_ERR {
        return;
      }
      Rewound(toks, world, pos, cur, inLoop, emitted, gen.State());
      pos := 0;
      cur := toks[0];
      OneTable(names, signatures);
      SecondPass();
      ghost var c := Now();
      ghost var rest, v;
      error, rest, v := Prog();
      if error != NO_ERR {
        return;
      }
      ClosedUp(toks, world, pos, Now(), cur, gen.State());
      if Tame(toks) {
        InBuffer();
        EachFunctionOnce(toks, signatures, v);
        KnownCovered(toks, signatures);
        ResolvedExactly(toks, old(Now()), b, c, Now(), part, rest, NamesOf(toks, v), signatures.Keys);
      }
    }

    lemma SecondPass()
      requires WellBuffered(toks) && Scanned(toks, seen, signatures.Keys) && KnownSeen(toks, seen, signatures) && 0 in seen
      requires OnlyFunctions(names, signatures)
      ensures Agreed()
    {
      hide Scanned, KnownSeen, OnlyFunctions, Known, Plain, Braced, Untouched;
      OnlyFunctionsPlain(names, signatures);
      if Tame(toks) {
        KnownAll(toks, seen, signatures);
      }
    }
  }

  // ----- small steps -----

  lemma ReturnsHere(fn: Fn, w: Where)
    requires Stands(fn, true, w)
    ensures !w.Outside? && (w.InVoid? <==> fn.sig.ret == NilType)
  {
  }

  lemma NothingTwice(a: seq<Instr>, b: seq<Instr>)
    requires CallsNothing(a) && CallsNothing(b)
    ensures CallsNothing(a + b)
  {
  }

  lemma OneTable(n: Shadowing.Names, signatures: map<string, Signature>)
    requires OnlyFunctions(n, signatures)
    ensures |n.tables| == 1
  {
  }

  lemma KeysSame(n: Shadowing.Names, signatures: map<string, Signature>, id: string)
    requires OnlyFunctions(n, signatures)
    ensures |n.tables| == 1 && (id in Shadowing.Globals(n) <==> id in signatures)
  {
  }

  lemma SaneMore(signatures: map<string, Signature>, id: string, sig: Signature)
    requires Sane(signatures) && !sig.variadic
    ensures Sane(signatures[id := sig])
  {
  }

  lemma NamesCons(toks: seq<Token>, i: nat, v: seq<nat>)
    ensures NamesOf(toks, [i] + v) == (if KindAt(toks, i, KFunc) then [NameAt(toks, i)] else []) + NamesOf(toks, v)
  {
    assert ([i] + v)[1..] == v;
  }

  /** The tables and signatures before the first pass. */
  function StartNames(): Shadowing.Names {
    BuiltinNames(BUILTIN_LIST)
  }

  function StartSigs(): map<string, Signature> {
    BuiltinSigs(BUILTIN_LIST)
  }

  lemma FreshTables(toks: seq<Token>)
    ensures OnlyFunctions(StartNames(), StartSigs()) && StartNames().tables != [] && Sound(StartNames())
    ensures Sane(StartSigs()) && StartSigs().Keys == BUILTINS && KnownSeen(toks, {}, StartSigs())
  {
    hide BuiltinNames, OnlyFunctions, Sound;
    BuiltinsOnly(BUILTIN_LIST);
    BuiltinsSound(BUILTIN_LIST);
    OneTable(StartNames(), StartSigs());
    BuiltinsListed();
    hide BUILTIN_LIST, BUILTINS;
    BuiltinsSane();
  }

  lemma BuiltinsListed()
    ensures forall f :: f in BUILTINS <==> f in BUILTIN_LIST
  {
  }

  lemma BuiltinsSane()
    ensures forall f :: BuiltinSignature(f).variadic ==> BuiltinSignature(f).params != []
  {
  }
}
