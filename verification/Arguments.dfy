/** Calls of functions as the argument rules read them: which token lists they accept for a function's parameters, and
    what the generator is told.  The function's own parameters come from its header. */
module Arguments {
  import opened Tokens
  import opened Machine
  import opened Hoisting
  import opened StraightLine
  import opened Calls
  import opened Headers
  import opened Rules
  import opened Scopes
  import opened Shadowing
  import Labels

  // ----- what the first pass records -----

  datatype ParamSig = ParamSig(name: string, tag: string, ty: Type, nilable: bool)

  /** What a symbol item knows besides its place, type and flags; `nilable` is that of the returned value. */
  datatype Signature = Signature(variadic: bool, params: seq<ParamSig>, ret: Type, nilable: bool)

  /** Of an item that no header and no built-in declaration has filled in. */
  const BLANK := Signature(false, [], Undefined, false)

  function LabelOf(t: Token): string {
    if t.kind == KUndScr then "_" else Text(t)
  }

  function TypeOf(k: Kind): Type {
    if k == KDtInt then Integer else if k == KDtDouble then Double else if k == KDtString then String else Undefined
  }

  /** The parameter whose label stands at `i`. */
  function ParamSigAt(toks: seq<Token>, i: nat): ParamSig
    requires i + 3 < |toks|
  {
    var t := toks[i + 3];
    ParamSig(Text(toks[i + 1]), LabelOf(toks[i]), TypeOf(t.kind), t.val == NilableVal(true))
  }

  /** Label and type are set on the first parameter of that name. */
  function SetFirst(ps: seq<ParamSig>, p: ParamSig): (r: seq<ParamSig>)
    ensures |r| == |ps|
  {
    if ps == [] then [] else if ps[0].name == p.name then [p] + ps[1..] else [ps[0]] + SetFirst(ps[1..], p)
  }

  function AddParam(ps: seq<ParamSig>, p: ParamSig): (r: seq<ParamSig>)
    ensures |r| == |ps| + 1
  {
    SetFirst(ps + [ParamSig(p.name, "", Undefined, false)], p)
  }

  function MoreSigs(toks: seq<Token>, i: nat, ps: seq<ParamSig>): seq<ParamSig>
    requires MoreParamsEnd(toks, i).Some?
    decreases |toks| - i
  {
    if KindAt(toks, i, KRPar) then ps else MoreSigs(toks, i + 5, AddParam(ps, ParamSigAt(toks, i + 1)))
  }

  function SigsAt(toks: seq<Token>, i: nat): seq<ParamSig>
    requires ParamsEnd(toks, i).Some?
  {
    if KindAt(toks, i, KRPar) then [] else MoreSigs(toks, i + 4, AddParam([], ParamSigAt(toks, i)))
  }

  /** The return type's token of the function whose keyword stands at `i`. */
  function ReturnToken(toks: seq<Token>, i: nat): Option<Token>
    requires HeaderEnd(toks, i).Some?
  {
    var r := ParamsEnd(toks, i + 3).value + 1;
    if KindAt(toks, r, KRetVal) then Some(toks[r + 1]) else None
  }

  function ReturnSig(t: Option<Token>): (Type, bool) {
    if t.Some? then (TypeOf(t.value.kind), t.value.val == NilableVal(true)) else (NilType, false)
  }

  /** The signature of the function whose keyword stands at `i`. */
  function SignatureAt(toks: seq<Token>, i: nat): (r: Signature)
    requires HeaderEnd(toks, i).Some?
    ensures r.ret != Function
  {
    var (ty, nilable) := ReturnSig(ReturnToken(toks, i));
    Signature(false, SigsAt(toks, i + 3), ty, nilable)
  }

  function BuiltinSignature(name: string): (r: Signature)
    ensures r.ret != Function
  {
    if name == "readString" then Signature(false, [], String, true)
    else if name == "readInt" then Signature(false, [], Integer, true)
    else if name == "readDouble" then Signature(false, [], Double, true)
    else if name == "write" then Signature(true, [ParamSig("_", "_", Undefined, false)], NilType, false)
    else if name == "Int2Double" then Signature(false, [ParamSig("term", "_", Integer, false)], Double, false)
    else if name == "Double2Int" then Signature(false, [ParamSig("term", "_", Double, false)], Integer, false)
    else if name == "length" then Signature(false, [ParamSig("s", "_", String, false)], Integer, false)
    else if name == "substring" then
      Signature(false, [ParamSig("s", "of", String, false), ParamSig("i", "startingAt", Integer, false),
                        ParamSig("j", "endingBefore", Integer, false)], String, true)
    else if name == "ord" then Signature(false, [ParamSig("c", "_", String, false)], Integer, false)
    else if name == "chr" then Signature(false, [ParamSig("i", "_", Integer, false)], String, false)
    else BLANK
  }

  /** What the first pass leaves: every function of the program, and no other, beside the built-in ones, each under a
      name of its own and with the signature of its header. */
  ghost predicate Known(toks: seq<Token>, signatures: map<string, Signature>) {
    && (forall i :: KindAt(toks, i, KFunc) ==>
          HeaderEnd(toks, i).Some? && NameAt(toks, i) in signatures && NameAt(toks, i) !in BUILTINS
          && signatures[NameAt(toks, i)] == SignatureAt(toks, i))
    && (forall i, j :: KindAt(toks, i, KFunc) && KindAt(toks, j, KFunc) && i != j ==> NameAt(toks, i) != NameAt(toks, j))
    && (forall f :: f in BUILTINS ==> f in signatures && signatures[f] == BuiltinSignature(f))
    && (forall f :: f in signatures ==> f in BUILTINS || exists i :: KindAt(toks, i, KFunc) && NameAt(toks, i) == f)
  }

  /** A function or built-in whose result can be nil. */
  predicate CanBeNil(toks: seq<Token>, id: string) {
    || (id in BUILTINS && BuiltinSignature(id).nilable)
    || exists i: nat :: i < |toks| && toks[i].kind == KFunc && HeaderEnd(toks, i).Some? && NameAt(toks, i) == id
                        && SignatureAt(toks, i).nilable
  }

  /** The name of such a function stands nowhere before an equals sign or after `if let`. */
  predicate Untouched(toks: seq<Token>) {
    forall i: nat :: i < |toks| && toks[i].kind == KIdentifier && CanBeNil(toks, Text(toks[i])) ==>
      !KindAt(toks, i + 1, KAss) && !(i >= 2 && toks[i - 1].kind == KLet && toks[i - 2].kind == KIf)
  }

  lemma KnownNil(toks: seq<Token>, signatures: map<string, Signature>, id: string)
    requires Known(toks, signatures) && id in signatures && signatures[id].nilable
    ensures CanBeNil(toks, id)
  {
    hide HeaderEnd, NameAt, SignatureAt, BuiltinSignature;
    if id !in BUILTINS {
      var i: nat :| KindAt(toks, i, KFunc) && NameAt(toks, i) == id;
    }
  }

  /** A variadic function has a parameter, which stands for all arguments. */
  ghost predicate Sane(signatures: map<string, Signature>) {
    forall f :: f in signatures && signatures[f].variadic ==> signatures[f].params != []
  }

  /** The same for the part that the first pass has looked at. */
  ghost predicate KnownSeen(toks: seq<Token>, seen: set<nat>, signatures: map<string, Signature>) {
    && (forall f :: f in BUILTINS ==> f in signatures && signatures[f] == BuiltinSignature(f))
    && (forall i :: i in seen && KindAt(toks, i, KFunc) && HeaderEnd(toks, i).Some? ==>
          NameAt(toks, i) in signatures && signatures[NameAt(toks, i)] == SignatureAt(toks, i))
  }

  // ----- argument lists -----

  /** Where the generator reads the variable of a name from. */
  type Places = string -> VarRef

  /** An argument: the position of its first token, and its value unless it is a label without one. */
  datatype Argument = Argument(at: nat, source: Option<Source>)

  function LiteralValue(t: Token): Option<Value> {
    if t.kind == KInt then Some(VInt(if t.val.IntVal? then t.val.i else 0))
    else if t.kind == KDbl then Some(VDbl(if t.val.DblVal? then t.val.d else DblLit("")))
    else if t.kind == KString then Some(VStr(Text(t)))
    else if t.kind == KNil then Some(VNil)
    else None
  }

  predicate LiteralSuits(t: Token, p: ParamSig) {
    if t.kind == KInt then p.ty == Integer
    else if t.kind == KDbl then p.ty == Double
    else if t.kind == KString then p.ty == String
    else p.nilable
  }

  function LiteralAt(toks: seq<Token>, i: nat, variadic: bool, p: ParamSig): Option<Source> {
    if i < |toks| && LiteralValue(toks[i]).Some? && (variadic || LiteralSuits(toks[i], p))
    then Some(Const(LiteralValue(toks[i]).value)) else None
  }

  function TermAt(place: Places, toks: seq<Token>, i: nat, variadic: bool, p: ParamSig): Option<Source> {
    if KindAt(toks, i, KIdentifier) then Some(Variable(place(Text(toks[i])))) else LiteralAt(toks, i, variadic, p)
  }

  /** An argument for the parameter `p` at `i`, and the position of its last token. */
  function ArgAt(place: Places, toks: seq<Token>, i: nat, variadic: bool, p: ParamSig): (r: Option<(nat, Argument)>)
    ensures r.Some? ==> i <= r.value.0 < |toks| && r.value.1.at == i
  {
    if !KindAt(toks, i, KIdentifier) || p.tag == "_" then
      var v := TermAt(place, toks, i, variadic, p);
      if p.tag == "_" && v.Some? then Some((i, Argument(i, v))) else None
    else if p.tag != Text(toks[i]) || i + 1 >= |toks| then None
    else if toks[i + 1].kind != KCol then Some((i + 1, Argument(i, None)))
    else
      var v := TermAt(place, toks, i + 2, variadic, p);
      if v.Some? then Some((i + 2, Argument(i, v))) else None
  }

  /** There is a parameter for the `j`-th argument; a variadic function has one for all. */
  predicate HasParam(sig: Signature, j: nat) {
    if sig.variadic then sig.params != [] else j < |sig.params|
  }

  function ParamFor(sig: Signature, j: nat): ParamSig
    requires HasParam(sig, j)
  {
    if sig.variadic then sig.params[0] else sig.params[j]
  }

  /** The arguments from the `j`-th on, which starts at `i`, and the position after the closing parenthesis. */
  function ArgsAt(place: Places, toks: seq<Token>, i: nat, sig: Signature, j: nat): Option<(nat, seq<Argument>)>
    requires HasParam(sig, j)
    decreases |toks| - i, 1
  {
    var a := ArgAt(place, toks, i, sig.variadic, ParamFor(sig, j));
    if a.None? then None else Prepended(a.value.1, RestAt(place, toks, a.value.0 + 1, sig, j))
  }

  function Prepended(a: Argument, r: Option<(nat, seq<Argument>)>): Option<(nat, seq<Argument>)> {
    if r.None? then None else Some((r.value.0, [a] + r.value.1))
  }

  /** What follows the `j`-th argument. */
  function RestAt(place: Places, toks: seq<Token>, i: nat, sig: Signature, j: nat): Option<(nat, seq<Argument>)>
    decreases |toks| - i, 0
  {
    if KindAt(toks, i, KComma) && HasParam(sig, j + 1) then ArgsAt(place, toks, i + 1, sig, j + 1)
    else if KindAt(toks, i, KRPar) && (sig.variadic || j + 1 >= |sig.params|) then Some((i + 1, []))
    else None
  }

  /** The whole list, from after the opening parenthesis. */
  function ArgListAt(place: Places, toks: seq<Token>, i: nat, sig: Signature): Option<(nat, seq<Argument>)> {
    if KindAt(toks, i, KRPar) then (if sig.variadic || sig.params == [] then Some((i + 1, [])) else None)
    else if HasParam(sig, 0) then ArgsAt(place, toks, i, sig, 0)
    else None
  }

  /** The values, in order. */
  function Values(args: seq<Argument>): (vs: seq<Source>)
    ensures |vs| <= |args|
  {
    if args == [] then [] else (if args[0].source.Some? then [args[0].source.value] else []) + Values(args[1..])
  }

  predicate AllValued(args: seq<Argument>) {
    forall k :: 0 <= k < |args| ==> args[k].source.Some?
  }

  lemma {:induction false} ArgsCount(place: Places, toks: seq<Token>, i: nat, sig: Signature, j: nat)
    requires HasParam(sig, j) && !sig.variadic && ArgsAt(place, toks, i, sig, j).Some?
    ensures j + |ArgsAt(place, toks, i, sig, j).value.1| == |sig.params|
    decreases |toks| - i
  {
    var n := ArgAt(place, toks, i, false, sig.params[j]).value.0 + 1;
    if KindAt(toks, n, KComma) && HasParam(sig, j + 1) {
      ArgsCount(place, toks, n + 1, sig, j + 1);
    }
  }

  /** An accepted list has an argument for each parameter. */
  lemma ListCount(place: Places, toks: seq<Token>, i: nat, sig: Signature)
    requires !sig.variadic && ArgListAt(place, toks, i, sig).Some?
    ensures |ArgListAt(place, toks, i, sig).value.1| == |sig.params|
  {
    if !KindAt(toks, i, KRPar) {
      ArgsCount(place, toks, i, sig, 0);
    }
  }

  /** The label at the argument's first token has no colon and value after it. */
  predicate BareLabel(toks: seq<Token>, p: ParamSig, a: Argument) {
    p.tag != "_" && !KindAt(toks, a.at + 1, KCol)
  }

  lemma {:induction false} ArgsValued(place: Places, toks: seq<Token>, i: nat, sig: Signature, j: nat, k: nat)
    requires HasParam(sig, j) && !sig.variadic && ArgsAt(place, toks, i, sig, j).Some?
    requires k < |ArgsAt(place, toks, i, sig, j).value.1| && j + k < |sig.params|
    ensures var a := ArgsAt(place, toks, i, sig, j).value.1[k];
            a.source.None? <==> BareLabel(toks, sig.params[j + k], a)
    decreases |toks| - i
  {
    var n := ArgAt(place, toks, i, false, sig.params[j]).value.0 + 1;
    if k > 0 {
      ArgsValued(place, toks, n + 1, sig, j + 1, k - 1);
    }
  }

  /** An argument goes without a value exactly when its label is not followed by a colon. */
  lemma ListValued(place: Places, toks: seq<Token>, i: nat, sig: Signature)
    requires !sig.variadic && ArgListAt(place, toks, i, sig).Some?
    ensures var args := ArgListAt(place, toks, i, sig).value.1;
            |args| == |sig.params| && forall k :: 0 <= k < |args| ==> (args[k].source.None? <==> BareLabel(toks, sig.params[k], args[k]))
  {
    ListCount(place, toks, i, sig);
    var args := ArgListAt(place, toks, i, sig).value.1;
    forall k | 0 <= k < |args|
      ensures args[k].source.None? <==> BareLabel(toks, sig.params[k], args[k])
    {
      ArgsValued(place, toks, i, sig, 0, k);
    }
  }

  lemma {:induction false} ValuesAll(args: seq<Argument>)
    ensures |Values(args)| == |args| <==> AllValued(args)
    ensures AllValued(args) ==> forall k :: 0 <= k < |args| ==> Values(args)[k] == args[k].source.value
    decreases |args|
  {
    if args != [] {
      ValuesAll(args[1..]);
      assert forall k :: 0 < k < |args| ==> args[k] == args[1..][k - 1];
    }
  }

  lemma {:induction false} ValuesFrom(args: seq<Argument>, v: Source)
    requires v in Values(args)
    ensures exists k :: 0 <= k < |args| && args[k].source == Some(v)
    decreases |args|
  {
    if args[0].source != Some(v) {
      ValuesFrom(args[1..], v);
      var k :| 0 <= k < |args| - 1 && args[1..][k].source == Some(v);
      assert args[k + 1] == args[1..][k];
    }
  }

  // ----- what is emitted for a call -----

  /** The lines for arguments from slot `k` on. */
  function SlotsFrom(k: nat, args: seq<Source>): seq<Hoisting.Call>
    decreases |args|
  {
    if args == [] then [] else SlotCalls(k, args[0]) + SlotsFrom(k + 1, args[1..])
  }

  lemma {:induction false} SlotsSplit(k: nat, a: seq<Source>, b: seq<Source>)
    ensures SlotsFrom(k, a + b) == SlotsFrom(k, a) + SlotsFrom(k + |a|, b)
    decreases |a|
  {
    if a == [] {
      assert a + b == b;
    } else {
      assert (a + b)[1..] == a[1..] + b;
      SlotsSplit(k + 1, a[1..], b);
    }
  }

  lemma {:induction false} SlotsAreArguments(args: seq<Source>)
    ensures SlotsFrom(0, args) == ArgumentCalls(args)
    decreases |args|
  {
    if args != [] {
      var n := |args| - 1;
      assert args == args[..n] + [args[n]];
      SlotsSplit(0, args[..n], [args[n]]);
      SlotsAreArguments(args[..n]);
      assert SlotsFrom(n, [args[n]]) == SlotCalls(n, args[n]) + [];
    }
  }

  /** The arguments' lines and the call's make up the whole call. */
  lemma CallComplete(name: string, args: seq<Source>)
    ensures SlotsFrom(0, args) + LastCalls(|args|, name) == CallCalls(name, args)
  {
    SlotsAreArguments(args);
  }

  lemma CallJoined(written: seq<Hoisting.Call>, args: seq<Source>, name: string)
    ensures written + SlotsFrom(0, args) + LastCalls(|args|, name) == written + CallCalls(name, args)
  {
    hide SlotsFrom, LastCalls, CallCalls;
    CallComplete(name, args);
    assert written + SlotsFrom(0, args) + LastCalls(|args|, name) ==
      written + (SlotsFrom(0, args) + LastCalls(|args|, name));
  }

  lemma SlotPlain(k: nat, arg: Source)
    ensures IsPlain(SlotCalls(k, arg))
  {
  }

  // ----- the function's own parameters -----

  /** The names with the parameter whose label stands at `i`, in the innermost scope. */
  function DeclaredParam(n: Names, toks: seq<Token>, i: nat): Names
    requires i + 1 < |toks|
  {
    Shadowing.Do(n, Shadowing.Step.Declare(0, Text(toks[i + 1])))
  }

  lemma DeclaredThere(n: Names, toks: seq<Token>, i: nat)
    requires i + 1 < |toks| && n.tables != []
    ensures var d := DeclaredParam(n, toks, i); |d.tables| == |n.tables| && Text(toks[i + 1]) in d.tables[0]
  {
  }

  function ParamNames(n: Names, toks: seq<Token>, i: nat): (r: Names)
    requires i + 3 < |toks| && n.tables != []
    ensures |r.tables| == |n.tables|
  {
    var d, id := DeclaredParam(n, toks, i), Text(toks[i + 1]);
    var it := d.tables[0][id];
    Shadowing.Do(d, Shadowing.Step.Set(0, id, TypeOf(toks[i + 3].kind), it.mutable, true, it.nilable))
  }

  /** Name and uid of that parameter. */
  function ParamVarAt(n: Names, toks: seq<Token>, i: nat): Param
    requires i + 1 < |toks| && n.tables != []
  {
    (Text(toks[i + 1]), DeclaredParam(n, toks, i).tables[0][Text(toks[i + 1])].uid)
  }

  function MoreVars(n: Names, toks: seq<Token>, i: nat): seq<Param>
    requires MoreParamsEnd(toks, i).Some? && n.tables != []
    decreases |toks| - i
  {
    if KindAt(toks, i, KRPar) then []
    else [ParamVarAt(n, toks, i + 1)] + MoreVars(ParamNames(n, toks, i + 1), toks, i + 5)
  }

  function VarsAt(n: Names, toks: seq<Token>, i: nat): seq<Param>
    requires ParamsEnd(toks, i).Some? && n.tables != []
  {
    if KindAt(toks, i, KRPar) then []
    else [ParamVarAt(n, toks, i)] + MoreVars(ParamNames(n, toks, i), toks, i + 4)
  }

  /** The parameters of the function whose keyword stands at `f`, its scope being the innermost. */
  function HeaderVars(n: Names, toks: seq<Token>, f: nat): seq<Param>
    requires n.tables != []
  {
    if HeaderEnd(toks, f).Some? then VarsAt(n, toks, f + 3) else []
  }

  lemma {:induction false} MoreCounts(n: Names, toks: seq<Token>, i: nat, ps: seq<ParamSig>)
    requires MoreParamsEnd(toks, i).Some? && n.tables != []
    ensures |MoreSigs(toks, i, ps)| == |ps| + |MoreVars(n, toks, i)|
    decreases |toks| - i
  {
    if !KindAt(toks, i, KRPar) {
      MoreCounts(ParamNames(n, toks, i + 1), toks, i + 5, AddParam(ps, ParamSigAt(toks, i + 1)));
    }
  }

  /** The header has as many variables as the signature has parameters. */
  lemma VarsCount(n: Names, toks: seq<Token>, i: nat)
    requires ParamsEnd(toks, i).Some? && n.tables != []
    ensures |VarsAt(n, toks, i)| == |SigsAt(toks, i)|
  {
    if !KindAt(toks, i, KRPar) {
      MoreCounts(ParamNames(n, toks, i), toks, i + 4, AddParam([], ParamSigAt(toks, i)));
    }
  }

  /** A parameter, declared and copied from its slot. */
  function ParamLine(k: nat, p: Param): seq<Hoisting.Call> {
    [Hoisting.Call.Declare(ParamVar(p)), Emit(Move(ParamVar(p), Variable(VarRef(LF, "??", k))))]
  }

  function ParamLines(k: nat, params: seq<Param>): seq<Hoisting.Call>
    decreases |params|
  {
    if params == [] then [] else ParamLine(k, params[0]) + ParamLines(k + 1, params[1..])
  }

  lemma {:induction false} LinesSplit(k: nat, a: seq<Param>, b: seq<Param>)
    ensures ParamLines(k, a + b) == ParamLines(k, a) + ParamLines(k + |a|, b)
    decreases |a|
  {
    if a == [] {
      assert a + b == b;
    } else {
      assert (a + b)[1..] == a[1..] + b;
      LinesSplit(k + 1, a[1..], b);
    }
  }

  lemma {:induction false} LinesPlain(k: nat, params: seq<Param>)
    ensures IsPlain(ParamLines(k, params))
    decreases |params|
  {
    if params != [] {
      LinesPlain(k + 1, params[1..]);
    }
  }

  /** With the frame pushed before them the parameters' lines are the prologue. */
  lemma {:induction false} LinesArePrologue(params: seq<Param>)
    ensures [Emit(PushFrame)] + ParamLines(0, params) == Prologue(params)
    decreases |params|
  {
    if params != [] {
      var n := |params| - 1;
      assert params == params[..n] + [params[n]];
      LinesSplit(0, params[..n], [params[n]]);
      LinesArePrologue(params[..n]);
      assert ParamLines(n, [params[n]]) == ParamLine(n, params[n]) + [];
    }
  }

  // ----- the calling convention -----

  /** A slot that no argument has filled stops the prologue. */
  lemma {:induction false} EmptySlotFails(ord: Order, m: State, f: Frame, n: nat, params: seq<Param>)
    requires m.tf == Some(f) && Distinct(params) && n < |params|
    requires forall i: nat :: ("??", i) in f <==> i < n
    requires forall i: nat :: i < n ==> f[("??", i)].Some?
    requires forall i :: 0 <= i < |params| ==> params[i] !in f
    ensures Exec(ord, m, Body(Prologue(params))).None?
    decreases |params|
  {
    hide Exec, Body, One, ParamFrame, Prologue;
    var k := |params| - 1;
    PrologueNext(ord, m, params);
    if k > n {
      EmptySlotFails(ord, m, f, n, params[..k]);
    } else {
      PrologueRuns(ord, m, f, params[..k]);
      EmptyStep(ord, m.(tf := None), f, params);
    }
  }

  lemma EmptyStep(ord: Order, m: State, f: Frame, params: seq<Param>)
    requires params != [] && Distinct(params) && forall i: nat :: i < |params| - 1 ==> ("??", i) in f
    requires ("??", |params| - 1) !in f && forall i :: 0 <= i < |params| ==> params[i] !in f
    ensures var n := |params| - 1;
            var declared := One(ord, m.(lf := m.lf + [ParamFrame(f, params[..n])]), DefVar(ParamVar(params[n])));
            declared.Some? && One(ord, declared.value, Move(ParamVar(params[n]), Variable(VarRef(LF, "??", n)))).None?
  {
    hide One;
    var n := |params| - 1;
    ParamFrameAt(f, params[..n]);
    var g := ParamFrame(f, params[..n]);
    TopDeclares(ord, m, g, params[n]);
    TopMoves(ord, m, g[params[n] := None], params[n], n);
  }

  /** Calling convention, from the token lists: of a call accepted for the header at `f`, every argument has a value
      exactly when the code before the call and the callee's prologue run through; then each parameter holds its own
      argument's value in a new local frame, and everything else is as before. */
  lemma CallArrives(ord: Order, m: State, place: Places, n: Names, toks: seq<Token>, i: nat, f: nat)
    requires HeaderEnd(toks, f).Some? && ArgListAt(place, toks, i, SignatureAt(toks, f)).Some?
    requires n.tables != [] && Distinct(HeaderVars(n, toks, f))
    requires forall v :: v in Values(ArgListAt(place, toks, i, SignatureAt(toks, f)).value.1) ==> Readable(m, v)
    ensures var args, params := ArgListAt(place, toks, i, SignatureAt(toks, f)).value.1, HeaderVars(n, toks, f);
            var m' := Exec(ord, m, Body(FrameCalls(Values(args))) + Body(Prologue(params)));
            && |args| == |params| && (m'.Some? <==> AllValued(args))
            && (AllValued(args) ==>
                  && m'.value.stack == m.stack && m'.value.gf == m.gf
                  && |m'.value.lf| == |m.lf| + 1 && m'.value.lf[..|m.lf|] == m.lf
                  && forall k :: 0 <= k < |args| ==> Read(m'.value, ParamVar(params[k])) == ReadSource(m, args[k].source.value))
  {
    hide Exec, Body, One, ArgListAt, SigsAt, VarsAt, Readable, Distinct, FrameCalls, Prologue;
    var sig := SignatureAt(toks, f);
    var args, params := ArgListAt(place, toks, i, sig).value.1, HeaderVars(n, toks, f);
    ListCount(place, toks, i, sig);
    VarsCount(n, toks, f + 3);
    ValuesAll(args);
    ReadableAll(m, Values(args));
    if AllValued(args) {
      ArgumentsArrive(ord, m, Values(args), params);
    } else {
      TooFewFail(ord, m, Values(args), params);
    }
  }

  lemma ReadableAll(m: State, vs: seq<Source>)
    requires forall v :: v in vs ==> Readable(m, v)
    ensures forall i :: 0 <= i < |vs| ==> Readable(m, vs[i])
  {
  }

  lemma TooFewFail(ord: Order, m: State, vs: seq<Source>, params: seq<Param>)
    requires |vs| < |params| && Distinct(params) && forall i :: 0 <= i < |vs| ==> Readable(m, vs[i])
    ensures Exec(ord, m, Body(FrameCalls(vs)) + Body(Prologue(params))).None?
  {
    hide Exec, Body, ArgFrame;
    ArgumentsRun(ord, m, vs);
    ArgFrameAt(m, vs);
    ArgFrameKeys(m, vs);
    EmptySlotFails(ord, m.(tf := Some(ArgFrame(m, vs))), ArgFrame(m, vs), |vs|, params);
    ExecConcat(ord, m, Body(FrameCalls(vs)), Body(Prologue(params)));
  }

  // ----- the rules' contracts -----

  /** What passing the values has written: for a function with a frame a slot each, from the next one on. */
  predicate Passed(framed: bool, a: seq<Hoisting.Call>, b: seq<Hoisting.Call>, k: nat, k': nat, vs: seq<Source>) {
    if framed then b == a + SlotsFrom(k, vs) && k' == k + |vs| else k' == k
  }

  lemma PassedNothing(framed: bool, a: seq<Hoisting.Call>, k: nat)
    ensures Passed(framed, a, a, k, k, Values([]))
  {
  }

  lemma PassedOn(framed: bool, a: seq<Hoisting.Call>, b: seq<Hoisting.Call>, c: seq<Hoisting.Call>, k: nat, l: nat, m: nat,
                 vs: seq<Source>, ws: seq<Source>)
    requires Passed(framed, a, b, k, l, vs) && Passed(framed, b, c, l, m, ws)
    ensures Passed(framed, a, c, k, m, vs + ws)
  {
    if framed {
      SlotsSplit(k, vs, ws);
      assert a + SlotsFrom(k, vs) + SlotsFrom(l, ws) == a + (SlotsFrom(k, vs) + SlotsFrom(l, ws));
    }
  }

  lemma ValuesSnoc(a: Argument, rest: seq<Argument>)
    ensures Values([a] + rest) == Values([a]) + Values(rest)
  {
    assert ([a] + rest)[1..] == rest;
  }

  lemma NoVariable(place: Places, toks: seq<Token>, i: nat, variadic: bool, p: ParamSig)
    requires !KindAt(toks, i, KIdentifier)
    ensures TermAt(place, toks, i, variadic, p) == LiteralAt(toks, i, variadic, p)
  {
  }

  /** The parameters after the `j`-th. */
  predicate Left(sig: Signature, j: nat, next: seq<ParamSig>) {
    if sig.variadic then sig.params != [] else j < |sig.params| && next == sig.params[j + 1..]
  }

  lemma SlotsOne(k: nat, arg: Source)
    ensures SlotsFrom(k, [arg]) == SlotCalls(k, arg)
  {
    assert SlotsFrom(k, [arg]) == SlotCalls(k, arg) + [];
  }

  lemma LinePlain(k: nat, p: Param)
    ensures IsPlain(ParamLine(k, p))
  {
  }

  /** The last lines of a call: at most the frame, and the call. */
  lemma LastWrote(a: Snap, b: Snap, k: nat, name: string)
    requires b == a.(emitted := a.emitted + LastCalls(k, name)) && (a.known.Some? ==> name in a.known.value && NeedsFrame(name))
    ensures Wrote(a, b, LastCalls(k, name))
    ensures Nested(a.emitted) && Depth(a.emitted) >= 0 ==> Nested(b.emitted) && Depth(b.emitted) == Depth(a.emitted)
  {
    hide Wrote, Nested, Depth;
    var c := [Emit(Instr.Call(name))];
    if k == 0 {
      var mid := a.(emitted := a.emitted + [Emit(CreateFrame)]);
      EmittedPlain(a, mid, [Emit(CreateFrame)]);
      assert a.emitted + LastCalls(k, name) == mid.emitted + c;
      EmittedCall(mid, b, name);
      WroteTrans(a, mid, b, [Emit(CreateFrame)], c);
    } else {
      assert LastCalls(k, name) == c;
      EmittedCall(a, b, name);
    }
  }

  lemma LinesCons(k: nat, p: Param, rest: seq<Param>)
    ensures ParamLine(k, p) + ParamLines(k + 1, rest) == ParamLines(k, [p] + rest)
  {
    assert ([p] + rest)[1..] == rest;
  }

  /** The first pass over a token that is no function's keyword. */
  lemma KnownPlain(toks: seq<Token>, seen: set<nat>, signatures: map<string, Signature>, i: nat)
    requires KnownSeen(toks, seen, signatures) && !KindAt(toks, i, KFunc)
    ensures KnownSeen(toks, seen + {i}, signatures)
  {
    hide HeaderEnd, NameAt, SignatureAt, BuiltinSignature;
  }

  /** Over a header. */
  lemma KnownHeader(toks: seq<Token>, seen: set<nat>, signatures: map<string, Signature>, i: nat)
    requires KnownSeen(toks, seen, signatures) && ScannedTo(toks, seen, signatures.Keys, i)
    requires HeaderEnd(toks, i).Some? && NameAt(toks, i) !in signatures
    ensures KnownSeen(toks, seen + {i}, signatures[NameAt(toks, i) := SignatureAt(toks, i)])
  {
    hide HeaderEnd, NameAt, SignatureAt, BuiltinSignature, ScannedTo;
    ScannedNames(toks, seen, signatures.Keys, i);
    assert NameAt(toks, i) !in BUILTINS;
  }

  lemma ScannedNames(toks: seq<Token>, seen: set<nat>, functions: set<string>, i: nat)
    requires ScannedTo(toks, seen, functions, i)
    ensures forall j :: j in seen && KindAt(toks, j, KFunc) ==> NameAt(toks, j) in functions
  {
    hide HeaderEnd, NameAt;
    assert forall j :: j in seen && KindAt(toks, j, KFunc) ==> toks[j].kind == KFunc;
  }

  /** Where an opening brace follows every header, the first pass has looked at all of them. */
  lemma KnownAll(toks: seq<Token>, seen: set<nat>, signatures: map<string, Signature>)
    requires WellBuffered(toks) && Scanned(toks, seen, signatures.Keys) && KnownSeen(toks, seen, signatures) && 0 in seen
    requires Braced(toks)
    ensures Known(toks, signatures)
  {
    hide HeaderEnd, NameAt, SigsAt, BuiltinSignature, SignatureAt, Braced;
    forall i | KindAt(toks, i, KFunc)
      ensures i in seen
    {
      BracedSeen(toks, seen, signatures.Keys, 0, i);
    }
    assert forall i :: i in seen && toks[i].kind == KFunc ==> KindAt(toks, i, KFunc);
  }

  /** The function's code begins with the jump over it, its label and its prologue. */
  predicate Began(a: seq<Hoisting.Call>, b: seq<Hoisting.Call>, name: string, params: seq<Param>) {
    a + Emits([Jump(FunctionL("END_" + name)), Lab(FunctionL(name))]) + Prologue(params) <= b
  }

  lemma FunctionBegins(a: seq<Hoisting.Call>, d: Snap, u: Snap, rest: seq<Hoisting.Call>, name: string,
                       params: seq<Param>)
    requires d.emitted == a + Emits(Labels.FunctionHead(name)) + ParamLines(0, params)
    requires Follows(d, u.(depth := u.depth + 1))
    ensures Began(a, u.emitted + rest, name, params)
  {
    hide Wrote, ParamLines, Prologue;
    var part :| Wrote(d, u.(depth := u.depth + 1), part);
    assert u.emitted == d.emitted + part by { WroteEmits(d, u.(depth := u.depth + 1), part); }
    var front := Emits([Jump(FunctionL("END_" + name)), Lab(FunctionL(name))]);
    assert Emits(Labels.FunctionHead(name)) == front + [Emit(PushFrame)];
    LinesArePrologue(params);
    assert u.emitted + rest == a + front + ([Emit(PushFrame)] + ParamLines(0, params)) + (part + rest);
  }

  lemma WroteEmits(a: Snap, b: Snap, part: seq<Hoisting.Call>)
    requires Wrote(a, b, part)
    ensures b.emitted == a.emitted + part
  {
  }
}
