/** What statements do to the symbol tables: definitions, assignments, `if let`, and which item a call goes to.  The
    tables are those of `Shadowing`, innermost first and the global one last. */
module Symbols {
  import opened Tokens
  import opened Machine
  import opened Scopes
  import opened CodeGen
  import opened Headers
  import opened Shadowing
  import opened Arguments
  import Semantics
  import Naming
  import FunctionTypes
  import Hoisting
  import Labels
  import StraightLine

  /** The innermost table that knows `id`. */
  function Find(tables: seq<Scope>, id: string): (k: Option<nat>)
    ensures k.Some? ==> k.value < |tables| && id in tables[k.value]
    ensures k.Some? ==> forall j :: 0 <= j < k.value ==> id !in tables[j]
    ensures k.None? ==> forall j :: 0 <= j < |tables| ==> id !in tables[j]
  {
    if tables == [] then None
    else if id in tables[0] then Some(0)
    else
      var k := Find(tables[1..], id);
      if k.Some? then Some(k.value + 1) else None
  }

  /** An item's table and name. */
  datatype Spot = Spot(k: nat, id: string)

  predicate IsThere(n: Names, s: Spot) {
    s.k < |n.tables| && s.id in n.tables[s.k]
  }

  function ItemAt(n: Names, s: Spot): Item
    requires IsThere(n, s)
  {
    n.tables[s.k][s.id]
  }

  /** Everything about an item but its name and uid is set. */
  function PutItem(n: Names, s: Spot, it: Item): (r: Names)
    requires IsThere(n, s)
    ensures |r.tables| == |n.tables| && IsThere(r, s)
  {
    Do(n, Shadowing.Step.Set(s.k, s.id, it.ty, it.mutable, it.init, it.nilable))
  }

  /** A new item, unless the table knows the name. */
  function NewItem(n: Names, s: Spot): (r: Names)
    requires s.k < |n.tables|
    ensures |r.tables| == |n.tables| && IsThere(r, s)
  {
    Do(n, Shadowing.Step.Declare(s.k, s.id))
  }

  /** Frame and uid of an item as the generator's other search finds it, initialised or not. */
  function ItemVar(n: Names, id: string): VarRef {
    var k := Find(n.tables, id);
    if k.None? then VarRef(LF, id, 0)
    else VarRef(if k.value + 1 < |n.tables| then LF else GF, id, n.tables[k.value][id].uid)
  }

  function PlacesOf(n: Names): Places
    requires n.tables != []
  {
    var scopes, globals := Locals(n), Globals(n);
    id => GenVar(scopes, globals, id)
  }

  /** A new scope. */
  function Opened(n: Names): (r: Names)
    ensures r.tables == [map[]] + n.tables
  {
    Do(n, Open)
  }

  // ----- functions -----

  /** The function that an item is called as: the global items that a header or a built-in declaration has filled in
      know their parameters and result; any other item of the type of functions has none. */
  datatype Fn = Fn(name: string, sig: Signature)

  function FnAt(n: Names, signatures: map<string, Signature>, s: Spot): Fn {
    Fn(s.id, if s.k + 1 == |n.tables| && s.id in signatures then signatures[s.id] else BLANK)
  }

  /** Where a statement that begins with `id` and `(` finds a function to call. */
  function Callee(n: Names, id: string): Option<Spot> {
    var k := Find(n.tables, id);
    if k.Some? && n.tables[k.value][id].ty == Function then Some(Spot(k.value, id)) else None
  }

  /** On the right of an equals sign only the global table is searched. */
  function GlobalCallee(n: Names, id: string): Option<Spot>
    requires n.tables != []
  {
    if id in Globals(n) && Globals(n)[id].ty == Function then Some(Spot(|n.tables| - 1, id)) else None
  }

  // ----- what an equals sign does -----

  /** A definition without a type, one with a type, or an assignment. */
  datatype Mode = Infer | Typed | Assign

  /** The assigned item after an expression of the type `ty`; none if that does not suit it. */
  function Received(mode: Mode, it: Item, ty: Type, nilable: bool): Option<Item> {
    if mode.Infer? then
      if ty == NilType then None else Some(it.(ty := ty, nilable := nilable, init := true))
    else if it.ty != ty then
      if it.nilable && ty == NilType then Some(it.(init := true)) else None
    else if !it.nilable && nilable then None
    else Some(it.(init := true))
  }

  /** The assigned item before the arguments of a call that returns `ret`. */
  function Promised(mode: Mode, it: Item, ret: Type, nilable: bool): Option<Item> {
    if ret == NilType then None
    else if mode.Infer? then
      Some(if it.ty == Undefined then it.(ty := ret, nilable := nilable) else it)
    else if it.ty != ret || (!it.nilable && nilable) then None
    else Some(it)
  }

  /** Only the item at `s` has changed, and not its uid. */
  predicate OnlyPut(n: Names, s: Spot, n': Names) {
    && IsThere(n, s) && IsThere(n', s) && ItemAt(n', s).uid == ItemAt(n, s).uid
    && n' == n.(tables := n.tables[s.k := n.tables[s.k][s.id := ItemAt(n', s)]])
  }

  /** Only the assigned item has changed: it has a value now, and its type changes in a definition without one alone. */
  predicate Stored(n: Names, mode: Mode, s: Spot, n': Names) {
    && OnlyPut(n, s, n') && ItemAt(n', s).init && ItemAt(n', s).mutable == ItemAt(n, s).mutable
    && (!mode.Infer? ==> ItemAt(n', s).ty == ItemAt(n, s).ty && ItemAt(n', s).nilable == ItemAt(n, s).nilable)
  }

  /** A new variable of a written type; one that can be nil has a value. */
  function WithType(it: Item, t: Token): Item {
    var nilable := t.val == NilableVal(true);
    it.(ty := TypeOf(t.kind), nilable := nilable, init := it.init || nilable)
  }

  lemma PutIs(n: Names, s: Spot, it: Item)
    requires IsThere(n, s)
    ensures var r := PutItem(n, s, it);
            && OnlyPut(n, s, r) && ItemAt(r, s).ty == it.ty && ItemAt(r, s).mutable == it.mutable
            && ItemAt(r, s).init == it.init && ItemAt(r, s).nilable == it.nilable
  {
  }

  lemma PutSame(n: Names, s: Spot)
    requires IsThere(n, s)
    ensures OnlyPut(n, s, n)
  {
    assert n.tables[s.k][s.id := n.tables[s.k][s.id]] == n.tables[s.k];
    assert n.tables[s.k := n.tables[s.k]] == n.tables;
  }

  lemma PutTwice(n: Names, s: Spot, n1: Names, n2: Names)
    requires OnlyPut(n, s, n1) && OnlyPut(n1, s, n2)
    ensures OnlyPut(n, s, n2)
  {
    var t, a, b := n.tables[s.k], n1.tables[s.k][s.id], n2.tables[s.k][s.id];
    assert t[s.id := a][s.id := b] == t[s.id := b];
    assert n.tables[s.k := t[s.id := a]][s.k := t[s.id := b]] == n.tables[s.k := t[s.id := b]];
  }

  lemma ReceivedStored(n: Names, mode: Mode, s: Spot, ty: Type, nilable: bool)
    requires IsThere(n, s) && Received(mode, ItemAt(n, s), ty, nilable).Some?
    ensures Stored(n, mode, s, PutItem(n, s, Received(mode, ItemAt(n, s), ty, nilable).value))
  {
    hide PutItem, OnlyPut;
    PutIs(n, s, Received(mode, ItemAt(n, s), ty, nilable).value);
  }

  lemma PromisedStored(n: Names, mode: Mode, s: Spot, ret: Type, nilable: bool, n1: Names, n2: Names)
    requires IsThere(n, s) && Promised(mode, ItemAt(n, s), ret, nilable).Some?
    requires n1 == PutItem(n, s, Promised(mode, ItemAt(n, s), ret, nilable).value)
    requires n2 == PutItem(n1, s, ItemAt(n1, s).(init := true))
    ensures Stored(n, mode, s, n2)
  {
    hide PutItem, OnlyPut;
    PutIs(n, s, Promised(mode, ItemAt(n, s), ret, nilable).value);
    PutIs(n1, s, ItemAt(n1, s).(init := true));
    PutTwice(n, s, n1, n2);
  }

  lemma StoredPut(n: Names, mode: Mode, s: Spot, n': Names)
    requires Stored(n, mode, s, n')
    ensures OnlyPut(n, s, n') && ItemAt(n', s).init
  {
  }

  /** A written type stays, with or without a value. */
  lemma TypedStays(n: Names, s: Spot, t: Token, n1: Names, n2: Names)
    requires IsThere(n, s) && n1 == PutItem(n, s, WithType(ItemAt(n, s), t))
    requires n2 == n1 || Stored(n1, Typed, s, n2)
    ensures OnlyPut(n, s, n2) && ItemAt(n2, s).ty == TypeOf(t.kind)
    ensures ItemAt(n2, s).nilable <==> t.val == NilableVal(true)
  {
    hide PutItem, OnlyPut;
    PutIs(n, s, WithType(ItemAt(n, s), t));
    if n2 != n1 {
      PutTwice(n, s, n1, n2);
    }
  }

  // ----- `if let` -----

  /** The constant of `if let` in the innermost scope; none if the item found is mutable or cannot be nil. */
  function LetNames(n: Names, id: string): (r: Option<Names>)
    requires n.tables != []
    ensures r.Some? ==> |r.value.tables| == |n.tables|
  {
    var k := Find(n.tables, id);
    if k.None? then None
    else
      var it := n.tables[k.value][id];
      if it.mutable || !it.nilable then None
      else
        var d := NewItem(n, Spot(0, id));
        Some(PutItem(d, Spot(0, id), d.tables[0][id].(nilable := false, ty := it.ty, init := true)))
  }

  // ----- what every change of the tables keeps -----

  /** Uids are unique, items are stored under their names, and the first built-in function has the uid 0. */
  ghost predicate Sound(n: Names) {
    Apart(n) && Naming.WellNamed(n) && exists g :: ZeroAt(n, g)
  }

  ghost predicate ZeroAt(n: Names, g: string) {
    n.tables != [] && g in Globals(n) && Globals(n)[g].uid == 0
  }

  lemma SoundStep(n: Names, s: Step)
    requires Sound(n) && !s.Remove? && (s.Close? ==> |n.tables| > 1)
    ensures Sound(Do(n, s)) && Do(n, s).tables != []
  {
    StepKeepsApart(n, s);
    Naming.StepKeepsWellNamed(n, s);
    StepKeepsZero(n, s);
  }

  lemma StepKeepsZero(n: Names, s: Step)
    requires (exists g :: ZeroAt(n, g)) && !s.Remove? && (s.Close? ==> |n.tables| > 1)
    ensures exists g :: ZeroAt(Do(n, s), g)
  {
    var g :| ZeroAt(n, g);
    assert ZeroAt(Do(n, s), g);
  }

  lemma SoundPut(n: Names, s: Spot, it: Item)
    requires Sound(n) && IsThere(n, s)
    ensures Sound(PutItem(n, s, it))
  {
    hide Sound, Do;
    SoundStep(n, Shadowing.Step.Set(s.k, s.id, it.ty, it.mutable, it.init, it.nilable));
  }

  lemma SoundNew(n: Names, s: Spot)
    requires Sound(n) && s.k < |n.tables|
    ensures Sound(NewItem(n, s))
  {
    hide Sound, Do;
    SoundStep(n, Shadowing.Step.Declare(s.k, s.id));
  }

  lemma SoundLet(n: Names, id: string)
    requires Sound(n) && n.tables != [] && LetNames(n, id).Some?
    ensures Sound(LetNames(n, id).value)
  {
    hide Sound, NewItem, PutItem;
    var it := n.tables[Find(n.tables, id).value][id];
    var d := NewItem(n, Spot(0, id));
    SoundNew(n, Spot(0, id));
    SoundPut(d, Spot(0, id), d.tables[0][id].(nilable := false, ty := it.ty, init := true));
  }

  // ----- tables in which only functions are functions -----

  /** The items of the type of functions are exactly the global ones of the declared functions, and none of them may be
      read. */
  ghost predicate Plain(n: Names, signatures: map<string, Signature>) {
    && n.tables != []
    && (forall k: nat, id :: Has(n, k, id) && n.tables[k][id].ty == Function ==>
          k + 1 == |n.tables| && id in signatures && !n.tables[k][id].init)
    && (forall f :: f in signatures ==>
          f in Globals(n) && Globals(n)[f].ty == Function && Globals(n)[f].nilable == signatures[f].nilable)
    && forall f :: f in signatures ==> signatures[f].ret != Function
  }

  lemma PlainOpen(n: Names, signatures: map<string, Signature>)
    requires Plain(n, signatures)
    ensures Plain(Do(n, Open), signatures)
  {
    var r := Do(n, Open);
    assert Globals(r) == Globals(n);
    forall k: nat, id | Has(r, k, id)
      ensures k > 0 && Has(n, k - 1, id) && r.tables[k][id] == n.tables[k - 1][id]
    {
    }
  }

  lemma PlainClose(n: Names, signatures: map<string, Signature>)
    requires Plain(n, signatures)
    ensures Plain(Do(n, Close), signatures)
  {
    var r := Do(n, Close);
    assert Globals(r) == Globals(n);
    if |n.tables| > 1 {
      forall k: nat, id | Has(r, k, id)
        ensures Has(n, k + 1, id) && r.tables[k][id] == n.tables[k + 1][id]
      {
      }
    }
  }

  lemma PlainNew(n: Names, s: Spot, signatures: map<string, Signature>)
    requires Plain(n, signatures) && s.k < |n.tables|
    ensures Plain(NewItem(n, s), signatures)
    ensures s.id !in n.tables[s.k] ==> ItemAt(NewItem(n, s), s).ty != Function
  {
    var r := NewItem(n, s);
    forall k: nat, id | Has(r, k, id)
      ensures (Has(n, k, id) && r.tables[k][id] == n.tables[k][id]) || r.tables[k][id].ty != Function
    {
    }
  }

  lemma PlainPut(n: Names, s: Spot, it: Item, signatures: map<string, Signature>)
    requires Plain(n, signatures) && IsThere(n, s) && ItemAt(n, s).ty != Function && it.ty != Function
    ensures Plain(PutItem(n, s, it), signatures)
  {
    var r := PutItem(n, s, it);
    forall k: nat, id | Has(r, k, id)
      ensures Has(n, k, id) && (r.tables[k][id] == n.tables[k][id]
                               || (k == s.k && id == s.id && r.tables[k][id].ty != Function))
    {
    }
  }

  lemma {:induction false} SearchFinds(scopes: seq<Scope>, id: string) returns (k: nat)
    requires Search(scopes, id).Some?
    ensures k < |scopes| && id in scopes[k] && Search(scopes, id) == Some(scopes[k][id])
  {
    if id in scopes[0] {
      k := 0;
    } else {
      k := SearchFinds(scopes[1..], id);
      k := k + 1;
    }
  }

  /** Then no expression can have a function for its result. */
  lemma PlainUnreadable(n: Names, signatures: map<string, Signature>, ctx: Semantics.Ctx)
    requires Plain(n, signatures) && ctx.scopes == Locals(n) && ctx.globals == Globals(n)
    ensures FunctionTypes.NoneReadable(ctx)
  {
    forall id | Semantics.Resolve(ctx, id).Some? && Semantics.Resolve(ctx, id).value.init
      ensures Semantics.Resolve(ctx, id).value.ty != Function
    {
      var visible := Semantics.VisibleScopes(ctx, id);
      if Search(visible, id).Some? {
        var k := SearchFinds(visible, id);
        var d := |ctx.scopes| - |visible|;
        assert Has(n, k + d, id) && n.tables[k + d][id] == visible[k][id];
      } else {
        assert Has(n, |n.tables| - 1, id);
      }
    }
  }

  /** What is called is a declared function, with its own parameters. */
  lemma CalleeKnown(n: Names, signatures: map<string, Signature>, id: string)
    requires Plain(n, signatures)
    ensures Callee(n, id).Some? ==> id in signatures && FnAt(n, signatures, Callee(n, id).value) == Fn(id, signatures[id])
    ensures GlobalCallee(n, id).Some? <==> id in signatures
    ensures GlobalCallee(n, id).Some? ==> FnAt(n, signatures, GlobalCallee(n, id).value) == Fn(id, signatures[id])
  {
    if Callee(n, id).Some? {
      assert Has(n, Callee(n, id).value.k, id);
    }
    if GlobalCallee(n, id).Some? {
      assert Has(n, |n.tables| - 1, id);
    }
  }

  /** A variable of a nilable function's type is the only one that could take a value. */
  lemma ReceivedPlain(mode: Mode, it: Item, ty: Type, nilable: bool)
    requires ty != Function && (it.ty == Function ==> !mode.Infer? && !it.nilable)
    ensures Received(mode, it, ty, nilable).Some? ==> it.ty != Function && Received(mode, it, ty, nilable).value.ty != Function
    ensures Promised(mode, it, ty, nilable).Some? ==> it.ty != Function && Promised(mode, it, ty, nilable).value.ty != Function
  {
  }

  lemma LetPlain(n: Names, signatures: map<string, Signature>, id: string)
    requires Plain(n, signatures) && LetNames(n, id).Some? && id !in n.tables[0]
    requires id in signatures ==> !signatures[id].nilable
    ensures Plain(LetNames(n, id).value, signatures)
  {
    var k := Find(n.tables, id).value;
    assert Has(n, k, id);
    var d := NewItem(n, Spot(0, id));
    PlainNew(n, Spot(0, id), signatures);
    PlainPut(d, Spot(0, id), d.tables[0][id].(nilable := false, ty := n.tables[k][id].ty, init := true), signatures);
  }

  // ----- the tables before the second pass -----

  const BUILTIN_LIST := ["readString", "readInt", "readDouble", "write", "Int2Double", "Double2Int", "length", "substring",
                         "ord", "chr"]

  function NewFunction(n: Names, id: string): (r: Names)
    requires n.tables != []
    ensures |r.tables| == |n.tables| && IsThere(r, Spot(|n.tables| - 1, id))
  {
    var s := Spot(|n.tables| - 1, id);
    var d := NewItem(n, s);
    PutItem(d, s, ItemAt(d, s).(ty := Function))
  }

  function SetNilable(n: Names, id: string, nilable: bool): (r: Names)
    requires n.tables != [] && id in Globals(n)
    ensures |r.tables| == |n.tables|
  {
    var s := Spot(|n.tables| - 1, id);
    PutItem(n, s, ItemAt(n, s).(nilable := nilable))
  }

  lemma SoundFunction(n: Names, id: string)
    requires Sound(n) && n.tables != []
    ensures Sound(NewFunction(n, id))
  {
    hide Sound, NewItem, PutItem;
    var s := Spot(|n.tables| - 1, id);
    SoundNew(n, s);
    SoundPut(NewItem(n, s), s, ItemAt(NewItem(n, s), s).(ty := Function));
  }

  lemma SoundNilable(n: Names, id: string, nilable: bool)
    requires Sound(n) && n.tables != [] && id in Globals(n)
    ensures Sound(SetNilable(n, id, nilable))
  {
    hide Sound, PutItem;
    var s := Spot(|n.tables| - 1, id);
    SoundPut(n, s, ItemAt(n, s).(nilable := nilable));
  }

  /** The first function declared has the uid 0. */
  lemma {:induction false} BuiltinsSound(ids: seq<string>)
    requires ids != []
    ensures Sound(BuiltinNames(ids))
    decreases |ids|
  {
    hide Sound, NewFunction, SetNilable, BuiltinSignature;
    var rest, id := ids[..|ids| - 1], ids[|ids| - 1];
    var n := BuiltinNames(rest);
    if rest == [] {
      FirstSound(id);
    } else {
      BuiltinsSound(rest);
      SoundFunction(n, id);
    }
    SoundNilable(NewFunction(n, id), id, BuiltinSignature(id).nilable);
  }

  lemma FirstSound(id: string)
    ensures Sound(NewFunction(START, id))
  {
    var n := NewFunction(START, id);
    assert forall k: nat, x :: Has(n, k, x) <==> k == 0 && x == id;
    assert ZeroAt(n, id);
  }

  function BuiltinNames(ids: seq<string>): (r: Names)
    ensures |r.tables| == 1
  {
    if ids == [] then START
    else
      var id := ids[|ids| - 1];
      SetNilable(NewFunction(BuiltinNames(ids[..|ids| - 1]), id), id, BuiltinSignature(id).nilable)
  }

  function BuiltinSigs(ids: seq<string>): map<string, Signature> {
    map f | f in ids :: BuiltinSignature(f)
  }

  /** Only functions have been declared. */
  ghost predicate OnlyFunctions(n: Names, signatures: map<string, Signature>) {
    && |n.tables| == 1 && n.tables[0].Keys == signatures.Keys
    && forall f :: f in signatures ==>
         && n.tables[0][f].ty == Function && !n.tables[0][f].init && n.tables[0][f].nilable == signatures[f].nilable
         && signatures[f].ret != Function
  }

  lemma OnlyFunctionsMore(n: Names, signatures: map<string, Signature>, id: string, sig: Signature)
    requires OnlyFunctions(n, signatures) && id !in n.tables[0] && sig.ret != Function
    ensures OnlyFunctions(SetNilable(NewFunction(n, id), id, sig.nilable), signatures[id := sig])
  {
  }

  /** A second declaration changes nothing. */
  lemma OnlyFunctionsAgain(n: Names, signatures: map<string, Signature>, id: string)
    requires OnlyFunctions(n, signatures) && id in signatures
    ensures OnlyFunctions(SetNilable(NewFunction(n, id), id, signatures[id].nilable), signatures)
  {
  }

  lemma {:induction false} BuiltinsOnly(ids: seq<string>)
    ensures OnlyFunctions(BuiltinNames(ids), BuiltinSigs(ids))
    decreases |ids|
  {
    hide NewFunction, SetNilable, BuiltinSignature;
    if ids != [] {
      var rest, id := ids[..|ids| - 1], ids[|ids| - 1];
      BuiltinsOnly(rest);
      assert forall f :: f in ids <==> f in rest || f == id;
      if id in rest {
        OnlyFunctionsAgain(BuiltinNames(rest), BuiltinSigs(rest), id);
        assert BuiltinSigs(ids) == BuiltinSigs(rest);
      } else {
        OnlyFunctionsMore(BuiltinNames(rest), BuiltinSigs(rest), id, BuiltinSignature(id));
        assert BuiltinSigs(ids) == BuiltinSigs(rest)[id := BuiltinSignature(id)];
      }
    }
  }

  lemma OnlyFunctionsPlain(n: Names, signatures: map<string, Signature>)
    requires OnlyFunctions(n, signatures)
    ensures Plain(n, signatures)
  {
  }

  // ----- token lists on which that stays so -----

  /** Where it can be told from the tokens that every call goes to a declared function and every function is
      translated. */
  predicate Tame(toks: seq<Token>) {
    Braced(toks) && Untouched(toks)
  }

  /** The variable assigned at `i` is no function that could become readable. */
  lemma AssignedPlain(toks: seq<Token>, n: Names, signatures: map<string, Signature>, s: Spot, i: nat)
    requires Tame(toks) && Plain(n, signatures) && Known(toks, signatures) && IsThere(n, s)
    requires KindAt(toks, i, KIdentifier) && Text(toks[i]) == s.id && KindAt(toks, i + 1, KAss)
    ensures ItemAt(n, s).ty == Function ==> !ItemAt(n, s).nilable
  {
    hide CanBeNil, Known, Braced;
    assert Has(n, s.k, s.id);
    if ItemAt(n, s).ty == Function && signatures[s.id].nilable {
      KnownNil(toks, signatures, s.id);
    }
  }

  /** Nor is the constant of an `if let`. */
  lemma LetKeepsPlain(toks: seq<Token>, n: Names, signatures: map<string, Signature>, i: nat)
    requires Tame(toks) && Plain(n, signatures) && Known(toks, signatures) && i >= 2
    requires KindAt(toks, i, KIdentifier) && KindAt(toks, i - 1, KLet) && KindAt(toks, i - 2, KIf)
    requires LetNames(n, Text(toks[i])).Some? && Text(toks[i]) !in n.tables[0]
    ensures Plain(LetNames(n, Text(toks[i])).value, signatures)
  {
    hide CanBeNil, Known, Braced, Plain, LetNames;
    var id := Text(toks[i]);
    if id in signatures && signatures[id].nilable {
      KnownNil(toks, signatures, id);
    }
    LetPlain(n, signatures, id);
  }

  /** Where the checker finds the variable of an argument; a variable that is being initialised does not see itself. */
  function ArgItem(n: Names, cur: Option<Item>, id: string): Option<Item>
    requires n.tables != []
  {
    var scopes := Locals(n);
    var visible := if cur.Some? && !cur.value.init && cur.value.name == id && scopes != [] then scopes[1..] else scopes;
    var local := Search(visible, id);
    if local.Some? then local else Lookup(Globals(n), id)
  }

  /** A variable's declaration with its first value. */
  function DeclareLines(x: VarRef): seq<Hoisting.Call> {
    [Hoisting.Call.Declare(x), Hoisting.Emit(Pops(x))]
  }

  /** A value for `_` is dropped. */
  function AssignLines(x: VarRef): seq<Hoisting.Call> {
    if x.name == "_" then StraightLine.DISCARD else [Hoisting.Emit(Pops(x))]
  }

  function StoreLines(mode: Mode, n: Names, id: string): seq<Hoisting.Call>
    requires n.tables != []
  {
    if mode.Assign? then AssignLines(PlacesOf(n)(id)) else DeclareLines(ItemVar(n, id))
  }

  /** The test of `if let` and the value of its constant. */
  function LetTest(n: Names, t: Token): seq<Instr>
    requires n.tables != []
  {
    var push := PushCode(Locals(n), Globals(n), t);
    push + ([Pushs(VNil)] + OpCode(KNeq, false)) + push
  }

  lemma LetTestPlain(n: Names, t: Token)
    requires n.tables != []
    ensures Labels.LabelFree(LetTest(n, t)) && Labels.CallsNothing(LetTest(n, t))
  {
  }

  lemma PlainSame(n: Names, s: Spot, it: Item, signatures: map<string, Signature>)
    requires Plain(n, signatures) && IsThere(n, s)
    requires var was := ItemAt(n, s); it.ty == was.ty && it.init == was.init && it.nilable == was.nilable
    ensures Plain(PutItem(n, s, it), signatures)
  {
    var r := PutItem(n, s, it);
    forall k: nat, id | Has(r, k, id)
      ensures Has(n, k, id) && r.tables[k][id].ty == n.tables[k][id].ty && r.tables[k][id].init == n.tables[k][id].init
              && r.tables[k][id].nilable == n.tables[k][id].nilable
    {
    }
  }

  /** A local item is no function. */
  lemma LocalOrdinary(n: Names, s: Spot, signatures: map<string, Signature>)
    requires Plain(n, signatures) && IsThere(n, s) && s.k + 1 < |n.tables|
    ensures ItemAt(n, s).ty != Type.Function
  {
    assert Has(n, s.k, s.id);
  }

  // ----- arguments: the item that is checked and the variable that is read -----

  /** No initialised namesake of an uninitialised current item is in the innermost scope. */
  predicate CurrentSuits(n: Names, cur: Option<Item>)
    requires n.tables != []
  {
    var scopes := Locals(n);
    cur.Some? && !cur.value.init && scopes != [] && cur.value.name in scopes[0] ==> !scopes[0][cur.value.name].init
  }

  /** The item of an argument is a local one. */
  predicate ArgLocal(n: Names, cur: Option<Item>, id: string)
    requires n.tables != []
  {
    var scopes := Locals(n);
    var visible := if cur.Some? && !cur.value.init && cur.value.name == id && scopes != [] then scopes[1..] else scopes;
    Search(visible, id).Some?
  }

  lemma {:induction false} InitializedFirst(scopes: seq<Scope>, id: string)
    requires Search(scopes, id).Some? && Search(scopes, id).value.init
    ensures SearchInitialized(scopes, id) == Search(scopes, id)
  {
    if id !in scopes[0] {
      InitializedFirst(scopes[1..], id);
    }
  }

  lemma {:induction false} NoneInitialized(scopes: seq<Scope>, id: string)
    requires Search(scopes, id).None?
    ensures SearchInitialized(scopes, id).None?
  {
    if scopes != [] {
      NoneInitialized(scopes[1..], id);
    }
  }

  /** Of an argument that is found the generator reads the checked variable exactly when that is initialised or
      global.  An argument without a label must be initialised; a labelled one need not be.  Some global item, the
      first built-in function, has the uid 0. */
  lemma ArgumentAgreesExactly(n: Names, cur: Option<Item>, id: string)
    requires n.tables != [] && Sound(n) && CurrentSuits(n, cur) && ArgItem(n, cur, id).Some?
    ensures var it := ArgItem(n, cur, id).value;
            PlacesOf(n)(id) == VarRef(if ArgLocal(n, cur, id) then LF else GF, id, it.uid)
            <==> it.init || !ArgLocal(n, cur, id)
  {
    hide Sound;
    var scopes, it := Locals(n), ArgItem(n, cur, id).value;
    var hidden := cur.Some? && !cur.value.init && cur.value.name == id && scopes != [];
    var visible := if hidden then scopes[1..] else scopes;
    assert SearchInitialized(scopes, id) == SearchInitialized(visible, id);
    if Search(visible, id).None? {
      NoneInitialized(visible, id);
    } else if it.init {
      InitializedFirst(visible, id);
    } else {
      var k := SearchFinds(visible, id);
      var d := |scopes| - |visible|;
      assert scopes[k + d] == visible[k] == n.tables[k + d];
      UninitializedElsewhere(n, id, k + d);
    }
  }

  lemma {:induction false} InitializedFound(scopes: seq<Scope>, id: string)
    requires SearchInitialized(scopes, id).Some?
    ensures SearchInitialized(scopes, id).value.init
  {
    if !(id in scopes[0] && scopes[0][id].init) {
      InitializedFound(scopes[1..], id);
    }
  }

  lemma UninitializedElsewhere(n: Names, id: string, k: nat)
    requires Sound(n) && k + 1 < |n.tables| && id in n.tables[k] && !n.tables[k][id].init
    ensures GenVar(Locals(n), Globals(n), id) != VarRef(LF, id, n.tables[k][id].uid)
  {
    var scopes := Locals(n);
    hide Apart;
    var g :| ZeroAt(n, g);
    assert Has(n, k, id) && Has(n, |n.tables| - 1, g);
    if SearchInitialized(scopes, id).Some? {
      var j := SearchStops(scopes, id);
      InitializedFound(scopes, id);
      assert scopes[j] == n.tables[j] && Has(n, j, id);
      ItemsDiffer(n, k, id, j, id);
    } else {
      ItemsDiffer(n, k, id, |n.tables| - 1, g);
    }
  }

  lemma ItemsDiffer(n: Names, j: nat, x: string, k: nat, y: string)
    requires Apart(n) && Has(n, j, x) && Has(n, k, y) && (j != k || x != y)
    ensures n.tables[j][x].uid != n.tables[k][y].uid
  {
    assert Uid(n, j, x) == n.tables[j][x].uid && Uid(n, k, y) == n.tables[k][y].uid;
  }

  /** The condition on the current item holds from one argument to the next, and of an assigned variable. */
  lemma CurrentKept(n: Names, cur: Option<Item>, id: string)
    requires Sound(n) && n.tables != [] && CurrentSuits(n, cur)
    ensures CurrentSuits(n, None) && CurrentSuits(n, ArgItem(n, cur, id))
  {
    var it, scopes := ArgItem(n, cur, id), Locals(n);
    if it.Some? {
      ArgNamed(n, cur, id);
      if scopes != [] {
        assert Search(scopes, id) == if id in scopes[0] then Some(scopes[0][id]) else Search(scopes[1..], id);
      }
    }
  }

  lemma ArgNamed(n: Names, cur: Option<Item>, id: string)
    requires Sound(n) && n.tables != [] && ArgItem(n, cur, id).Some?
    ensures ArgItem(n, cur, id).value.name == id
  {
    var scopes := Locals(n);
    if Search(scopes, id).Some? {
      var k := SearchFinds(scopes, id);
      assert Has(n, k, id);
    }
    if scopes != [] && Search(scopes[1..], id).Some? {
      var k := SearchFinds(scopes[1..], id);
      assert Has(n, k + 1, id);
    }
    assert id in Globals(n) ==> Has(n, |n.tables| - 1, id);
  }

  /** It holds of the item that a name denotes, and of a new item of the innermost scope. */
  lemma FoundSuits(n: Names, id: string)
    requires Sound(n) && n.tables != [] && Find(n.tables, id).Some?
    ensures CurrentSuits(n, Some(n.tables[Find(n.tables, id).value][id]))
  {
    assert Has(n, Find(n.tables, id).value, id);
  }
}
