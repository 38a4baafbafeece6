/** The checker and the code generator resolve names by different searches; they find the same variable. */
module Naming {
  import opened Tokens
  import opened Machine
  import opened Scopes
  import opened CodeGen
  import opened Semantics
  import opened SymTables
  import opened Shadowing

  /** The frame and uid of the item the checker uses for `id`. */
  function CheckedVar(ctx: Ctx, id: string): VarRef {
    var local := Search(VisibleScopes(ctx, id), id);
    if local.Some? then VarRef(LF, id, local.value.uid)
    else
      var global := Lookup(ctx.globals, id);
      VarRef(GF, id, if global.Some? then global.value.uid else 0)
  }

  /** The assigned variable is the item that its name denotes at that point. */
  predicate LhsVisible(ctx: Ctx) {
    ctx.lhs.Some? ==>
      var id := ctx.lhs.value.name;
      var local := Search(ctx.scopes, id);
      ctx.lhs == if local.Some? then local else Lookup(ctx.globals, id)
  }

  lemma {:induction false} SearchAgrees(scopes: seq<Scope>, id: string)
    ensures var found := Search(scopes, id);
            found.None? || found.value.init ==> SearchInitialized(scopes, id) == found
  {
    if scopes != [] {
      SearchAgrees(scopes[1..], id);
    }
  }

  lemma SkipsUninitialized(scopes: seq<Scope>, id: string)
    requires scopes != [] && (id !in scopes[0] || !scopes[0][id].init)
    ensures SearchInitialized(scopes, id) == SearchInitialized(scopes[1..], id)
  {
  }

  /** A variable the checker passes is read from exactly the place the generator names: inner uninitialised
      namesakes hide nothing, and in its own initialiser a variable gives way to the outer one. */
  lemma NamesAgree(ctx: Ctx, id: string)
    requires LhsVisible(ctx) && Resolve(ctx, id).Some? && Resolve(ctx, id).value.init
    ensures GenVar(ctx.scopes, ctx.globals, id) == CheckedVar(ctx, id)
  {
    var visible := VisibleScopes(ctx, id);
    SearchAgrees(visible, id);
    if visible != ctx.scopes {
      SkipsUninitialized(ctx.scopes, id);
    }
  }

  /** Variables of different items never share a place, because uids are distinct. */
  lemma PlacesDiffer(ctx: Ctx, id: string, ctx': Ctx, id': string)
    requires LhsVisible(ctx) && Resolve(ctx, id).Some? && Resolve(ctx, id).value.init
    requires LhsVisible(ctx') && Resolve(ctx', id').Some? && Resolve(ctx', id').value.init
    requires Resolve(ctx, id).value.uid != Resolve(ctx', id').value.uid
    ensures GenVar(ctx.scopes, ctx.globals, id) != GenVar(ctx'.scopes, ctx'.globals, id')
  {
    NamesAgree(ctx, id);
    NamesAgree(ctx', id');
  }

  /** What a statement has done to the names when its expression is read. `Declares` is a definition, in a body or
      outside, with its type if one is given; `Assigns` is an assignment; a condition has no assigned variable. */
  datatype Lead =
    | Declares(body: bool, id: string, given: Option<(Type, bool)>)
    | Assigns(id: string)
    | Condition

  /** A definition goes to the innermost scope in a body and to the global table outside. */
  function TableOf(n: Names, body: bool): nat
    requires n.tables != []
  {
    if body then 0 else |n.tables| - 1
  }

  /** The names after the lead; none where a name is defined again or a body has no scope. A nilable type makes
      the new variable initialised. */
  function LedNames(n: Names, lead: Lead): (r: Option<Names>)
    requires n.tables != []
    ensures r.Some? ==> |r.value.tables| == |n.tables|
  {
    match lead
    case Declares(body, id, given) =>
      var k := TableOf(n, body);
      if id in n.tables[k] || (body && |n.tables| == 1) then None
      else
        var d := Do(n, Declare(k, id));
        Some(if given.None? then d else Do(d, Set(k, id, given.value.0, false, given.value.1, given.value.1)))
    case _ => Some(n)
  }

  /** The assigned variable: the item just defined, or the one that a search from the inside finds. */
  function LedLhs(n: Names, lead: Lead): Option<Item>
    requires n.tables != []
  {
    match lead
    case Declares(body, id, _) => Lookup(n.tables[TableOf(n, body)], id)
    case Assigns(id) =>
      var local := Search(Locals(n), id);
      if local.Some? then local else Lookup(Globals(n), id)
    case Condition => None
  }

  /** The expression of a statement that stands after `steps` and begins with `lead`. Outside bodies no scope is
      open. */
  ghost predicate Leads(ctx: Ctx, steps: seq<Step>, lead: Lead) {
    var n := Run(START, steps);
    && n.tables != []
    && (lead.Declares? && !lead.body ==> |n.tables| == 1)
    && LedNames(n, lead).Some?
    && var led := LedNames(n, lead).value;
       ctx.scopes == Locals(led) && ctx.globals == Globals(led) && ctx.lhs == LedLhs(led, lead)
  }

  /** Every item is stored under its own name. */
  ghost predicate WellNamed(n: Names) {
    forall k: nat, id :: Has(n, k, id) ==> n.tables[k][id].name == id
  }

  lemma {:induction false} RunKeepsWellNamed(n: Names, steps: seq<Step>)
    requires WellNamed(n) && n.tables != []
    ensures WellNamed(Run(n, steps)) && Run(n, steps).tables != []
    decreases |steps|
  {
    if steps != [] {
      StepKeepsWellNamed(n, steps[0]);
      StepKeepsSize(n, steps[0]);
      RunKeepsWellNamed(Do(n, steps[0]), steps[1..]);
    }
  }

  lemma StepKeepsWellNamed(n: Names, s: Step)
    requires WellNamed(n)
    ensures WellNamed(Do(n, s))
  {
    forall k: nat, id | Has(Do(n, s), k, id)
      ensures Do(n, s).tables[k][id].name == id
    {
      if s.Open? {
        assert k > 0 && Has(n, k - 1, id);
      } else if s.Close? && |n.tables| > 1 {
        assert Has(n, k + 1, id);
      } else if Has(n, k, id) {
        assert n.tables[k][id].name == id;
      }
    }
  }

  lemma {:induction false} SearchNamed(n: Names, scopes: seq<Scope>, i: nat, id: string)
    requires WellNamed(n) && i <= |n.tables| && i + |scopes| <= |n.tables|
    requires scopes == n.tables[i..i + |scopes|]
    ensures Search(scopes, id).Some? ==> Search(scopes, id).value.name == id
  {
    if scopes != [] {
      assert scopes[0] == n.tables[i];
      assert id in scopes[0] ==> Has(n, i, id);
      assert scopes[1..] == n.tables[i + 1..i + 1 + |scopes[1..]|];
      SearchNamed(n, scopes[1..], i + 1, id);
    }
  }

  /** The definition and assignment rules make the assigned variable the visible one. */
  lemma LeadsVisible(ctx: Ctx, steps: seq<Step>, lead: Lead)
    requires Leads(ctx, steps, lead)
    ensures LhsVisible(ctx)
  {
    hide Run;
    var n := Run(START, steps);
    assert forall k: nat, id :: !Has(START, k, id);
    RunKeepsWellNamed(START, steps);
    var led := LedNames(n, lead).value;
    match lead
    case Declares(body, id, given) =>
      assert led.tables[TableOf(n, body)][id].name == id;
      if body {
        assert ctx.scopes[0] == led.tables[0];
      } else {
        assert ctx.scopes == [];
      }
    case Assigns(id) =>
      SearchNamed(n, Locals(n), 0, id);
      assert id in Globals(n) ==> Has(n, |n.tables| - 1, id);
    case Condition =>
  }

  /** In every statement, after every run of declarations, the generator reads the variable that the checker
      accepted. */
  lemma StatementNamesAgree(ctx: Ctx, steps: seq<Step>, lead: Lead, id: string)
    requires Leads(ctx, steps, lead)
    requires Resolve(ctx, id).Some? && Resolve(ctx, id).value.init
    ensures GenVar(ctx.scopes, ctx.globals, id) == CheckedVar(ctx, id)
  {
    LeadsVisible(ctx, steps, lead);
    NamesAgree(ctx, id);
  }
}
