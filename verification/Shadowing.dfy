/** Declarations over whole runs: every item has a uid of its own, so that a name means a different place in every
    scope that declares it, and no place is used again once its scope is closed. */
module Shadowing {
  import opened Tokens
  import opened Machine
  import opened Scopes
  import opened CodeGen
  import opened SymTables

  /** The uid counter and the tables as maps: the scopes from the innermost, then the global one. */
  datatype Names = Names(next: nat, tables: seq<Scope>)

  const START := Names(0, [map[]])

  /** `Set` stands for everything the parser records about a declared item. */
  datatype Step =
    | Open
    | Close
    | Declare(k: nat, id: string)
    | Remove(k: nat, id: string)
    | Set(k: nat, id: string, ty: Type, mutable: bool, init: bool, nilable: bool)

  /** A step that its table refuses changes nothing. */
  function Do(n: Names, s: Step): Names {
    match s
    case Open => n.(tables := [map[]] + n.tables)
    case Close => if |n.tables| > 1 then n.(tables := n.tables[1..]) else n
    case Declare(k, id) =>
      if k < |n.tables| && id !in n.tables[k] then
        Names(n.next + 1, n.tables[k := n.tables[k][id := FreshItem(id, n.next)]])
      else n
    case Remove(k, id) => if k < |n.tables| then n.(tables := n.tables[k := n.tables[k] - {id}]) else n
    case Set(k, id, ty, mutable, init, nilable) =>
      if k < |n.tables| && id in n.tables[k] then
        n.(tables := n.tables[k := n.tables[k][id := Item(id, n.tables[k][id].uid, ty, mutable, init, nilable)]])
      else n
  }

  function Run(n: Names, steps: seq<Step>): Names
    decreases |steps|
  {
    if steps == [] then n else Run(Do(n, steps[0]), steps[1..])
  }

  predicate Has(n: Names, k: nat, id: string) {
    k < |n.tables| && id in n.tables[k]
  }

  function Uid(n: Names, k: nat, id: string): nat
    requires Has(n, k, id)
  {
    n.tables[k][id].uid
  }

  /** Two items never share a uid, and the counter is above them all. */
  ghost predicate Apart(n: Names) {
    && n.tables != []
    && (forall k: nat, id :: Has(n, k, id) ==> Uid(n, k, id) < n.next)
    && (forall j: nat, x, k: nat, y :: Has(n, j, x) && Has(n, k, y) && Uid(n, j, x) == Uid(n, k, y) ==> j == k && x == y)
  }

  /** Taken before, and no item's now. */
  ghost predicate Spent(n: Names, uid: nat) {
    uid < n.next && forall k: nat, id :: Has(n, k, id) ==> Uid(n, k, id) != uid
  }

  /** Every item after a step was there before, in a table that the step may have moved, or has the counter's uid. */
  lemma StepItems(n: Names, s: Step, k: nat, id: string)
    requires Has(Do(n, s), k, id)
    ensures var u := Uid(Do(n, s), k, id);
            || (Do(n, s).next == n.next + 1 && u == n.next && s == Declare(k, id))
            || (Has(n, Before(n, s, k), id) && u == Uid(n, Before(n, s, k), id))
  {
  }

  function Before(n: Names, s: Step, k: nat): nat {
    if s.Open? then (if k == 0 then |n.tables| else k - 1)
    else if s.Close? && |n.tables| > 1 then k + 1
    else k
  }

  lemma StepKeepsApart(n: Names, s: Step)
    requires Apart(n)
    ensures Apart(Do(n, s)) && n.next <= Do(n, s).next
  {
    hide Do, Has, Uid;
    var n' := Do(n, s);
    StepKeepsSize(n, s);
    forall k: nat, id | Has(n', k, id)
      ensures Uid(n', k, id) < n'.next
    {
      StepItems(n, s, k, id);
    }
    forall j: nat, x, k: nat, y | Has(n', j, x) && Has(n', k, y) && Uid(n', j, x) == Uid(n', k, y)
      ensures j == k && x == y
    {
      StepItems(n, s, j, x);
      StepItems(n, s, k, y);
      OpenedEmpty(n, s, j, x);
      OpenedEmpty(n, s, k, y);
    }
  }

  lemma StepKeepsSize(n: Names, s: Step)
    requires n.tables != []
    ensures Do(n, s).tables != [] && n.next <= Do(n, s).next
  {
  }

  lemma OpenedEmpty(n: Names, s: Step, k: nat, id: string)
    requires Has(Do(n, s), k, id)
    ensures s.Open? ==> k > 0
  {
  }

  lemma StepKeepsSpent(n: Names, s: Step, uid: nat)
    requires Apart(n) && Spent(n, uid)
    ensures Spent(Do(n, s), uid)
  {
    hide Do, Has, Uid;
    StepKeepsSize(n, s);
    forall k: nat, id | Has(Do(n, s), k, id)
      ensures Uid(Do(n, s), k, id) != uid
    {
      StepItems(n, s, k, id);
    }
  }

  /** On every run uids stay unique across all tables, and a uid that no item has any more never comes back. */
  lemma {:induction false} RunKeepsApart(n: Names, steps: seq<Step>)
    requires Apart(n)
    ensures Apart(Run(n, steps))
    ensures forall uid :: Spent(n, uid) ==> Spent(Run(n, steps), uid)
    decreases |steps|
  {
    hide Apart, Spent, Do;
    if steps != [] {
      StepKeepsApart(n, steps[0]);
      RunKeepsApart(Do(n, steps[0]), steps[1..]);
      forall uid | Spent(n, uid)
        ensures Spent(Run(n, steps), uid)
      {
        StepKeepsSpent(n, steps[0], uid);
      }
    }
  }

  lemma ReachableApart(steps: seq<Step>)
    ensures Apart(Run(START, steps))
  {
    hide Run;
    assert forall k: nat, id :: !Has(START, k, id);
    RunKeepsApart(START, steps);
  }

  function Locals(n: Names): seq<Scope>
    requires n.tables != []
  {
    n.tables[..|n.tables| - 1]
  }

  function Globals(n: Names): Scope
    requires n.tables != []
  {
    n.tables[|n.tables| - 1]
  }

  /** The table that a search for an initialised item stops in. */
  lemma {:induction false} SearchStops(scopes: seq<Scope>, id: string) returns (k: nat)
    requires SearchInitialized(scopes, id).Some?
    ensures k < |scopes| && id in scopes[k] && SearchInitialized(scopes, id) == Some(scopes[k][id])
    ensures forall j :: 0 <= j < |scopes| && id in scopes[j] && scopes[j][id].init ==> k <= j
  {
    if id in scopes[0] && scopes[0][id].init {
      k := 0;
    } else {
      k := SearchStops(scopes[1..], id);
      k := k + 1;
    }
  }

  lemma {:induction false} SearchStarts(scopes: seq<Scope>, id: string, j: nat)
    requires j < |scopes| && id in scopes[j] && scopes[j][id].init
    ensures SearchInitialized(scopes, id).Some?
  {
    if j > 0 {
      SearchStarts(scopes[1..], id, j - 1);
    }
  }

  /** Shadowing is safe: after any run, where one of the `k` inner scopes has an initialised `id` and the rest also
      know that name, reads of `id` inside and outside those scopes go to different places. */
  lemma ShadowedApart(steps: seq<Step>, k: nat, j: nat, id: string)
    requires var n := Run(START, steps);
             && j < k < |n.tables| && id in n.tables[j] && n.tables[j][id].init
             && (SearchInitialized(Locals(n)[k..], id).Some? || id in Globals(n))
    ensures var n := Run(START, steps);
            GenVar(Locals(n), Globals(n), id) != GenVar(Locals(n)[k..], Globals(n), id)
  {
    hide Run;
    var n := Run(START, steps);
    ReachableApart(steps);
    SearchStarts(Locals(n), id, j);
    var a := SearchStops(Locals(n), id);
    if SearchInitialized(Locals(n)[k..], id).Some? {
      var b := SearchStops(Locals(n)[k..], id);
      assert Has(n, a, id) && Has(n, k + b, id) && a <= j;
      assert Uid(n, a, id) != Uid(n, k + b, id);
    }
  }

  /** Once a scope is closed, no later read, under whatever name and after whatever declarations, goes to a place
      of its variables. */
  lemma ClosedNeverRead(before: seq<Step>, after: seq<Step>, id: string, x: string)
    requires var n := Run(START, before); |n.tables| > 1 && id in n.tables[0]
    requires var m := Run(Do(Run(START, before), Close), after);
             m.tables != [] && (SearchInitialized(Locals(m), x).Some? || x in Globals(m))
    ensures var m := Run(Do(Run(START, before), Close), after);
            GenVar(Locals(m), Globals(m), x).uid != Run(START, before).tables[0][id].uid
  {
    hide Run, Apart, Spent, Has;
    var n := Run(START, before);
    var c := Do(n, Close);
    var m := Run(c, after);
    var u := n.tables[0][id].uid;
    ReachableApart(before);
    StepKeepsApart(n, Close);
    ClosedSpent(n, id);
    RunKeepsApart(c, after);
    ReadNotSpent(m, x, u);
  }

  lemma ClosedSpent(n: Names, id: string)
    requires Apart(n) && |n.tables| > 1 && id in n.tables[0]
    ensures Spent(Do(n, Close), n.tables[0][id].uid)
  {
    assert Has(n, 0, id) && Uid(n, 0, id) == n.tables[0][id].uid;
    forall k: nat, y | Has(Do(n, Close), k, y)
      ensures Uid(Do(n, Close), k, y) != n.tables[0][id].uid
    {
      assert Has(n, k + 1, y) && Uid(n, k + 1, y) == Uid(Do(n, Close), k, y);
    }
  }

  lemma ReadNotSpent(m: Names, x: string, uid: nat)
    requires m.tables != [] && Spent(m, uid)
    requires SearchInitialized(Locals(m), x).Some? || x in Globals(m)
    ensures GenVar(Locals(m), Globals(m), x).uid != uid
  {
    if SearchInitialized(Locals(m), x).Some? {
      var k := SearchStops(Locals(m), x);
      assert Has(m, k, x);
    } else {
      assert Has(m, |m.tables| - 1, x);
    }
  }
}
