/** The stack of local symbol tables, innermost first.  On the maps the tables refine, its searches are the
    searches of `Scopes`, which the expression parser and the code generator are specified by. */
module ScopeStacks {
  import opened Tokens
  import opened Scopes
  import opened Tables
  import opened Resizing
  import opened TableRuns
  import opened SymTables

  ghost function MapOf(t: SymTable): Scope
    reads t, t.items, set r | r in t.items[..]
  {
    Contents(t.State().slots)
  }

  ghost function MapsOf(tables: seq<SymTable>): (maps: seq<Scope>)
    reads tables, (set t | t in tables :: t.items), (set t, r | t in tables && r in t.items[..] :: r)
    ensures |maps| == |tables|
  {
    if tables == [] then [] else [MapOf(tables[0])] + MapsOf(tables[1..])
  }

  /** The table keeps its invariant, and probes for `id` end. */
  ghost predicate Ready(t: SymTable, id: string)
    reads t, t.items, set r | r in t.items[..]
  {
    t.Sized() && Resizing.Valid(t.hs, t.State()) && SearchOp(t.hs, t.State(), id).Some?
  }

  lemma MapsFrom(tables: seq<SymTable>, k: nat)
    requires k < |tables|
    ensures MapsOf(tables[k..]) == [MapOf(tables[k])] + MapsOf(tables[k + 1..])
  {
    assert tables[k..][1..] == tables[k + 1..];
  }

  lemma NoMaps(tables: seq<SymTable>)
    requires tables == []
    ensures MapsOf(tables) == []
  {
  }

  /** The active record named `id` in one table. */
  method SearchTable(t: SymTable, id: string) returns (r: Record?)
    requires Ready(t, id)
    ensures Lookup(MapOf(t), id) == if r == null then None else Some(r.AsEntry().item)
  {
    hide Contents, Resizing.Valid;
    var error;
    SearchAnswers(t.hs, t.State(), id);
    r, error := t.Search(id);
  }

  class ScopeStack {
    var tables: seq<SymTable>

    constructor ()
      ensures tables == []
    {
      tables := [];
    }

    method AddScope(hs: Hashing)
      requires Legal(hs)
      modifies this
      ensures |tables| == |old(tables)| + 1 && tables[1..] == old(tables) && fresh(tables[0]) && fresh(tables[0].items)
      ensures forall id :: Ready(tables[0], id)
      ensures MapOf(tables[0]) == map[]
    {
      var t := new SymTable(hs);
      InitialValid(hs);
      forall id
        ensures Ready(t, id)
      {
        InitialProbeEnds(hs, id);
      }
      tables := [t] + tables;
    }

    method PopScope() returns (error: nat)
      modifies this
      ensures old(tables) != [] ==> tables == old(tables)[1..] && error == SYMTAB_OK
      ensures old(tables) == [] ==> tables == [] && error == SYMTAB_NOT_INITIALIZED
    {
      if tables != [] {
        tables := tables[1..];
        error := SYMTAB_OK;
      } else {
        error := SYMTAB_NOT_INITIALIZED;
      }
    }

    /** The innermost record named `id`. */
    method SearchScopes(id: string) returns (r: Record?)
      requires forall t :: t in tables ==> Ready(t, id)
      ensures r == null <==> Scopes.Search(MapsOf(tables), id).None?
      ensures r != null ==> Some(r.AsEntry().item) == Scopes.Search(MapsOf(tables), id)
    {
      hide Ready, MapOf, MapsOf;
      assert tables[0..] == tables;
      NoMaps(tables[|tables|..]);
      var k := 0;
      while k < |tables|
        invariant k <= |tables|
        invariant Scopes.Search(MapsOf(tables), id) == Scopes.Search(MapsOf(tables[k..]), id)
      {
        r := SearchTable(tables[k], id);
        MapsFrom(tables, k);
        if r != null {
          return;
        }
        k := k + 1;
      }
      r := null;
    }

    /** The innermost initialised record named `id`. */
    method SearchScopesInitializedVar(id: string) returns (r: Record?)
      requires forall t :: t in tables ==> Ready(t, id)
      ensures r == null <==> SearchInitialized(MapsOf(tables), id).None?
      ensures r != null ==> Some(r.AsEntry().item) == SearchInitialized(MapsOf(tables), id)
    {
      hide Ready, MapOf, MapsOf;
      assert tables[0..] == tables;
      NoMaps(tables[|tables|..]);
      var k := 0;
      while k < |tables|
        invariant k <= |tables|
        invariant SearchInitialized(MapsOf(tables), id) == SearchInitialized(MapsOf(tables[k..]), id)
      {
        r := SearchTable(tables[k], id);
        MapsFrom(tables, k);
        if r != null && r.init {
          return;
        }
        k := k + 1;
      }
      r := null;
    }
  }

  lemma InitialProbeEnds(hs: Hashing, id: string)
    requires Legal(hs)
    ensures SearchOp(hs, INITIAL, id).Some?
  {
    EmptyLinked(hs, 11);
    RoomyProbeEnds(hs, INITIAL.slots, true, id);
  }
}
