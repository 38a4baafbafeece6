/** The operations of the symbol table on values, and what whole runs of them do. */
module TableRuns {
  import opened Tokens
  import opened Scopes
  import opened Primes
  import opened Probing
  import opened Tables
  import opened Resizing

  const INITIAL := Table(Empty(11), 0, 0)

  /** `None` when the probe never ends. */
  function SearchOp(hs: Hashing, t: Table, id: string): Option<Option<Item>>
    requires t.slots != []
  {
    var j := StopSlot(hs, t.slots, true, id);
    if j.None? then None else Some(Found(t.slots, j.value))
  }

  /** The new table and whether the item was stored; `None` when a probe never ends or no listed size is left. */
  function InsertOp(hs: Hashing, t: Table, item: Item): (r: Option<(Table, bool)>)
    requires t.slots != []
    ensures r.Some? ==> r.value.0.slots != []
  {
    var found := SearchOp(hs, t, item.name);
    if found.None? then None
    else if found.value.Some? then Some((t, false))
    else
      var j := StopSlot(hs, t.slots, false, item.name);
      if j.None? then None else
        var t' := CheckLoad(hs, Table(Put(t.slots, j.value, item), t.count + 1, t.deactivated));
        if t'.None? || t'.value.slots == [] then None else Some((t'.value, true))
  }

  /** The new table and whether there was something to delete. */
  function DeleteOp(hs: Hashing, t: Table, id: string): (r: Option<(Table, bool)>)
    requires t.slots != []
    ensures r.Some? ==> |r.value.0.slots| == |t.slots|
  {
    var j := StopSlot(hs, t.slots, true, id);
    if j.None? then None
    else if Found(t.slots, j.value).None? then Some((t, false))
    else Some((Table(Bury(t.slots, j.value), t.count, t.deactivated + 1), true))
  }

  // ----- single operations -----

  lemma SearchAnswers(hs: Hashing, t: Table, id: string)
    requires Valid(hs, t) && SearchOp(hs, t, id).Some?
    ensures SearchOp(hs, t, id).value == Lookup(Contents(t.slots), id)
  {
    hide SIZES;
    SearchRefinesMap(hs, t.slots, id);
  }

  lemma PutValid(hs: Hashing, t: Table, j: nat, item: Item)
    requires Valid(hs, t) && item.name !in Contents(t.slots) && !Stale(t.slots, item.name)
    requires StopSlot(hs, t.slots, false, item.name) == Some(j)
    ensures var t' := Table(Put(t.slots, j, item), t.count + 1, t.deactivated);
            Valid(hs, t') && Contents(t'.slots) == Contents(t.slots)[item.name := item]
  {
    hide SIZES, Linked, Once, Contents, StopSlot, Occupied, Dead, Stored;
    LinkedOnce(hs, t.slots);
    NotStored(t.slots, item.name);
    FreeStop(hs, t.slots, item.name);
    PutLinked(hs, t.slots, j, item);
    PutContents(t.slots, j, item);
    PutOccupied(t.slots, j, item);
  }

  lemma FreeStop(hs: Hashing, slots: Slots, id: string)
    requires slots != [] && StopSlot(hs, slots, false, id).Some?
    ensures slots[StopSlot(hs, slots, false, id).value].None?
  {
  }

  /** Inserting a name without a tombstone: stored exactly when it was not in the map, and nothing else changes,
      whether or not the table grows. */
  lemma InsertRefinesMap(hs: Hashing, t: Table, item: Item)
    requires Legal(hs) && Valid(hs, t) && !Overloaded(t) && !Stale(t.slots, item.name)
    requires InsertOp(hs, t, item).Some?
    ensures var (t', stored) := InsertOp(hs, t, item).value;
            && Valid(hs, t') && !Overloaded(t') && (stored <==> item.name !in Contents(t.slots))
            && Contents(t'.slots) == if stored then Contents(t.slots)[item.name := item] else Contents(t.slots)
  {
    hide SIZES, Linked, Once, Contents, StopSlot, Moved, Occupied, Dead;
    SearchAnswers(hs, t, item.name);
    if item.name !in Contents(t.slots) {
      var j := StopSlot(hs, t.slots, false, item.name).value;
      PutValid(hs, t, j, item);
      var t1 := Table(Put(t.slots, j, item), t.count + 1, t.deactivated);
      if Overloaded(t1) {
        LastSize(hs, t1);
        ResizeKeeps(hs, t1);
      }
    }
  }

  lemma LastSize(hs: Hashing, t: Table)
    requires Resized(hs, t).Some?
    ensures |t.slots| != 25229
  {
  }

  /** With fewer than (n + 1) / 2 slots occupied, and a larger size left if the load limit is passed, an insertion
      ends. */
  lemma InsertEnds(hs: Hashing, t: Table, item: Item)
    requires Legal(hs) && Valid(hs, t) && !Overloaded(t) && !Stale(t.slots, item.name)
    requires Roomy(t.slots) && |t.slots| != 25229
    ensures InsertOp(hs, t, item).Some?
  {
    hide SIZES, Linked, Once, Contents, StopSlot, Moved, Occupied, Dead;
    RoomyProbeEnds(hs, t.slots, true, item.name);
    RoomyProbeEnds(hs, t.slots, false, item.name);
    SearchAnswers(hs, t, item.name);
    if item.name !in Contents(t.slots) {
      var j := StopSlot(hs, t.slots, false, item.name).value;
      PutValid(hs, t, j, item);
      var t1 := Table(Put(t.slots, j, item), t.count + 1, t.deactivated);
      if Overloaded(t1) {
        ResizeKeeps(hs, t1);
      }
    }
  }

  lemma BuryCounts(slots: Slots, j: nat)
    requires j < |slots| && slots[j].Some? && slots[j].value.active
    ensures Occupied(Bury(slots, j)) == Occupied(slots) && |Dead(Bury(slots, j))| == |Dead(slots)| + 1
  {
    assert Dead(Bury(slots, j)) == Dead(slots) + {j};
  }

  /** Deleting removes the name from the map, if it was there, and nothing else. */
  lemma DeleteRefinesMap(hs: Hashing, t: Table, id: string)
    requires Legal(hs) && Valid(hs, t) && !Overloaded(t) && DeleteOp(hs, t, id).Some?
    ensures var (t', deleted) := DeleteOp(hs, t, id).value;
            && Valid(hs, t') && !Overloaded(t') && (deleted <==> id in Contents(t.slots))
            && Contents(t'.slots) == Contents(t.slots) - {id}
  {
    hide SIZES, Linked, Once, Contents, StopSlot, Occupied, Dead;
    SearchRefinesMap(hs, t.slots, id);
    LinkedOnce(hs, t.slots);
    var j := StopSlot(hs, t.slots, true, id).value;
    if id in Contents(t.slots) {
      BuryLinked(hs, t.slots, j);
      assert ActiveAt(t.slots, j, id);
      BuryContents(t.slots, j, id);
      BuryCounts(t.slots, j);
    } else {
      assert Contents(t.slots) - {id} == Contents(t.slots);
    }
  }

  // ----- runs -----

  datatype Command = Insert(item: Item) | Delete(id: string) | Search(id: string)

  datatype Answer = WasStored(b: bool) | WasDeleted(b: bool) | Returned(found: Option<Item>)

  function Do(hs: Hashing, t: Table, c: Command): (r: Option<(Table, Answer)>)
    requires t.slots != []
    ensures r.Some? ==> r.value.0.slots != []
  {
    match c
    case Insert(item) =>
      var r := InsertOp(hs, t, item); if r.Some? then Some((r.value.0, WasStored(r.value.1))) else None
    case Delete(id) =>
      var r := DeleteOp(hs, t, id); if r.Some? then Some((r.value.0, WasDeleted(r.value.1))) else None
    case Search(id) =>
      var r := SearchOp(hs, t, id); if r.Some? then Some((t, Returned(r.value))) else None
  }

  /** The table after a list of commands, and their answers; `None` when one of them never ends. */
  function Run(hs: Hashing, t: Table, cs: seq<Command>): Option<(Table, seq<Answer>)>
    requires t.slots != []
    decreases |cs|
  {
    if cs == [] then Some((t, [])) else
      var one := Do(hs, t, cs[0]);
      if one.None? then None else
        var rest := Run(hs, one.value.0, cs[1..]);
        if rest.None? then None else Some((rest.value.0, [one.value.1] + rest.value.1))
  }

  /** What the commands mean for a map. */
  function MapDo(m: Scope, c: Command): (Scope, Answer) {
    match c
    case Insert(item) => if item.name in m then (m, WasStored(false)) else (m[item.name := item], WasStored(true))
    case Delete(id) => (m - {id}, WasDeleted(id in m))
    case Search(id) => (m, Returned(Lookup(m, id)))
  }

  function MapRun(m: Scope, cs: seq<Command>): (Scope, seq<Answer>)
    decreases |cs|
  {
    if cs == [] then (m, []) else
      var (m', a) := MapDo(m, cs[0]);
      var (m'', rest) := MapRun(m', cs[1..]);
      (m'', [a] + rest)
  }

  /** No insertion of the run meets the tombstone of its own name. */
  predicate NeverStale(hs: Hashing, t: Table, cs: seq<Command>)
    requires t.slots != []
    decreases |cs|
  {
    cs == [] || (
      && (cs[0].Insert? ==> !Stale(t.slots, cs[0].item.name))
      && var one := Do(hs, t, cs[0]);
         one.None? || NeverStale(hs, one.value.0, cs[1..]))
  }

  lemma DoRefinesMap(hs: Hashing, t: Table, c: Command)
    requires Legal(hs) && Valid(hs, t) && !Overloaded(t) && Do(hs, t, c).Some?
    requires c.Insert? ==> !Stale(t.slots, c.item.name)
    ensures var (t', a) := Do(hs, t, c).value;
            Valid(hs, t') && !Overloaded(t') && (Contents(t'.slots), a) == MapDo(Contents(t.slots), c)
  {
    hide SIZES, Linked, Contents, InsertOp, DeleteOp, SearchOp, Occupied, Dead, Stale;
    match c
    case Insert(item) => InsertRefinesMap(hs, t, item);
    case Delete(id) => DeleteRefinesMap(hs, t, id);
    case Search(id) => SearchAnswers(hs, t, id);
  }

  /** The hash table refines a finite map over every run that ends: same answers, same contents, and the counters
      count the occupied slots and the tombstones. */
  lemma {:induction false} RunRefinesMap(hs: Hashing, t: Table, cs: seq<Command>)
    requires t.slots != [] && Legal(hs) && Valid(hs, t) && !Overloaded(t)
    requires NeverStale(hs, t, cs) && Run(hs, t, cs).Some?
    ensures var (t', answers) := Run(hs, t, cs).value;
            Valid(hs, t') && !Overloaded(t') && (Contents(t'.slots), answers) == MapRun(Contents(t.slots), cs)
    decreases |cs|
  {
    hide SIZES, Linked, Contents, Do, MapDo, Stale, Occupied, Dead;
    if cs != [] {
      DoRefinesMap(hs, t, cs[0]);
      RunRefinesMap(hs, Do(hs, t, cs[0]).value.0, cs[1..]);
    }
  }

  lemma InitialValid(hs: Hashing)
    ensures Valid(hs, INITIAL) && !Overloaded(INITIAL) && Contents(INITIAL.slots) == map[]
  {
    EmptyLinked(hs, 11);
    assert Dead(Empty(11)) == {};
  }

  /** From the initial table, whose map is empty. */
  lemma FreshRunRefinesMap(hs: Hashing, cs: seq<Command>)
    requires Legal(hs) && NeverStale(hs, INITIAL, cs) && Run(hs, INITIAL, cs).Some?
    ensures (Contents(Run(hs, INITIAL, cs).value.0.slots), Run(hs, INITIAL, cs).value.1) == MapRun(map[], cs)
  {
    hide Contents, Valid, Run, NeverStale, MapRun, Legal;
    InitialValid(hs);
    RunRefinesMap(hs, INITIAL, cs);
  }

  // ----- the load limit does not make probes end -----

  /** Different names that all start at `h` and step by `s`. */
  predicate Crowd(hs: Hashing, items: seq<Item>, h: nat, s: nat) {
    && (forall i :: 0 <= i < |items| ==> hs.start(items[i].name, 11) == h && hs.step(items[i].name, 11) == s)
    && forall i, j :: 0 <= i < j < |items| ==> items[i].name != items[j].name
  }

  /** The table after inserting all items in order. */
  function Filled(hs: Hashing, items: seq<Item>): Option<Table> {
    if items == [] then Some(INITIAL) else
      var before := Filled(hs, items[..|items| - 1]);
      if before.None? || before.value.slots == [] then None else
        var r := InsertOp(hs, before.value, items[|items| - 1]);
        if r.Some? then Some(r.value.0) else None
  }

  /** Where a new name of the crowd ends up when the crowd fills its first `k` reads. */
  lemma NextFree(hs: Hashing, slots: Slots, own: bool, id: string, h: nat, s: nat, k: nat)
    requires |slots| == 11 && h < 11 && 0 < s < 11 && hs.start(id, 11) == h && hs.step(id, 11) == s
    requires k < 6 && Occupied(slots) == Path(h, s, 11, k) && !Stored(slots, id)
    ensures StopSlot(hs, slots, own, id) == Some(Slot(h, s, 11, k + 1))
  {
    hide Slot, Tri, Prime;
    SizesPrime(11);
    FirstSlot(h, s, 11);
    forall i: nat | 1 <= i <= k
      ensures Slot(h, s, 11, i) in Occupied(slots) && Slot(h, s, 11, i) != Slot(h, s, 11, k + 1)
    {
      ReadsDiffer(h, s, 11, k + 1, i);
    }
    assert Slot(h, s, 11, k + 1) !in Occupied(slots);
    assert Stop(slots, own, id, At(hs, slots, id, k + 1));
    assert k > 0 ==> Slot(h, s, 11, 1) in Occupied(slots);
    assert forall i: nat :: i <= k && k > 0 ==> At(hs, slots, id, i) in Occupied(slots);
    assert k == 0 ==> At(hs, slots, id, 0) == At(hs, slots, id, 1);
  }

  /** Six names with one probe path fill everything the path can reach, below the load limit. */
  lemma {:induction false} CrowdFills(hs: Hashing, items: seq<Item>, h: nat, s: nat)
    requires Legal(hs) && h < 11 && 0 < s < 11 && Crowd(hs, items, h, s) && |items| <= 6
    ensures var t := Filled(hs, items);
            && t.Some? && |t.value.slots| == 11 && Valid(hs, t.value) && !Overloaded(t.value)
            && Occupied(t.value.slots) == Path(h, s, 11, |items|) && Dead(t.value.slots) == {}
            && t.value.count == |items| && Contents(t.value.slots).Keys == set i | 0 <= i < |items| :: items[i].name
  {
    hide InsertOp, Legal, Valid, Overloaded, Occupied, Dead, Contents;
    if items == [] {
      InitialValid(hs);
      InitialEmpty(h, s);
    } else {
      CrowdFills(hs, items[..|items| - 1], h, s);
      CrowdGrows(hs, Filled(hs, items[..|items| - 1]).value, items, h, s);
    }
  }

  lemma InitialEmpty(h: nat, s: nat)
    ensures Occupied(INITIAL.slots) == {} == Path(h, s, 11, 0) && Dead(INITIAL.slots) == {}
  {
  }

  lemma CrowdGrows(hs: Hashing, t: Table, items: seq<Item>, h: nat, s: nat)
    requires Legal(hs) && h < 11 && 0 < s < 11 && Crowd(hs, items, h, s) && 0 < |items| <= 6
    requires |t.slots| == 11 && Valid(hs, t) && !Overloaded(t) && Dead(t.slots) == {} && t.count == |items| - 1
    requires Occupied(t.slots) == Path(h, s, 11, |items| - 1)
    requires Contents(t.slots).Keys == set i | 0 <= i < |items| - 1 :: items[i].name
    ensures var r := InsertOp(hs, t, items[|items| - 1]);
            && r.Some? && |r.value.0.slots| == 11 && Valid(hs, r.value.0) && !Overloaded(r.value.0)
            && Occupied(r.value.0.slots) == Path(h, s, 11, |items|) && Dead(r.value.0.slots) == {}
            && r.value.0.count == |items|
            && Contents(r.value.0.slots).Keys == set i | 0 <= i < |items| :: items[i].name
  {
    hide Path, Slot, StopSlot, Linked, Contents, Occupied, Dead, Once, SIZES;
    var k, item := |items| - 1, items[|items| - 1];
    LinkedOnce(hs, t.slots);
    NoneStale(t.slots, item.name);
    NotStored(t.slots, item.name);
    NextFree(hs, t.slots, true, item.name, h, s, k);
    NextFree(hs, t.slots, false, item.name, h, s, k);
    FreeStop(hs, t.slots, item.name);
    var j := Slot(h, s, 11, k + 1);
    PutValid(hs, t, j, item);
    PutOccupies(t.slots, j, item, h, s, k);
  }

  lemma PutOccupies(slots: Slots, j: nat, item: Item, h: nat, s: nat, k: nat)
    requires |slots| == 11 && j < 11 && slots[j].None? && j == Slot(h, s, 11, k + 1)
    requires Occupied(slots) == Path(h, s, 11, k) && Dead(slots) == {}
    ensures Occupied(Put(slots, j, item)) == Path(h, s, 11, k + 1) && Dead(Put(slots, j, item)) == {}
  {
    hide Slot, Occupied, Dead;
    PutOccupied(slots, j, item);
  }

  /** The load limit alone does not make probes end: after any six colliding names the table of 11 slots is not
      overloaded, yet the insertion of a seventh never ends, nor does a search for it. */
  lemma SeventhNeverEnds(hs: Hashing, items: seq<Item>, h: nat, s: nat)
    requires Legal(hs) && h < 11 && 0 < s < 11 && Crowd(hs, items, h, s) && |items| == 7
    ensures var t := Filled(hs, items[..6]);
            && t.Some? && t.value.slots != [] && !Overloaded(t.value) && t.value.count == 6
            && InsertOp(hs, t.value, items[6]).None? && SearchOp(hs, t.value, items[6].name).None?
  {
    hide Path, Slot, Linked, Contents, Once, InsertOp, Dead;
    CrowdFills(hs, items[..6], h, s);
    var t := Filled(hs, items[..6]).value;
    var id := items[6].name;
    LinkedOnce(hs, t.slots);
    NoneStale(t.slots, id);
    NotStored(t.slots, id);
    ProbeEnds(hs, t.slots, true, id);
    InsertSearches(hs, t, items[6]);
  }

  lemma InsertSearches(hs: Hashing, t: Table, item: Item)
    requires t.slots != [] && SearchOp(hs, t, item.name).None?
    ensures InsertOp(hs, t, item).None?
  {
  }
}
