/** The symbol table as the program keeps it: an array of shared records, probed and updated in place.  Every
    method performs one of the operations of `TableRuns`. */
module SymTables {
  import opened Tokens
  import opened Scopes
  import opened Primes
  import opened Probing
  import opened Tables
  import opened Resizing
  import opened TableRuns

  const SYMTAB_OK: nat := 0
  const SYMTAB_ERR_ITEM_NOT_FOUND: nat := 1
  const SYMTAB_ERR_ITEM_ALREADY_STORED: nat := 2
  const SYMTAB_NOT_INITIALIZED: nat := 6

  /** The counter behind all unique ids. */
  class Uids {
    var next: nat

    constructor ()
      ensures next == 0
    {
      next := 0;
    }

    method Take() returns (uid: nat)
      modifies this
      ensures uid == old(next) && next == old(next) + 1
    {
      uid := next;
      next := next + 1;
    }
  }

  function FreshItem(id: string, uid: nat): Item {
    Item(id, uid, Undefined, false, false, false)
  }

  class Record {
    const name: string
    const uid: nat
    var ty: Type
    var mutable: bool
    var init: bool
    var nilable: bool
    var active: bool

    constructor (name: string, uid: nat)
      ensures AsEntry() == Entry(FreshItem(name, uid), true) && this.name == name
    {
      this.name, this.uid := name, uid;
      ty, mutable, init, nilable, active := Undefined, false, false, false, true;
    }

    function AsEntry(): Entry
      reads this
    {
      Entry(Item(name, uid, ty, mutable, init, nilable), active)
    }
  }

  /** The slots that an array of records shows. */
  function Shown(s: seq<Record?>): (slots: Slots)
    reads set r | r in s
    ensures |slots| == |s|
    ensures forall j :: 0 <= j < |s| ==> slots[j] == ShownAt(s[j])
  {
    if s == [] then [] else Shown(s[..|s| - 1]) + [ShownAt(s[|s| - 1])]
  }

  function ShownAt(r: Record?): Option<Entry>
    reads r
  {
    if r == null then None else Some(r.AsEntry())
  }

  /** No record stands in two slots. */
  ghost predicate Apart(s: seq<Record?>) {
    forall i, j :: 0 <= i < j < |s| && s[i] != null ==> s[i] != s[j]
  }

  class SymTable {
    const hs: Hashing
    var items: array<Record?>
    var size: nat
    var count: int
    var deactivated: int

    ghost predicate Sized()
      reads this, items
    {
      Legal(hs) && size == items.Length > 1 && Apart(items[..])
    }

    ghost function State(): Table
      reads this, items, set r | r in items[..]
    {
      Table(Shown(items[..]), count, deactivated)
    }

    constructor (hs: Hashing)
      requires Legal(hs)
      ensures this.hs == hs && Sized() && State() == INITIAL && fresh(items)
    {
      this.hs := hs;
      size, count, deactivated := 11, 0, 0;
      items := new Record?[11](_ => null);
      new;
      assert Shown(items[..]) == Empty(11);
    }

    /** The first empty slot on the probe of `id`. */
    method GetHash(id: string, items: array<Record?>, size: nat) returns (index: nat)
      requires Legal(hs) && size == items.Length > 1
      requires StopSlot(hs, Shown(items[..]), false, id).Some?
      ensures index < items.Length && items[index] == null && Some(index) == StopSlot(hs, Shown(items[..]), false, id)
    {
      ghost var slots := Shown(items[..]);
      ghost var r := FirstStop(hs, slots, false, id, 0).value;
      index := hs.start(id, size);
      var step := hs.step(id, size);
      FirstSlot(index, step, size);
      var i := 0;
      while items[index] != null
        invariant index < size && index == At(hs, slots, id, i) && i <= r
        decreases r - i
      {
        NextSlot(hs.start(id, size), step, size, i);
        index := (index + i * step) % size;
        i := i + 1;
      }
    }

    /** The active record named `id`, or null. */
    method Search(id: string) returns (r: Record?, error: nat)
      requires Sized() && SearchOp(hs, State(), id).Some?
      ensures r == null <==> SearchOp(hs, State(), id).value.None?
      ensures r != null ==> r.AsEntry() == Entry(SearchOp(hs, State(), id).value.value, true)
      ensures error == if r == null then SYMTAB_ERR_ITEM_NOT_FOUND else SYMTAB_OK
      ensures r != null ==> exists j :: 0 <= j < items.Length && items[j] == r && Some(j) == StopSlot(hs, Shown(items[..]), true, id)
    {
      ghost var slots := Shown(items[..]);
      ghost var k := FirstStop(hs, slots, true, id, 0).value;
      var index := hs.start(id, size);
      var step := hs.step(id, size);
      FirstSlot(index, step, size);
      var i := 0;
      while items[index] != null
        invariant index < size && index == At(hs, slots, id, i) && i <= k
        decreases k - i
      {
        if items[index].name == id {
          if items[index].active {
            return items[index], SYMTAB_OK;
          } else {
            return null, SYMTAB_ERR_ITEM_NOT_FOUND;
          }
        }
        NextSlot(hs.start(id, size), step, size, i);
        index := (index + i * step) % size;
        i := i + 1;
      }
      return null, SYMTAB_ERR_ITEM_NOT_FOUND;
    }

    /** The first listed size above the current one. */
    method PickSize() returns (newSize: nat)
      requires NextSize(size).Some?
      ensures Some(newSize) == NextSize(size)
    {
      var p := 0;
      while size >= SIZES[p]
        invariant p < |SIZES| && NextSize(size) == NextSizeFrom(size, p)
        decreases |SIZES| - p
      {
        p := p + 1;
      }
      newSize := SIZES[p];
    }

    /** Puts every active record into the new array, in slot order. */
    method MoveAll(resized: array<Record?>, newSize: nat)
      requires Sized() && newSize == resized.Length > 1 && resized != items
      requires forall j :: 0 <= j < newSize ==> resized[j] == null
      requires Moved(hs, Shown(items[..]), size, newSize).Some?
      modifies resized
      ensures Apart(resized[..]) && Some(Shown(resized[..])) == Moved(hs, Shown(items[..]), size, newSize)
      ensures Within(resized[..], items[..])
    {
      hide StopSlot, Apart, Legal, Within, Moved, Shown;
      ghost var from := Shown(items[..]);
      NothingMoved(hs, from, resized[..], items[..0]);
      var i := 0;
      while i < size
        invariant i <= size && Shown(items[..]) == from
        invariant Moved(hs, from, i, newSize) == Some(Shown(resized[..]))
        invariant Apart(resized[..])
        invariant Within(resized[..], items[..i])
      {
        assert from[i] == ShownAt(items[i]);
        MovedOnly(hs, from, i, newSize);
        MovedNext(hs, from, i, newSize);
        WithinMore(resized[..], items[..], i);
        if items[i] != null && items[i].active {
          var j := GetHash(items[i].name, resized, newSize);
          ApartPut(items[..], i, resized[..], j);
          ShownPut(resized[..], j, items[i]);
          ghost var before := resized[..];
          resized[j] := items[i];
          assert resized[..] == before[j := items[i]];
        }
        i := i + 1;
      }
      assert items[..size] == items[..];
    }

    method Resize()
      requires Sized() && Resized(hs, State()).Some?
      modifies this
      ensures Sized() && fresh(items) && Some(State()) == old(Resized(hs, State()))
      ensures Within(items[..], old(items[..]))
    {
      hide StopSlot, Legal, Within, Moved, Shown, Apart, SIZES;
      ghost var t := State();
      var newSize := PickSize();
      AboveFirst(size);
      var resized := new Record?[newSize](_ => null);
      MoveAll(resized, newSize);
      assert Resized(hs, t) == Some(Table(Shown(resized[..]), count - deactivated, 0));
      items := resized;
      size := newSize;
      count := count - deactivated;
      deactivated := 0;
    }

    method CheckLoad()
      requires Sized() && Resizing.CheckLoad(hs, State()).Some?
      modifies this
      ensures Sized() && (items == old(items) || fresh(items)) && Some(State()) == old(Resizing.CheckLoad(hs, State()))
      ensures Within(items[..], old(items[..]))
    {
      if 20 * count > 13 * size {
        Resize();
      }
    }

    /** Puts a fresh record into the first empty slot of its probe. */
    method Place(id: string, uids: Uids)
      requires Sized() && StopSlot(hs, Shown(items[..]), false, id).Some?
      modifies this`count, items, uids
      ensures Sized() && uids.next == old(uids.next) + 1
      ensures var j := old(StopSlot(hs, Shown(items[..]), false, id).value);
              State() == Table(Put(old(State()).slots, j, FreshItem(id, old(uids.next))), old(count) + 1, deactivated)
    {
      hide StopSlot, Legal, Shown, Apart;
      var index := GetHash(id, items, size);
      var uid := uids.Take();
      var record := new Record(id, uid);
      ghost var before := items[..];
      ShownPut(before, index, record);
      FreshApart(before, index, record);
      items[index] := record;
      assert items[..] == before[index := record];
      count := count + 1;
    }

    /** Stores a fresh item under a name that is not active. */
    method Insert(id: string, uids: Uids) returns (error: nat)
      requires Sized() && InsertOp(hs, State(), FreshItem(id, uids.next)).Some?
      modifies this, items, uids
      ensures Sized()
      ensures var (t, stored) := old(InsertOp(hs, State(), FreshItem(id, uids.next)).value);
              && State() == t && error == (if stored then SYMTAB_OK else SYMTAB_ERR_ITEM_ALREADY_STORED)
              && uids.next == old(uids.next) + (if stored then 1 else 0)
    {
      hide StopSlot, Legal, Within, Shown, Apart, Resizing.CheckLoad;
      var item, e := Search(id);
      if item == null {
        Place(id, uids);
        CheckLoad();
        error := SYMTAB_OK;
      } else {
        error := SYMTAB_ERR_ITEM_ALREADY_STORED;
      }
    }

    /** Leaves a tombstone. */
    method Delete(id: string) returns (error: nat)
      requires Sized() && DeleteOp(hs, State(), id).Some?
      modifies this, set r | r in items[..]
      ensures Sized() && items == old(items)
      ensures var (t, deleted) := old(DeleteOp(hs, State(), id).value);
              State() == t && error == if deleted then SYMTAB_OK else SYMTAB_ERR_ITEM_NOT_FOUND
    {
      var item, e := Search(id);
      if item == null {
        return SYMTAB_ERR_ITEM_NOT_FOUND;
      }
      item.active := false;
      deactivated := deactivated + 1;
      error := SYMTAB_OK;
    }
  }

  lemma NothingMoved(hs: Hashing, from: Slots, s: seq<Record?>, part: seq<Record?>)
    requires s != [] && forall j :: 0 <= j < |s| ==> s[j] == null
    ensures Moved(hs, from, 0, |s|) == Some(Shown(s)) && Apart(s) && Within(s, part)
  {
    assert Shown(s) == Empty(|s|);
  }

  lemma AboveFirst(n: nat)
    ensures NextSize(n).Some? ==> NextSize(n).value > 1
  {
  }

  lemma FreshApart(s: seq<Record?>, j: nat, r: Record)
    requires Apart(s) && j < |s| && r !in s
    ensures Apart(s[j := r])
  {
  }

  lemma ShownPut(s: seq<Record?>, j: nat, r: Record?)
    requires j < |s|
    ensures Shown(s[j := r]) == Shown(s)[j := ShownAt(r)]
  {
  }

  /** Where the whole move ends, every part of it does. */
  lemma {:induction false} MovedOnly(hs: Hashing, from: Slots, k: nat, n: nat)
    requires n > 0 && k < |from| && Moved(hs, from, |from|, n).Some?
    ensures Moved(hs, from, k + 1, n).Some? && Moved(hs, from, k, n).Some?
    decreases |from| - k
  {
    if k + 1 < |from| {
      MovedOnly(hs, from, k + 1, n);
    }
  }

  /** One more slot of the old table. */
  lemma MovedNext(hs: Hashing, from: Slots, k: nat, n: nat)
    requires n > 0 && k < |from| && Moved(hs, from, k, n).Some?
    ensures var a := Moved(hs, from, k, n).value;
            if from[k].None? || !from[k].value.active then Moved(hs, from, k + 1, n) == Some(a)
            else
              var j := StopSlot(hs, a, false, from[k].value.item.name);
              Moved(hs, from, k + 1, n) == if j.None? then None else Some(Put(a, j.value, from[k].value.item))
  {
  }

  /** The records of `a` stand in `b`. */
  ghost predicate Within(a: seq<Record?>, b: seq<Record?>) {
    forall j :: 0 <= j < |a| && a[j] != null ==> a[j] in b
  }

  lemma WithinMore(a: seq<Record?>, s: seq<Record?>, i: nat)
    requires i < |s| && Within(a, s[..i])
    ensures Within(a, s[..i + 1])
  {
    assert s[..i + 1] == s[..i] + [s[i]];
  }

  /** A record from beyond the moved part stands nowhere in the new array. */
  lemma ApartPut(s: seq<Record?>, i: nat, to: seq<Record?>, j: nat)
    requires Apart(s) && i < |s| && s[i] != null && Apart(to) && j < |to| && to[j] == null && Within(to, s[..i])
    ensures Apart(to[j := s[i]]) && Within(to[j := s[i]], s[..i + 1])
  {
    assert s[i] !in s[..i];
    assert s[..i + 1] == s[..i] + [s[i]];
  }
}
