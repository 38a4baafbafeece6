/** Growth of the symbol table, and whole runs of it. */
module Resizing {
  import opened Tokens
  import opened Scopes
  import opened Primes
  import opened Probing
  import opened Tables

  /** `count` counts occupied slots, tombstones included; `deactivated` the tombstones. */
  datatype Table = Table(slots: Slots, count: int, deactivated: int)

  /** More than 65 of 100 slots occupied.  The code compares a float quotient with 0.65; for every listed size
      that decides the same, the quotient being at least 1 / (20 * size) away from 0.65. */
  predicate Overloaded(t: Table) {
    20 * t.count > 13 * |t.slots|
  }

  function NextSizeFrom(n: nat, i: nat): Option<nat>
    requires i <= |SIZES|
    decreases |SIZES| - i
  {
    if i == |SIZES| then None else if n < SIZES[i] then Some(SIZES[i]) else NextSizeFrom(n, i + 1)
  }

  /** The first listed size above `n`. */
  function NextSize(n: nat): Option<nat> {
    NextSizeFrom(n, 0)
  }

  function Empty(n: nat): Slots {
    seq(n, _ => None)
  }

  /** The new table once the first `k` slots of the old one have been moved: tombstones stay behind.  `None` when
      a probe for a free slot never ends. */
  function Moved(hs: Hashing, from: Slots, k: nat, n: nat): (r: Option<Slots>)
    requires k <= |from| && n > 0
    ensures r.Some? ==> |r.value| == n
  {
    if k == 0 then Some(Empty(n)) else
      var before := Moved(hs, from, k - 1, n);
      if before.None? || from[k - 1].None? || !from[k - 1].value.active then before
      else
        var j := StopSlot(hs, before.value, false, from[k - 1].value.item.name);
        if j.None? then None else Some(Put(before.value, j.value, from[k - 1].value.item))
  }

  function Resized(hs: Hashing, t: Table): Option<Table> {
    var n := NextSize(|t.slots|);
    if n.None? then None else
      var moved := Moved(hs, t.slots, |t.slots|, n.value);
      if moved.None? then None else Some(Table(moved.value, t.count - t.deactivated, 0))
  }

  function CheckLoad(hs: Hashing, t: Table): Option<Table> {
    if Overloaded(t) then Resized(hs, t) else Some(t)
  }

  /** The table's representation invariant. */
  predicate Valid(hs: Hashing, t: Table) {
    && PrimeSized(t.slots) && Linked(hs, t.slots)
    && t.count == |Occupied(t.slots)| && t.deactivated == |Dead(t.slots)|
  }

  // ----- moving -----

  function Alive(slots: Slots): set<nat> {
    set j: nat | j < |slots| && slots[j].Some? && slots[j].value.active
  }

  lemma OccupiedParts(slots: Slots)
    ensures |Occupied(slots)| == |Alive(slots)| + |Dead(slots)|
  {
    assert Occupied(slots) == Alive(slots) + Dead(slots) && Alive(slots) * Dead(slots) == {};
  }

  lemma EmptyLinked(hs: Hashing, n: nat)
    requires n > 0
    ensures Linked(hs, Empty(n)) && Occupied(Empty(n)) == {} && Contents(Empty(n)) == map[]
  {
    assert ActiveNames(Empty(n)) == {} by {
      assert forall id, j: nat :: !ActiveAt(Empty(n), j, id);
    }
  }

  lemma PutOccupied(slots: Slots, j: nat, item: Item)
    requires j < |slots| && slots[j].None?
    ensures Occupied(Put(slots, j, item)) == Occupied(slots) + {j}
    ensures |Occupied(Put(slots, j, item))| == |Occupied(slots)| + 1 && Dead(Put(slots, j, item)) == Dead(slots)
    ensures Alive(Put(slots, j, item)) == Alive(slots) + {j}
  {
    assert Occupied(Put(slots, j, item)) == Occupied(slots) + {j};
  }

  lemma AlivePrefix(slots: Slots, k: nat)
    requires k < |slots|
    ensures var a := slots[k].Some? && slots[k].value.active;
            Alive(slots[..k + 1]) == if a then Alive(slots[..k]) + {k} else Alive(slots[..k])
    ensures k !in Alive(slots[..k]) && Alive(slots[..k + 1]) <= Alive(slots)
  {
  }

  lemma OncePrefix(slots: Slots, k: nat)
    requires Once(slots) && k <= |slots|
    ensures Once(slots[..k])
  {
    assert forall i: nat :: i < k && slots[i].Some? ==> NameAt(slots[..k], i) == NameAt(slots, i);
  }

  /** One more old slot: an active item joins the contents, anything else leaves them. */
  lemma ContentsPrefix(slots: Slots, k: nat)
    requires Once(slots) && k < |slots|
    ensures var a, b := Contents(slots[..k]), Contents(slots[..k + 1]);
            if slots[k].Some? && slots[k].value.active
            then b == a[slots[k].value.item.name := slots[k].value.item] && slots[k].value.item.name !in a
            else b == a
  {
    var p, q := slots[..k], slots[..k + 1];
    OncePrefix(slots, k);
    OncePrefix(slots, k + 1);
    var active := slots[k].Some? && slots[k].value.active;
    if active {
      var name := slots[k].value.item.name;
      assert NameAt(slots, k) == name;
      assert forall i: nat :: i < k && slots[i].Some? ==> NameAt(slots, i) != name;
      ContentsAt(q, k, name);
    }
    forall id | !active || id != slots[k].value.item.name
      ensures Lookup(Contents(q), id) == Lookup(Contents(p), id)
    {
      SameLookup(p, q, id);
    }
    SameMap(Contents(q), if active then Contents(p)[slots[k].value.item.name := slots[k].value.item] else Contents(p));
  }

  /** Moving is total and keeps the contents, as long as the live items fill less than half the new table. */
  lemma {:induction false} MovedKeeps(hs: Hashing, from: Slots, k: nat, n: nat)
    requires Legal(hs) && n in SIZES && Once(from) && k <= |from| && |Alive(from)| < (n + 1) / 2
    ensures var r := Moved(hs, from, k, n);
            && r.Some? && Linked(hs, r.value) && Contents(r.value) == Contents(from[..k])
            && |Occupied(r.value)| == |Alive(from[..k])| && Dead(r.value) == {}
    decreases k
  {
    hide Alive, Occupied, Dead, Contents, Linked, Once;
    if k == 0 {
      EmptyLinked(hs, n);
      NothingAlive(from);
    } else {
      MovedKeeps(hs, from, k - 1, n);
      MoveOne(hs, from, k - 1, n, Moved(hs, from, k - 1, n).value);
    }
  }

  lemma NothingAlive(from: Slots)
    ensures Alive(from[..0]) == {} && Contents(from[..0]) == map[]
    ensures forall n: nat :: n > 0 ==> Dead(Empty(n)) == {}
  {
    assert ActiveNames(from[..0]) == {} by {
      assert forall id, j: nat :: !ActiveAt(from[..0], j, id);
    }
  }

  lemma MoveOne(hs: Hashing, from: Slots, k: nat, n: nat, to: Slots)
    requires Legal(hs) && n in SIZES && Once(from) && k < |from| && |Alive(from)| < (n + 1) / 2
    requires Moved(hs, from, k, n) == Some(to) && Linked(hs, to) && Contents(to) == Contents(from[..k])
    requires |Occupied(to)| == |Alive(from[..k])| && Dead(to) == {}
    ensures var r := Moved(hs, from, k + 1, n);
            && r.Some? && Linked(hs, r.value) && Contents(r.value) == Contents(from[..k + 1])
            && |Occupied(r.value)| == |Alive(from[..k + 1])| && Dead(r.value) == {}
  {
    hide Alive, Occupied, Contents, Linked, Once;
    ContentsPrefix(from, k);
    AlivePrefix(from, k);
    LinkedOnce(hs, to);
    if from[k].Some? && from[k].value.active {
      var item := from[k].value.item;
      SubsetSize(Alive(from[..k + 1]), Alive(from));
      RoomyProbeEnds(hs, to, false, item.name);
      var j := StopSlot(hs, to, false, item.name).value;
      NoneDead(to, item.name);
      PutLinked(hs, to, j, item);
      PutContents(to, j, item);
      PutOccupied(to, j, item);
    }
  }

  lemma NoneStale(slots: Slots, id: string)
    requires Dead(slots) == {}
    ensures !Stale(slots, id)
  {
    forall j: nat | j < |slots| && slots[j].Some? && slots[j].value.item.name == id
      ensures slots[j].value.active
    {
      assert j !in Dead(slots);
    }
  }

  /** Without tombstones, what is stored is in the contents. */
  lemma NoneDead(slots: Slots, id: string)
    requires Once(slots) && Dead(slots) == {} && id !in Contents(slots)
    ensures !Stored(slots, id)
  {
    NoneStale(slots, id);
    NotStored(slots, id);
  }

  /** At the moment the load first passes 0.65 the items fill less than half of the next size. */
  lemma NextSizeRoomy(n: nat, count: int)
    requires n in SIZES && n != 25229 && 20 * (count - 1) <= 13 * n
    ensures var n' := NextSize(n); n'.Some? && n'.value in SIZES && 2 * count <= n'.value && n' != Some(n)
  {
  }

  /** Resizing is total and preserves meaning: from every listed size but the last, when an insertion has just
      passed the load limit, every live item finds a slot, every search returns what it returned before, and no
      tombstone is left. */
  lemma ResizeKeeps(hs: Hashing, t: Table)
    requires Legal(hs) && Valid(hs, t) && |t.slots| != 25229 && 20 * (t.count - 1) <= 13 * |t.slots|
    ensures var r := Resized(hs, t);
            && r.Some? && Valid(hs, r.value) && Contents(r.value.slots) == Contents(t.slots)
            && !Overloaded(r.value) && Roomy(r.value.slots) && r.value.deactivated == 0
            && forall id :: !Stale(r.value.slots, id)
  {
    hide Alive, Occupied, Contents, Linked, Once, Moved, SIZES;
    var slots := t.slots;
    NextSizeRoomy(|slots|, t.count);
    var n := NextSize(|slots|).value;
    SizesPrime(n);
    OddPrime(n);
    SizesPrime(|slots|);
    LinkedOnce(hs, slots);
    OccupiedParts(slots);
    MovedKeeps(hs, slots, |slots|, n);
    assert slots[..|slots|] == slots;
    forall id
      ensures !Stale(Moved(hs, slots, |slots|, n).value, id)
    {
      NoneStale(Moved(hs, slots, |slots|, n).value, id);
    }
  }
}
