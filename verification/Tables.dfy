/** The symbol table on values: open addressing with tombstones.  `SymTable` performs these operations in place. */
module Tables {
  import opened Tokens
  import opened Scopes
  import opened Primes
  import opened Probing

  /** A stored item; a deleted one stays behind as a tombstone. */
  datatype Entry = Entry(item: Item, active: bool)

  type Slots = seq<Option<Entry>>

  /** The two hash functions, of which only the ranges matter. */
  datatype Hashing = Hashing(start: (string, nat) -> nat, step: (string, nat) -> nat)

  ghost predicate Legal(hs: Hashing) {
    forall id: string, n: nat :: n > 1 ==> hs.start(id, n) < n && 0 < hs.step(id, n) < n
  }

  /** Sizes a table can have. */
  const SIZES: seq<nat> := [11, 23, 53, 107, 211, 421, 853, 1699, 3209, 6553, 12409, 25229]

  lemma SmallPrimes()
    ensures Prime(11) && Prime(23) && Prime(53) && Prime(107) && Prime(211) && Prime(421)
  {
    TrialDivision(11, 4);
    TrialDivision(23, 5);
    TrialDivision(53, 8);
    TrialDivision(107, 11);
    TrialDivision(211, 15);
    TrialDivision(421, 21);
  }

  lemma MiddlePrimes()
    ensures Prime(853) && Prime(1699) && Prime(3209)
  {
    TrialDivision(853, 30);
    TrialDivision(1699, 42);
    TrialDivision(3209, 57);
  }

  lemma LargePrimes()
    ensures Prime(6553) && Prime(12409)
  {
    TrialDivision(6553, 81);
    TrialDivision(12409, 112);
  }

  lemma LargestPrime()
    ensures Prime(25229)
  {
    TrialDivision(25229, 159);
  }

  lemma SizesPrime(n: nat)
    requires n in SIZES
    ensures Prime(n) && n > 2
  {
    hide Prime;
    SmallPrimes();
    MiddlePrimes();
    LargePrimes();
    LargestPrime();
  }

  // ----- probing -----

  /** The slot of read `k` when probing for `id`. */
  function At(hs: Hashing, slots: Slots, id: string, k: nat): (j: nat)
    requires slots != []
    ensures j < |slots|
  {
    Slot(hs.start(id, |slots|), hs.step(id, |slots|), |slots|, k)
  }

  /** Where a probe stops: at an empty slot, and when it looks for a name (`own`) at a slot of that name. */
  predicate Stop(slots: Slots, own: bool, id: string, j: nat)
    requires j < |slots|
  {
    slots[j].None? || (own && slots[j].value.item.name == id)
  }

  /** The first read from `k` on that stops, among the reads up to the table's size. */
  function FirstStop(hs: Hashing, slots: Slots, own: bool, id: string, k: nat): (r: Option<nat>)
    requires slots != []
    ensures r.Some? ==> k <= r.value <= |slots| && Stop(slots, own, id, At(hs, slots, id, r.value))
    ensures forall i: nat {:trigger At(hs, slots, id, i)} ::
              k <= i <= |slots| && (r.Some? ==> i < r.value) ==> !Stop(slots, own, id, At(hs, slots, id, i))
    decreases |slots| + 1 - k
  {
    if k > |slots| then None
    else if Stop(slots, own, id, At(hs, slots, id, k)) then Some(k)
    else FirstStop(hs, slots, own, id, k + 1)
  }

  /** The slot a probe ends in, if it ends. */
  function StopSlot(hs: Hashing, slots: Slots, own: bool, id: string): (r: Option<nat>)
    requires slots != []
    ensures r.Some? ==> r.value < |slots| && Stop(slots, own, id, r.value)
  {
    var r := FirstStop(hs, slots, own, id, 0);
    if r.Some? then Some(At(hs, slots, id, r.value)) else None
  }

  function Reached(hs: Hashing, slots: Slots, id: string): set<nat>
    requires slots != []
  {
    Reach(hs.start(id, |slots|), hs.step(id, |slots|), |slots|)
  }

  predicate PrimeSized(slots: Slots) {
    |slots| in SIZES
  }

  /** The loop of a probe ends exactly when it can reach a slot that stops it, and then within (n + 3) / 2 reads;
      otherwise it never ends. */
  lemma ProbeEnds(hs: Hashing, slots: Slots, own: bool, id: string)
    requires Legal(hs) && PrimeSized(slots)
    ensures var r := FirstStop(hs, slots, own, id, 0);
            && (r.Some? <==> exists j :: j in Reached(hs, slots, id) && j < |slots| && Stop(slots, own, id, j))
            && (r.Some? ==> r.value <= (|slots| + 1) / 2)
            && (r.None? <==> forall k: nat :: !Stop(slots, own, id, At(hs, slots, id, k)))
  {
    hide Prime, Reach, Slot, Tri, Stop;
    var n, h, s := |slots|, hs.start(id, |slots|), hs.step(id, |slots|);
    SizesPrime(n);
    ProbeReach(h, s, n);
    OddPrime(n);
    var r := FirstStop(hs, slots, own, id, 0);
    forall k: nat | Stop(slots, own, id, At(hs, slots, id, k))
      ensures r.Some? && r.value <= (n + 1) / 2
    {
      var i := ReadRepeats(h, s, n, k);
      assert At(hs, slots, id, i) == At(hs, slots, id, k);
    }
    if r.Some? {
      assert Slot(h, s, n, r.value) in Reached(hs, slots, id);
    }
    if j :| j in Reached(hs, slots, id) && j < n && Stop(slots, own, id, j) {
      var k: nat :| j == Slot(h, s, n, k);
      assert At(hs, slots, id, k) == j;
    }
  }

  function Occupied(slots: Slots): set<nat> {
    set j: nat | j < |slots| && slots[j].Some?
  }

  function Dead(slots: Slots): set<nat> {
    set j: nat | j < |slots| && slots[j].Some? && !slots[j].value.active
  }

  predicate Roomy(slots: Slots) {
    |Occupied(slots)| < (|slots| + 1) / 2
  }

  /** With fewer than (n + 1) / 2 slots occupied every probe ends. */
  lemma RoomyProbeEnds(hs: Hashing, slots: Slots, own: bool, id: string)
    requires Legal(hs) && PrimeSized(slots) && Roomy(slots)
    ensures StopSlot(hs, slots, own, id).Some?
  {
    hide Prime, Slot, Tri;
    var n := |slots|;
    SizesPrime(n);
    var k := FreeSlotReached(hs.start(id, n), hs.step(id, n), n, Occupied(slots));
    assert At(hs, slots, id, k) !in Occupied(slots);
    assert Stop(slots, own, id, At(hs, slots, id, k));
    ProbeEnds(hs, slots, own, id);
  }

  // ----- the table as a map -----

  /** Every stored name is found where it is stored; in particular no name is stored twice. */
  predicate Linked(hs: Hashing, slots: Slots) {
    forall j: nat :: j < |slots| && slots[j].Some? ==> StopSlot(hs, slots, true, slots[j].value.item.name) == Some(j)
  }

  predicate ActiveAt(slots: Slots, j: nat, id: string) {
    j < |slots| && slots[j].Some? && slots[j].value.active && slots[j].value.item.name == id
  }

  function NameAt(slots: Slots, j: nat): string
    requires j < |slots| && slots[j].Some?
  {
    slots[j].value.item.name
  }

  function ActiveNames(slots: Slots): (names: set<string>)
    ensures forall id :: id in names <==> exists j: nat :: ActiveAt(slots, j, id)
  {
    var names := set j: nat | j < |slots| && slots[j].Some? && slots[j].value.active :: NameAt(slots, j);
    assert forall id, j: nat :: ActiveAt(slots, j, id) ==> NameAt(slots, j) == id;
    assert forall j: nat :: j < |slots| && slots[j].Some? && slots[j].value.active ==>
      ActiveAt(slots, j, NameAt(slots, j));
    names
  }

  ghost function Where(slots: Slots, id: string): (j: nat)
    requires id in ActiveNames(slots)
    ensures ActiveAt(slots, j, id)
  {
    var j: nat :| ActiveAt(slots, j, id); j
  }

  /** The active items by name. */
  ghost function Contents(slots: Slots): Scope {
    map id | id in ActiveNames(slots) :: slots[Where(slots, id)].value.item
  }

  /** What a search returns once it has ended in slot `j`. */
  function Found(slots: Slots, j: nat): Option<Item>
    requires j < |slots|
  {
    if slots[j].Some? && slots[j].value.active then Some(slots[j].value.item) else None
  }

  predicate Stored(slots: Slots, id: string) {
    exists j: nat :: j < |slots| && slots[j].Some? && slots[j].value.item.name == id
  }

  /** The tombstone of `id` is still in the table. */
  predicate Stale(slots: Slots, id: string) {
    exists j: nat :: j < |slots| && slots[j].Some? && slots[j].value.item.name == id && !slots[j].value.active
  }

  /** No name is stored twice. */
  predicate Once(slots: Slots) {
    forall i: nat, j: nat :: i < |slots| && j < |slots| && slots[i].Some? && slots[j].Some? ==>
      NameAt(slots, i) == NameAt(slots, j) ==> i == j
  }

  lemma LinkedOnce(hs: Hashing, slots: Slots)
    requires slots != [] && Linked(hs, slots)
    ensures Once(slots)
  {
    hide StopSlot;
    forall i: nat, j: nat | i < |slots| && j < |slots| && slots[i].Some? && slots[j].Some? &&
                            NameAt(slots, i) == NameAt(slots, j)
      ensures i == j
    {
      assert StopSlot(hs, slots, true, NameAt(slots, i)) == Some(i);
    }
  }

  lemma ContentsAt(slots: Slots, j: nat, id: string)
    requires Once(slots) && ActiveAt(slots, j, id)
    ensures id in Contents(slots) && Contents(slots)[id] == slots[j].value.item
  {
    assert NameAt(slots, Where(slots, id)) == NameAt(slots, j);
  }

  /** The table refines a map: a search that ends returns exactly the map's answer. */
  lemma SearchRefinesMap(hs: Hashing, slots: Slots, id: string)
    requires slots != [] && Linked(hs, slots)
    ensures var j := StopSlot(hs, slots, true, id);
            if j.Some? then Found(slots, j.value) == Lookup(Contents(slots), id) else !Stored(slots, id)
  {
    hide FirstStop;
    LinkedOnce(hs, slots);
    var j := StopSlot(hs, slots, true, id);
    if id in Contents(slots) {
      ContentsAt(slots, Where(slots, id), id);
    } else if j.Some? {
      assert !ActiveAt(slots, j.value, id);
    }
  }

  // ----- insertion and deletion -----

  function Put(slots: Slots, j: nat, item: Item): Slots
    requires j < |slots|
  {
    slots[j := Some(Entry(item, true))]
  }

  function Bury(slots: Slots, j: nat): Slots
    requires j < |slots| && slots[j].Some?
  {
    slots[j := Some(slots[j].value.(active := false))]
  }

  /** A probe only depends on where it would stop. */
  lemma SameStops(hs: Hashing, a: Slots, b: Slots, own: bool, own': bool, id: string)
    requires a != [] && |a| == |b| && FirstStop(hs, a, own, id, 0).Some?
    requires var r := FirstStop(hs, a, own, id, 0).value;
             Stop(b, own', id, At(hs, a, id, r)) &&
             forall i: nat {:trigger At(hs, a, id, i)} :: i < r ==> !Stop(b, own', id, At(hs, a, id, i))
    ensures StopSlot(hs, b, own', id) == StopSlot(hs, a, own, id)
  {
    hide Stop;
    var r := FirstStop(hs, a, own, id, 0).value;
    assert forall i: nat :: At(hs, a, id, i) == At(hs, b, id, i);
    assert At(hs, b, id, r) == At(hs, a, id, r);
  }

  /** Filling an empty slot changes no probe that ends at its name. */
  lemma PutKeepsProbe(hs: Hashing, slots: Slots, j: nat, item: Item, id: string)
    requires j < |slots| && slots[j].None?
    requires var i := StopSlot(hs, slots, true, id); i.Some? && slots[i.value].Some?
    ensures StopSlot(hs, Put(slots, j, item), true, id) == StopSlot(hs, slots, true, id)
  {
    SameStops(hs, slots, Put(slots, j, item), true, true, id);
  }

  /** The probe for a new name ends at the slot it is put in. */
  lemma PutEndsProbe(hs: Hashing, slots: Slots, j: nat, item: Item)
    requires slots != [] && !Stored(slots, item.name) && StopSlot(hs, slots, false, item.name) == Some(j)
    ensures StopSlot(hs, Put(slots, j, item), true, item.name) == Some(j)
  {
    SameStops(hs, slots, Put(slots, j, item), false, true, item.name);
  }

  /** A new name goes to the first empty slot of its probe: all names stay linked. */
  lemma PutLinked(hs: Hashing, slots: Slots, j: nat, item: Item)
    requires slots != [] && Linked(hs, slots) && !Stored(slots, item.name)
    requires StopSlot(hs, slots, false, item.name) == Some(j)
    ensures Linked(hs, Put(slots, j, item))
  {
    hide StopSlot;
    var slots' := Put(slots, j, item);
    PutEndsProbe(hs, slots, j, item);
    forall i: nat | i < |slots'| && slots'[i].Some? && i != j
      ensures StopSlot(hs, slots', true, slots'[i].value.item.name) == Some(i)
    {
      PutKeepsProbe(hs, slots, j, item, slots[i].value.item.name);
    }
  }

  lemma BuryLinked(hs: Hashing, slots: Slots, j: nat)
    requires slots != [] && Linked(hs, slots) && j < |slots| && slots[j].Some?
    ensures Linked(hs, Bury(slots, j))
  {
    var slots' := Bury(slots, j);
    forall i: nat | i < |slots'| && slots'[i].Some?
      ensures StopSlot(hs, slots', true, slots'[i].value.item.name) == Some(i)
    {
      SameStops(hs, slots, slots', true, true, slots[i].value.item.name);
    }
  }

  lemma PutContents(slots: Slots, j: nat, item: Item)
    requires j < |slots| && slots[j].None? && Once(slots) && !Stored(slots, item.name)
    ensures Once(Put(slots, j, item)) && Contents(Put(slots, j, item)) == Contents(slots)[item.name := item]
  {
    var slots' := Put(slots, j, item);
    assert forall i: nat :: i < |slots| && i != j && slots[i].Some? ==> NameAt(slots', i) == NameAt(slots, i);
    ContentsAt(slots', j, item.name);
    forall id | id != item.name
      ensures Lookup(Contents(slots'), id) == Lookup(Contents(slots), id)
    {
      SameLookup(slots, slots', id);
    }
    SameMap(Contents(slots'), Contents(slots)[item.name := item]);
  }

  lemma BuryContents(slots: Slots, j: nat, id: string)
    requires Once(slots) && ActiveAt(slots, j, id)
    ensures Contents(Bury(slots, j)) == Contents(slots) - {id}
  {
    var slots' := Bury(slots, j);
    assert forall i: nat :: i < |slots| && slots[i].Some? ==> NameAt(slots', i) == NameAt(slots, i);
    forall i: nat
      ensures !ActiveAt(slots', i, id)
    {
      assert i < |slots| && slots[i].Some? && slots[i].value.item.name == id ==>
        NameAt(slots, i) == NameAt(slots, j);
    }
    forall other | other != id
      ensures Lookup(Contents(slots'), other) == Lookup(Contents(slots), other)
    {
      SameLookup(slots, slots', other);
    }
    SameMap(Contents(slots'), Contents(slots) - {id});
  }

  /** Two tables with the same active entry for a name agree on it. */
  lemma SameLookup(a: Slots, b: Slots, id: string)
    requires Once(a) && Once(b)
    requires forall j: nat :: ActiveAt(a, j, id) ==> j < |b| && b[j] == a[j]
    requires forall j: nat :: ActiveAt(b, j, id) ==> j < |a| && a[j] == b[j]
    ensures Lookup(Contents(a), id) == Lookup(Contents(b), id)
  {
    if id in Contents(a) {
      var j := Where(a, id);
      ContentsAt(a, j, id);
      ContentsAt(b, j, id);
    } else if id in Contents(b) {
      assert ActiveAt(a, Where(b, id), id);
    }
  }

  lemma SameMap(a: Scope, b: Scope)
    requires forall id :: Lookup(a, id) == Lookup(b, id)
    ensures a == b
  {
    forall id
      ensures id in a <==> id in b
      ensures id in a ==> a[id] == b[id]
    {
      assert Lookup(a, id) == Lookup(b, id);
    }
  }

  /** Re-inserting a deleted name whose tombstone is still stored puts it behind the tombstone: a search finds
      the inserted item exactly when no such tombstone is there. */
  lemma InsertFindsUnlessStale(hs: Hashing, slots: Slots, j: nat, item: Item)
    requires Legal(hs) && PrimeSized(slots) && Linked(hs, slots) && item.name !in Contents(slots)
    requires StopSlot(hs, slots, false, item.name) == Some(j)
    ensures var found := StopSlot(hs, Put(slots, j, item), true, item.name);
            found.Some? && (Found(Put(slots, j, item), found.value) == Some(item) <==> !Stale(slots, item.name))
  {
    hide Once, StopSlot;
    var id := item.name;
    LinkedOnce(hs, slots);
    if Stale(slots, id) {
      var i: nat :| i < |slots| && slots[i].Some? && slots[i].value.item.name == id && !slots[i].value.active;
      PutKeepsProbe(hs, slots, j, item, id);
    } else {
      NotStored(slots, id);
      PutEndsProbe(hs, slots, j, item);
    }
  }

  lemma NotStored(slots: Slots, id: string)
    requires Once(slots) && !Stale(slots, id) && id !in Contents(slots)
    ensures !Stored(slots, id)
  {
    if i: nat :| i < |slots| && slots[i].Some? && slots[i].value.item.name == id {
      assert ActiveAt(slots, i, id);
      assert false;
    }
  }
}
