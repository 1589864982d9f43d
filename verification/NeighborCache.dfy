/**
 The neighbor cache: a small map from protocol to hardware addresses with expiry, eviction of the entry
 that expires first, and a rate limit on discovery. Times are in microseconds.
 */
module NeighborCache {
  import opened Common

  const SILENT_TIME: nat := 1_000_000
  const ENTRY_LIFETIME: nat := 60_000_000

  type Address = nat
  type Hardware = nat

  datatype Entry = Entry(addr: Address, hardware: Hardware, expiresAt: int)

  datatype Answer = Found(hardware: Hardware) | NotFound | RateLimited

  // ---- the bounded map, an array of pairs in no particular order ----

  function IndexFrom(s: seq<Entry>, addr: Address, from: nat): (r: Option<nat>)
    requires from <= |s|
    ensures r.Some? ==> from <= r.value < |s| && s[r.value].addr == addr
    ensures r.None? ==> forall i :: from <= i < |s| ==> s[i].addr != addr
    decreases |s| - from
  {
    if from == |s| then None
    else if s[from].addr == addr then Some(from)
    else IndexFrom(s, addr, from + 1)
  }

  function IndexOf(s: seq<Entry>, addr: Address): (r: Option<nat>)
    ensures r.Some? ==> r.value < |s| && s[r.value].addr == addr
    ensures r.None? ==> forall i :: 0 <= i < |s| ==> s[i].addr != addr
  {
    IndexFrom(s, addr, 0)
  }

  /** What the map holds for `addr`. */
  function Get(s: seq<Entry>, addr: Address): Option<Entry> {
    var i := IndexOf(s, addr);
    if i.None? then None else Some(s[i.value])
  }

  /** None if the map is full and does not hold the address. */
  function Insert(s: seq<Entry>, capacity: nat, e: Entry): Option<seq<Entry>> {
    var i := IndexOf(s, e.addr);
    if i.Some? then Some(s[i.value := e])
    else if |s| < capacity then Some(s + [e])
    else None
  }

  /** The last entry takes the place of the removed one. */
  function RemoveAt(s: seq<Entry>, i: nat): seq<Entry>
    requires i < |s|
  {
    s[i := s[|s| - 1]][..|s| - 1]
  }

  /** The first entry with the least expiry from `from` on, or the one at `best`. */
  function OldestFrom(s: seq<Entry>, from: nat, best: nat): (r: nat)
    requires best < |s| && from <= |s|
    ensures r < |s| && s[r].expiresAt <= s[best].expiresAt
    ensures forall i :: from <= i < |s| ==> s[r].expiresAt <= s[i].expiresAt
    decreases |s| - from
  {
    if from == |s| then best
    else OldestFrom(s, from + 1, if s[from].expiresAt < s[best].expiresAt then from else best)
  }

  function Oldest(s: seq<Entry>): (r: nat)
    requires s != []
    ensures r < |s| && forall i :: 0 <= i < |s| ==> s[r].expiresAt <= s[i].expiresAt
  {
    OldestFrom(s, 1, 0)
  }

  /** `fill_with_expiration`: insert, evicting the entry that expires first if there is no room. */
  function Fill(s: seq<Entry>, capacity: nat, e: Entry): seq<Entry>
    requires 1 <= capacity && |s| <= capacity && Distinct(s)
  {
    var inserted := Insert(s, capacity, e);
    if inserted.Some? then inserted.value
    else
      RemoveDistinct(s, Oldest(s));
      Insert(RemoveAt(s, Oldest(s)), capacity, e).value
  }

  function Lookup(s: seq<Entry>, silentUntil: int, addr: Address, now: int): Answer {
    var found := Get(s, addr);
    if found.Some? && now < found.value.expiresAt then Found(found.value.hardware)
    else if now < silentUntil then RateLimited
    else NotFound
  }

  // ---- it is a map ----

  predicate Distinct(s: seq<Entry>) {
    forall i, j :: 0 <= i < j < |s| ==> s[i].addr != s[j].addr
  }

  lemma GetIs(s: seq<Entry>, i: nat)
    requires Distinct(s) && i < |s|
    ensures Get(s, s[i].addr) == Some(s[i])
  {
  }

  lemma RemoveDistinct(s: seq<Entry>, i: nat)
    requires Distinct(s) && i < |s|
    ensures var r := RemoveAt(s, i);
      && |r| == |s| - 1 && Distinct(r)
      && forall j :: 0 <= j < |r| ==> r[j].addr != s[i].addr && r[j] == s[if j == i then |s| - 1 else j]
  {
  }

  lemma RemoveMeaning(s: seq<Entry>, i: nat, b: Address)
    requires Distinct(s) && i < |s|
    ensures Distinct(RemoveAt(s, i))
    ensures Get(RemoveAt(s, i), b) == if b == s[i].addr then None else Get(s, b)
  {
    RemoveDistinct(s, i);
    var r := RemoveAt(s, i);
    var k := IndexOf(s, b);
    if k.Some? && b != s[i].addr {
      var j := if k.value == |s| - 1 then i else k.value;
      assert r[j] == s[k.value];
      GetIs(r, j);
    }
  }

  lemma InsertMeaning(s: seq<Entry>, capacity: nat, e: Entry, b: Address)
    requires Distinct(s) && |s| <= capacity && Insert(s, capacity, e).Some?
    ensures var r := Insert(s, capacity, e).value;
      && Distinct(r) && |r| <= capacity
      && Get(r, b) == if b == e.addr then Some(e) else Get(s, b)
  {
    var r := Insert(s, capacity, e).value;
    var i, k := IndexOf(s, e.addr), IndexOf(s, b);
    GetIs(r, if i.Some? then i.value else |s|);
    if k.Some? && b != e.addr {
      assert r[k.value] == s[k.value];
      GetIs(r, k.value);
    }
  }

  /** Whether filling `addr` has to evict something. */
  predicate Evicts(s: seq<Entry>, capacity: nat, addr: Address) {
    |s| == capacity && Get(s, addr).None?
  }

  /**
   Filling never fails: the address gets the new entry, every other keeps its own, except that a full
   cache without the address first drops an entry that expires no later than any other.
   */
  lemma FillMeaning(s: seq<Entry>, capacity: nat, e: Entry, b: Address)
    requires 1 <= capacity && |s| <= capacity && Distinct(s)
    ensures var r := Fill(s, capacity, e);
      && Distinct(r) && |r| <= capacity
      && Get(r, b) == (if b == e.addr then Some(e)
                       else if Evicts(s, capacity, e.addr) && b == s[Oldest(s)].addr then None
                       else Get(s, b))
  {
    if Insert(s, capacity, e).Some? {
      InsertMeaning(s, capacity, e, b);
    } else {
      var i := Oldest(s);
      RemoveDistinct(s, i);
      RemoveMeaning(s, i, b);
      RemoveMeaning(s, i, e.addr);
      InsertMeaning(RemoveAt(s, i), capacity, e, b);
    }
  }

  // ---- the object ----

  class Cache {
    const capacity: nat
    var storage: seq<Entry>
    var silentUntil: int

    predicate Valid()
      reads this
    {
      1 <= capacity && |storage| <= capacity && Distinct(storage)
    }

    constructor (capacity: nat)
      requires 1 <= capacity
      ensures Valid() && this.capacity == capacity && storage == [] && silentUntil == 0
    {
      this.capacity := capacity;
      storage := [];
      silentUntil := 0;
    }

    method Find(addr: Address) returns (r: Option<nat>)
      ensures r == IndexOf(storage, addr)
    {
      var i := 0;
      while i < |storage|
        invariant 0 <= i <= |storage| && IndexOf(storage, addr) == IndexFrom(storage, addr, i)
      {
        if storage[i].addr == addr {
          return Some(i);
        }
        i := i + 1;
      }
      r := None;
    }

    method FindOldest() returns (r: nat)
      requires storage != []
      ensures r == Oldest(storage)
      ensures r < |storage| && forall i :: 0 <= i < |storage| ==> storage[r].expiresAt <= storage[i].expiresAt
    {
      r := 0;
      var i := 1;
      while i < |storage|
        invariant 1 <= i <= |storage| && r < |storage|
        invariant Oldest(storage) == OldestFrom(storage, i, r)
      {
        if storage[i].expiresAt < storage[r].expiresAt {
          r := i;
        }
        i := i + 1;
      }
    }

    method FillWithExpiration(addr: Address, hardware: Hardware, expiresAt: int)
      requires Valid()
      modifies this`storage
      ensures Valid() && storage == Fill(old(storage), capacity, Entry(addr, hardware, expiresAt))
    {
      var e := Entry(addr, hardware, expiresAt);
      FillMeaning(storage, capacity, e, addr);
      var i := Find(addr);
      if i.Some? {
        storage := storage[i.value := e];
      } else if |storage| < capacity {
        storage := storage + [e];
      } else {
        var oldest := FindOldest();
        RemoveMeaning(storage, oldest, addr);
        RemoveDistinct(storage, oldest);
        storage := RemoveAt(storage, oldest);
        storage := storage + [e];
      }
    }

    method FillNow(addr: Address, hardware: Hardware, now: int)
      requires Valid()
      modifies this`storage
      ensures Valid() && storage == Fill(old(storage), capacity, Entry(addr, hardware, now + 60_000_000))
    {
      FillWithExpiration(addr, hardware, now + ENTRY_LIFETIME);
    }

    method LookUp(addr: Address, now: int) returns (a: Answer)
      ensures a == Lookup(storage, silentUntil, addr, now)
    {
      var i := Find(addr);
      if i.Some? {
        if now < storage[i.value].expiresAt {
          return Found(storage[i.value].hardware);
        }
      }
      if now < silentUntil {
        a := RateLimited;
      } else {
        a := NotFound;
      }
    }

    /** For one second an address that is not found is not asked for either, and after it no address is held back. */
    method LimitRate(now: int)
      modifies this`silentUntil
      ensures forall addr: Address, t: int ::
        t < now + 1_000_000 ==> !Lookup(storage, silentUntil, addr, t).NotFound?
      ensures forall addr: Address, t: int ::
        t >= now + 1_000_000 ==> !Lookup(storage, silentUntil, addr, t).RateLimited?
    {
      silentUntil := now + SILENT_TIME;
    }

    method Flush()
      requires Valid()
      modifies this`storage
      ensures Valid() && storage == []
    {
      storage := [];
    }
  }
}
