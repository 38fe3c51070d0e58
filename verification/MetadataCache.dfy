/** The bounded account-metadata cache: a map plus a ring of its keys in insertion order. */
module MetadataCache {
  import opened Wrappers
  import opened TigerBeetle
  import opened AccountModel

  datatype Contents = Contents(entries: map<Id, Metadata>, keys: seq<Id>, next: nat, limit: nat)

  /** The ring holds each cached ID once and nothing else; `next` moves only while the ring is full. */
  ghost predicate WellFormed(c: Contents) {
    && |c.keys| == |c.entries| <= c.limit
    && (forall id :: id in c.keys <==> id in c.entries)
    && (forall i, j :: 0 <= i < j < |c.keys| ==> c.keys[i] != c.keys[j])
    && (if |c.keys| < c.limit || c.limit == 0 then c.next == 0 else c.next < c.limit)
  }

  type Ring = c: Contents | WellFormed(c) witness Contents(map[], [], 0, 0)

  function Empty(limit: int): Ring {
    Contents(map[], [], 0, if limit < 0 then 0 else limit)
  }

  function Load(c: Ring, id: Id): Option<Metadata> {
    if c.limit == 0 then None else if id in c.entries then Some(c.entries[id]) else None
  }

  function Store(c: Ring, id: Id, metadata: Metadata): Ring {
    if c.limit == 0 then c
    else if id in c.entries then c.(entries := c.entries[id := metadata])
    else if |c.entries| < c.limit then
      c.(entries := c.entries[id := metadata], keys := c.keys + [id])
    else
      EvictionIsWellFormed(c, id, metadata);
      Evict(c, id, metadata)
  }

  function Evict(c: Contents, id: Id, metadata: Metadata): Contents
    requires c.next < |c.keys| && 0 < c.limit
  {
    c.(entries := (c.entries - {c.keys[c.next]})[id := metadata],
       keys := c.keys[c.next := id],
       next := (c.next + 1) % c.limit)
  }

  lemma EvictionIsWellFormed(c: Ring, id: Id, metadata: Metadata)
    requires 0 < c.limit == |c.keys| && id !in c.entries
    ensures WellFormed(Evict(c, id, metadata))
  {
    var evicted := c.keys[c.next];
    assert evicted in c.entries;
    var kept := c.entries - {evicted};
    assert kept.Keys == c.entries.Keys - {evicted};
    var c' := Evict(c, id, metadata);
    assert c'.entries.Keys == kept.Keys + {id};
    forall k | k in c'.entries
      ensures k in c'.keys
    {
      if k == id {
        assert c'.keys[c.next] == id;
      } else {
        var i :| 0 <= i < |c.keys| && c.keys[i] == k;
        assert c'.keys[i] == k;
      }
    }
  }

  // ----- The ring as a queue -----

  /** The cached IDs, oldest first. */
  function Order(c: Ring): seq<Id> {
    Rotated(c.keys, c.next)
  }

  function Rotated(keys: seq<Id>, next: nat): seq<Id>
    requires next <= |keys|
  {
    keys[next..] + keys[..next]
  }

  /** A queue of at most `limit` IDs: a new ID goes to the back, and pushes the front out when the queue is full. */
  function Enqueue(queue: seq<Id>, limit: nat, id: Id): seq<Id> {
    if limit == 0 || id in queue then queue
    else if |queue| < limit then queue + [id]
    else queue[1..] + [id]
  }

  /** Overwriting the oldest slot and stepping past it drops the front of the queue and appends at the back. */
  lemma OverwriteRotates(keys: seq<Id>, next: nat, id: Id)
    requires next < |keys|
    ensures (next + 1) % |keys| <= |keys|
    ensures Rotated(keys[next := id], (next + 1) % |keys|) == Rotated(keys, next)[1..] + [id]
  {
    var keys' := keys[next := id];
    if next + 1 == |keys| {
      assert (next + 1) % |keys| == 0;
      assert Rotated(keys', 0) == keys';
    } else {
      assert (next + 1) % |keys| == next + 1;
      assert keys'[..next + 1] == keys[..next] + [id];
    }
  }

  lemma RingShape(c: Ring)
    ensures |c.keys| == |c.entries| <= c.limit && c.next <= |c.keys|
    ensures |c.keys| < c.limit ==> c.next == 0
    ensures 0 < |c.keys| == c.limit ==> c.next < c.limit
  {
  }

  /** The ring refines that queue. */
  lemma StoreRefinesQueue(c: Ring, id: Id, metadata: Metadata)
    ensures Order(Store(c, id, metadata)) == Enqueue(Order(c), c.limit, id)
    ensures Store(c, id, metadata).limit == c.limit
  {
    OrderHasKeys(c);
    RingShape(c);
    RingShape(Store(c, id, metadata));
    hide WellFormed;
    if c.limit != 0 && id !in c.entries {
      if |c.entries| < c.limit {
        assert Rotated(c.keys + [id], 0) == c.keys + [id] == Rotated(c.keys, 0) + [id];
      } else {
        OverwriteRotates(c.keys, c.next, id);
      }
    }
  }

  /** What a lookup finds afterwards: the stored value, the earlier value of a queued ID, nothing for any other. */
  lemma StoreThenLoad(c: Ring, id: Id, metadata: Metadata, k: Id)
    ensures Load(Store(c, id, metadata), k)
         == (if k !in Enqueue(Order(c), c.limit, id) then None else if k == id then Some(metadata) else Load(c, k))
  {
    var c' := Store(c, id, metadata);
    StoreRefinesQueue(c, id, metadata);
    OrderHasKeys(c');
    hide Order, Enqueue;
    if k in c'.entries {
      StoreKeepsValues(c, id, metadata, k);
    }
  }

  lemma StoreKeepsValues(c: Ring, id: Id, metadata: Metadata, k: Id)
    requires k in Store(c, id, metadata).entries
    ensures Load(Store(c, id, metadata), k) == if k == id then Some(metadata) else Load(c, k)
  {
  }

  lemma OrderHasKeys(c: Ring)
    ensures forall k :: k in Order(c) <==> k in c.entries
  {
  }

  function StoreAll(c: Ring, stores: seq<(Id, Metadata)>): Ring
    decreases |stores|
  {
    if stores == [] then c else StoreAll(Store(c, stores[0].0, stores[0].1), stores[1..])
  }

  /** How many of the stores bring in an ID that is absent at that moment. */
  function NewInsertions(c: Ring, stores: seq<(Id, Metadata)>): nat
    decreases |stores|
  {
    if stores == [] then 0
    else (if c.limit != 0 && stores[0].0 !in c.entries then 1 else 0)
         + NewInsertions(Store(c, stores[0].0, stores[0].1), stores[1..])
  }

  /** The place of a cached ID in the eviction order, counting the free places before the queue is full. */
  ghost predicate PlacesLeft(c: Ring, id: Id, places: nat) {
    exists i :: 0 <= i < |Order(c)| && Order(c)[i] == id && places == i + (c.limit - |Order(c)|)
  }

  lemma OrderIsDistinct(c: Ring, i: nat, j: nat)
    requires i < j < |Order(c)|
    ensures Order(c)[i] != Order(c)[j]
  {
  }

  lemma OrderShape(c: Ring)
    ensures |Order(c)| == |c.entries| <= c.limit
  {
  }

  lemma StoreMovesPlace(c: Ring, id: Id, places: nat, key: Id, metadata: Metadata)
    requires PlacesLeft(c, id, places) && key != id
    ensures key in c.entries ==> PlacesLeft(Store(c, key, metadata), id, places)
    ensures key !in c.entries && places > 0 ==> PlacesLeft(Store(c, key, metadata), id, places - 1)
    ensures key !in c.entries && places == 0 ==> id !in Store(c, key, metadata).entries
  {
    hide WellFormed, Store, Order;
    var c' := Store(c, key, metadata);
    StoreRefinesQueue(c, key, metadata);
    OrderHasKeys(c);
    OrderHasKeys(c');
    OrderShape(c);
    var i :| 0 <= i < |Order(c)| && Order(c)[i] == id && places == i + (c.limit - |Order(c)|);
    if key in c.entries {
      assert Order(c')[i] == id;
    } else if |Order(c)| < c.limit {
      assert Order(c')[i] == id;
    } else if i > 0 {
      assert Order(c')[i - 1] == id;
    } else {
      forall j | 0 <= j < |Order(c')|
        ensures Order(c')[j] != id
      {
        if j < |Order(c')| - 1 { OrderIsDistinct(c, 0, j + 1); }
      }
    }
  }

  /** Storing a cached ID again neither evicts anything nor prolongs anything's stay. */
  lemma ReStoreKeepsPlace(c: Ring, id: Id, places: nat, metadata: Metadata)
    requires PlacesLeft(c, id, places)
    ensures PlacesLeft(Store(c, id, metadata), id, places)
  {
    StoreRefinesQueue(c, id, metadata);
    OrderHasKeys(c);
    hide Order, Store;
  }

  lemma PlacedIsCached(c: Ring, id: Id, places: nat)
    requires PlacesLeft(c, id, places)
    ensures id in c.entries && c.limit != 0
  {
  }

  /** The ID is in the cache now and after each of the stores. */
  predicate StaysCached(c: Ring, id: Id, stores: seq<(Id, Metadata)>) {
    forall k :: 0 <= k <= |stores| ==> id in StoreAll(c, stores[..k]).entries
  }

  /** It stays if and only if it is there now and stays from the first store on. */
  lemma StaysFromFirst(c: Ring, id: Id, stores: seq<(Id, Metadata)>)
    requires stores != []
    ensures StaysCached(c, id, stores)
       <==> id in c.entries && StaysCached(Store(c, stores[0].0, stores[0].1), id, stores[1..])
  {
    var c' := Store(c, stores[0].0, stores[0].1);
    hide WellFormed, Store;
    forall k | 0 < k <= |stores|
      ensures StoreAll(c, stores[..k]) == StoreAll(c', stores[1..][..k - 1])
    {
      assert stores[..k][1..] == stores[1..][..k - 1];
    }
    assert StoreAll(c, stores[..0]) == c;
    if StaysCached(c, id, stores) {
      forall k | 0 <= k <= |stores[1..]|
        ensures id in StoreAll(c', stores[1..][..k]).entries
      {
        assert StoreAll(c, stores[..k + 1]) == StoreAll(c', stores[1..][..k]);
      }
    }
  }

  lemma {:induction false} StaysByPlaces(c: Ring, id: Id, places: nat, stores: seq<(Id, Metadata)>)
    requires PlacesLeft(c, id, places)
    ensures StaysCached(c, id, stores) <==> NewInsertions(c, stores) <= places
    decreases |stores|
  {
    hide WellFormed, PlacesLeft, Store, Order;
    PlacedIsCached(c, id, places);
    if stores != [] {
      var key, metadata := stores[0].0, stores[0].1;
      var c' := Store(c, key, metadata);
      StaysFromFirst(c, id, stores);
      hide StaysCached;
      if key == id {
        ReStoreKeepsPlace(c, id, places, metadata);
        StaysByPlaces(c', id, places, stores[1..]);
      } else {
        StoreMovesPlace(c, id, places, key, metadata);
        if key in c.entries {
          StaysByPlaces(c', id, places, stores[1..]);
        } else if places > 0 {
          StaysByPlaces(c', id, places - 1, stores[1..]);
        } else if StaysCached(c', id, stores[1..]) {
          StaysNow(c', id, stores[1..]);
        }
      }
    }
  }

  lemma StaysNow(c: Ring, id: Id, stores: seq<(Id, Metadata)>)
    requires StaysCached(c, id, stores)
    ensures id in c.entries
  {
    assert StoreAll(c, stores[..0]) == c;
  }

  lemma NewestPlace(c: Ring, id: Id, metadata: Metadata)
    requires c.limit > 0 && id !in c.entries
    ensures PlacesLeft(Store(c, id, metadata), id, c.limit - 1)
  {
    var c' := Store(c, id, metadata);
    StoreRefinesQueue(c, id, metadata);
    OrderHasKeys(c);
    hide Order, Store;
    assert Order(c')[|Order(c')| - 1] == id;
  }

  lemma {:induction false} AbsentStaysAbsent(c: Ring, id: Id, stores: seq<(Id, Metadata)>)
    requires id !in c.entries && forall i :: 0 <= i < |stores| ==> stores[i].0 != id
    ensures id !in StoreAll(c, stores).entries
    decreases |stores|
  {
    hide WellFormed;
    if stores != [] {
      AbsentStaysAbsent(Store(c, stores[0].0, stores[0].1), id, stores[1..]);
    }
  }

  lemma {:induction false} StoreAllSplits(c: Ring, stores: seq<(Id, Metadata)>, k: nat)
    requires k <= |stores|
    ensures StoreAll(c, stores) == StoreAll(StoreAll(c, stores[..k]), stores[k..])
    decreases k
  {
    hide WellFormed, Store;
    if k > 0 {
      StoreAllSplits(Store(c, stores[0].0, stores[0].1), stores[1..], k - 1);
      assert stores[..k][1..] == stores[1..][..k - 1] && stores[1..][k - 1..] == stores[k..];
    }
  }

  /** An absent ID comes back only by being stored anew. */
  lemma {:induction false} BroughtBack(c: Ring, id: Id, stores: seq<(Id, Metadata)>, gone: nat) returns (k: nat)
    requires gone <= |stores| && id !in StoreAll(c, stores[..gone]).entries && id in StoreAll(c, stores).entries
    ensures k < |stores| && stores[k].0 == id && id !in StoreAll(c, stores[..k]).entries
    decreases |stores| - gone
  {
    hide WellFormed, Store, StoreAll;
    assert stores[..|stores|] == stores;
    k := gone;
    if stores[gone].0 != id {
      StoreAllSplits(c, stores[..gone + 1], gone);
      assert stores[..gone + 1][..gone] == stores[..gone] && stores[..gone + 1][gone..] == [stores[gone]];
      AbsentStaysAbsent(StoreAll(c, stores[..gone]), id, [stores[gone]]);
      k := BroughtBack(c, id, stores, gone + 1);
    }
  }

  /** A newly cached ID stays cached, through any further stores, exactly as long as fewer than `limit` of them bring in
      an ID that is absent at that moment. Storing the ID itself again counts for nothing: the ring is first in, first
      out, not least recently used. */
  lemma NewEntrySurvives(c: Ring, id: Id, metadata: Metadata, stores: seq<(Id, Metadata)>)
    requires c.limit > 0 && id !in c.entries
    ensures StaysCached(Store(c, id, metadata), id, stores)
       <==> NewInsertions(Store(c, id, metadata), stores) < c.limit
  {
    hide WellFormed, PlacesLeft, Store, Order, StaysCached;
    NewestPlace(c, id, metadata);
    StaysByPlaces(Store(c, id, metadata), id, c.limit - 1, stores);
  }

  /** The store at position `k` brings the absent ID in, and the entry is not evicted again. */
  predicate LastInsertion(c: Ring, id: Id, stores: seq<(Id, Metadata)>, k: nat) {
    && k < |stores| && stores[k].0 == id && id !in StoreAll(c, stores[..k]).entries
    && NewInsertions(StoreAll(c, stores[..k + 1]), stores[k + 1..]) < c.limit
  }

  lemma StoreAllStep(c: Ring, stores: seq<(Id, Metadata)>, k: nat)
    requires k < |stores|
    ensures StoreAll(c, stores[..k + 1]) == Store(StoreAll(c, stores[..k]), stores[k].0, stores[k].1)
    ensures StoreAll(c, stores) == StoreAll(StoreAll(c, stores[..k + 1]), stores[k + 1..])
  {
    hide WellFormed, Store;
    StoreAllSplits(c, stores, k + 1);
    StoreAllSplits(c, stores[..k + 1], k);
    assert stores[..k + 1][..k] == stores[..k] && stores[..k + 1][k..] == [stores[k]];
  }

  lemma {:induction false} StoreAllKeepsLimit(c: Ring, stores: seq<(Id, Metadata)>)
    ensures StoreAll(c, stores).limit == c.limit
    decreases |stores|
  {
    hide WellFormed;
    if stores != [] { StoreAllKeepsLimit(Store(c, stores[0].0, stores[0].1), stores[1..]); }
  }

  lemma LastInsertionStays(c: Ring, id: Id, stores: seq<(Id, Metadata)>, k: nat)
    requires c.limit > 0 && LastInsertion(c, id, stores, k)
    ensures id in StoreAll(c, stores).entries
  {
    hide WellFormed, Store, StoreAll, NewInsertions;
    StoreAllStep(c, stores, k);
    StoreAllKeepsLimit(c, stores[..k]);
    NewEntrySurvives(StoreAll(c, stores[..k]), id, stores[k].1, stores[k + 1..]);
    assert stores[k + 1..][..|stores| - k - 1] == stores[k + 1..];
  }

  lemma LastInsertionLater(c: Ring, id: Id, stores: seq<(Id, Metadata)>, n: nat, j: nat)
    requires n <= |stores| && LastInsertion(StoreAll(c, stores[..n]), id, stores[n..], j)
    ensures LastInsertion(c, id, stores, n + j)
  {
    hide WellFormed, Store, StoreAll, NewInsertions;
    StoreAllKeepsLimit(c, stores[..n]);
    StoreAllSplits(c, stores[..n + j], n);
    StoreAllSplits(c, stores[..n + j + 1], n);
    assert stores[..n + j][..n] == stores[..n] && stores[..n + j][n..] == stores[n..][..j];
    assert stores[..n + j + 1][..n] == stores[..n] && stores[..n + j + 1][n..] == stores[n..][..j + 1];
    assert stores[n + j + 1..] == stores[n..][j + 1..];
  }

  /** What is cached in the end, exactly: an ID that was absent is present after a sequence of stores if and only if one
      of them brought it in anew and fewer than `limit` new IDs followed that one. */
  lemma {:induction false} CachedExactlyIf(c: Ring, id: Id, stores: seq<(Id, Metadata)>)
    requires c.limit > 0 && id !in c.entries
    ensures id in StoreAll(c, stores).entries <==> exists k :: LastInsertion(c, id, stores, k)
    decreases |stores|
  {
    hide WellFormed, Store, StoreAll, NewInsertions;
    if k: nat :| LastInsertion(c, id, stores, k) {
      LastInsertionStays(c, id, stores, k);
    } else if id in StoreAll(c, stores).entries {
      assert stores[..0] == [];
      NothingStored(c);
      var k := BroughtBack(c, id, stores, 0);
      StoreAllStep(c, stores, k);
      StoreAllKeepsLimit(c, stores[..k]);
      var c', rest := StoreAll(c, stores[..k + 1]), stores[k + 1..];
      NewEntrySurvives(StoreAll(c, stores[..k]), id, stores[k].1, rest);
      assert !LastInsertion(c, id, stores, k) && !StaysCached(c', id, rest);
      var gone: nat :| gone <= |rest| && id !in StoreAll(c', rest[..gone]).entries;
      var n := k + 1 + gone;
      StoreAllSplits(c, stores, n);
      StoreAllSplits(c, stores[..n], k + 1);
      assert stores[..n][..k + 1] == stores[..k + 1] && stores[..n][k + 1..] == rest[..gone];
      StoreAllKeepsLimit(c, stores[..n]);
      CachedExactlyIf(StoreAll(c, stores[..n]), id, stores[n..]);
      var j: nat :| LastInsertion(StoreAll(c, stores[..n]), id, stores[n..], j);
      LastInsertionLater(c, id, stores, n, j);
    }
  }

  lemma NothingStored(c: Ring)
    ensures StoreAll(c, []) == c
  {
  }

  // ----- The object itself -----

  class Cache {
    var entries: map<Id, Metadata>
    var keys: seq<Id>
    var next: nat
    var limit: nat

    ghost predicate Valid()
      reads this
    {
      WellFormed(Contents(entries, keys, next, limit))
    }

    ghost function Value(): Ring
      requires Valid()
      reads this
    {
      Contents(entries, keys, next, limit)
    }

    constructor (limit: int)
      ensures Valid() && Value() == Empty(limit)
      ensures entries == map[] && this.limit == if limit < 0 then 0 else limit
    {
      this.limit := if limit < 0 then 0 else limit;
      entries, keys, next := map[], [], 0;
    }

    method Get(id: Id) returns (metadata: Option<Metadata>)
      requires Valid()
      ensures metadata == Load(Value(), id) == if id in entries then Some(entries[id]) else None
    {
      if limit == 0 {
        return None;
      }
      metadata := if id in entries then Some(entries[id]) else None;
    }

    method Put(id: Id, metadata: Metadata)
      requires Valid()
      modifies this
      ensures Valid() && Value() == Store(old(Value()), id, metadata)
    {
      RingShape(Value());
      hide WellFormed, Evict;
      ghost var after := Store(Value(), id, metadata);
      if limit != 0 {
        if id in entries {
          entries := entries[id := metadata];
        } else if |entries| < limit {
          entries := entries[id := metadata];
          keys := keys + [id];
        } else {
          Overwrite(id, metadata);
        }
      }
      assert Contents(entries, keys, next, limit) == after;
    }

    /** Evicts the oldest entry of a full ring. */
    method Overwrite(id: Id, metadata: Metadata)
      requires next < |keys| && 0 < limit
      modifies this
      ensures Contents(entries, keys, next, limit) == Evict(old(Contents(entries, keys, next, limit)), id, metadata)
    {
      var evicted := keys[next];
      entries := entries - {evicted};
      entries := entries[id := metadata];
      keys := keys[next := id];
      next := (next + 1) % limit;
    }

    method Len() returns (n: nat)
      requires Valid()
      ensures n == |Order(Value())| <= limit
    {
      n := |entries|;
    }
  }
}
