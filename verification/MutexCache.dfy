// cache.go: mutexCache, the imperative form of the byte-bounded cache.
module MutexCache {
  import opened Views
  import opened Recency
  import opened ByteCache
  import Lru

  class Cache {
    var lru: Lru.Cache?
    var bytes: int
    var hits: nat
    var gets: nat
    var evictions: nat
    const maxBytes: nat

    ghost function Repr(): (r: set<object>)
      reads this, lru
    {
      {this} + if lru == null then {} else lru.Repr
    }

    ghost function Items(): (r: seq<Item>)
      reads this, lru
    {
      if lru == null then [] else lru.items
    }

    ghost function Now(): (b: Book)
      reads this, lru
    {
      Book(Items(), bytes, hits, gets, evictions)
    }

    ghost predicate Wired()
      reads this, lru, if lru == null then {} else lru.Repr
    {
      lru != null ==> this !in lru.Repr && lru.Valid() && lru.maxEntries == 0
    }

    ghost predicate Valid()
      reads this, lru, if lru == null then {} else lru.Repr
    {
      Wired() && Sound(Now(), maxBytes)
    }

    // A limit of 0 means no limit.
    constructor (maxBytes: nat)
      ensures Valid() && Now() == EMPTY && this.maxBytes == maxBytes && fresh(Repr())
    {
      this.maxBytes := maxBytes;
      lru, bytes, hits, gets, evictions := null, 0, 0, 0, 0;
    }

    // The callback, for a list of calls.
    method Evicted(gone: seq<Item>)
      modifies this`bytes, this`evictions
      ensures bytes == old(bytes) - Size(gone) && evictions == old(evictions) + |gone|
    {
      for i := 0 to |gone|
        invariant bytes == old(bytes) - Size(gone[..i]) && evictions == old(evictions) + i
      {
        bytes := bytes - (|gone[i].key| + |gone[i].value.bytes|);
        evictions := evictions + 1;
        assert gone[..i + 1][..i] == gone[..i];
      }
      assert gone[..|gone|] == gone;
    }

    method Add(key: Key, value: View)
      requires Valid()
      modifies Repr()
      ensures Valid() && fresh(Repr() - old(Repr()))
      ensures AddBook(old(Now()), key, value, maxBytes, Now())
    {
      Insert(key, value);
      RemoveOldest();
      TrimFits(old(Items()), key, value, maxBytes);
    }

    method Insert(key: Key, value: View)
      requires Valid()
      modifies Repr()
      ensures Wired() && lru != null && fresh(Repr() - old(Repr()))
      ensures Items() == Put(old(Items()), ItemFor(key, value)) && bytes == Size(Items())
      ensures hits == old(hits) && gets == old(gets) && evictions == old(evictions) + |Held(old(Items()), key)|
    {
      Ready();
      Replace(key, value);
    }

    method Replace(key: Key, value: View)
      requires Wired() && lru != null && bytes == Size(Items())
      modifies this`bytes, this`evictions, lru.Repr
      ensures Wired() && fresh(lru.Repr - old(lru.Repr))
      ensures Items() == Put(old(Items()), ItemFor(key, value)) && bytes == Size(Items())
      ensures evictions == old(evictions) + |Held(old(Items()), key)|
    {
      PutSize(Items(), key, value);
      var gone := lru.Add(key, value, value.expire);
      Evicted(gone);
      bytes := bytes + |key| + |value.bytes|;
    }

    method Ready()
      requires Wired()
      modifies this`lru
      ensures Wired() && lru != null && Items() == old(Items()) && fresh(Repr() - old(Repr()))
    {
      if lru == null {
        lru := new Lru.Cache.Zero();
      }
    }

    method RemoveOldest()
      requires Wired() && bytes == Size(Items())
      modifies this`bytes, this`evictions, lru
      ensures Wired() && lru == old(lru) && bytes == Size(Items()) && Repr() <= old(Repr())
      ensures Items() == Trim(old(Items()), maxBytes)
      ensures evictions == old(evictions) + |old(Items())| - |Items()|
    {
      if maxBytes == 0 {
        return;
      }
      while bytes > maxBytes
        invariant Wired() && lru == old(lru) && bytes == Size(Items()) && Repr() <= old(Repr())
        invariant Trim(Items(), maxBytes) == Trim(old(Items()), maxBytes)
        invariant evictions == old(evictions) + |old(Items())| - |Items()|
        decreases |Items()|
      {
        if lru != null {
          DropOne();
        }
      }
    }

    method DropOne()
      requires Wired() && lru != null && bytes == Size(Items()) && Items() != []
      modifies this`bytes, this`evictions, lru
      ensures Wired() && bytes == Size(Items()) && Repr() <= old(Repr())
      ensures Items() == old(Items())[..|old(Items())| - 1] && evictions == old(evictions) + 1
    {
      SizeOfOne(Items()[|Items()| - 1]);
      var gone := lru.RemoveOldest();
      Evicted(gone);
    }

    method Get(key: Key, now: Time) returns (value: Option<View>)
      requires Valid()
      modifies this, lru
      ensures Valid() && Repr() <= old(Repr())
      ensures GetBook(old(Now()), key, now, Now())
      ensures value == LookedUp(old(Items()), key, now)
      ensures LooksUp(old(Items()), key, now, value, Items(), DroppedByLookup(old(Items()), key, now))
      ensures hits == old(hits) + if value.Some? then 1 else 0
    {
      LookupMeans(Items(), key, now);
      gets := gets + 1;
      value := None;
      if lru == null {
        NothingThere(key, now);
        return;
      }
      value := Lookup(key, now);
      if value.Some? {
        hits := hits + 1;
      }
    }

    method Lookup(key: Key, now: Time) returns (value: Option<View>)
      requires Valid() && lru != null
      modifies this`bytes, this`evictions, lru
      ensures Valid() && Repr() == old(Repr()) && value == LookedUp(old(Items()), key, now)
      ensures Items() == AfterLookup(old(Items()), key, now)
      ensures evictions == old(evictions) + |DroppedByLookup(old(Items()), key, now)|
    {
      LookupFits(Items(), key, now);
      var gone;
      value, gone := lru.Get(key, now);
      Evicted(gone);
    }

    method Remove(key: Key)
      requires Valid()
      modifies this, lru
      ensures Valid() && Repr() <= old(Repr())
      ensures RemoveBook(old(Now()), key, Now())
    {
      RemovalFits(Items(), key);
      if lru != null {
        var gone := lru.Remove(key);
        Evicted(gone);
      }
    }
  }

  // Replacing or adding an entry changes the size by the new entry less the old one.
  lemma PutSize(items: seq<Item>, k: Key, v: View)
    ensures Size(Put(items, ItemFor(k, v))) == Size(items) - Size(Held(items, k)) + |k| + |v.bytes|
  {
    WithoutConserves(items, k);
    SizeOfSum([ItemFor(k, v)], Without(items, k));
    SizeOfOne(ItemFor(k, v));
  }

  // ---------- what the methods say, field by field, is what the operations on books say ----------

  ghost predicate AddBook(b: Book, k: Key, v: View, limit: nat, b': Book) {
    && b'.items == Trim(Put(b.items, ItemFor(k, v)), limit)
    && b'.hits == b.hits && b'.gets == b.gets
    && b'.evictions == b.evictions + |Held(b.items, k)| + (|Put(b.items, ItemFor(k, v))| - |b'.items|)
  }

  ghost predicate GetBook(b: Book, k: Key, now: Time, b': Book) {
    && b'.items == AfterLookup(b.items, k, now)
    && b'.hits == b.hits + (if LookedUp(b.items, k, now).Some? then 1 else 0) && b'.gets == b.gets + 1
    && b'.evictions == b.evictions + |DroppedByLookup(b.items, k, now)|
  }

  ghost predicate RemoveBook(b: Book, k: Key, b': Book) {
    && b'.items == Without(b.items, k)
    && b'.hits == b.hits && b'.gets == b.gets && b'.evictions == b.evictions + |Held(b.items, k)|
  }

  lemma AddRefines(b: Book, k: Key, v: View, limit: nat, b': Book)
    requires Sound(b, limit) && Sound(b', limit)
    ensures AddBook(b, k, v, limit, b') <==> b' == Did(b, Add(k, v), limit)
  {
    OpConserves(b.items, Add(k, v), limit);
  }

  lemma GetRefines(b: Book, k: Key, now: Time, limit: nat, b': Book)
    requires Sound(b, limit) && Sound(b', limit)
    ensures GetBook(b, k, now, b') <==> b' == Did(b, Get(k, now), limit)
  {
    OpConserves(b.items, Get(k, now), limit);
  }

  lemma RemoveRefines(b: Book, k: Key, limit: nat, b': Book)
    requires Sound(b, limit) && Sound(b', limit)
    ensures RemoveBook(b, k, b') <==> b' == Did(b, Remove(k), limit)
  {
    OpConserves(b.items, Remove(k), limit);
  }

  lemma TrimFits(items: seq<Item>, k: Key, v: View, limit: nat)
    requires UniqueKeys(items)
    ensures var left := Trim(Put(items, ItemFor(k, v)), limit);
      UniqueKeys(left) && (limit > 0 ==> Size(left) <= limit)
  {
    LeftUnique(items, Add(k, v), limit);
    if limit > 0 {
      TrimIsLongest(Put(items, ItemFor(k, v)), limit, 0);
    }
  }

  lemma NothingThere(k: Key, now: Time)
    ensures LookedUp([], k, now) == None && AfterLookup([], k, now) == [] && DroppedByLookup([], k, now) == []
  {
  }

  lemma LookupFits(items: seq<Item>, k: Key, now: Time)
    requires UniqueKeys(items)
    ensures UniqueKeys(AfterLookup(items, k, now))
    ensures Size(items) == Size(AfterLookup(items, k, now)) + Size(DroppedByLookup(items, k, now))
  {
    LeftUnique(items, Get(k, now), 0);
    OpConserves(items, Get(k, now), 0);
  }

  lemma RemovalFits(items: seq<Item>, k: Key)
    requires UniqueKeys(items)
    ensures UniqueKeys(Without(items, k))
    ensures Size(items) == Size(Without(items, k)) + Size(Held(items, k))
  {
    LeftUnique(items, Remove(k), 0);
    OpConserves(items, Remove(k), 0);
  }
}
