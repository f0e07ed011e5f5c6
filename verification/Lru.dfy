// internal/lru/lru.go: a recency list and an index into it that are kept in agreement.
//
// The list holds the entry objects and the index maps each key to the same object, as the list
// elements do in the source. OnEvicted calls are returned in the order in which they are made.
module Lru {
  import opened Views
  import opened Recency

  class Entry {
    const key: Key
    var value: View
    var expire: Option<Time>

    constructor (key: Key, value: View, expire: Option<Time>)
      ensures this.key == key && this.value == value && this.expire == expire
    {
      this.key, this.value, this.expire := key, value, expire;
    }

    function Get(): (it: Item)
      reads this
    {
      Item(key, value, expire)
    }
  }

  ghost function ItemsOf(es: seq<Entry>): (r: seq<Item>)
    reads es
    ensures |r| == |es| && forall i :: 0 <= i < |es| ==> r[i] == es[i].Get()
  {
    seq(|es|, i requires 0 <= i < |es| reads es => es[i].Get())
  }

  function Position(es: seq<Entry>, e: Entry): (i: nat)
    requires e in es
    ensures i < |es| && es[i] == e
  {
    if es[0] == e then 0 else 1 + Position(es[1..], e)
  }

  // The list without this element.
  function Unlinked(es: seq<Entry>, e: Entry): (r: seq<Entry>)
    requires e in es
  {
    var i := Position(es, e);
    es[..i] + es[i + 1..]
  }

  ghost predicate Apart(es: seq<Entry>, i: nat, j: nat) {
    i < j < |es| ==> es[i].key != es[j].key
  }

  ghost predicate InIndex(es: seq<Entry>, index: map<Key, Entry>, i: nat) {
    i < |es| ==> es[i].key in index && index[es[i].key] == es[i]
  }

  ghost predicate InList(es: seq<Entry>, index: map<Key, Entry>, k: Key) {
    k in index ==> index[k] in es && index[k].key == k
  }

  // List and index hold the same entries, each under its own key.
  ghost predicate Linked(es: seq<Entry>, index: map<Key, Entry>) {
    && (forall i: nat, j: nat {:trigger Apart(es, i, j)} :: Apart(es, i, j))
    && (forall i: nat {:trigger InIndex(es, index, i)} :: InIndex(es, index, i))
    && (forall k {:trigger InList(es, index, k)} :: InList(es, index, k))
  }

  lemma KeysAgree(es: seq<Entry>, index: map<Key, Entry>, k: Key)
    requires Linked(es, index)
    ensures UniqueKeys(ItemsOf(es))
    ensures Has(ItemsOf(es), k) <==> k in index
    ensures k in index ==> index[k] in es && Find(ItemsOf(es), k) == Position(es, index[k])
  {
    forall i: nat, j: nat
      ensures Differ(ItemsOf(es), i, j)
    {
      assert Apart(es, i, j);
    }
    assert InList(es, index, k);
    if k in index {
      FoundAt(ItemsOf(es), Position(es, index[k]));
    } else {
      assert InIndex(es, index, Find(ItemsOf(es), k));
    }
  }

  lemma StaysLinked(es: seq<Entry>, index: map<Key, Entry>, e: Entry)
    requires Linked(es, index) && e in es
    ensures Linked(Unlinked(es, e), index - {e.key})
  {
    var p, r, index' := Position(es, e), Unlinked(es, e), index - {e.key};
    forall i: nat, j: nat
      ensures Apart(r, i, j)
    {
      assert Apart(es, if i < p then i else i + 1, if j < p then j else j + 1);
    }
    forall i: nat
      ensures InIndex(r, index', i)
    {
      assert InIndex(es, index, if i < p then i else i + 1) && Apart(es, i, p) && Apart(es, p, i + 1);
    }
    forall k
      ensures InList(r, index', k)
    {
      assert InList(es, index, k);
      if k in index' {
        var j := Position(es, index[k]);
        assert r[if j < p then j else j - 1] == es[j];
      }
    }
  }

  lemma Pushed(es: seq<Entry>, index: map<Key, Entry>, e: Entry)
    requires Linked(es, index) && e.key !in index
    ensures Linked([e] + es, index[e.key := e])
  {
    var r, index' := [e] + es, index[e.key := e];
    forall i: nat, j: nat
      ensures Apart(r, i, j)
    {
      if 0 < i < j {
        assert Apart(es, i - 1, j - 1);
      } else if i < j {
        assert InIndex(es, index, j - 1);
      }
    }
    forall i: nat
      ensures InIndex(r, index', i)
    {
      if i > 0 {
        assert InIndex(es, index, i - 1);
      }
    }
    forall k
      ensures InList(r, index', k)
    {
      assert InList(es, index, k);
      if k == e.key {
        assert r[0] == e;
      } else if k in index {
        assert r[Position(es, index[k]) + 1] == index[k];
      }
    }
  }

  // Unlinking an element is forgetting its key.
  lemma UnlinkedItems(es: seq<Entry>, index: map<Key, Entry>, e: Entry)
    requires Linked(es, index) && e in es
    ensures ItemsOf(Unlinked(es, e)) == Without(ItemsOf(es), e.key)
    ensures Held(ItemsOf(es), e.key) == [e.Get()]
  {
    assert InIndex(es, index, Position(es, e));
    KeysAgree(es, index, e.key);
  }

  lemma Fronted(es: seq<Entry>, index: map<Key, Entry>, e: Entry)
    requires Linked(es, index) && e in es
    ensures Linked([e] + Unlinked(es, e), index)
    ensures ItemsOf([e] + Unlinked(es, e)) == Touch(ItemsOf(es), e.key)
    ensures forall x :: x in [e] + Unlinked(es, e) ==> x in es
  {
    assert InIndex(es, index, Position(es, e));
    StaysLinked(es, index, e);
    UnlinkedItems(es, index, e);
    Pushed(Unlinked(es, e), index - {e.key}, e);
    assert (index - {e.key})[e.key := e] == index;
  }

  class Cache {
    var maxEntries: int
    var ready: bool                 // the list and the index have been made
    var ll: seq<Entry>
    var index: map<Key, Entry>
    ghost var items: seq<Item>      // the entries from the most to the least recently used

    ghost var Repr: set<object>     // this object and its entries, past ones included

    ghost predicate Valid()
      reads this, Repr
    {
      && this in Repr && (forall e :: e in ll ==> e in Repr)
      && (!ready ==> ll == [] && index == map[])
      && Linked(ll, index) && items == ItemsOf(ll)
    }

    constructor (maxEntries: int)
      ensures Valid() && items == [] && this.maxEntries == maxEntries && ready && Repr == {this}
    {
      this.maxEntries, ready, ll, index, items, Repr := maxEntries, true, [], map[], [], {this};
    }

    // A zero-value cache: the first Add makes the list and the index.
    constructor Zero()
      ensures Valid() && items == [] && maxEntries == 0 && !ready && Repr == {this}
    {
      maxEntries, ready, ll, index, items, Repr := 0, false, [], map[], [], {this};
    }

    method Add(key: Key, value: View, expire: Option<Time>) returns (evicted: seq<Item>)
      requires Valid()
      modifies Repr
      ensures Valid() && maxEntries == old(maxEntries) && ready
      ensures fresh(Repr - old(Repr))
      ensures items == Kept(old(items), Item(key, value, expire), maxEntries)
      ensures evicted == DroppedByAdd(old(items), Item(key, value, expire), maxEntries)
    {
      if !ready {
        ready, ll, index := true, [], map[];
      }
      KeysAgree(ll, index, key);
      if key in index {
        evicted := Overwrite(index[key], value, expire);
      } else {
        evicted := Push(key, value, expire);
      }
    }

    method Get(key: Key, now: Time) returns (value: Option<View>, evicted: seq<Item>)
      requires Valid()
      modifies this
      ensures Valid() && maxEntries == old(maxEntries)
      ensures Repr == old(Repr)
      ensures LooksUp(old(items), key, now, value, items, evicted)
      ensures value == LookedUp(old(items), key, now)
      ensures items == AfterLookup(old(items), key, now)
      ensures evicted == DroppedByLookup(old(items), key, now)
    {
      value, evicted := None, [];
      KeysAgree(ll, index, key);
      LookupMeans(items, key, now);
      if !ready {
        return;
      }
      if key in index {
        var e := index[key];
        if Passed(e.expire, now) {
          evicted := RemoveElement(e);
          return;
        }
        MoveToFront(e);
        value := Some(e.value);
      }
    }

    method Remove(key: Key) returns (evicted: seq<Item>)
      requires Valid()
      modifies this
      ensures Valid() && maxEntries == old(maxEntries)
      ensures Repr == old(Repr)
      ensures items == old(Without(items, key)) && evicted == old(Held(items, key))
    {
      evicted := [];
      KeysAgree(ll, index, key);
      if ready && key in index {
        evicted := RemoveElement(index[key]);
      }
    }

    method RemoveOldest() returns (evicted: seq<Item>)
      requires Valid()
      modifies this
      ensures Valid() && maxEntries == old(maxEntries) && ready == old(ready)
      ensures Repr == old(Repr)
      ensures var n := |old(items)|;
        if n == 0 then items == [] && evicted == []
        else items == old(items)[..n - 1] && evicted == [old(items)[n - 1]]
    {
      evicted := [];
      if ready && ll != [] {
        var e := ll[|ll| - 1];
        KeysAgree(ll, index, e.key);
        FoundAt(items, |ll| - 1);
        evicted := RemoveElement(e);
      }
    }

    method MoveToFront(e: Entry)
      requires Valid() && e in ll
      modifies this`ll, this`items
      ensures Valid()
      ensures ll == [e] + old(Unlinked(ll, e))
      ensures items == old(Touch(items, e.key))
      ensures Repr == old(Repr)
    {
      Fronted(ll, index, e);
      items := Touch(items, e.key);
      ll := [e] + Unlinked(ll, e);
    }

    // The key is present: its entry moves to the front and is overwritten.
    method Overwrite(e: Entry, value: View, expire: Option<Time>) returns (evicted: seq<Item>)
      requires Valid() && e in ll
      modifies this`ll, this`items, e
      ensures Valid()
      ensures Repr == old(Repr)
      ensures items == old(Put(items, Item(e.key, value, expire)))
      ensures evicted == old(Held(items, e.key)) == [old(e.Get())]
    {
      UnlinkedItems(ll, index, e);
      ghost var target := Put(items, Item(e.key, value, expire));
      evicted := [e.Get()];
      MoveToFront(e);
      Assign(e, value, expire, target);
    }

    method Assign(e: Entry, value: View, expire: Option<Time>, ghost target: seq<Item>)
      requires Valid() && ll != [] && ll[0] == e && |target| == |ll|
      requires target[0] == Item(e.key, value, expire) && forall i :: 1 <= i < |ll| ==> target[i] == ll[i].Get()
      modifies this`items, e
      ensures Valid() && items == target
    {
      forall i | 1 <= i < |ll|
        ensures ll[i] != e
      {
        assert Apart(ll, 0, i);
      }
      e.expire := expire;
      e.value := value;
      items := target;
      assert forall i :: 1 <= i < |ll| ==> ll[i].Get() == old(ll[i].Get());
    }

    // The key is absent.
    method Push(key: Key, value: View, expire: Option<Time>) returns (evicted: seq<Item>)
      requires Valid() && ready && key !in index
      modifies this
      ensures Valid() && maxEntries == old(maxEntries) && ready
      ensures fresh(Repr - old(Repr))
      ensures var added := [Item(key, value, expire)] + old(items);
        if maxEntries != 0 && |added| > maxEntries
        then items == added[..|added| - 1] && evicted == [added[|added| - 1]]
        else items == added && evicted == []
    {
      var e := new Entry(key, value, expire);
      PushFront(e);
      evicted := [];
      if maxEntries != 0 && |ll| > maxEntries {
        evicted := RemoveOldest();
      }
    }

    method PushFront(e: Entry)
      requires Valid() && ready && e.key !in index
      modifies this`ll, this`index, this`items, this`Repr
      ensures Repr == old(Repr) + {e}
      ensures Valid() && ll == [e] + old(ll) && items == [e.Get()] + old(items)
    {
      Pushed(ll, index, e);
      ll := [e] + ll;
      index := index[e.key := e];
      items := [e.Get()] + items;
      Repr := Repr + {e};
    }

    method RemoveElement(e: Entry) returns (evicted: seq<Item>)
      requires Valid() && e in ll
      modifies this
      ensures Valid() && maxEntries == old(maxEntries) && ready == old(ready)
      ensures Repr == old(Repr)
      ensures items == old(Without(items, e.key)) && evicted == old(Held(items, e.key)) == [e.Get()]
    {
      StaysLinked(ll, index, e);
      UnlinkedItems(ll, index, e);
      items := Without(items, e.key);
      ll := Unlinked(ll, e);
      index := index - {e.key};
      evicted := [e.Get()];
    }

    method Len() returns (n: nat)
      requires Valid()
      ensures n == |items|
    {
      n := if ready then |ll| else 0;
    }

    // The callback runs for every entry, in no particular order.
    method Clear() returns (evicted: seq<Item>)
      requires Valid()
      modifies this
      ensures Valid() && items == [] && !ready && maxEntries == old(maxEntries)
      ensures multiset(evicted) == multiset(old(items))
    {
      evicted := [];
      for i := 0 to |ll|
        invariant evicted == items[..i]
      {
        evicted := evicted + [ll[i].Get()];
      }
      assert items[..|ll|] == items;
      ready, ll, index, items := false, [], map[], [];
    }
  }
}
