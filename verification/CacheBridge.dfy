// The caches of a node in the cluster model are maps that may drop entries at any time; the
// byte-bounded caches are exactly such maps, and what they drop is bounded by the group's limit.
module CacheBridge {
  import opened Views
  import opened Recency
  import opened ByteCache
  import Protocol

  // The list holds the entries of the map, each expiring with its value.
  ghost predicate Holds(items: seq<Item>, m: map<Key, View>) {
    && UniqueKeys(items)
    && (forall i :: 0 <= i < |items| ==> items[i].expire == items[i].value.expire)
    && (forall k :: k in m <==> Has(items, k))
    && (forall k :: k in m ==> m[k] == items[Find(items, k)].value)
  }

  lemma FindAfterCut(items: seq<Item>, k: Key, k': Key)
    requires UniqueKeys(items) && k != k'
    ensures Has(Without(items, k), k') <==> Has(items, k')
    ensures Has(items, k') ==> Without(items, k)[Find(Without(items, k), k')] == items[Find(items, k')]
  {
    WithoutKeepsUnique(items, k);
    var r, p, i := Without(items, k), Find(items, k), Find(items, k');
    if i < |items| {
      var j := if i < p then i else i - 1;
      assert r[j] == items[i];
      FoundAt(r, j);
    }
  }

  lemma RemovedHolds(items: seq<Item>, m: map<Key, View>, k: Key)
    requires Holds(items, m)
    ensures Holds(Without(items, k), m - {k})
  {
    WithoutKeepsUnique(items, k);
    forall k' | k' != k
      ensures k' in m - {k} <==> Has(Without(items, k), k')
      ensures k' in m ==> m[k'] == Without(items, k)[Find(Without(items, k), k')].value
    {
      FindAfterCut(items, k, k');
    }
  }

  lemma FrontHolds(it: Item, rest: seq<Item>, m: map<Key, View>)
    requires Holds(rest, m) && it.key !in m && it.expire == it.value.expire
    ensures Holds([it] + rest, m[it.key := it.value])
  {
    var items := [it] + rest;
    FrontUnique(it, rest);
    FoundAt(items, 0);
    forall k | k != it.key
      ensures k in m <==> Has(items, k)
      ensures k in m ==> m[k] == items[Find(items, k)].value
    {
      if k in m {
        assert items[Find(rest, k) + 1].key == k;
        FoundAt(items, Find(rest, k) + 1);
      }
    }
  }

  lemma PutHolds(items: seq<Item>, m: map<Key, View>, k: Key, v: View)
    requires Holds(items, m)
    ensures Holds(Put(items, ItemFor(k, v)), m[k := v])
  {
    RemovedHolds(items, m, k);
    FrontHolds(ItemFor(k, v), Without(items, k), m - {k});
    assert (m - {k})[k := v] == m[k := v];
  }

  // The keys beyond the first n entries.
  function KeysFrom(items: seq<Item>, n: nat): (r: set<Key>)
    requires n <= |items|
  {
    set i | n <= i < |items| :: items[i].key
  }

  lemma PrefixHolds(items: seq<Item>, m: map<Key, View>, n: nat)
    requires Holds(items, m) && n <= |items|
    ensures Holds(items[..n], m - KeysFrom(items, n))
  {
    var r, m' := items[..n], m - KeysFrom(items, n);
    PrefixUnique(items, n);
    forall k
      ensures k in m' <==> Has(r, k)
      ensures k in m' ==> m'[k] == r[Find(r, k)].value
    {
      FindInPrefix(r, items, k);
      if Has(r, k) {
        forall i | n <= i < |items|
          ensures items[i].key != k
        {
          assert Differ(items, Find(r, k), i);
        }
      } else if k in m {
        assert items[Find(items, k)].key in KeysFrom(items, n);
      }
    }
  }

  // Adding is the update of the model followed by evictions of the entries that no longer fit.
  lemma AddIsUpdateAndEvictions(items: seq<Item>, m: map<Key, View>, k: Key, v: View, limit: nat)
    requires Holds(items, m)
    ensures var put, left := Put(items, ItemFor(k, v)), Left(items, Add(k, v), limit);
      left <= put && Holds(left, m[k := v] - KeysFrom(put, |left|))
  {
    var put := Put(items, ItemFor(k, v));
    PutHolds(items, m, k, v);
    PrefixHolds(put, m[k := v], |Trim(put, limit)|);
    assert Trim(put, limit) == put[..|Trim(put, limit)|];
  }

  // A lookup finds and drops what the lookup of the model finds and drops.
  lemma LookupIsLook(items: seq<Item>, nd: Protocol.Node, task: Protocol.Task, inMain: bool, again: bool, now: Time)
    requires task.op.Get? && nd.caching && Holds(items, if inMain then nd.main else nd.hot)
    ensures var k, m := task.op.key, Protocol.Look(nd, task, inMain, again, now);
      && Holds(Left(items, Get(k, now), 0), if inMain then m.node.main else m.node.hot)
      && (if inMain then m.node.hot == nd.hot else m.node.main == nd.main)
      && (LookedUp(items, k, now).Some? <==> m.task.pc.CountHit?)
      && (m.task.pc.CountHit? ==> LookedUp(items, k, now) == Some(m.task.pc.view))
  {
    var k, cache := task.op.key, if inMain then nd.main else nd.hot;
    if k in cache && Expired(cache[k], now) {
      RemovedHolds(items, cache, k);
    } else if k in cache {
      TouchHolds(items, cache, k);
    }
  }

  lemma TouchHolds(items: seq<Item>, m: map<Key, View>, k: Key)
    requires Holds(items, m) && k in m
    ensures Holds(Touch(items, k), m)
  {
    PutHolds(items, m, k, m[k]);
    assert Held(items, k) == [ItemFor(k, m[k])];
    assert Touch(items, k) == Put(items, ItemFor(k, m[k]));
    assert m[k := m[k]] == m;
  }

  // ---------- ResetCacheSize ----------

  datatype Limits = Limits(main: nat, hot: nat)

  // The hot cache gets an eighth of the bytes and the main cache seven times that.
  function LimitsFor(maxBytes: int): (l: Limits)
    ensures maxBytes >= 0 ==> l.main == 7 * l.hot && l.main + l.hot <= maxBytes < l.main + l.hot + 8
    ensures maxBytes < 8 ==> l == Limits(0, 0)
  {
    if maxBytes >= 0 then Limits(maxBytes / 8 * 7, maxBytes / 8) else Limits(0, 0)
  }

  ghost predicate StaysWithin(main: Book, hot: Book, maxBytes: int) {
    main.bytes + hot.bytes <= maxBytes
  }

  ghost predicate AlwaysWithin(maxBytes: int) {
    forall ops, ops' ::
      StaysWithin(DidAll(EMPTY, ops, LimitsFor(maxBytes).main), DidAll(EMPTY, ops', LimitsFor(maxBytes).hot), maxBytes)
  }

  // Both caches together stay within a positive limit if and only if the limit is at least 8: below
  // that both limits round down to 0, which the caches read as no limit.
  lemma LimitHonoured(maxBytes: int)
    requires maxBytes > 0
    ensures AlwaysWithin(maxBytes) <==> maxBytes >= 8
  {
    if maxBytes >= 8 {
      forall ops, ops'
        ensures StaysWithin(DidAll(EMPTY, ops, LimitsFor(maxBytes).main),
                            DidAll(EMPTY, ops', LimitsFor(maxBytes).hot), maxBytes)
      {
        BytesAccounted(ops, LimitsFor(maxBytes).main);
        BytesAccounted(ops', LimitsFor(maxBytes).hot);
      }
    } else {
      OneBigEntry(maxBytes + 1);
      var ops := [Add("", Zeros(maxBytes + 1))];
      assert !StaysWithin(DidAll(EMPTY, ops, LimitsFor(maxBytes).main),
                          DidAll(EMPTY, [], LimitsFor(maxBytes).hot), maxBytes);
    }
  }

  function Zeros(n: nat): (v: View)
    ensures |v.bytes| == n
  {
    View(seq(n, _ => 0), None)
  }

  lemma OneBigEntry(n: nat)
    ensures DidAll(EMPTY, [Add("", Zeros(n))], 0).bytes == n
  {
    BytesAccounted([Add("", Zeros(n))], 0);
    var ops := [Add("", Zeros(n))];
    assert ops[..0] == [] && ops[0] == Add("", Zeros(n));
    assert DidAll(EMPTY, ops, 0).items == Put([], ItemFor("", Zeros(n))) == [ItemFor("", Zeros(n))];
    SizeOfOne(ItemFor("", Zeros(n)));
  }
}
