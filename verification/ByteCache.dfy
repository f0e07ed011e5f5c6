// cache.go: the byte-bounded cache over the LRU list as a value, and what it keeps over all runs.
module ByteCache {
  import opened Views
  import opened Recency

  // The state a mutexCache reports, with its entries from the most to the least recently used.
  datatype Book = Book(items: seq<Item>, bytes: int, hits: nat, gets: nat, evictions: nat)

  const EMPTY := Book([], 0, 0, 0, 0)

  datatype Op = Add(key: Key, view: View) | Get(key: Key, now: Time) | Remove(key: Key)

  function ItemFor(k: Key, v: View): (it: Item) {
    Item(k, v, v.expire)
  }

  // The entries after the operation.
  function Left(items: seq<Item>, op: Op, limit: nat): (r: seq<Item>) {
    match op
    case Add(k, v) => Trim(Put(items, ItemFor(k, v)), limit)
    case Remove(k) => Without(items, k)
    case Get(k, now) => AfterLookup(items, k, now)
  }

  // The entries handed to the eviction callback, in order.
  function Gone(items: seq<Item>, op: Op, limit: nat): (r: seq<Item>) {
    match op
    case Add(k, v) =>
      var put := Put(items, ItemFor(k, v));
      Held(items, k) + Backwards(put[|Trim(put, limit)|..])
    case Remove(k) => Held(items, k)
    case Get(k, now) => DroppedByLookup(items, k, now)
  }

  function Backwards(items: seq<Item>): (r: seq<Item>)
    ensures |r| == |items|
  {
    if items == [] then [] else [items[|items| - 1]] + Backwards(items[..|items| - 1])
  }

  function Found(items: seq<Item>, op: Op): (r: Option<View>) {
    if op.Get? then LookedUp(items, op.key, op.now) else None
  }

  function Did(b: Book, op: Op, limit: nat): (b': Book) {
    var gone := Gone(b.items, op, limit);
    Book(Left(b.items, op, limit),
         b.bytes + (if op.Add? then |op.key| + |op.view.bytes| else 0) - Size(gone),
         b.hits + (if Found(b.items, op).Some? then 1 else 0),
         b.gets + (if op.Get? then 1 else 0),
         b.evictions + |gone|)
  }

  function DidAll(b: Book, ops: seq<Op>, limit: nat): (b': Book) {
    if ops == [] then b else Did(DidAll(b, ops[..|ops| - 1], limit), ops[|ops| - 1], limit)
  }

  function GoneInAll(b: Book, ops: seq<Op>, limit: nat): (r: seq<Item>) {
    if ops == [] then []
    else
      var b' := DidAll(b, ops[..|ops| - 1], limit);
      GoneInAll(b, ops[..|ops| - 1], limit) + Gone(b'.items, ops[|ops| - 1], limit)
  }

  function Added(ops: seq<Op>): (r: seq<Item>) {
    if ops == [] then []
    else
      var op := ops[|ops| - 1];
      Added(ops[..|ops| - 1]) + if op.Add? then [ItemFor(op.key, op.view)] else []
  }

  // ---------- accounting ----------

  ghost predicate Sound(b: Book, limit: nat) {
    UniqueKeys(b.items) && b.bytes == Size(b.items) && (limit > 0 ==> b.bytes <= limit)
  }

  lemma {:induction false} BackwardsConserves(items: seq<Item>)
    ensures multiset(Backwards(items)) == multiset(items) && Size(Backwards(items)) == Size(items)
    decreases |items|
  {
    if items != [] {
      var n := |items| - 1;
      BackwardsConserves(items[..n]);
      assert items == items[..n] + [items[n]];
      SizeOfSum([items[n]], Backwards(items[..n]));
      SizeOfOne(items[n]);
    }
  }

  lemma TrimConserves(items: seq<Item>, limit: nat)
    ensures var n := |Trim(items, limit)|;
      && multiset(items) == multiset(items[..n]) + multiset(items[n..])
      && Size(items) == Size(items[..n]) + Size(items[n..])
      && Trim(items, limit) == items[..n]
  {
    var n := |Trim(items, limit)|;
    assert items == items[..n] + items[n..];
    SizeOfSum(items[..n], items[n..]);
  }

  // One operation: what was there and what came in is what is left and what went out.
  lemma OpConserves(items: seq<Item>, op: Op, limit: nat)
    ensures multiset(items) + (if op.Add? then multiset{ItemFor(op.key, op.view)} else multiset{})
         == multiset(Left(items, op, limit)) + multiset(Gone(items, op, limit))
    ensures Size(items) + (if op.Add? then |op.key| + |op.view.bytes| else 0)
         == Size(Left(items, op, limit)) + Size(Gone(items, op, limit))
  {
    WithoutConserves(items, op.key);
    if op.Add? {
      AddConserves(items, op, limit);
      AddConservesSize(items, op, limit);
    } else {
      SizeOfSum(Held(items, op.key), Without(items, op.key));
    }
  }

  lemma AddConserves(items: seq<Item>, op: Op, limit: nat)
    requires op.Add?
    ensures multiset(items) + multiset{ItemFor(op.key, op.view)}
         == multiset(Left(items, op, limit)) + multiset(Gone(items, op, limit))
  {
    var put := Put(items, ItemFor(op.key, op.view));
    var left := Trim(put, limit);
    var dropped := put[|left|..];
    WithoutConserves(items, op.key);
    TrimConserves(put, limit);
    BackwardsConserves(dropped);
    Swapped(multiset(items), multiset{ItemFor(op.key, op.view)}, multiset(Held(items, op.key)),
            multiset(Without(items, op.key)), multiset(left), multiset(dropped));
  }

  // The replaced entry and the dropped ones go out, the new one comes in.
  lemma Swapped(all: multiset<Item>, added: multiset<Item>, held: multiset<Item>, rest: multiset<Item>,
                left: multiset<Item>, dropped: multiset<Item>)
    requires all == held + rest && added + rest == left + dropped
    ensures all + added == left + (held + dropped)
  {
    assert held + rest + added == held + (added + rest);
    assert held + (left + dropped) == left + (held + dropped);
  }

  lemma AddConservesSize(items: seq<Item>, op: Op, limit: nat)
    requires op.Add?
    ensures Size(items) + |op.key| + |op.view.bytes| == Size(Left(items, op, limit)) + Size(Gone(items, op, limit))
  {
    var it := ItemFor(op.key, op.view);
    var put, rest := Put(items, it), Without(items, op.key);
    var dropped := put[|Trim(put, limit)|..];
    WithoutConserves(items, op.key);
    TrimConserves(put, limit);
    BackwardsConserves(dropped);
    SizeOfSum([it], rest);
    SizeOfOne(it);
    SizeOfSum(Held(items, op.key), Backwards(dropped));
  }

  lemma LeftUnique(items: seq<Item>, op: Op, limit: nat)
    requires UniqueKeys(items)
    ensures UniqueKeys(Left(items, op, limit))
  {
    var rest := Without(items, op.key);
    WithoutKeepsUnique(items, op.key);
    if op.Add? {
      var put := Put(items, ItemFor(op.key, op.view));
      FrontUnique(ItemFor(op.key, op.view), rest);
      PrefixUnique(put, |Trim(put, limit)|);
      assert Trim(put, limit) == put[..|Trim(put, limit)|];
    } else if Has(items, op.key) {
      FrontUnique(items[Find(items, op.key)], rest);
    }
  }

  lemma FrontUnique(it: Item, rest: seq<Item>)
    requires UniqueKeys(rest) && !Has(rest, it.key)
    ensures UniqueKeys([it] + rest)
  {
    forall i: nat, j: nat
      ensures Differ([it] + rest, i, j)
    {
      if 0 < i < j {
        assert Differ(rest, i - 1, j - 1);
      }
    }
  }

  lemma PrefixUnique(items: seq<Item>, n: nat)
    requires UniqueKeys(items) && n <= |items|
    ensures UniqueKeys(items[..n])
  {
    forall i: nat, j: nat
      ensures Differ(items[..n], i, j)
    {
      assert Differ(items, i, j);
    }
  }

  lemma LeftFits(items: seq<Item>, op: Op, limit: nat)
    requires limit > 0 && Size(items) <= limit
    ensures Size(Left(items, op, limit)) <= limit
  {
    if op.Add? {
      TrimIsLongest(Put(items, ItemFor(op.key, op.view)), limit, 0);
    } else {
      OpConserves(items, op, limit);
    }
  }

  lemma OpKeepsSound(b: Book, op: Op, limit: nat)
    requires Sound(b, limit)
    ensures Sound(Did(b, op, limit), limit)
  {
    OpConserves(b.items, op, limit);
    LeftUnique(b.items, op, limit);
    if limit > 0 {
      LeftFits(b.items, op, limit);
    }
  }

  // Over every sequence of operations on a new cache: the byte count is the size of the entries
  // and stays within a positive limit.
  lemma {:induction false} BytesAccounted(ops: seq<Op>, limit: nat)
    ensures Sound(DidAll(EMPTY, ops, limit), limit)
    decreases |ops|
  {
    if ops != [] {
      BytesAccounted(ops[..|ops| - 1], limit);
      OpKeepsSound(DidAll(EMPTY, ops[..|ops| - 1], limit), ops[|ops| - 1], limit);
    }
  }

  // Adding up over one more operation, with entries left, gone and added by it.
  lemma Summed(added: seq<Item>, items: seq<Item>, gone: seq<Item>, left: seq<Item>, more: seq<Item>, extra: seq<Item>)
    requires multiset(added) == multiset(items) + multiset(gone)
    requires multiset(items) + multiset(extra) == multiset(left) + multiset(more)
    ensures multiset(added + extra) == multiset(left) + multiset(gone + more)
  {
    assert multiset(added + extra) == multiset(added) + multiset(extra);
    assert multiset(gone + more) == multiset(gone) + multiset(more);
    assert multiset(items) + multiset(gone) + multiset(extra) == multiset(items) + multiset(extra) + multiset(gone);
    assert multiset(left) + multiset(more) + multiset(gone) == multiset(left) + (multiset(gone) + multiset(more));
  }

  // Every entry ever added is still there or was handed to the callback, exactly once.
  lemma {:induction false} AddsConserved(ops: seq<Op>, limit: nat)
    ensures multiset(Added(ops)) == multiset(DidAll(EMPTY, ops, limit).items) + multiset(GoneInAll(EMPTY, ops, limit))
    decreases |ops|
  {
    if ops != [] {
      var n := |ops| - 1;
      var items, op := DidAll(EMPTY, ops[..n], limit).items, ops[n];
      var left, more, extra := Left(items, op, limit), Gone(items, op, limit),
          if op.Add? then [ItemFor(op.key, op.view)] else [];
      AddsConserved(ops[..n], limit);
      assert multiset(items) + multiset(extra) == multiset(left) + multiset(more) by {
        OpConserves(items, op, limit);
      }
      Summed(Added(ops[..n]), items, GoneInAll(EMPTY, ops[..n], limit), left, more, extra);
    }
  }

  // The number of Adds is the number of entries plus the evictions counted.
  lemma {:induction false} EvictionsCounted(ops: seq<Op>, limit: nat)
    ensures var b := DidAll(EMPTY, ops, limit);
      |Added(ops)| == |b.items| + b.evictions && b.evictions == |GoneInAll(EMPTY, ops, limit)|
    decreases |ops|
  {
    if ops != [] {
      var n := |ops| - 1;
      EvictionsCounted(ops[..n], limit);
      CountsConserved(DidAll(EMPTY, ops[..n], limit).items, ops[n], limit);
    }
  }

  // The bytes ever added are the bytes held plus the bytes handed to the callback.
  lemma {:induction false} BytesConserved(ops: seq<Op>, limit: nat)
    ensures Size(Added(ops)) == DidAll(EMPTY, ops, limit).bytes + Size(GoneInAll(EMPTY, ops, limit))
    decreases |ops|
  {
    if ops != [] {
      var n := |ops| - 1;
      var op, b := ops[n], DidAll(EMPTY, ops[..n], limit);
      BytesConserved(ops[..n], limit);
      var gone, more := GoneInAll(EMPTY, ops[..n], limit), Gone(b.items, op, limit);
      SizeOfSum(gone, more);
      assert Size(Added(ops)) == Size(Added(ops[..n])) + if op.Add? then |op.key| + |op.view.bytes| else 0 by {
        AddedSize(ops);
      }
    }
  }

  lemma AddedSize(ops: seq<Op>)
    requires ops != []
    ensures var op := ops[|ops| - 1];
      Size(Added(ops)) == Size(Added(ops[..|ops| - 1])) + if op.Add? then |op.key| + |op.view.bytes| else 0
  {
    var op, before := ops[|ops| - 1], Added(ops[..|ops| - 1]);
    var extra := if op.Add? then [ItemFor(op.key, op.view)] else [];
    assert Added(ops) == before + extra;
    SizeOfSum(before, extra);
    if op.Add? {
      SizeOfOne(ItemFor(op.key, op.view));
    }
  }

  lemma CountsConserved(items: seq<Item>, op: Op, limit: nat)
    ensures |items| + (if op.Add? then 1 else 0) == |Left(items, op, limit)| + |Gone(items, op, limit)|
  {
    WithoutConserves(items, op.key);
  }

  // ---------- inclusion ----------

  // A read-through access: look the key up and on a miss add its value.
  function Access(b: Book, k: Key, now: Time, source: Key -> View, limit: nat): (b': Book) {
    var b1 := Did(b, Get(k, now), limit);
    if Found(b.items, Get(k, now)).Some? then b1 else Did(b1, Add(k, source(k)), limit)
  }

  function AccessAll(b: Book, ks: seq<(Key, Time)>, source: Key -> View, limit: nat): (b': Book) {
    if ks == [] then b
    else
      var n := |ks| - 1;
      Access(AccessAll(b, ks[..n], source, limit), ks[n].0, ks[n].1, source, limit)
  }

  predicate Tighter(small: nat, large: nat) {
    small > 0 && (large == 0 || small <= large)
  }

  ghost predicate FromSource(items: seq<Item>, source: Key -> View) {
    forall i :: 0 <= i < |items| ==> items[i] == ItemFor(items[i].key, source(items[i].key))
  }

  ghost predicate NeverExpires(source: Key -> View) {
    forall k :: source(k).expire.None?
  }

  lemma {:induction false} FindInPrefix(s: seq<Item>, l: seq<Item>, k: Key)
    requires s <= l
    ensures Has(s, k) ==> Find(l, k) == Find(s, k)
    ensures !Has(s, k) ==> Find(l, k) >= |s|
  {
    if Has(s, k) {
      assert l[Find(s, k)].key == k;
    }
  }

  lemma WithoutKeepsPrefix(s: seq<Item>, l: seq<Item>, k: Key)
    requires s <= l
    ensures Without(s, k) <= Without(l, k)
  {
    FindInPrefix(s, l, k);
    var i, j := Find(s, k), Find(l, k);
    if i < |s| {
      assert s[..i] == l[..i] && s[i + 1..] <= l[i + 1..];
    } else if j < |l| {
      assert s <= l[..j];
    }
  }

  // Trimming a prefix more gives a prefix.
  lemma TrimKeepsPrefix(s: seq<Item>, l: seq<Item>, small: nat, large: nat)
    requires s <= l && Tighter(small, large)
    ensures Trim(s, small) <= Trim(l, large)
  {
    var p := Trim(s, small);
    TrimIsLongest(s, small, 0);
    assert p == l[..|p|];
    if large > 0 {
      TrimIsLongest(l, large, |p|);
    }
  }

  lemma AccessIncluded(s: Book, l: Book, k: Key, now: Time, source: Key -> View, small: nat, large: nat)
    requires s.items <= l.items && Tighter(small, large) && NeverExpires(source) && FromSource(l.items, source)
    ensures Access(s, k, now, source, small).items <= Access(l, k, now, source, large).items
    ensures FromSource(Access(l, k, now, source, large).items, source)
    ensures Found(s.items, Get(k, now)).Some? ==> Found(l.items, Get(k, now)).Some?
  {
    var it := ItemFor(k, source(k));
    var ps, pl := Put(s.items, it), Put(l.items, it);
    FindInPrefix(s.items, l.items, k);
    AccessIsPut(s, k, now, source, small);
    AccessIsPut(l, k, now, source, large);
    assert ps <= pl by {
      WithoutKeepsPrefix(s.items, l.items, k);
    }
    TrimKeepsPrefix(ps, pl, small, large);
  }

  // Without expiry an access puts the key in front, and trims only if it was not there.
  lemma AccessIsPut(b: Book, k: Key, now: Time, source: Key -> View, limit: nat)
    requires NeverExpires(source) && FromSource(b.items, source)
    ensures var put := Put(b.items, ItemFor(k, source(k)));
      && Access(b, k, now, source, limit).items == (if Has(b.items, k) then put else Trim(put, limit))
      && FromSource(put, source)
      && (Found(b.items, Get(k, now)).Some? <==> Has(b.items, k))
  {
  }

  // LRU inclusion: over every access sequence the contents under the smaller limit are the most
  // recent part of those under the larger one, so a larger limit never loses a hit.
  lemma {:induction false} LruInclusion(ks: seq<(Key, Time)>, source: Key -> View, small: nat, large: nat)
    requires Tighter(small, large) && NeverExpires(source)
    ensures var s, l := AccessAll(EMPTY, ks, source, small), AccessAll(EMPTY, ks, source, large);
      s.items <= l.items && s.hits <= l.hits && FromSource(l.items, source)
    decreases |ks|
  {
    if ks != [] {
      var n := |ks| - 1;
      LruInclusion(ks[..n], source, small, large);
      AccessIncluded(AccessAll(EMPTY, ks[..n], source, small), AccessAll(EMPTY, ks[..n], source, large),
                     ks[n].0, ks[n].1, source, small, large);
    }
  }
}
