// Recency lists of cache entries, most recent first, and what each cache operation makes of them.
module Recency {
  import opened Views

  type Key = string

  datatype Item = Item(key: Key, value: View, expire: Option<Time>)

  ghost predicate Differ(items: seq<Item>, i: nat, j: nat) {
    i < j < |items| ==> items[i].key != items[j].key
  }

  ghost predicate UniqueKeys(items: seq<Item>) {
    forall i: nat, j: nat {:trigger Differ(items, i, j)} :: Differ(items, i, j)
  }

  // The position of the key, or the length if it is absent.
  function Find(items: seq<Item>, k: Key): (i: nat)
    ensures i <= |items|
    ensures i < |items| ==> items[i].key == k
    ensures forall j :: 0 <= j < i ==> items[j].key != k
  {
    FindFrom(items, k, 0)
  }

  function FindFrom(items: seq<Item>, k: Key, n: nat): (i: nat)
    requires n <= |items|
    ensures n <= i <= |items|
    ensures i < |items| ==> items[i].key == k
    ensures forall j :: n <= j < i ==> items[j].key != k
    decreases |items| - n
  {
    if n == |items| || items[n].key == k then n else FindFrom(items, k, n + 1)
  }

  predicate Has(items: seq<Item>, k: Key) {
    Find(items, k) < |items|
  }

  function Without(items: seq<Item>, k: Key): (r: seq<Item>) {
    var i := Find(items, k);
    if i < |items| then items[..i] + items[i + 1..] else items
  }

  // The entry of the key as a sequence of at most one item.
  function Held(items: seq<Item>, k: Key): (r: seq<Item>) {
    var i := Find(items, k);
    if i < |items| then [items[i]] else []
  }

  function Put(items: seq<Item>, it: Item): (r: seq<Item>) {
    [it] + Without(items, it.key)
  }

  function Touch(items: seq<Item>, k: Key): (r: seq<Item>) {
    Held(items, k) + Without(items, k)
  }

  // ---------- an addition under a limit on the number of entries (0 is no limit) ----------

  predicate Overfull(items: seq<Item>, it: Item, maxEntries: int) {
    maxEntries != 0 && !Has(items, it.key) && |items| + 1 > maxEntries
  }

  function Kept(items: seq<Item>, it: Item, maxEntries: int): (r: seq<Item>) {
    var added := Put(items, it);
    if Overfull(items, it, maxEntries) then added[..|added| - 1] else added
  }

  function DroppedByAdd(items: seq<Item>, it: Item, maxEntries: int): (r: seq<Item>) {
    var added := Put(items, it);
    if Overfull(items, it, maxEntries) then [added[|added| - 1]] else Held(items, it.key)
  }

  // ---------- a lookup at a given moment ----------

  function LookedUp(items: seq<Item>, k: Key, now: Time): (r: Option<View>) {
    if Has(items, k) && !Passed(items[Find(items, k)].expire, now) then Some(items[Find(items, k)].value) else None
  }

  function AfterLookup(items: seq<Item>, k: Key, now: Time): (r: seq<Item>) {
    if !Has(items, k) then items
    else if Passed(items[Find(items, k)].expire, now) then Without(items, k)
    else Touch(items, k)
  }

  function DroppedByLookup(items: seq<Item>, k: Key, now: Time): (r: seq<Item>) {
    if Has(items, k) && Passed(items[Find(items, k)].expire, now) then Held(items, k) else []
  }

  lemma FoundAt(items: seq<Item>, i: nat)
    requires UniqueKeys(items) && i < |items|
    ensures Find(items, items[i].key) == i
  {
    assert Differ(items, Find(items, items[i].key), i) && Differ(items, i, Find(items, items[i].key));
  }

  // What a lookup promises of the entry at position i: alive, it is returned and comes to the front;
  // otherwise it is dropped and reported.
  predicate LooksUpAt(items: seq<Item>, i: nat, now: Time, value: Option<View>, after: seq<Item>,
                      dropped: seq<Item>)
    requires i < |items|
  {
    var rest := items[..i] + items[i + 1..];
    if Alive(items[i].expire, now)
    then value == Some(items[i].value) && after == [items[i]] + rest && dropped == []
    else value == None && after == rest && dropped == [items[i]]
  }

  ghost predicate LooksUp(items: seq<Item>, k: Key, now: Time, value: Option<View>, after: seq<Item>,
                          dropped: seq<Item>) {
    && (!Has(items, k) ==> value == None && after == items && dropped == [])
    && (forall i: nat {:trigger LooksUpAt(items, i, now, value, after, dropped)} ::
          i < |items| && items[i].key == k ==> LooksUpAt(items, i, now, value, after, dropped))
  }

  lemma LookupMeans(items: seq<Item>, k: Key, now: Time)
    requires UniqueKeys(items)
    ensures LooksUp(items, k, now, LookedUp(items, k, now), AfterLookup(items, k, now), DroppedByLookup(items, k, now))
  {
    var value, after, dropped := LookedUp(items, k, now), AfterLookup(items, k, now), DroppedByLookup(items, k, now);
    forall i: nat | i < |items| && items[i].key == k
      ensures LooksUpAt(items, i, now, value, after, dropped)
    {
      FoundAt(items, i);
      PassedExactly(items[i].expire, now);
    }
  }

  // An entry dropped for its expiry would be missed at every later moment as well.
  lemma DroppedForGood(items: seq<Item>, k: Key, now: Time, later: Time)
    requires DroppedByLookup(items, k, now) != [] && Nanos(now) <= Nanos(later)
    ensures LookedUp(items, k, later) == None
  {
    PassedExactly(items[Find(items, k)].expire, now);
    PassedExactly(items[Find(items, k)].expire, later);
  }

  lemma WithoutKeepsUnique(items: seq<Item>, k: Key)
    requires UniqueKeys(items)
    ensures UniqueKeys(Without(items, k)) && !Has(Without(items, k), k)
  {
    var p, r := Find(items, k), Without(items, k);
    forall i: nat, j: nat
      ensures Differ(r, i, j)
    {
      assert Differ(items, if i < p then i else i + 1, if j < p then j else j + 1) && Differ(items, i, j);
    }
    var q := Find(r, k);
    assert Differ(items, q, p) && Differ(items, p, q + 1);
  }

  // ---------- sizes and the byte limit ----------

  function SizeOf(it: Item): (n: nat) {
    |it.key| + |it.value.bytes|
  }

  function Size(items: seq<Item>): (n: nat) {
    if items == [] then 0 else Size(items[..|items| - 1]) + SizeOf(items[|items| - 1])
  }

  // Dropping from the old end until the rest fits; a limit of 0 is no limit.
  function Trim(items: seq<Item>, limit: nat): (r: seq<Item>)
    ensures r <= items
  {
    if limit == 0 || Size(items) <= limit then items else Trim(items[..|items| - 1], limit)
  }

  lemma {:induction false} SizeOfSum(a: seq<Item>, b: seq<Item>)
    ensures Size(a + b) == Size(a) + Size(b)
    decreases |b|
  {
    if b == [] {
      assert a + b == a;
    } else {
      assert (a + b)[..|a + b| - 1] == a + b[..|b| - 1];
      SizeOfSum(a, b[..|b| - 1]);
    }
  }

  lemma SizeOfOne(it: Item)
    ensures Size([it]) == SizeOf(it)
  {
    assert [it][..0] == [];
  }

  // What is kept fits, and nothing longer would: the shortest possible old end is dropped.
  lemma {:induction false} TrimIsLongest(items: seq<Item>, limit: nat, n: nat)
    requires limit > 0 && n <= |items|
    ensures Size(Trim(items, limit)) <= limit
    ensures n <= |Trim(items, limit)| <==> Size(items[..n]) <= limit
    decreases |items|
  {
    if Size(items) <= limit {
      PrefixIsSmaller(items, n);
    } else if n == |items| {
      assert items[..n] == items;
      TrimIsLongest(items[..n - 1], limit, n - 1);
    } else {
      assert items[..|items| - 1][..n] == items[..n];
      TrimIsLongest(items[..|items| - 1], limit, n);
    }
  }

  lemma PrefixIsSmaller(items: seq<Item>, n: nat)
    requires n <= |items|
    ensures Size(items[..n]) <= Size(items)
  {
    assert items == items[..n] + items[n..];
    SizeOfSum(items[..n], items[n..]);
  }

  // ---------- nothing appears or disappears by itself ----------

  lemma TakenOut(a: seq<Item>, b: seq<Item>, c: seq<Item>)
    ensures multiset(a + b + c) == multiset(b) + multiset(a + c)
    ensures Size(a + b + c) == Size(b) + Size(a + c)
  {
    SizeOfSum(a, b);
    SizeOfSum(a + b, c);
    SizeOfSum(a, c);
  }

  lemma CutOut(items: seq<Item>, i: nat, rest: seq<Item>)
    requires i < |items| && rest == items[..i] + items[i + 1..]
    ensures multiset(items) == multiset([items[i]]) + multiset(rest)
    ensures Size(items) == Size([items[i]]) + Size(rest)
  {
    var all := items[..i] + [items[i]] + items[i + 1..];
    TakenOut(items[..i], [items[i]], items[i + 1..]);
    assert items == all;
  }

  lemma WithoutConserves(items: seq<Item>, k: Key)
    ensures multiset(items) == multiset(Held(items, k)) + multiset(Without(items, k))
    ensures Size(items) == Size(Held(items, k)) + Size(Without(items, k))
    ensures |items| == |Held(items, k)| + |Without(items, k)|
  {
    if Has(items, k) {
      CutOut(items, Find(items, k), Without(items, k));
    }
  }
}
