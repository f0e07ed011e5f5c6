// transport/peer/picker.go and the ring replacement of instance.go, imperatively.
module Picker {
  import opened Views
  import opened Ring
  import Broadcast
  import BatchPlan

  const DEFAULT_REPLICAS: nat := 50

  // The clients by address after adding these peers; a later one replaces an earlier one.
  function ClientsOf(peers: seq<Peer>): (m: map<string, Peer>)
    ensures forall a :: a in m ==> m[a].address == a && m[a] in peers
    ensures forall p :: p in peers ==> p.address in m
  {
    if peers == [] then map[]
    else
      var last := peers[|peers| - 1];
      ClientsOf(peers[..|peers| - 1])[last.address := last]
  }

  // ---------- sorting: some sorted arrangement, not a stable one ----------

  method SortPoints(ps: seq<Point>) returns (r: seq<Point>)
    ensures Sorted(r) && multiset(r) == multiset(ps)
  {
    r := [];
    for i := 0 to |ps|
      invariant Sorted(r) && multiset(r) == multiset(ps[..i])
    {
      assert ps[..i + 1] == ps[..i] + [ps[i]];
      r := InsertPoint(r, ps[i]);
    }
    assert ps[..|ps|] == ps;
  }

  method InsertPoint(ps: seq<Point>, p: Point) returns (r: seq<Point>)
    requires Sorted(ps)
    ensures Sorted(r) && multiset(r) == multiset(ps) + multiset{p}
  {
    var j := Search(ps, p.hash);
    r := ps[..j] + [p] + ps[j..];
    InsertedAt(ps, p, j);
  }

  lemma InsertedAt(ps: seq<Point>, p: Point, j: nat)
    requires Sorted(ps) && j <= |ps| && (forall i :: 0 <= i < j ==> ps[i].hash < p.hash)
    requires (j < |ps| ==> ps[j].hash >= p.hash)
    ensures Sorted(ps[..j] + [p] + ps[j..]) && multiset(ps[..j] + [p] + ps[j..]) == multiset(ps) + multiset{p}
  {
    assert ps[..j] + ps[j..] == ps;
    Halves(ps, p, j);
    InsertedSorted(ps[..j], p, ps[j..]);
    InsertedBag(ps[..j], p, ps[j..]);
  }

  lemma Halves(ps: seq<Point>, p: Point, j: nat)
    requires Sorted(ps) && j <= |ps| && (forall i :: 0 <= i < j ==> ps[i].hash < p.hash)
    requires (j < |ps| ==> ps[j].hash >= p.hash)
    ensures forall i :: 0 <= i < |ps[..j]| ==> ps[..j][i].hash <= p.hash
    ensures forall i :: 0 <= i < |ps[j..]| ==> p.hash <= ps[j..][i].hash
  {
    forall i | 0 <= i < |ps[j..]|
      ensures p.hash <= ps[j..][i].hash
    {
      assert ps[j..][i] == ps[j + i];
    }
  }

  lemma InsertedSorted(a: seq<Point>, p: Point, b: seq<Point>)
    requires Sorted(a + b)
    requires forall i :: 0 <= i < |a| ==> a[i].hash <= p.hash
    requires forall i :: 0 <= i < |b| ==> p.hash <= b[i].hash
    ensures Sorted(a + [p] + b)
  {
    var s, r := a + b, a + [p] + b;
    forall i, j | 0 <= i < j < |r|
      ensures r[i].hash <= r[j].hash
    {
      if i != |a| && j != |a| {
        assert r[i] == s[if i < |a| then i else i - 1] && r[j] == s[if j < |a| then j else j - 1];
      }
    }
  }

  lemma InsertedBag(a: seq<Point>, p: Point, b: seq<Point>)
    ensures multiset(a + [p] + b) == multiset(a + b) + multiset{p}
  {
  }

  // Bisection for the first point at or above h.
  method Search(ps: seq<Point>, h: int) returns (idx: nat)
    requires Sorted(ps)
    ensures idx == Slot(ps, h)
  {
    var i, j := 0, |ps|;
    while i < j
      invariant i <= j <= |ps|
      invariant i > 0 ==> ps[i - 1].hash < h
      invariant j < |ps| ==> ps[j].hash >= h
    {
      var m := (i + j) / 2;
      if ps[m].hash >= h {
        j := m;
      } else {
        i := m + 1;
      }
    }
    idx := i;
    SlotUnique(ps, h, i);
  }

  lemma SlotUnique(ps: seq<Point>, h: int, i: nat)
    requires Sorted(ps) && i <= |ps|
    requires i > 0 ==> ps[i - 1].hash < h
    requires i < |ps| ==> ps[i].hash >= h
    ensures Slot(ps, h) == i
  {
  }

  class Picker {
    const hashFn: HashFn
    const digest: string -> string
    const replicas: int
    var keys: seq<Point>
    var clientMap: map<string, Peer>
    ghost var added: seq<Peer>

    // The loop of Add runs this many times.
    function Count(): (n: nat) {
      if replicas < 0 then 0 else replicas
    }

    ghost predicate Valid()
      reads this
    {
      && Sorted(keys)
      && multiset(keys) == PointsOf(hashFn, digest, Count(), added)
      && clientMap == ClientsOf(added)
    }

    function Now(): (r: Ring)
      reads this
    {
      Ring(hashFn, keys, clientMap)
    }

    // Zero replicas stand for the default number.
    constructor (hashFn: HashFn, digest: string -> string, replicas: int)
      ensures Valid() && added == [] && this.hashFn == hashFn && this.digest == digest
      ensures this.replicas == if replicas == 0 then DEFAULT_REPLICAS else replicas
    {
      this.hashFn, this.digest := hashFn, digest;
      this.replicas := if replicas == 0 then DEFAULT_REPLICAS else replicas;
      keys, clientMap, added := [], map[], [];
    }

    method Add(client: Peer)
      requires Valid()
      modifies this
      ensures Valid() && added == old(added) + [client]
    {
      assert (added + [client])[..|added|] == added;
      clientMap := clientMap[client.address := client];
      var ps := keys;
      for i := 0 to Count()
        invariant keys == old(keys) && clientMap == old(clientMap)[client.address := client] && added == old(added)
        invariant multiset(ps) == multiset(keys) + multiset(Replicas(hashFn, digest, i, client))
      {
        ps := ps + [Point(ReplicaHash(hashFn, digest, i, client.address), client)];
      }
      keys := SortPoints(ps);
      added := added + [client];
    }

    method Get(key: string) returns (client: Option<Peer>)
      requires Valid()
      ensures client == Pick(Now(), key)
    {
      if keys == [] {
        return None;
      }
      var idx := Search(keys, Signed(hashFn(key)));
      if idx == |keys| {
        idx := 0;
      }
      client := Some(keys[idx].peer);
    }

    method PickPeer(key: string) returns (client: Option<Peer>, isRemote: bool)
      requires Valid()
      ensures client == Pick(Now(), key) && isRemote == !IsLocal(Now(), key)
    {
      client := Get(key);
      isRemote := client.Some? && !client.value.isSelf;
    }

    // The clients in no particular order, each once.
    method GetAll() returns (results: seq<Peer>)
      requires Valid()
      ensures forall p :: p in results <==> p.address in clientMap && clientMap[p.address] == p
      ensures forall i, j :: 0 <= i < j < |results| ==> results[i].address != results[j].address
    {
      results := [];
      var todo := clientMap.Keys;
      while todo != {}
        invariant todo <= clientMap.Keys
        invariant forall p :: p in results
                         <==> p.address in clientMap && p.address !in todo && clientMap[p.address] == p
        invariant forall i, j :: 0 <= i < j < |results| ==> results[i].address != results[j].address
        decreases |todo|
      {
        var a :| a in todo;
        results := results + [clientMap[a]];
        todo := todo - {a};
      }
    }
  }

  // ---------- instance.go ----------

  datatype PeersError = Unreachable | SelfMissing

  // NewClient fails for these addresses.
  ghost predicate Rejected(peers: seq<Peer>, refused: set<string>) {
    exists p :: p in peers && !p.isSelf && p.address in refused
  }

  ghost predicate NamesSelf(peers: seq<Peer>) {
    exists p :: p in peers && p.isSelf
  }

  lemma OneMorePeer(peers: seq<Peer>, i: nat, refused: set<string>)
    requires i < |peers|
    ensures peers[..i + 1] == peers[..i] + [peers[i]]
    ensures NamesSelf(peers[..i + 1]) <==> NamesSelf(peers[..i]) || peers[i].isSelf
    ensures Rejected(peers[..i + 1], refused)
       <==> Rejected(peers[..i], refused) || (!peers[i].isSelf && peers[i].address in refused)
    ensures Rejected(peers[..i + 1], refused) ==> Rejected(peers, refused)
  {
    assert peers[i] in peers[..i + 1];
  }

  class Instance {
    const hashFn: HashFn
    const digest: string -> string
    const replicas: int
    var picker: Picker

    ghost predicate Valid()
      reads this, picker
    {
      picker.Valid() && picker.hashFn == hashFn && picker.digest == digest
      && picker.replicas == if replicas == 0 then DEFAULT_REPLICAS else replicas
    }

    constructor (hashFn: HashFn, digest: string -> string, replicas: int)
      ensures Valid() && picker.added == [] && this.hashFn == hashFn && this.digest == digest
      ensures this.replicas == replicas
    {
      this.hashFn, this.digest, this.replicas := hashFn, digest, replicas;
      picker := new Picker(hashFn, digest, replicas);
    }

    // Replaces the ring by one over the whole list, or leaves it alone and reports an error.
    method SetPeers(peers: seq<Peer>, refused: set<string>) returns (err: Option<PeersError>)
      requires Valid()
      modifies this`picker
      ensures Valid()
      ensures err == Some(Unreachable) <==> Rejected(peers, refused)
      ensures err.None? <==> !Rejected(peers, refused) && NamesSelf(peers)
      ensures if err.None? then fresh(picker) && picker.added == peers else picker == old(picker)
    {
      var next := new Picker(hashFn, digest, replicas);
      var includesSelf := false;
      for i := 0 to |peers|
        invariant next.Valid() && fresh(next) && next.added == peers[..i] && Valid() && picker == old(picker)
        invariant next.hashFn == hashFn && next.digest == digest
        invariant next.replicas == if replicas == 0 then DEFAULT_REPLICAS else replicas
        invariant includesSelf <==> NamesSelf(peers[..i])
        invariant !Rejected(peers[..i], refused)
      {
        OneMorePeer(peers, i, refused);
        if peers[i].isSelf {
          next.Add(Peer(peers[i].address, true));
          includesSelf := true;
        } else {
          if peers[i].address in refused {
            return Some(Unreachable);
          }
          next.Add(peers[i]);
        }
      }
      assert peers[..|peers|] == peers;
      if !includesSelf {
        return Some(SelfMissing);
      }
      picker := next;
      err := None;
    }

    method PickPeer(key: string) returns (client: Option<Peer>, isRemote: bool)
      requires Valid()
      ensures client == Pick(picker.Now(), key) && isRemote == !IsLocal(picker.Now(), key)
    {
      client, isRemote := picker.PickPeer(key);
    }
  }

  // ---------- what a ring made by SetPeers guarantees ----------

  // A ring over a list in which exactly the node's own address is marked as self knows itself and
  // lists the client of every point.
  lemma BuiltRingFits(r: Ring, digest: string -> string, n: nat, peers: seq<Peer>, self: string)
    requires Builds(r, digest, n, peers) && r.clients == ClientsOf(peers) && ListFor(peers, self, Addresses(peers))
    ensures Broadcast.KnowsItself(r, self) && BatchPlan.Listed(r)
  {
    forall i | 0 <= i < |r.points|
      ensures r.points[i].peer in peers
    {
      assert r.points[i] in multiset(r.points);
      PointsMembership(r.hashFn, digest, n, peers, r.points[i]);
    }
  }
}
