// The consistent hash ring (transport/peer/picker.go) as a value, and the laws of ownership.
module Ring {
  import opened Views
  import opened Wire

  datatype Peer = Peer(address: string, isSelf: bool)

  // One replica of a peer on the ring; hash is the signed reading of a 64-bit hash.
  datatype Point = Point(hash: int, peer: Peer)

  type U64 = x: int | 0 <= x < TWO64

  type HashFn = string -> U64

  // A picker: its hash function, its points in ascending order, and its clients by address.
  datatype Ring = Ring(hashFn: HashFn, points: seq<Point>, clients: map<string, Peer>)

  // Go's int(u) on a uint64.
  function Signed(u: U64): (i: int) {
    WrapInt64(u)
  }

  ghost predicate Sorted(ps: seq<Point>) {
    forall i, j :: 0 <= i < j < |ps| ==> ps[i].hash <= ps[j].hash
  }

  // ---------- looking a key up ----------

  // The first position whose hash is at least h, or |ps|.
  function Slot(ps: seq<Point>, h: int): (i: nat)
    ensures i <= |ps|
    ensures forall j :: 0 <= j < i ==> ps[j].hash < h
    ensures i < |ps| ==> ps[i].hash >= h
  {
    SlotFrom(ps, h, 0)
  }

  function SlotFrom(ps: seq<Point>, h: int, n: nat): (i: nat)
    requires n <= |ps|
    ensures n <= i <= |ps|
    ensures forall j :: n <= j < i ==> ps[j].hash < h
    ensures i < |ps| ==> ps[i].hash >= h
    decreases |ps| - n
  {
    if n == |ps| || ps[n].hash >= h then n else SlotFrom(ps, h, n + 1)
  }

  // The point a search ends on: past the last point it wraps around to the first.
  function Landing(ps: seq<Point>, h: int): (p: Point)
    requires ps != []
    ensures p in ps
  {
    var i := Slot(ps, h);
    if i == |ps| then ps[0] else ps[i]
  }

  // Picker.PickPeer: no peer at all on an empty ring.
  function Pick(r: Ring, key: string): (p: Option<Peer>) {
    if r.points == [] then None else Some(Landing(r.points, Signed(r.hashFn(key))).peer)
  }

  // True when a request for the key is answered by this node itself.
  predicate IsLocal(r: Ring, key: string) {
    var p := Pick(r, key);
    p.None? || p.value.isSelf
  }

  // ---------- the reference: least point at or above the hash, else the least point ----------

  ghost predicate Chosen(ps: multiset<Point>, h: int, p: Point) {
    && p in ps
    && (if exists q :: q in ps && q.hash >= h
        then p.hash >= h && forall q :: q in ps && q.hash >= h ==> p.hash <= q.hash
        else forall q :: q in ps ==> p.hash <= q.hash)
  }

  lemma LandingIsChosen(ps: seq<Point>, h: int)
    requires ps != [] && Sorted(ps)
    ensures Chosen(multiset(ps), h, Landing(ps, h))
  {
    var i := Slot(ps, h);
    forall q | q in multiset(ps)
      ensures q.hash >= h ==> i < |ps| && ps[i].hash <= q.hash
      ensures ps[0].hash <= q.hash
    {
      var j :| 0 <= j < |ps| && ps[j] == q;
    }
    if i < |ps| {
      assert ps[i] in multiset(ps);
    }
  }

  // No two different peers own points with the same hash.
  ghost predicate NoSharedPoint(ps: multiset<Point>) {
    forall p, q :: p in ps && q in ps && p.hash == q.hash ==> p.peer.address == q.peer.address
  }

  lemma ChosenAddressUnique(ps: multiset<Point>, h: int, p: Point, q: Point)
    requires NoSharedPoint(ps)
    requires Chosen(ps, h, p) && Chosen(ps, h, q)
    ensures p.peer.address == q.peer.address
  {
    assert p.hash == q.hash;
  }

  // ---------- building a ring ----------

  // strconv.Itoa on the replica number.
  function Itoa(i: nat): (s: string)
    ensures s != []
  {
    if i < 10 then [Digit(i)] else Itoa(i / 10) + [Digit(i % 10)]
  }

  function Digit(d: nat): (c: char)
    requires d < 10
  {
    ('0' as int + d) as char
  }

  // digest stands for fmt.Sprintf("%x", md5.Sum(...)).
  function ReplicaHash(hashFn: HashFn, digest: string -> string, i: nat, address: string): (h: int) {
    Signed(hashFn(digest(Itoa(i) + address)))
  }

  // The points that Add appends for one peer.
  function Replicas(hashFn: HashFn, digest: string -> string, n: nat, p: Peer): (ps: seq<Point>)
    ensures |ps| == n
    ensures forall i :: 0 <= i < n ==> ps[i] == Point(ReplicaHash(hashFn, digest, i, p.address), p)
  {
    if n == 0 then []
    else Replicas(hashFn, digest, n - 1, p) + [Point(ReplicaHash(hashFn, digest, n - 1, p.address), p)]
  }

  // The points after adding the peers in this order, as a bag: sorting does not change it.
  function PointsOf(hashFn: HashFn, digest: string -> string, n: nat, peers: seq<Peer>): (b: multiset<Point>) {
    if peers == [] then multiset{}
    else PointsOf(hashFn, digest, n, peers[..|peers| - 1])
         + multiset(Replicas(hashFn, digest, n, peers[|peers| - 1]))
  }

  // r is what SetPeers may build from the list: any sorted arrangement of its points.
  ghost predicate Builds(r: Ring, digest: string -> string, n: nat, peers: seq<Peer>) {
    && Sorted(r.points)
    && multiset(r.points) == PointsOf(r.hashFn, digest, n, peers)
  }

  lemma {:induction false} PointsMembership(hashFn: HashFn, digest: string -> string, n: nat, peers: seq<Peer>,
                                            q: Point)
    ensures q in PointsOf(hashFn, digest, n, peers)
       <==> q.peer in peers && exists i :: 0 <= i < n && q.hash == ReplicaHash(hashFn, digest, i, q.peer.address)
  {
    if peers != [] {
      var last := peers[|peers| - 1];
      PointsMembership(hashFn, digest, n, peers[..|peers| - 1], q);
      var rs := Replicas(hashFn, digest, n, last);
      if q in multiset(rs) {
        var i :| 0 <= i < |rs| && rs[i] == q;
        assert 0 <= i < n && q.hash == ReplicaHash(hashFn, digest, i, q.peer.address);
      }
      if q.peer == last {
        forall i | 0 <= i < n && q.hash == ReplicaHash(hashFn, digest, i, q.peer.address)
          ensures q in multiset(rs)
        {
          assert rs[i] == q;
        }
      }
      assert q.peer in peers <==> q.peer in peers[..|peers| - 1] || q.peer == last;
    }
  }

  // Whether different addresses of the list collide on the ring, whatever the node that looks.
  ghost predicate Collides(hashFn: HashFn, digest: string -> string, n: nat, addresses: set<string>) {
    exists a, b, i, j :: a in addresses && b in addresses && a != b && 0 <= i < n && 0 <= j < n
      && ReplicaHash(hashFn, digest, i, a) == ReplicaHash(hashFn, digest, j, b)
  }

  function Addresses(peers: seq<Peer>): (s: set<string>) {
    set p | p in peers :: p.address
  }

  lemma NoCollisionNoSharedPoint(hashFn: HashFn, digest: string -> string, n: nat, peers: seq<Peer>)
    requires !Collides(hashFn, digest, n, Addresses(peers))
    ensures NoSharedPoint(PointsOf(hashFn, digest, n, peers))
  {
    var ps := PointsOf(hashFn, digest, n, peers);
    forall p, q | p in ps && q in ps && p.hash == q.hash
      ensures p.peer.address == q.peer.address
    {
      PointsMembership(hashFn, digest, n, peers, p);
      PointsMembership(hashFn, digest, n, peers, q);
      assert p.peer.address in Addresses(peers) && q.peer.address in Addresses(peers);
      var i :| 0 <= i < n && p.hash == ReplicaHash(hashFn, digest, i, p.peer.address);
      var j :| 0 <= j < n && q.hash == ReplicaHash(hashFn, digest, j, q.peer.address);
    }
  }

  // ---------- agreement ----------

  // Every point of ps has a twin in qs: the same hash, owned by the same address.
  ghost predicate Covers(ps: multiset<Point>, qs: multiset<Point>) {
    forall q :: q in ps ==> HasTwin(q, qs)
  }

  ghost predicate HasTwin(q: Point, qs: multiset<Point>) {
    exists q' :: q' in qs && q'.hash == q.hash && q'.peer.address == q.peer.address
  }

  lemma TwinInList(hashFn: HashFn, digest: string -> string, n: nat, b: seq<Peer>, q: Point)
    requires q.peer.address in Addresses(b)
    requires exists i :: 0 <= i < n && q.hash == ReplicaHash(hashFn, digest, i, q.peer.address)
    ensures HasTwin(q, PointsOf(hashFn, digest, n, b))
  {
    var p :| p in b && p.address == q.peer.address;
    PointsMembership(hashFn, digest, n, b, Point(q.hash, p));
  }

  lemma MoreAddressesCover(hashFn: HashFn, digest: string -> string, n: nat, a: seq<Peer>, b: seq<Peer>)
    requires Addresses(a) <= Addresses(b)
    ensures Covers(PointsOf(hashFn, digest, n, a), PointsOf(hashFn, digest, n, b))
  {
    forall q | q in PointsOf(hashFn, digest, n, a)
      ensures HasTwin(q, PointsOf(hashFn, digest, n, b))
    {
      PointsMembership(hashFn, digest, n, a, q);
      assert q.peer.address in Addresses(a);
      TwinInList(hashFn, digest, n, b, q);
    }
  }

  // If the larger bag chooses a point the smaller one also has, both choose its address.
  lemma TwinsChooseAlike(ps: multiset<Point>, qs: multiset<Point>, h: int, p: Point, q: Point)
    requires Covers(ps, qs) && NoSharedPoint(qs) && HasTwin(q, ps)
    requires Chosen(ps, h, p) && Chosen(qs, h, q)
    ensures p.peer.address == q.peer.address
  {
    assert HasTwin(p, qs);
    var p' :| p' in qs && p'.hash == p.hash && p'.peer.address == p.peer.address;
    var q' :| q' in ps && q'.hash == q.hash && q'.peer.address == q.peer.address;
    assert p'.hash == q.hash;
  }

  // A ring over more addresses that still picks an old address picks the old owner.
  lemma OldOwnerStays(r: Ring, r': Ring, digest: string -> string, n: nat, l: seq<Peer>, l': seq<Peer>, key: string)
    requires n > 0 && l != []
    requires r.hashFn == r'.hashFn
    requires Builds(r, digest, n, l) && Builds(r', digest, n, l')
    requires Addresses(l) <= Addresses(l')
    requires !Collides(r.hashFn, digest, n, Addresses(l'))
    ensures Pick(r, key).Some? && Pick(r', key).Some?
    ensures Pick(r', key).value.address in Addresses(l)
        ==> Pick(r', key).value.address == Pick(r, key).value.address
  {
    var h := Signed(r.hashFn(key));
    NonEmptyRing(r, digest, n, l);
    assert l[0].address in Addresses(l');
    NonEmptyRing(r', digest, n, l');
    var p, q := Landing(r.points, h), Landing(r'.points, h);
    if q.peer.address in Addresses(l) {
      LandingIsChosen(r.points, h);
      LandingIsChosen(r'.points, h);
      NoCollisionNoSharedPoint(r.hashFn, digest, n, l');
      MoreAddressesCover(r.hashFn, digest, n, l, l');
      assert HasTwin(q, multiset(r.points)) by {
        PointsMembership(r.hashFn, digest, n, l', q);
        TwinInList(r.hashFn, digest, n, l, q);
      }
      TwinsChooseAlike(multiset(r.points), multiset(r'.points), h, p, q);
    }
  }

  // The owner's address depends only on the set of addresses: not on the order in which the
  // peers were added, not on how the unstable sort broke ties, not on who is marked as self.
  lemma RingsAgree(r1: Ring, r2: Ring, digest: string -> string, n: nat, l1: seq<Peer>, l2: seq<Peer>, key: string)
    requires n > 0 && l1 != []
    requires r1.hashFn == r2.hashFn
    requires Builds(r1, digest, n, l1) && Builds(r2, digest, n, l2)
    requires Addresses(l1) == Addresses(l2)
    requires !Collides(r1.hashFn, digest, n, Addresses(l1))
    ensures Pick(r1, key).Some? && Pick(r2, key).Some?
    ensures Pick(r1, key).value.address == Pick(r2, key).value.address
  {
    OldOwnerStays(r1, r2, digest, n, l1, l2, key);
    PickedFromList(r2, digest, n, l2, key);
  }

  lemma NonEmptyRing(r: Ring, digest: string -> string, n: nat, l: seq<Peer>)
    requires n > 0 && l != [] && Builds(r, digest, n, l)
    ensures r.points != []
  {
    var q := Point(ReplicaHash(r.hashFn, digest, 0, l[0].address), l[0]);
    PointsMembership(r.hashFn, digest, n, l, q);
    assert q in multiset(r.points);
  }

  // How a node at address self is told about the cluster: the given addresses, with its own
  // and no other marked as self (daemon.go).
  ghost predicate ListFor(l: seq<Peer>, self: string, addresses: set<string>) {
    && Addresses(l) == addresses
    && forall p :: p in l ==> (p.isSelf <==> p.address == self)
  }

  // Each node has its own ring over the same addresses.
  ghost predicate Agreed(rings: map<string, Ring>, digest: string -> string, n: nat, hashFn: HashFn) {
    && n > 0
    && rings.Keys != {}
    && !Collides(hashFn, digest, n, rings.Keys)
    && forall a :: a in rings ==>
         rings[a].hashFn == hashFn
         && exists l :: ListFor(l, a, rings.Keys) && Builds(rings[a], digest, n, l)
  }

  // Two nodes of the cluster pick the same address, marked as self by its own node only.
  lemma SameOwner(rings: map<string, Ring>, digest: string -> string, n: nat, hashFn: HashFn, key: string, a: string,
                  b: string)
    requires Agreed(rings, digest, n, hashFn) && a in rings && b in rings
    ensures Pick(rings[a], key).Some? && Pick(rings[b], key).Some?
    ensures var owner := Pick(rings[b], key).value.address;
      owner in rings && Pick(rings[a], key).value == Peer(owner, a == owner)
  {
    var la :| ListFor(la, a, rings.Keys) && Builds(rings[a], digest, n, la);
    var lb :| ListFor(lb, b, rings.Keys) && Builds(rings[b], digest, n, lb);
    ListNonEmpty(lb, b, rings.Keys);
    RingsAgree(rings[b], rings[a], digest, n, lb, la, key);
    PickedFromList(rings[a], digest, n, la, key);
    var p := Pick(rings[a], key).value;
    assert p == Peer(p.address, p.isSelf);
  }

  // Exactly one node regards the key as its own; every other node sends it there.
  lemma SingleOwner(rings: map<string, Ring>, digest: string -> string, n: nat, hashFn: HashFn, key: string)
    returns (owner: string)
    requires Agreed(rings, digest, n, hashFn)
    ensures owner in rings
    ensures forall a :: a in rings ==> Pick(rings[a], key) == Some(Peer(owner, a == owner))
    ensures forall a :: a in rings ==> (IsLocal(rings[a], key) <==> a == owner)
  {
    var b :| b in rings.Keys;
    SameOwner(rings, digest, n, hashFn, key, b, b);
    owner := Pick(rings[b], key).value.address;
    forall a | a in rings
      ensures Pick(rings[a], key) == Some(Peer(owner, a == owner))
    {
      SameOwner(rings, digest, n, hashFn, key, a, b);
    }
  }

  lemma ListNonEmpty(l: seq<Peer>, self: string, addresses: set<string>)
    requires ListFor(l, self, addresses) && self in addresses
    ensures l != []
  {
    assert self in Addresses(l);
  }

  lemma PickedFromList(r: Ring, digest: string -> string, n: nat, l: seq<Peer>, key: string)
    requires Builds(r, digest, n, l) && r.points != []
    ensures Pick(r, key).Some? && Pick(r, key).value in l
    ensures Pick(r, key).value.address in Addresses(l)
  {
    var p := Landing(r.points, Signed(r.hashFn(key)));
    assert p in multiset(r.points);
    PointsMembership(r.hashFn, digest, n, l, p);
  }

  // ---------- minimal disruption ----------

  // Adding a peer moves a key only to that peer; read from right to left, removing a peer
  // moves only the keys it owned.
  lemma MinimalDisruption(r: Ring, r': Ring, digest: string -> string, n: nat, l: seq<Peer>, l': seq<Peer>,
                          joined: string, key: string)
    requires n > 0 && l != []
    requires r.hashFn == r'.hashFn
    requires Builds(r, digest, n, l) && Builds(r', digest, n, l')
    requires Addresses(l') == Addresses(l) + {joined}
    requires !Collides(r.hashFn, digest, n, Addresses(l'))
    ensures Pick(r, key).Some? && Pick(r', key).Some?
    ensures var before, after := Pick(r, key).value.address, Pick(r', key).value.address;
      after != before ==> after == joined
  {
    OldOwnerStays(r, r', digest, n, l, l', key);
    PickedFromList(r', digest, n, l', key);
  }

  // ---------- every forward goes downhill ----------

  // How far clockwise from h the point x lies.
  function Ahead(h: int, x: int): (d: int)
    requires IsInt64(h) && IsInt64(x)
    ensures 0 <= d < TWO64
  {
    if x >= h then x - h else x - h + TWO64
  }

  // The distance from h to the nearest replica of an address.
  function Near(hashFn: HashFn, digest: string -> string, n: nat, h: int, address: string): (d: nat)
    requires n > 0 && IsInt64(h)
    ensures d < TWO64
    ensures exists i :: 0 <= i < n && d == Ahead(h, ReplicaHash(hashFn, digest, i, address))
    ensures forall i :: 0 <= i < n ==> d <= Ahead(h, ReplicaHash(hashFn, digest, i, address))
  {
    var last := Ahead(h, ReplicaHash(hashFn, digest, n - 1, address));
    if n == 1 then last
    else
      var before := Near(hashFn, digest, n - 1, h, address);
      if before < last then before else last
  }

  // Only points with the same hash are equally far ahead.
  lemma AheadInjective(h: int, x: int, y: int)
    requires IsInt64(h) && IsInt64(x) && IsInt64(y)
    ensures Ahead(h, x) == Ahead(h, y) ==> x == y
  {
  }

  // The chosen point is the one with the shortest way ahead.
  lemma ChosenIsNearest(ps: multiset<Point>, h: int, p: Point, q: Point)
    requires Chosen(ps, h, p) && q in ps
    requires IsInt64(h) && IsInt64(p.hash) && IsInt64(q.hash)
    ensures Ahead(h, p.hash) <= Ahead(h, q.hash)
  {
  }

  // The picked address is strictly nearer to the key than every other address of the list. In
  // particular a node that is on its own list forwards a key only to a strictly nearer node,
  // however much the lists of different nodes differ.
  lemma PickedIsNearest(r: Ring, digest: string -> string, n: nat, l: seq<Peer>, key: string, address: string)
    requires n > 0 && Builds(r, digest, n, l) && address in Addresses(l)
    requires !Collides(r.hashFn, digest, n, Addresses(l))
    ensures Pick(r, key).Some? && Pick(r, key).value in l
    ensures var a := Pick(r, key).value.address;
      a != address ==>
        var h := Signed(r.hashFn(key));
        Near(r.hashFn, digest, n, h, a) < Near(r.hashFn, digest, n, h, address)
  {
    var h := Signed(r.hashFn(key));
    var peer :| peer in l && peer.address == address;
    NonEmptyRing(r, digest, n, l);
    PickedFromList(r, digest, n, l, key);
    var p := Landing(r.points, h);
    var a := p.peer.address;
    if a != address {
      LandingIsChosen(r.points, h);
      assert p in multiset(r.points);
      PointsMembership(r.hashFn, digest, n, l, p);
      var i :| 0 <= i < n && p.hash == ReplicaHash(r.hashFn, digest, i, a);
      var d := Near(r.hashFn, digest, n, h, address);
      var j :| 0 <= j < n && d == Ahead(h, ReplicaHash(r.hashFn, digest, j, address));
      var q := Point(ReplicaHash(r.hashFn, digest, j, address), peer);
      PointsMembership(r.hashFn, digest, n, l, q);
      assert q in multiset(r.points);
      ChosenIsNearest(multiset(r.points), h, p, q);
      AheadInjective(h, p.hash, q.hash);
      assert a in Addresses(l);
    }
  }
}
