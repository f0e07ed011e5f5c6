// The requests that RemoveKeys sends, and when they amount to removing each key by itself.
module BatchPlan {
  import opened Views
  import opened Wire
  import opened Protocol
  import opened Broadcast
  import Ring

  // The keys of the batch that the ring sends to client c, in the order of the batch.
  function OwnedBy(nd: Node, keys: seq<Key>, c: Client): (r: seq<Key>)
    ensures forall k :: k in r <==> k in keys && RemoteOwner(nd, k) == Some(c)
  {
    if keys == [] then []
    else
      var last := keys[|keys| - 1];
      OwnedBy(nd, keys[..|keys| - 1], c) + if RemoteOwner(nd, last) == Some(c) then [last] else []
  }

  // Each client that owns a key of the batch is paired with the keys it owns.
  ghost predicate Groups(nd: Node, keys: seq<Key>, batch: map<Client, seq<Key>>) {
    && (forall c :: c in batch <==> OwnedBy(nd, keys, c) != [])
    && (forall c :: c in batch ==> batch[c] == OwnedBy(nd, keys, c))
  }

  // keysByOwner, built by one pass over the keys.
  method GroupByOwner(nd: Node, keys: seq<Key>) returns (batch: map<Client, seq<Key>>)
    ensures Groups(nd, keys, batch)
  {
    batch := map[];
    for i := 0 to |keys|
      invariant Groups(nd, keys[..i], batch)
    {
      var owner := RemoteOwner(nd, keys[i]);
      GroupedOneMore(nd, keys, i, batch);
      if owner.Some? {
        batch := Appended(batch, owner.value, keys[i]);
      }
    }
    assert keys[..|keys|] == keys;
  }

  lemma GroupedOneMore(nd: Node, keys: seq<Key>, i: nat, batch: map<Client, seq<Key>>)
    requires i < |keys| && Groups(nd, keys[..i], batch)
    ensures Groups(nd, keys[..i + 1],
                   if RemoteOwner(nd, keys[i]).Some? then Appended(batch, RemoteOwner(nd, keys[i]).value, keys[i])
                   else batch)
  {
    assert keys[..i + 1][..i] == keys[..i];
    forall c
      ensures OwnedBy(nd, keys[..i + 1], c)
              == OwnedBy(nd, keys[..i], c) + if RemoteOwner(nd, keys[i]) == Some(c) then [keys[i]] else []
    {
    }
  }

  lemma OwnersGrouped(nd: Node, keys: seq<Key>, batch: map<Client, seq<Key>>, c: Client)
    requires Groups(nd, keys, batch)
    ensures c in batch <==> exists k :: k in keys && RemoteOwner(nd, k) == Some(c)
  {
    if c in batch {
      assert batch[c][0] in batch[c];
    }
  }

  // ---------- the requests ----------

  // All requests of RemoveKeys while the ring stays the same: to the owners, then to the others.
  function Requested(nd: Node, keys: seq<Key>, batch: map<Client, seq<Key>>): (ps: set<Parcel>) {
    OwnerParcels(batch) + BroadcastParcels(nd, keys, batch.Keys)
  }

  ghost predicate Carries(ps: set<Parcel>, c: Client, k: Key) {
    exists p :: p in ps && p.to == c && p.msg.ServeRemove? && k in p.msg.keys
  }

  // All requests of Remove: to the owner, then to the others.
  function RequestedSingly(nd: Node, k: Key): (ps: set<Parcel>) {
    var o := RemoteOwner(nd, k);
    (if o.Some? then {Parcel(o.value, Message(Remove(k)))} else {}) + RestParcels(nd, Remove(k), o)
  }

  // Every point of the ring belongs to a client that the ring lists.
  ghost predicate Listed(r: Ring.Ring) {
    forall i :: 0 <= i < |r.points| ==>
      r.points[i].peer.address in r.clients && r.clients[r.points[i].peer.address] == r.points[i].peer
  }

  lemma OwnerIsListed(nd: Node, k: Key)
    requires Listed(nd.ring) && RemoteOwner(nd, k).Some?
    ensures RemoteOwner(nd, k).value in Others(nd)
  {
    var p := Ring.Pick(nd.ring, k).value;
    assert p.address in nd.ring.clients && nd.ring.clients[p.address] == p;
  }

  // Remove tells every peer.
  lemma SingleRemovalTellsAll(nd: Node, k: Key, c: Client)
    requires Listed(nd.ring)
    ensures Carries(RequestedSingly(nd, k), c, k) <==> c in Others(nd)
  {
    var o := RemoteOwner(nd, k);
    if o.Some? {
      OwnerIsListed(nd, k);
    }
    if c in Others(nd) {
      assert Parcel(c, Message(Remove(k))) in RequestedSingly(nd, k);
    }
  }

  // A Set tells each address once, also if the ring was replaced after it had told the owner: among the
  // requests that follow none goes to the owner's address, and one to every other listed address.
  lemma SetTellsEachOnce(nd: Node, k: Key, v: View, owner: Client, a: Addr)
    requires forall a :: a in nd.ring.clients ==> nd.ring.clients[a].address == a
    ensures var ps := set p | p in RestParcels(nd, Set(k, v), Some(owner)) && p.to.address == a;
      if a != owner.address && a in nd.ring.clients && !nd.ring.clients[a].isSelf
      then ps == {Parcel(Client(nd.gen, a), ServeSet(k, Carry(v)))} else ps == {}
  {
    if a in nd.ring.clients && !nd.ring.clients[a].isSelf {
      assert Client(nd.gen, nd.ring.clients[a].address) in Others(nd);
    }
  }

  // A batch removal tells a peer about a key if and only if the peer owns that key or no key at all.
  lemma BatchRemovalTells(nd: Node, keys: seq<Key>, batch: map<Client, seq<Key>>, c: Client, k: Key)
    requires Groups(nd, keys, batch) && Listed(nd.ring) && k in keys
    ensures Carries(Requested(nd, keys, batch), c, k)
       <==> c in Others(nd) && (RemoteOwner(nd, k) == Some(c)
                                 || forall k' :: k' in keys ==> RemoteOwner(nd, k') != Some(c))
  {
    OwnersGrouped(nd, keys, batch, c);
    if RemoteOwner(nd, k) == Some(c) {
      OwnerIsListed(nd, k);
      assert k in batch[c] && Parcel(c, ServeRemove(batch[c])) in OwnerParcels(batch);
    } else if c in Others(nd) && c !in batch {
      assert Parcel(c, ServeRemove(keys)) in BroadcastParcels(nd, keys, batch.Keys);
    }
  }

  // All keys of the batch that belong to peers belong to one peer, or else to none.
  ghost predicate OneOwner(nd: Node, keys: seq<Key>) {
    forall k, k' :: k in keys && k' in keys && RemoteOwner(nd, k).Some? ==> RemoteOwner(nd, k') == RemoteOwner(nd, k)
  }

  // RemoveKeys tells the same peers as Remove of each key, exactly for such batches.
  lemma SameAsSingleRemovals(nd: Node, keys: seq<Key>, batch: map<Client, seq<Key>>)
    requires Groups(nd, keys, batch) && Listed(nd.ring)
    ensures OneOwner(nd, keys)
       <==> forall c, k {:trigger Carries(RequestedSingly(nd, k), c, k)} :: k in keys ==>
              (Carries(Requested(nd, keys, batch), c, k) <==> Carries(RequestedSingly(nd, k), c, k))
  {
    forall c, k | k in keys
      ensures Carries(RequestedSingly(nd, k), c, k) <==> c in Others(nd)
      ensures Carries(Requested(nd, keys, batch), c, k)
         <==> c in Others(nd) && (RemoteOwner(nd, k) == Some(c)
                                 || forall k' :: k' in keys ==> RemoteOwner(nd, k') != Some(c))
    {
      SingleRemovalTellsAll(nd, k, c);
      BatchRemovalTells(nd, keys, batch, c, k);
    }
    if !OneOwner(nd, keys) {
      var k, k' :| k in keys && k' in keys && RemoteOwner(nd, k).Some? && RemoteOwner(nd, k') != RemoteOwner(nd, k);
      OwnerIsListed(nd, k);
      assert !Carries(Requested(nd, keys, batch), RemoteOwner(nd, k).value, k');
      assert Carries(RequestedSingly(nd, k'), RemoteOwner(nd, k).value, k');
    }
  }
}
