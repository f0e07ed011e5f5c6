# groupcache-go, verified

A Dafny model of groupcache-go, a peer-to-peer read-through cache, and proofs about it. Check it with
`dafny verify dfyconfig.toml`.

## What is modelled

**The cluster** (`Protocol.dfy`). Every Get, Set, Remove and RemoveKeys in progress, and every request that a peer serves,
is a task with a program counter. One step is one atomic action of one task on its own node: a cache access, a critical
section of singleflight, a counter increment, a request or its answer. The mutex is released before the function of a
flight runs, and the wake-up of waiting callers and the deletion from the map are separate steps. Whatever the scheduler,
the clocks, the network, the getter and the operator decide is an input or a step of its own, so a statement about all runs
covers all interleavings, evictions, expiries, lost requests and ring changes. `Flight.dfy` holds the shared state of
singleflight, `Wire.dfy` what crosses the network, `Ring.dfy` the hash ring as a value.

**The cache** (`Recency.dfy`, `Lru.dfy`, `ByteCache.dfy`, `MutexCache.dfy`). `Lru.Cache` and `MutexCache.Cache` are classes
that update a recency list, an index of shared entry objects and the byte counters in place; the eviction callback is
returned as the list of its calls. They are proved against functions on recency lists, about which the accounting,
conservation and inclusion laws are proved. `CacheBridge.dfy` shows that the maps of the cluster model are what these caches
implement.

**The picker** (`Picker.dfy`). `Picker.Picker` and `Picker.Instance` are classes with the replica loop, an arbitrary sorted
rearrangement, the bisection and the replacement of the ring.

**Fan-out and sinks** (`Fanout.dfy`, `Sinks.dfy`). The channel, wait group and closing goroutine of Remove and RemoveKeys as
a step machine; the sinks as a class.

The remaining files state and prove properties of these. Each opens with what it shows. `Paths.dfy` builds runs phase by
phase; the runs in `Scenarios.dfy` and `Cycles.dfy` use no eviction and no change of peers. `Blocking.dfy` says which task
waits for which.

## Where code and description differ

The model follows the code. Each difference has the property that does hold, with its exact condition, and where a run is
needed to see the failure, that run.

- `Group.Lock` holds only the mutex of the map, although the comments at group.go:426 and group.go:446 say it keeps loads
  out. Exact condition: `Exclusion.OlderFlightWrites`. Run: `Scenarios.OlderLoadUndoesWrite`.
- RemoveKeys sends an owner only its own keys and skips owners in the broadcast, although README.md:45 of the repository
  says that it goes to every other peer. Exact conditions: `BatchGap.BatchClearsExactly`,
  `BatchPlan.SameAsSingleRemovals`. Run: `Scenarios.BatchLeavesCopy`.
- A Set that joins another Set returns nil without storing its value. Exact condition: `Sharing.SetStoresExactly`, tied to
  the guard of singleflight by `Sharing.SetStoresIffLeads`. Run: `Scenarios.JoinedSetIsLost`.
- A key can be in the main and the hot cache at once. Exact condition: `Disjoint.TwoCopiesExactly`, met by every run without
  overlapping Sets: `Disjoint.MainAndHotDisjoint`. Run: `Scenarios.OverlapLeavesTwoCopies`.
- Forwarded Gets can wait for each other in a circle. Exact condition: `Cycles.DeadlockExactly`. Rings that contain their own
  node and share no points never meet it: `Hops.GetsNeverDeadlock`. A shared point is enough: `Cycles.SharedPointCanDeadlock`.
- Limits of 1 to 7 bytes turn into two unlimited caches: `CacheBridge.LimitHonoured`.
- Loads is described as gets minus hits, but the second look inside a flight counts a hit for a call already counted as a
  load. Exact condition: `Statistics.LoadsAreGetsMinusHits`. Run: `Scenarios.SecondLookHits`.
- The sort of the ring is not stable: `Ties.TiesMatterOnlyWhenShared`. Replica numbers are joined to addresses without a
  separator, so the points of some address pairs coincide under every hash function: `Labels.CollideUnderEveryHash`.
- An expiry at the Unix epoch, or one that does not fit 64-bit nanoseconds, does not survive the wire:
  `Wire.ExpiryRoundTrip`, `Wire.ExpiryVanishes`.
- A nil destination is an error for the setters of the byte-slice sinks and a crash for those of a string sink; on the hit
  path an allocating sink crashes too: `Sinks.Sink.SetString`, `Sinks.Sink.SetSinkView`.

## Model

| member | source | states |
|---|---|---|
| `OneLoad.OneLoadPerCluster` | group.go:257-352 | If the nodes route k to one owner, peers answer, the getter succeeds and the owner's copy is not set, removed, evicted or expired, then any interleaving of any number of Gets on any nodes runs the getter for k at most once in the whole cluster. |
| `OneLoad.ExactlyOneLoad` | group.go:257-352 | In such a run from empty caches, every Get that succeeds returns the value of the one load, and there is exactly one. |
| `OneLoad.AgreedRingsStart` | instance.go:108-139 | Rings built from the same addresses without shared points provide the single owner that the one-load theorem assumes, given that this owner caches. |
| `OneHop.AtMostOneHop` | group.go:288-294 | Under agreed routing, whatever fails or changes, a Get waiting for a peer is not on the owner, waits for a request at the owner, and that request asks no further peer. |
| `Hops.GetsNeverDeadlock` | group.go:257-383 | With rings over arbitrary, even disagreeing, lists of members that contain the node itself, and no shared points, no Get is deadlocked: it has ended, or a finite chain of tasks, each waiting for the next, ends in one that can take a step in which nothing fails: no request is lost and no getter fails or panics. |
| `Cycles.DeadlockExactly` | group.go:288-294 | For peer lists that are not replaced and name only nodes of the cluster: some run, from whatever caches and with whatever failures, ends with a Get of k that waits only for tasks none of which can go on without a failure, if and only if following the picks of k from some node leads back to that node. |
| `Cycles.CycleDeadlocks` | group.go:288-294 | For a circle of picks of any length there is a run from empty caches, without evictions or failures, after which no task at all can go on unless a request is lost. |
| `Cycles.SharedPointCanDeadlock` | transport/peer/picker.go:119-126 | If two nodes share a point at the hash of k, the sort may leave them, given the same two addresses, with rings under which some run deadlocks a Get of k. |
| `Progress.WritesNeverDeadlock` | group.go:150-254 | With peer lists that name only nodes of the cluster, however they disagree and change, and whatever failed before, no Set, Remove, RemoveKeys or served request is deadlocked: it has ended, or a chain of tasks, each waiting for the next through a flight, an answer, a fan-out or the lock, ends in one that can take a step without failure. |
| `Outcomes.GetEnds` | group.go:288-346 | For every run and every Get that led its flight and missed: if it asked nobody, or if its request was lost or answered with an error other than cancelled, not-found and remote-call while its context was alive, then it ran the getter once and ends as the getter did, with its value, its error or its panic; otherwise it ran no getter and returns what the peer answered or the error of the loss. |
| `Outcomes.NilGetEnds` | group.go:123-134 | A Get without a destination ends with its error, having run no getter. |
| `Outcomes.SetEnds` | group.go:150-203 | For every run and every Set that joined nobody: the empty key is refused; with caching off it returns nil; otherwise, unless it panics, it returns nil if and only if its request to the owner was neither lost nor answered with an error, whatever becomes of its other requests, and a failure there is what it returns. It panics if and only if the ring had named nobody and peers are listed afterwards. |
| `Outcomes.RemoveEnds` | group.go:213-254 | For every run, a Remove that joined nobody returns nil if and only if none of its requests was lost, undelivered, unanswered or answered with an error; the owner's error is returned as it is, the others as one error. |
| `Outcomes.RemoveKeysEnds` | group.go:453-522 | For every run, RemoveKeys returns nil if and only if none of its requests was undelivered, unanswered or answered with an error, and one error otherwise. |
| `Outcomes.LawHolds` | group.go:257-352 | In every reachable state the program point and outcome of every task agree with what has happened to it: whom the ring named, what was answered or lost, whether the context was cancelled, what the getter returned, and what became of its fan-out. |
| `Hits.GetHits` | group.go:123-148 | For every run and every Get that has ended: if at one of its looks the cache held a copy not past its expiry, in nanoseconds, it returned that copy and counted a hit of the first or second look, and it counted a hit only then; it counted a load unless it hit at first or had a nil destination; and it led a flight and missed if and only if it neither hit nor joined. |
| `Hits.LookExactly` | group.go:407-417 | A look finds a copy if and only if the node caches and holds one not past its expiry; one that is past it is dropped from that cache, and nothing else changes. |
| `Transparency.GetReturnsSource` | group.go:123-148 | In every run from empty caches, the view a Get of k returns was loaded for k or written to k by a Set, as it was or as the wire delivers it. |
| `Transparency.CacheTransparency` | group.go:123-148 | With a getter that is a function of the key, every successful Get of k returns getter(k) or the bytes of an earlier Set of k, in every run with any eviction, expiry, removal, failure or ring change. |
| `Transparency.ExpiryTransparency` | group.go:362-383 | If every expiry fits the wire stamp, the returned view including its expiry is one that was loaded or set, on the hit, leader, follower and peer paths. |
| `Flights.StepKeepsInv` | internal/singleflight/singleflight.go:44-81 | Every step keeps the agreement of tasks, in-flight maps, call records and the mutex: the map names exactly the leading tasks, and results become visible once and for all. |
| `Sharing.SharedResult` | internal/singleflight/singleflight.go:49-53 | A caller that joined a flight did so while its leader was between entry and deletion, for the same key, group and node, and returns the leader's result; after a panic it returns the preset error. |
| `Sharing.OneExecution` | internal/singleflight/singleflight.go:54-59 | In no reachable state do two tasks of a node run the function for the same key of the same group. |
| `Sharing.KeyIsFreed` | internal/singleflight/singleflight.go:61-67 | Every call in the map is being led, so a call whose leader returned or panicked is gone and the next caller leads. |
| `Sharing.JoinedSetStoresNothing` | group.go:159-202 | No step of a Set or Remove that joined another flight changes a cache or sends a request. |
| `Sharing.SetStoresIffLeads` | internal/singleflight/singleflight.go:49-58 | For every run and every Set that returned nil on a caching node: it put its value into the main cache if and only if no Set of its key was in flight on the node when it entered, which is if and only if it joined nobody. |
| `Sharing.SetStoresExactly` | group.go:150-203 | For every run and every Set that returned nil: it put its value into the main cache of its node if and only if the node caches and the Set joined nobody. |
| `Scenarios.JoinedSetIsLost` | group.go:159-202 | There is a run in which two Sets of a key with different values both return nil and the value of the second is in no cache. |
| `Exclusion.GuardedExclusion` | group.go:421-451 | If no flight for k is in the map when a removal or remote set takes the lock, then whoever adds k to a cache of the node later entered its flight after the lock was taken. |
| `Exclusion.OlderFlightWrites` | internal/singleflight/singleflight.go:74-81 | A flight that is in the map can still add k to a cache of its node later if and only if the node caches and the flight has not yet populated a cache and has not failed. |
| `Exclusion.LockFreezesMap` | internal/singleflight/singleflight.go:77-81 | While the lock is held, no flight of the node begins or is deleted. |
| `Scenarios.OlderLoadUndoesWrite` | group.go:338-346 | For every Set or Remove on a node without peers there is a run in which it returns nil with its effect in place and an older load then puts its own value into the main cache. |
| `Disjoint.TwoCopiesExactly` | group.go:380-382 | In every run that starts with k in at most one cache of node n, and up to every point of it: n never holds two copies of k, except while a write holds the lock and is about to clear hot, if and only if no load has populated the hot cache of n with k while n caches, k is in main there and no such write is under way. |
| `Disjoint.MainAndHotDisjoint` | group.go:281-346 | In every run that starts with k in at most one cache of the node and in which no Set or remote set of k takes the lock while a load of k is in flight there, k is never in both caches of a node whose lock is free. |
| `Scenarios.OverlapLeavesTwoCopies` | group.go:380-382 | In every two-node cluster and for every key that the other node owns there is a run in which a Set, sent to the owner first, returns nil while a load is about to populate the hot cache, and which ends with different values of the key in the main and the hot cache of the caller. |
| `Scenarios.WaitsForItself` | group.go:288-294 | On a node whose ring lists its own address as another peer there is a run in which a Get waits for a request that waits for that Get's own flight, and unless a request is lost no task can move. |
| `Broadcast.ReachesEveryPeer` | group.go:159-202 | A Set or Remove that leads its flight, while nothing else changes the copies of its key, has at nil return put the new value into main with no hot copy (or removed both copies) on the caller and on every listed peer, even if the ring was replaced between picking the owner and listing. Only a Set must not lose requests: for Remove the nil return excludes it. |
| `Broadcast.BatchReachesNonOwners` | group.go:491-508 | Under the same conditions, and whatever requests were lost, RemoveKeys at nil return leaves no copy of any batch key on the caller and on listed peers that own none of the batch. |
| `Broadcast.BatchReachesOwner` | group.go:463-489 | Under the same conditions, and whatever requests were lost, RemoveKeys at nil return leaves no copy of a key on the peer that the ring names as its owner. |
| `BatchGap.BatchClearsExactly` | group.go:453-522 | For every other peer and batch key held there, the copy is gone at nil return if and only if the ring named the peer as owner of that key or listed a client there that owns no key of the batch; otherwise the copy is unchanged. |
| `Scenarios.BatchLeavesCopy` | group.go:480-498 | In every two-node cluster with one key owned by each node there is a run in which the removal of both keys loses nothing and returns nil, and the other node keeps its hot copy of the caller's key. |
| `BatchPlan.GroupByOwner` | group.go:461-467 | One pass over the keys pairs each remote owner with exactly its keys, in order, and lists no other client. |
| `BatchPlan.SingleRemovalTellsAll` | group.go:213-240 | The requests of Remove carry the key to every other client of the ring and to nobody else. |
| `BatchPlan.SetTellsEachOnce` | group.go:176-198 | Of the requests that follow a Set's request to the owner none goes to the owner's address, even through a newer client, and exactly one goes to every other listed address. |
| `BatchPlan.BatchRemovalTells` | group.go:478-508 | The requests of RemoveKeys carry a key to a client if and only if the client owns that key or owns no key of the batch. |
| `BatchPlan.SameAsSingleRemovals` | group.go:453-522 | RemoveKeys tells the same clients about each key as Remove of that key does, if and only if all remotely owned keys of the batch have one owner and no key is owned locally beside them. |
| `ErrorChain.ErrorClassSurvives` | group.go:304-346 | Along any chain of answering peers and shared flights a not-found error arrives as not-found and any other error that crossed a peer as a remote-call error, and no task on the way ran its getter. |
| `Statistics.CounterBounds` | stats.go:73-85 | In every reachable state CacheHits + LoadsDeduped <= Gets and LoadsDeduped <= Loads <= Gets. |
| `Counters.LoadCountersMean` | stats.go:73-83 | In every reachable state Gets counts the Gets that have begun, PeerLoads those a peer sent a value to, PeerErrors those whose peer failed in a way that is not final, LocalLoads those whose getter returned a value and LocalLoadErrs those whose getter returned an error. |
| `Statistics.FlightsAddUp` | group.go:257-352 | In every reachable state LoadsDeduped equals PeerLoads + LocalLoads + LocalLoadErrs plus the flights still running, panicked or ended by a returned peer error. |
| `Statistics.LoadsAreGetsMinusHits` | stats.go:79-79 | When all Gets of a node have ended, Loads equals Gets - CacheHits if and only if as many Gets hit on the second look as were called with a nil sink. |
| `Scenarios.SecondLookHits` | group.go:281-284 | There is a run with two Gets, neither with a nil sink, that ends with Gets 2, CacheHits 1 and Loads 2. |
| `Ring.LandingIsChosen` | transport/peer/picker.go:129-145 | On sorted points the search with wrap-around ends on the least point at or above the hash in signed order, else on the least point. |
| `Ring.RingsAgree` | transport/peer/picker.go:119-145 | Without shared points the owner's address depends only on the set of addresses: not on the order of adding, the ties of the sort or who is marked as self. |
| `Ring.SingleOwner` | instance.go:108-146 | When each node is given the same addresses with its own marked as self and no two share a point, exactly one node regards a key as local and all others pick that node. |
| `Ring.MinimalDisruption` | transport/peer/picker.go:119-145 | Adding a peer changes the owner of a key only to that peer; read backwards, leaving out a peer moves only its keys. |
| `Ring.PickedIsNearest` | transport/peer/picker.go:129-145 | The picked address is strictly nearer clockwise to the key's hash than every other address on the list. |
| `Labels.CollideUnderEveryHash` | transport/peer/picker.go:121-124 | Two different addresses share a point under every hash function and digest if and only if one is the other with digits ds in front and the number written 1ds is below the number of replicas. |
| `Labels.SharedExactly` | transport/peer/picker.go:122-122 | The same condition decides whether some replica label of one address is a replica label of the other. |
| `Labels.DefaultReplicas` | transport/peer/picker.go:32-32 | With the default of fifty replicas this means exactly one digit in front of the other address. |
| `Labels.GluedReplicasCollide` | transport/peer/picker.go:121-124 | An address and the same address with a digit d in front share a point under every hash function once there are more than 10 + d replicas; the default is fifty. |
| `Ties.TiesMatterOnlyWhenShared` | transport/peer/picker.go:125-125 | All sorted arrangements of a bag of points pick the same owner for every hash if and only if no two addresses share a point. |
| `Picker.Search` | transport/peer/picker.go:137-137 | The bisection returns the first position whose hash is at or above the given one, or the length. |
| `Picker.SortPoints` | transport/peer/picker.go:125-125 | The result is sorted and holds the same points; ties may come in any order. |
| `Picker.Picker.Add` | transport/peer/picker.go:119-126 | The ring stays a sorted arrangement of the replica points of all peers added so far, with the clients by address. |
| `Picker.Picker.Get` | transport/peer/picker.go:129-145 | The imperative lookup is the ring's pick, and none on an empty ring. |
| `Picker.Picker.PickPeer` | transport/peer/picker.go:95-102 | Returns the pick and whether it is another node. |
| `Picker.Picker.GetAll` | transport/peer/picker.go:105-111 | Returns every client exactly once and nothing else. |
| `Picker.Picker.constructor` | transport/peer/picker.go:80-92 | A new picker is empty; zero replicas mean fifty. |
| `Picker.Instance.SetPeers` | instance.go:108-139 | Fails if and only if some client cannot be made or no peer is marked as self, and then keeps the old ring; otherwise installs a new ring over the whole list. |
| `Picker.Instance.PickPeer` | instance.go:142-146 | The pick of the installed ring. |
| `Picker.BuiltRingFits` | daemon.go:83-92 | A ring over a list that marks exactly the node's own address as self recognises itself and lists the client of every point, as the broadcast theorems assume. |
| `Wire.DecodedInstant` | group.go:373-376 | Decoding a non-zero stamp with truncated division gives the normal time that many nanoseconds from the epoch, also for negative stamps. |
| `Wire.ExpiryRoundTrip` | transport/http_transport.go:399-405 | An expiry survives encoding and decoding if and only if it fits 64-bit nanoseconds and is not the epoch. |
| `Wire.ExpiryVanishes` | group.go:374-376 | An expiry is decoded as no expiry if and only if it lies a multiple of 2^64 nanoseconds from the epoch, the epoch itself included. |
| `Wire.CarryTwice` | group.go:373-397 | Forwarding a view again changes nothing more. |
| `Wire.CarryExpiresTogether` | transport/http_transport.go:354-358 | A copy that crossed the network is alive, in nanoseconds, at exactly the moments the original is, if and only if the stamp can hold the expiry and it is not the epoch. |
| `Wire.AnsweredErrorsAreFinal` | transport/http_transport.go:525-541 | An error answered by a peer arrives as not-found if it was not-found and as a remote-call error otherwise, and the caller does not fall back to its own getter. |
| `Wire.SplitParts` | transport/http_transport.go:307-315 | The path split fails if and only if there is no slash; otherwise the parts joined by a slash are the path and the first has no slash. |
| `Wire.PathRoundTrip` | transport/http_transport.go:684-690 | A request path is split into the group and key it was made from if and only if the group name has no slash. |
| `Lru.Cache.Add` | internal/lru/lru.go:68-88 | The entry moves to the front or is pushed there, list and index stay in agreement, the replaced entry or the last one beyond MaxEntries goes to the callback. |
| `Lru.Cache.Get` | internal/lru/lru.go:91-107 | A present entry is returned and moves to the front if it has no expiry or now is at most its expiry in nanoseconds; otherwise it is removed, reported to the callback and not returned. An absent key changes nothing. |
| `Recency.DroppedForGood` | internal/lru/lru.go:97-101 | An entry dropped by a lookup would be missed at every later moment as well. |
| `Lru.Cache.Remove` | internal/lru/lru.go:110-117 | Exactly the entry of the key is removed and reported. |
| `Lru.Cache.RemoveOldest` | internal/lru/lru.go:120-128 | Exactly the least recently used entry is removed and reported. |
| `Lru.Cache.RemoveElement` | internal/lru/lru.go:130-137 | Unlinking an element removes its key from list and index together. |
| `Lru.Cache.Len` | internal/lru/lru.go:140-145 | The number of entries. |
| `Lru.Cache.Clear` | internal/lru/lru.go:148-157 | All entries are reported once each and the cache is empty. |
| `Recency.TrimIsLongest` | cache.go:136-148 | What eviction keeps fits a positive limit, and a prefix of the recency order fits if and only if it is no longer than what is kept: the shortest least-recent part goes. |
| `MutexCache.Cache.constructor` | cache.go:63-67 | A new cache is empty. |
| `MutexCache.Cache.Add` | cache.go:81-97 | The entries are the old ones with the new one in front, trimmed to the limit; evictions grow by the replaced and the trimmed ones; the byte count stays the size of the entries. |
| `MutexCache.Cache.RemoveOldest` | cache.go:136-148 | The loop ends with exactly the trimmed list, one eviction per entry dropped, although entries of size zero do not lower the byte count. |
| `MutexCache.Cache.Evicted` | cache.go:87-91 | The callback lowers the byte count by key and value length and counts one eviction per call. |
| `MutexCache.Cache.Get` | cache.go:99-112 | Counts the call, and a hit if and only if the entry is present and now is at most its expiry in nanoseconds; such an entry moves to the front, and one past its expiry is dropped and counted as evicted. |
| `MutexCache.Cache.Remove` | cache.go:114-121 | Drops exactly the entry of the key and counts it as evicted. |
| `MutexCache.AddRefines` | cache.go:81-97 | What Add promises field by field is, for caches with sound books, exactly the add operation on books. |
| `MutexCache.GetRefines` | cache.go:99-112 | The same for Get. |
| `MutexCache.RemoveRefines` | cache.go:114-121 | The same for Remove. |
| `ByteCache.BytesAccounted` | cache.go:81-148 | Over every sequence of operations keys are unique, the byte count is the total length of keys and values, and it is within a positive limit. |
| `ByteCache.AddsConserved` | internal/lru/lru.go:73-137 | Over every sequence of operations each added entry is either still there or was handed to the callback, exactly once. |
| `ByteCache.EvictionsCounted` | cache.go:87-91 | Over every sequence of operations the number of Adds is the number of entries plus the evictions counted. |
| `ByteCache.BytesConserved` | cache.go:81-121 | Over every sequence of operations the bytes added are the bytes held plus the bytes handed to the callback. |
| `ByteCache.LruInclusion` | cache.go:81-148 | Over every access sequence without expiry the contents under a smaller positive limit are a recency prefix of those under a larger or no limit, and the larger has at least as many hits. |
| `CacheBridge.AddIsUpdateAndEvictions` | group.go:524-529 | Adding to the byte-bounded cache is updating the map of the cluster model and then evicting the entries that no longer fit. |
| `CacheBridge.LookupIsLook` | group.go:407-417 | A lookup in the byte-bounded cache finds and drops exactly what the lookup of the cluster model finds and drops. |
| `CacheBridge.LimitsFor` | group.go:559-571 | The main limit is seven times the hot limit and both together are the limit rounded down to a multiple of 8; below 8 both are 0. |
| `CacheBridge.LimitHonoured` | group.go:559-571 | Main and hot cache together stay within a positive limit over all operations if and only if the limit is at least 8. |
| `Fanout.NoSendAfterClose` | group.go:241-244 | Once the channel is closed every sender has finished, so nobody sends on it. |
| `Fanout.CollectsEverything` | group.go:246-251 | At return the caller has received exactly one result from every sender, returns exactly their errors, and returns nil if and only if all results are nil. |
| `FanoutBridge.SameVerdict` | group.go:246-251 | A Remove or RemoveKeys of the cluster model returns nil if and only if a caller that collects the same results from as many goroutines, in any order, returns no errors. |
| `Fanout.RunsAreShort` | group.go:225-251 | A fan-out to n peers takes at most 4n + 3 steps. |
| `Fanout.NeverStuck` | group.go:475-521 | Until the caller has returned some step is possible, given that peer calls return. |
| `Sinks.Sink.SetString` | transport/sinks.go:327-339 | Afterwards the destination is a prefix of the value: all of it, or for a truncating sink as many bytes as it held before if that is fewer; the view holds the whole value with its expiry. Without a destination a slice sink reports it and changes nothing, and a string sink crashes with the new bytes but the old expiry in its view. |
| `Sinks.Sink.SetBytes` | transport/sinks.go:309-325 | The same for bytes. |
| `Sinks.Sink.SetSinkView` | transport/sinks.go:62-77 | Delivers the same prefix, and the cached view with its expiry, to every kind of sink; without a destination the caller's variable is unchanged, and an allocating sink crashes there as a string sink does, where a truncating one reports it. |
| `Sinks.LeaderAndFollowerAgree` | transport/sinks.go:62-77 | Whichever setter the getter uses and whatever the kinds and destinations of the two sinks, the leader and a follower that is given the cached view each get that prefix of the bytes in their own destination, and what each could cache is the getter's value with its expiry. |

## Left out

- HTTP server and client plumbing, TLS, buffer pools, and protobuf and JSON encoding: a request is delivered intact, answered or lost.
- A peer that does not have the group answers 404, which the caller takes for not-found; all nodes of the model have the group.
- OpenTelemetry metrics, tracing, logging and the latency statistic: no property beyond registration.
- RemoveKeysRequests and RemovedKeys, which only count calls.
- `contrib/otter.go`, `cluster/`, `cmd/` and the mock transport.
- FNV-1 and MD5: the hash and the digest are arbitrary functions.
- Context deadlines: cancellation is an input of the steps that look at the context.
- Proto sinks and SetProto: they add marshalling to the setters that are modelled.
- Byte counters are unbounded integers and key lengths count characters; overflow of int64 counters is not modelled.
- A negative byte limit makes the eviction loop of cache.go endless; ResetCacheSize never passes one, and the cache class takes a natural number.
- Panics inside the critical section of `Lock`, and `NewGroup`, `RemoveGroup` and `GetGroup`.
- `Lru.Cache`: the callback runs in the source while the list is being changed; here its calls are returned in order and applied afterwards.
- Picker.Instance.SetPeers: client creation is an input that names the refused addresses.
