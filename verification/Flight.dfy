// The shared state of one singleflight group (internal/singleflight/singleflight.go) and the
// effect of each of its critical sections. A call is named after the caller that leads it.
module Flight {
  import opened Views

  // done is set by wg.Done; result is what waiting callers then read.
  datatype Call<R> = Call(done: bool, result: R)

  // mu is the holder of Group.Lock, the only critical section that other steps can fall into.
  datatype Group<R> = Group(mu: Option<nat>, m: map<string, nat>, calls: map<nat, Call<R>>)

  function Empty<R>(): (g: Group<R>) {
    Group(None, map[], map[])
  }

  // Do, lines 54-58: a fresh call, preset to the error that a panic would leave behind.
  function Lead<R>(g: Group<R>, key: string, t: nat, preset: R): (g': Group<R>) {
    g.(m := g.m[key := t], calls := g.calls[t := Call(false, preset)])
  }

  // Do, line 69: the leader stores what fn returned.
  function Store<R>(g: Group<R>, t: nat, r: R): (g': Group<R>)
    requires t in g.calls
  {
    g.(calls := g.calls[t := g.calls[t].(result := r)])
  }

  // Do, line 62.
  function Signal<R>(g: Group<R>, t: nat): (g': Group<R>)
    requires t in g.calls
  {
    g.(calls := g.calls[t := g.calls[t].(done := true)])
  }

  // Do, line 65.
  function Delete<R>(g: Group<R>, key: string): (g': Group<R>) {
    g.(m := g.m - {key})
  }
}
