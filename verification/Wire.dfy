// What crosses the network between two peers: expiry stamps, status codes and request paths
// (transport/http_transport.go, transport/errors.go, and the two ends in group.go).
module Wire {
  import opened Views

  // ---------- 64-bit integers ----------

  const TWO63: int := 0x8000_0000_0000_0000
  const TWO64: int := 0x1_0000_0000_0000_0000

  predicate IsInt64(x: int) {
    -TWO63 <= x < TWO63
  }

  // The int64 that has the same low 64 bits as x.
  function WrapInt64(x: int): (r: int)
    ensures IsInt64(r)
    ensures IsInt64(x) ==> r == x
  {
    var m := x % TWO64;
    if m < TWO63 then m else m - TWO64
  }

  // Go's / and %, which truncate toward zero; Dafny's are Euclidean.
  function TruncDiv(a: int, b: int): (q: int)
    requires b > 0
  {
    if a >= 0 then a / b else -((-a) / b)
  }

  function TruncMod(a: int, b: int): (m: int)
    requires b > 0
  {
    a - TruncDiv(a, b) * b
  }

  // ---------- expiry stamps ----------

  // time.Time.UnixNano, whose int64 result wraps for far-away dates.
  function UnixNano(t: Time): (n: int)
    ensures IsInt64(n)
  {
    WrapInt64(Nanos(t))
  }

  // time.Unix, which brings any nanosecond argument into [0, 1e9).
  function Unix(sec: int, nsec: int): (t: Time) {
    if 0 <= nsec < NANOS then
      Time(sec, nsec)
    else
      var n := TruncDiv(nsec, NANOS);
      var rest := nsec - n * NANOS;
      if rest < 0 then Time(sec + n - 1, rest + NANOS) else Time(sec + n, rest)
  }

  // The sender writes 0 for "no expiry".
  function EncodeExpire(e: Option<Time>): (n: int)
    ensures IsInt64(n)
  {
    if e.None? then 0 else UnixNano(e.value)
  }

  function DecodeExpire(n: int): (e: Option<Time>) {
    if n == 0 then None else Some(Unix(TruncDiv(n, NANOS), TruncMod(n, NANOS)))
  }

  // What a peer receives when this view is sent to it.
  function Carry(v: View): (w: View) {
    v.(expire := DecodeExpire(EncodeExpire(v.expire)))
  }

  // An expiry the stamp can hold: it fits in int64 nanoseconds.
  predicate Stampable(t: Time) {
    IsInt64(Nanos(t))
  }

  lemma TruncParts(n: int)
    ensures n >= 0 ==> 0 <= TruncMod(n, NANOS) < NANOS
    ensures n < 0 ==> -NANOS < TruncMod(n, NANOS) <= 0
  {
  }

  // Decoding gives the instant that lies n nanoseconds from the epoch, in normal form.
  lemma DecodedInstant(n: int)
    requires n != 0
    ensures var e := DecodeExpire(n);
      e.Some? && Nanos(e.value) == n
  {
    TruncParts(n);
  }

  // Two normal times with equal nanosecond counts are the same time.
  lemma NormalUnique(a: Time, b: Time)
    requires Nanos(a) == Nanos(b)
    ensures a == b
  {
  }

  // The round trip is exact on every stampable instant except the epoch itself, and only there.
  lemma ExpiryRoundTrip(t: Time)
    ensures DecodeExpire(EncodeExpire(Some(t))) == Some(t)
       <==> Stampable(t) && t != Time(0, 0)
  {
    var n := UnixNano(t);
    if n != 0 {
      DecodedInstant(n);
      if Stampable(t) {
        NormalUnique(t, DecodeExpire(n).value);
      }
    }
  }

  // An expiry is taken for "no expiry" exactly when its stamp wraps to 0: at the epoch, and a
  // multiple of 2^64 nanoseconds away from it.
  lemma ExpiryVanishes(t: Time)
    ensures DecodeExpire(EncodeExpire(Some(t))) == None <==> Nanos(t) % TWO64 == 0
  {
  }

  // However often a view is forwarded, it changes at most on the first hop.
  lemma CarryTwice(v: View)
    ensures Carry(Carry(v)) == Carry(v)
  {
    var n := EncodeExpire(v.expire);
    if n != 0 {
      DecodedInstant(n);
      var t := DecodeExpire(n).value;
      assert Stampable(t);
      ExpiryRoundTrip(t);
    }
  }

  // The stamp can hold the expiry of the view, if it has one, and does not mistake it for none.
  predicate Survives(v: View) {
    v.expire.Some? ==> Stampable(v.expire.value) && v.expire.value != Time(0, 0)
  }

  lemma CarryExact(v: View)
    requires Survives(v)
    ensures Carry(v) == v
  {
    if v.expire.Some? {
      ExpiryRoundTrip(v.expire.value);
    }
  }

  // A copy that crossed the network is good at exactly the same moments as the original if and only
  // if the stamp can hold the expiry.
  lemma CarryExpiresTogether(v: View)
    ensures (forall now :: Alive(Carry(v).expire, now) <==> Alive(v.expire, now)) <==> Survives(v)
  {
    if Survives(v) {
      CarryExact(v);
    } else {
      var t, e := v.expire.value, Carry(v).expire;
      ExpiryRoundTrip(t);
      if e.None? || Nanos(t) < Nanos(e.value) {
        var later := if e.None? then Time(t.sec + 1, t.nsec) else e.value;
        assert Alive(e, later) && !Alive(v.expire, later);
      } else {
        if Nanos(t) == Nanos(e.value) {
          NormalUnique(t, e.value);
        }
        assert Alive(v.expire, t) && !Alive(e, t);
      }
    }
  }

  // ---------- errors and status codes ----------

  // Many is the MultiError that a fan-out returns; Opaque is any error without a class.
  datatype Error =
    | NotFound
    | RemoteCall
    | Canceled
    | LeaderPanicked
    | NilSink
    | EmptyKey
    | Opaque
    | Many

  // A value (Get), plain success (Set, Remove, RemoveKeys) or an error.
  datatype Result = Value(view: View) | Done | Fail(error: Error)

  // A call either returns or panics.
  datatype Outcome = Return(result: Result) | Panic

  datatype Response = Response(status: int, body: Result) | Closed

  // The answer the HTTP handler writes for the outcome of the group operation. A panicking
  // handler makes the server drop the connection.
  function Serve(o: Outcome): (r: Response) {
    match o
    case Panic => Closed
    case Return(Fail(NotFound)) => Response(404, Done)
    case Return(Fail(_)) => Response(503, Done)
    case Return(Value(v)) => Response(200, Value(v))
    case Return(Done) => Response(200, Done)
  }

  // What HttpClient turns an answer into.
  function Receive(r: Response): (res: Result) {
    match r
    case Closed => Fail(Opaque)
    case Response(status, body) =>
      if status == 404 then Fail(NotFound)
      else if status == 503 then Fail(RemoteCall)
      else if status != 200 then Fail(Opaque)
      else match body
           case Value(v) => Value(Carry(v))
           case _ => Done
  }

  function OverWire(o: Outcome): (res: Result) {
    Receive(Serve(o))
  }

  // The errors on which a caller does not fall back to its own getter.
  predicate Final(e: Error) {
    e == Canceled || e == NotFound || e == RemoteCall
  }

  // An error that a peer answers with keeps its class and is final at the receiver.
  lemma AnsweredErrorsAreFinal(e: Error)
    ensures OverWire(Return(Fail(e))) == Fail(if e == NotFound then NotFound else RemoteCall)
    ensures Final(OverWire(Return(Fail(e))).error)
  {
  }

  // ---------- request paths ----------

  // The client escapes group and key separately; the server sees the unescaped path.
  function RequestPath(group: string, key: string): (p: string) {
    group + "/" + key
  }

  // strings.SplitN(path, "/", 2): everything before and after the first slash.
  function SplitPath(path: string): (r: Option<(string, string)>) {
    if path == [] then None
    else if path[0] == '/' then Some(("", path[1..]))
    else
      var rest := SplitPath(path[1..]);
      if rest.None? then None else Some(([path[0]] + rest.value.0, rest.value.1))
  }

  // The first part never contains a slash, and the two parts joined by one give the path back.
  lemma {:induction false} SplitParts(path: string)
    ensures SplitPath(path).None? <==> '/' !in path
    ensures SplitPath(path).Some? ==>
      var (a, b) := SplitPath(path).value; '/' !in a && a + "/" + b == path
  {
    if path != [] && path[0] != '/' {
      SplitParts(path[1..]);
    }
  }

  lemma {:induction false} SplitAtFirstSlash(a: string, b: string)
    requires '/' !in a
    ensures SplitPath(a + "/" + b) == Some((a, b))
  {
    var p := a + "/" + b;
    if a == [] {
      assert p[1..] == b;
    } else {
      SplitAtFirstSlash(a[1..], b);
      assert p[1..] == a[1..] + "/" + b;
      assert a == [a[0]] + a[1..];
    }
  }

  // A request reaches the group and key it was made for exactly when the group name has no
  // slash; the key may hold any characters.
  lemma PathRoundTrip(group: string, key: string)
    ensures SplitPath(RequestPath(group, key)) == Some((group, key)) <==> '/' !in group
  {
    if '/' !in group {
      SplitAtFirstSlash(group, key);
    } else {
      SplitParts(RequestPath(group, key));
    }
  }
}
