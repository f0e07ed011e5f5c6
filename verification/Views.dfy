// Values as the cache stores them: bytes with an optional expiry (transport/byteview.go).
module Views {

  datatype Option<+T> = None | Some(value: T)

  newtype Byte = x: int | 0 <= x < 256

  const NANOS: int := 1_000_000_000

  datatype Clock = Time(sec: int, nsec: int)

  // A wall-clock instant in the normal form that Go's time package keeps: seconds since
  // the Unix epoch and nanoseconds in [0, 1e9).
  type Time = t: Clock | 0 <= t.nsec < NANOS witness Time(0, 0)

  // Nanoseconds since the epoch.
  function Nanos(t: Time): (n: int) {
    t.sec * NANOS + t.nsec
  }

  predicate Before(a: Time, b: Time) {
    a.sec < b.sec || (a.sec == b.sec && a.nsec < b.nsec)
  }

  // expire == None stands for the zero time.Time, "never expires".
  datatype View = View(bytes: seq<Byte>, expire: Option<Time>)

  // The test the LRU makes on every hit: an expiry is set and lies before now.
  predicate Passed(expire: Option<Time>, now: Time) {
    expire.Some? && Before(expire.value, now)
  }

  predicate Expired(v: View, now: Time) {
    Passed(v.expire, now)
  }

  // What expiry means, in nanoseconds: a value is good up to and including the instant of its expiry.
  predicate Alive(expire: Option<Time>, now: Time) {
    expire.None? || Nanos(now) <= Nanos(expire.value)
  }

  lemma PassedExactly(expire: Option<Time>, now: Time)
    ensures Passed(expire, now) <==> !Alive(expire, now)
  {
  }
}
