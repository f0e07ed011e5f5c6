// transport/sinks.go: how a value and its expiry pass from the getter to the cache and to callers.
module Sinks {
  import opened Views

  // A view holds its bytes as a slice or, when that is nil, as a string.
  datatype ByteView = ByteView(b: Option<seq<Byte>>, s: seq<Byte>, e: Option<Time>)

  function Content(v: ByteView): (bytes: seq<Byte>) {
    if v.b.Some? then v.b.value else v.s
  }

  // The value as the caches and the wire see it.
  function Abs(v: ByteView): (view: View) {
    View(Content(v), v.e)
  }

  datatype Kind = StringKind | ByteViewKind | AllocKind | TruncKind

  datatype Status = Ok | NilDest | Crash

  function Min(a: nat, b: nat): (m: nat) {
    if a < b then a else b
  }

  // The caller's variable holds the beginning of the value: all of it, except that a truncating sink
  // takes no more bytes than the variable held before.
  predicate Filled(kind: Kind, before: seq<Byte>, bytes: seq<Byte>, after: seq<Byte>) {
    after <= bytes && |after| == if kind.TruncKind? && |before| < |bytes| then |before| else |bytes|
  }

  class Sink {
    const kind: Kind
    const isNil: bool           // the sink was given no destination
    var dst: seq<Byte>          // the caller's variable
    var v: ByteView

    ghost predicate Valid()
      reads this
    {
      kind.ByteViewKind? ==> !isNil && dst == Content(v)
    }

    // ByteViewSink alone refuses a nil destination.
    constructor (kind: Kind, isNil: bool, dst: seq<Byte>)
      requires kind.ByteViewKind? ==> !isNil
      ensures Valid() && this.kind == kind && this.isNil == isNil && this.dst == dst
    {
      this.kind, this.isNil, this.dst := kind, isNil, dst;
      v := ByteView(None, dst, None);
    }

    // The view that is cached is the whole value, even when the destination is truncated.
    ghost predicate Took(before: seq<Byte>, bytes: seq<Byte>, e: Option<Time>)
      reads this
    {
      Valid() && Filled(kind, before, bytes, dst) && Abs(v) == View(bytes, e)
    }

    // A string sink has stored the bytes in its view, with the expiry of the value before, when it
    // dereferences a nil destination.
    ghost predicate Refused(before: seq<Byte>, view: ByteView, bytes: seq<Byte>)
      reads this
    {
      Valid() && dst == before && v == if kind.StringKind? then ByteView(None, bytes, view.e) else view
    }

    // Without a destination the slice sinks report an error and the string sink crashes.
    function Verdict(): (status: Status) {
      if !isNil then Ok else if kind.StringKind? then Crash else NilDest
    }

    method SetString(s: seq<Byte>, e: Option<Time>) returns (status: Status)
      requires Valid()
      modifies this
      ensures status == Verdict()
      ensures status.Ok? ==> Took(old(dst), s, e)
      ensures !status.Ok? ==> Refused(old(dst), old(v), s)
    {
      if kind.StringKind? {
        v := ByteView(None, s, v.e);
        if isNil {
          return Crash;
        }
      }
      if isNil {
        return NilDest;
      }
      if kind.TruncKind? {
        CopyInto(s);
      } else {
        dst := s;
      }
      v := ByteView(None, s, e);
      status := Ok;
    }

    method SetBytes(b: seq<Byte>, e: Option<Time>) returns (status: Status)
      requires Valid()
      modifies this
      ensures status == Verdict()
      ensures status.Ok? ==> Took(old(dst), b, e)
      ensures !status.Ok? ==> Refused(old(dst), old(v), b)
    {
      if kind.StringKind? {
        status := SetString(b, e);
        return;
      }
      if isNil {
        return NilDest;
      }
      if kind.TruncKind? {
        CopyInto(b);
      } else {
        dst := b;
      }
      v := ByteView(Some(b), [], e);
      status := Ok;
    }

    // copy, then reslice if fewer bytes came than there was room for.
    method CopyInto(b: seq<Byte>)
      modifies this`dst
      ensures Filled(TruncKind, old(dst), b, dst)
    {
      var n := Min(|dst|, |b|);
      dst := b[..n] + dst[n..];
      if n < |dst| {
        dst := dst[..n];
      }
    }

    // SetSinkView: two kinds take a view as it is, the others are given its bytes. An
    // allocating sink dereferences a nil destination there, while its setters report it.
    method SetSinkView(w: ByteView) returns (status: Status)
      requires Valid()
      modifies this
      ensures status == if isNil && kind.AllocKind? then Crash else Verdict()
      ensures status.Ok? ==> Took(old(dst), Content(w), w.e)
      ensures !status.Ok? ==> Refused(old(dst), old(v), Content(w))
    {
      if kind.ByteViewKind? {
        dst, v := Content(w), w;
        status := Ok;
      } else if kind.AllocKind? {
        if isNil {
          return Crash;
        }
        dst := if w.b.Some? then w.b.value else w.s;
        v := w;
        status := Ok;
      } else if w.b.Some? {
        status := SetBytes(w.b.value, w.e);
      } else {
        status := SetString(w.s, w.e);
      }
    }
  }

  // The leader's sink is written by the getter and its view is cached; a follower's sink, or that of
  // a later hit, may be of another kind and is given the cached view. Each caller ends up with the
  // bytes as its own sink stores them, and whatever either of them would cache is the whole value
  // with its expiry.
  method LeaderAndFollowerAgree(kind: Kind, dst: seq<Byte>, kind': Kind, dst': seq<Byte>,
                                bytes: seq<Byte>, e: Option<Time>, asString: bool)
    returns (leader: seq<Byte>, follower: seq<Byte>, cached: View, again: View)
    ensures Filled(kind, dst, bytes, leader) && Filled(kind', dst', bytes, follower)
    ensures cached == again == View(bytes, e)
  {
    var l := new Sink(kind, false, dst);
    var f := new Sink(kind', false, dst');
    var ok;
    if asString {
      ok := l.SetString(bytes, e);
    } else {
      ok := l.SetBytes(bytes, e);
    }
    ok := f.SetSinkView(l.v);
    leader, follower, cached, again := l.dst, f.dst, Abs(l.v), Abs(f.v);
  }
}
