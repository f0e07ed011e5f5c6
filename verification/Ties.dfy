// Whether the unstable sort of the ring matters: all arrangements of the same points pick the same
// owner for every hash if and only if no two addresses share a point.
module Ties {
  import opened Ring
  import Picker

  ghost predicate Arranges(r: seq<Point>, b: multiset<Point>) {
    Sorted(r) && multiset(r) == b
  }

  ghost predicate SameOwner(r: seq<Point>, r': seq<Point>, h: int) {
    r != [] && r' != [] ==> Landing(r, h).peer.address == Landing(r', h).peer.address
  }

  ghost predicate TiesDoNotMatter(b: multiset<Point>) {
    forall r, r', h {:trigger Arranges(r, b), SameOwner(r, r', h)} ::
      Arranges(r, b) && Arranges(r', b) ==> SameOwner(r, r', h)
  }

  // Some arrangement of the points, and one in which p comes first among its equals.
  lemma {:induction false} SomeArrangement(b: multiset<Point>) returns (r: seq<Point>)
    ensures Arranges(r, b)
    decreases |b|
  {
    if b == multiset{} {
      r := [];
    } else {
      var p :| p in b;
      r := PutFirst(b, p);
    }
  }

  lemma {:induction false} PutFirst(b: multiset<Point>, p: Point) returns (r: seq<Point>)
    requires p in b
    ensures Arranges(r, b) && r != [] && Landing(r, p.hash) == p
    decreases |b|, 0
  {
    var rest := SomeArrangement(b - multiset{p});
    var j := Slot(rest, p.hash);
    Picker.InsertedAt(rest, p, j);
    r := rest[..j] + [p] + rest[j..];
    assert b - multiset{p} + multiset{p} == b;
    Picker.SlotUnique(r, p.hash, j);
  }

  lemma TiesMatterOnlyWhenShared(b: multiset<Point>)
    ensures TiesDoNotMatter(b) <==> NoSharedPoint(b)
  {
    if NoSharedPoint(b) {
      forall r, r', h | Arranges(r, b) && Arranges(r', b)
        ensures SameOwner(r, r', h)
      {
        if r != [] && r' != [] {
          LandingIsChosen(r, h);
          LandingIsChosen(r', h);
          ChosenAddressUnique(b, h, Landing(r, h), Landing(r', h));
        }
      }
    } else {
      var p, q :| p in b && q in b && p.hash == q.hash && p.peer.address != q.peer.address;
      var r := PutFirst(b, p);
      var r' := PutFirst(b, q);
      assert !SameOwner(r, r', p.hash);
    }
  }
}
