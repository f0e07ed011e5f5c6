// Replica labels: the replica number glued to the address without a separator (transport/peer/picker.go).
// Which two addresses share a ring point whatever the hash function is.
module Labels {
  import opened Ring

  const DEFAULT_REPLICAS: nat := 50

  // The label that is hashed for replica i of an address.
  function Label(i: nat, address: string): (s: string) {
    Itoa(i) + address
  }

  ghost predicate ShareLabel(n: nat, a: string, b: string) {
    exists i: nat, j: nat :: i < n && j < n && Label(i, a) == Label(j, b)
  }

  // ---------- decimal numerals ----------

  predicate IsDigit(c: char) {
    '0' <= c <= '9'
  }

  predicate Digits(s: string) {
    forall i :: 0 <= i < |s| ==> IsDigit(s[i])
  }

  function ValueOf(c: char): (d: nat)
    requires IsDigit(c)
    ensures d < 10 && Digit(d) == c
  {
    c as int - '0' as int
  }

  // The number a digit string stands for.
  function Value(s: string): (v: nat)
    requires Digits(s)
  {
    if s == "" then 0 else 10 * Value(s[..|s| - 1]) + ValueOf(s[|s| - 1])
  }

  lemma ValueSnoc(s: string, c: char)
    requires Digits(s) && IsDigit(c)
    ensures Digits(s + [c]) && Value(s + [c]) == 10 * Value(s) + ValueOf(c)
  {
    assert (s + [c])[..|s + [c]| - 1] == s;
  }

  // Itoa writes the number, and no zero in front of another digit.
  lemma {:induction false} ItoaValue(i: nat)
    ensures Itoa(i) != "" && Digits(Itoa(i)) && Value(Itoa(i)) == i
    ensures Itoa(i)[0] == '0' ==> i == 0
    decreases i
  {
    if i < 10 {
      ValueSnoc("", Digit(i));
      assert "" + [Digit(i)] == [Digit(i)];
    } else {
      ItoaValue(i / 10);
      ValueSnoc(Itoa(i / 10), Digit(i % 10));
    }
  }

  // Every digit string that does not start with zero is written by Itoa.
  lemma {:induction false} ValueItoa(s: string)
    requires s != "" && Digits(s) && s[0] != '0'
    ensures Value(s) > 0 && Itoa(Value(s)) == s
    decreases |s|
  {
    var front, last := s[..|s| - 1], s[|s| - 1];
    assert s == front + [last];
    if front == "" {
      assert Value(front) == 0;
    } else {
      ValueItoa(front);
      var v := Value(s);
      assert v / 10 == Value(front) && v % 10 == ValueOf(last);
    }
  }

  // More in front of the same digits is more.
  lemma {:induction false} ValueMonotone(x: string, y: string, ds: string)
    requires Digits(x) && Digits(y) && Digits(ds) && Value(x) >= Value(y)
    ensures Digits(x + ds) && Digits(y + ds) && Value(x + ds) >= Value(y + ds)
    decreases |ds|
  {
    if ds == "" {
      assert x + ds == x && y + ds == y;
    } else {
      var front, last := ds[..|ds| - 1], ds[|ds| - 1];
      ValueMonotone(x, y, front);
      ValueSnoc(x + front, last);
      ValueSnoc(y + front, last);
      assert x + ds == x + front + [last] && y + ds == y + front + [last];
    }
  }

  // ---------- which addresses share a label ----------

  // Address b is a with the digits ds in front, and the numeral 1ds is the number of a replica.
  ghost predicate GluedBy(n: nat, a: string, b: string, ds: string) {
    ds != "" && Digits(ds) && b == ds + a && Value("1" + ds) < n
  }

  ghost predicate Glued(n: nat, a: string, b: string) {
    exists ds :: GluedBy(n, a, b, ds)
  }

  lemma GluedShares(n: nat, a: string, b: string)
    requires Glued(n, a, b)
    ensures ShareLabel(n, a, b)
  {
    var ds :| GluedBy(n, a, b, ds);
    var i := Value("1" + ds);
    ValueItoa("1" + ds);
    assert Itoa(1) == "1";
    assert "1" + ds + a == "1" + (ds + a);
    assert Label(i, a) == Label(1, b);
  }

  // Equal labels whose addresses differ in length: the longer address carries the missing digits.
  lemma SharedGlues(n: nat, a: string, b: string, i: nat, j: nat)
    requires i < n && j < n && Label(i, a) == Label(j, b) && |a| < |b|
    ensures Glued(n, a, b)
  {
    var x, y := Itoa(i), Itoa(j);
    var ds := x[|y|..];
    Suffix(x, y, a, b);
    ItoaValue(i);
    ItoaValue(j);
    assert i >= 10;
    assert y[0] == x[0] != '0';
    assert Itoa(0) == "0" && Itoa(1) == "1";
    ItoaValue(1);
    ValueMonotone(y, "1", ds);
    assert GluedBy(n, a, b, ds);
  }

  lemma Suffix(x: string, y: string, a: string, b: string)
    requires x + a == y + b && |a| < |b|
    ensures |y| < |x| && x == y + x[|y|..] && b == x[|y|..] + a
  {
    assert |x + a| == |y + b|;
    assert y == (x + a)[..|y|] && b == (x + a)[|y|..];
  }

  // Two addresses share a label if and only if one is the other with a number's worth of digits in front.
  lemma SharedExactly(n: nat, a: string, b: string)
    requires a != b
    ensures ShareLabel(n, a, b) <==> Glued(n, a, b) || Glued(n, b, a)
  {
    if Glued(n, a, b) {
      GluedShares(n, a, b);
    } else if Glued(n, b, a) {
      GluedShares(n, b, a);
    }
    forall i: nat, j: nat | i < n && j < n && Label(i, a) == Label(j, b)
      ensures Glued(n, a, b) || Glued(n, b, a)
    {
      if |a| < |b| {
        SharedGlues(n, a, b, i, j);
      } else if |b| < |a| {
        SharedGlues(n, b, a, j, i);
      } else {
        SameLength(Itoa(i), Itoa(j), a, b);
      }
    }
  }

  lemma SameLength(x: string, y: string, a: string, b: string)
    requires x + a == y + b && |a| == |b|
    ensures a == b
  {
    assert |x + a| == |y + b|;
    assert a == (x + a)[|x|..] && b == (y + b)[|y|..];
  }

  // ---------- and so share a point under every hash function ----------

  // A hash function that keeps the addresses apart unless they share a label.
  lemma Separates(n: nat, a: string, b: string) returns (hashFn: HashFn, digest: string -> string)
    requires !ShareLabel(n, a, b)
    ensures !Collides(hashFn, digest, n, {a, b})
  {
    var labels := set i: nat | i < n :: Label(i, a);
    hashFn, digest := s => if s in labels then 0 else 1, s => s;
    forall i, j | 0 <= i < n && 0 <= j < n
      ensures ReplicaHash(hashFn, digest, i, a) != ReplicaHash(hashFn, digest, j, b)
    {
      assert Label(i, a) in labels;
      assert Label(j, b) !in labels;
    }
  }

  // Two addresses collide under every hash function and digest if and only if one is the other with
  // digits ds in front such that the numeral 1ds is below the number of replicas.
  lemma CollideUnderEveryHash(n: nat, a: string, b: string)
    requires a != b
    ensures (forall hashFn: HashFn, digest: string -> string :: Collides(hashFn, digest, n, {a, b}))
       <==> Glued(n, a, b) || Glued(n, b, a)
  {
    SharedExactly(n, a, b);
    if ShareLabel(n, a, b) {
      var i: nat, j: nat :| i < n && j < n && Label(i, a) == Label(j, b);
      forall hashFn: HashFn, digest: string -> string
        ensures Collides(hashFn, digest, n, {a, b})
      {
        assert ReplicaHash(hashFn, digest, i, a) == ReplicaHash(hashFn, digest, j, b);
        assert a in {a, b} && b in {a, b};
      }
    } else {
      var hashFn, digest := Separates(n, a, b);
    }
  }

  // One more digit multiplies by ten.
  lemma Tenfold(s: string, c: char, bound: nat)
    requires Digits(s) && IsDigit(c) && Value(s) >= bound
    ensures Digits(s + [c]) && Value(s + [c]) >= 10 * bound
  {
    ValueSnoc(s, c);
  }

  lemma {:induction false} Hundreds(ds: string)
    requires Digits(ds) && |ds| >= 2
    ensures Digits("1" + ds) && Value("1" + ds) >= 100
    decreases |ds|
  {
    var front, last := ds[..|ds| - 1], ds[|ds| - 1];
    if |front| >= 2 {
      Hundreds(front);
    } else {
      assert front == [front[0]];
      Teens(front[0]);
    }
    Tenfold("1" + front, last, 10);
    assert "1" + ds == "1" + front + [last];
  }

  lemma Teens(c: char)
    requires IsDigit(c)
    ensures Digits("1" + [c]) && Value("1" + [c]) == 10 + ValueOf(c)
  {
    ItoaValue(1);
    assert Itoa(1) == "1";
    ValueSnoc("1", c);
  }

  // The simplest case: a digit d in front, and more than 10 + d replicas.
  lemma GluedReplicasCollide(hashFn: HashFn, digest: string -> string, n: nat, address: string, d: nat)
    requires d < 10 && n > 10 + d
    ensures Collides(hashFn, digest, n, {address, [Digit(d)] + address})
  {
    var a, b := address, [Digit(d)] + address;
    Teens(Digit(d));
    assert |b| == |a| + 1;
    assert GluedBy(n, a, b, [Digit(d)]);
    CollideUnderEveryHash(n, a, b);
  }

  // With the default of fifty replicas that means one digit in front of the other address.
  lemma DefaultReplicas(a: string, b: string)
    ensures Glued(DEFAULT_REPLICAS, a, b) <==> exists c :: IsDigit(c) && b == [c] + a
  {
    if Glued(DEFAULT_REPLICAS, a, b) {
      var ds :| GluedBy(DEFAULT_REPLICAS, a, b, ds);
      if |ds| >= 2 {
        Hundreds(ds);
      }
      assert ds == [ds[0]];
    }
    forall c | IsDigit(c) && b == [c] + a
      ensures Glued(DEFAULT_REPLICAS, a, b)
    {
      Teens(c);
      assert GluedBy(DEFAULT_REPLICAS, a, b, [c]);
    }
  }
}
