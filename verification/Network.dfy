/** Finding the subnet that contains an address. */
module Network {
  import opened Kube
  import opened Cloud

  /** An address of 32 or 128 bits. */
  datatype Address = Address(width: nat, value: nat)

  /** A CIDR block: the addresses that agree with `value` on the first `prefix` bits. */
  datatype Block = Block(width: nat, value: nat, prefix: nat)

  /** Which texts the net package reads as addresses and blocks; any other text does not parse. */
  datatype Texts = Texts(addresses: map<string, Address>, blocks: map<string, Block>)

  /** Drops the last n bits. */
  function Shift(v: nat, n: nat): nat
    decreases n
  {
    if n == 0 then v else Shift(v / 2, n - 1)
  }

  predicate WellFormed(b: Block) {
    b.prefix <= b.width
  }

  predicate Contains(b: Block, a: Address) {
    WellFormed(b) && a.width == b.width && Shift(a.value, b.width - b.prefix) == Shift(b.value, b.width - b.prefix)
  }

  /** The text of a subnet's block parses and the block contains the address. */
  predicate Holds(texts: Texts, s: Subnet, a: Address) {
    s.cidr in texts.blocks && Contains(texts.blocks[s.cidr], a)
  }

  function FirstMatch(texts: Texts, subnets: seq<Subnet>, a: Address): Option<Subnet> {
    if subnets == [] then None
    else if Holds(texts, subnets[0], a) then Some(subnets[0])
    else FirstMatch(texts, subnets[1..], a)
  }

  method DetectSubnet(texts: Texts, subnets: seq<Subnet>, a: Address) returns (found: Option<Subnet>)
    ensures found == FirstMatch(texts, subnets, a)
  {
    for i := 0 to |subnets|
      invariant FirstMatch(texts, subnets, a) == FirstMatch(texts, subnets[i..], a)
    {
      var subnet := subnets[i];
      if subnet.cidr !in texts.blocks {
        continue;
      }
      if Contains(texts.blocks[subnet.cidr], a) {
        return Some(subnet);
      }
    }
    return None;
  }

  // ----- What a block is -----

  function Pow2(n: nat): (p: nat)
    ensures p > 0
  {
    if n == 0 then 1 else 2 * Pow2(n - 1)
  }

  lemma Distribute(x: nat, y: nat, d: nat)
    requires x > y
    ensures x * d >= y * d + d
  {
    var z := x - y - 1;
    assert x * d == (y + 1 + z) * d == y * d + d + z * d;
  }

  lemma QuotientUnique(v: nat, d: nat, q: nat, r: nat)
    requires d > 0 && v == q * d + r && r < d
    ensures v / d == q
  {
    var p := v / d;
    var pd, qd := p * d, q * d;
    assert pd <= v < pd + d;
    if p > q {
      Distribute(p, q, d);
    } else if p < q {
      Distribute(q, p, d);
    }
  }

  lemma HalveThenDivide(v: nat, p: nat)
    requires p > 0
    ensures (v / 2) / p == v / (2 * p)
  {
    var half := v / 2;
    var q, r := half / p, half % p;
    assert half == q * p + r;
    assert v == q * (2 * p) + (2 * r + v % 2);
    QuotientUnique(v, 2 * p, q, 2 * r + v % 2);
  }

  /** Dropping n bits divides by two to the n. */
  lemma {:induction false} ShiftDivides(v: nat, n: nat)
    ensures Shift(v, n) == v / Pow2(n)
    decreases n
  {
    if n > 0 {
      ShiftDivides(v / 2, n - 1);
      HalveThenDivide(v, Pow2(n - 1));
    }
  }

  /** A block contains an address of its width exactly when the two have the same leading bits; a
      prefix longer than the width makes no block. */
  lemma ContainsIff(b: Block, a: Address)
    ensures Contains(b, a) <==>
      && b.prefix <= b.width && a.width == b.width
      && a.value / Pow2(b.width - b.prefix) == b.value / Pow2(b.width - b.prefix)
  {
    if b.prefix <= b.width {
      ShiftDivides(a.value, b.width - b.prefix);
      ShiftDivides(b.value, b.width - b.prefix);
    }
  }

  /** Written with its first address, a block is the range that starts there, as long as two to the
      number of free bits. */
  lemma ContainsRange(b: Block, a: Address)
    requires b.prefix <= b.width && b.value % Pow2(b.width - b.prefix) == 0
    ensures Contains(b, a) <==> a.width == b.width && b.value <= a.value < b.value + Pow2(b.width - b.prefix)
  {
    var p := Pow2(b.width - b.prefix);
    var q, r := a.value / p, a.value % p;
    ContainsIff(b, a);
    assert b.value == (b.value / p) * p && a.value == q * p + r;
    if b.value <= a.value < b.value + p {
      QuotientUnique(a.value, p, b.value / p, a.value - b.value);
    }
  }

  /** 10.0.0.0/24 contains 10.0.0.5 and not 10.0.1.5. */
  lemma SampleBlock()
    ensures Contains(Block(32, 167772160, 24), Address(32, 167772165))
    ensures !Contains(Block(32, 167772160, 24), Address(32, 167772421))
  {
    assert Pow2(8) == 256;
    ContainsRange(Block(32, 167772160, 24), Address(32, 167772165));
    ContainsRange(Block(32, 167772160, 24), Address(32, 167772421));
  }

  // ----- Section 3.1 of RFC 4632: two blocks are nested or disjoint -----

  lemma {:induction false} ShiftSplit(v: nat, m: nat, n: nat)
    ensures Shift(v, m + n) == Shift(Shift(v, m), n)
    decreases m
  {
    if m > 0 {
      ShiftSplit(v / 2, m - 1, n);
    }
  }

  ghost predicate Inside(inner: Block, outer: Block) {
    forall a :: Contains(inner, a) ==> Contains(outer, a)
  }

  ghost predicate Disjoint(x: Block, y: Block) {
    forall a :: !(Contains(x, a) && Contains(y, a))
  }

  /** A block with the longer prefix lies within any block it meets. */
  lemma LongerPrefixWithin(inner: Block, outer: Block, meet: Address)
    requires outer.prefix <= inner.prefix
    requires Contains(inner, meet) && Contains(outer, meet)
    ensures Inside(inner, outer)
  {
    var tail := inner.width - inner.prefix;
    var extra := inner.prefix - outer.prefix;
    forall a | Contains(inner, a)
      ensures Contains(outer, a)
    {
      ShiftSplit(a.value, tail, extra);
      ShiftSplit(meet.value, tail, extra);
    }
  }

  lemma NestedOrDisjoint(x: Block, y: Block)
    ensures Inside(x, y) || Inside(y, x) || Disjoint(x, y)
  {
    if !Disjoint(x, y) {
      var a :| Contains(x, a) && Contains(y, a);
      if y.prefix <= x.prefix {
        LongerPrefixWithin(x, y, a);
      } else {
        LongerPrefixWithin(y, x, a);
      }
    }
  }

  // ----- When the choice does not depend on the order of the listing -----

  /** No subnet's block lies within another's. */
  ghost predicate Unnested(texts: Texts, subnets: seq<Subnet>) {
    forall s, t :: s in subnets && t in subnets && s != t && s.cidr in texts.blocks && t.cidr in texts.blocks ==>
      !Inside(texts.blocks[s.cidr], texts.blocks[t.cidr])
  }

  lemma {:induction false} FirstMatchHolds(texts: Texts, subnets: seq<Subnet>, a: Address)
    ensures var r := FirstMatch(texts, subnets, a);
      if r.Some? then r.value in subnets && Holds(texts, r.value, a)
      else forall s :: s in subnets ==> !Holds(texts, s, a)
  {
    if subnets != [] {
      FirstMatchHolds(texts, subnets[1..], a);
    }
  }

  /** Among unnested subnets at most one contains the address, so the first match is the match. */
  lemma UniqueContainer(texts: Texts, subnets: seq<Subnet>, a: Address, s: Subnet)
    requires Unnested(texts, subnets) && s in subnets
    ensures Holds(texts, s, a) <==> FirstMatch(texts, subnets, a) == Some(s)
  {
    FirstMatchHolds(texts, subnets, a);
    if Holds(texts, s, a) {
      var t := FirstMatch(texts, subnets, a).value;
      if s != t {
        NestedOrDisjoint(texts.blocks[s.cidr], texts.blocks[t.cidr]);
      }
    }
  }

  /** Two listings of the same unnested subnets give the same answer. */
  lemma OrderIrrelevant(texts: Texts, xs: seq<Subnet>, ys: seq<Subnet>, a: Address)
    requires Unnested(texts, xs) && (forall s :: s in xs <==> s in ys)
    ensures FirstMatch(texts, xs, a) == FirstMatch(texts, ys, a)
  {
    FirstMatchHolds(texts, xs, a);
    FirstMatchHolds(texts, ys, a);
    assert Unnested(texts, ys);
    match FirstMatch(texts, ys, a) {
      case Some(s) => UniqueContainer(texts, xs, a, s);
      case None =>
    }
  }

  /** Nested subnets do make the order matter: whichever of the two comes first is chosen. */
  lemma OrderMatters(texts: Texts, s: Subnet, t: Subnet, a: Address)
    requires s != t && Holds(texts, s, a) && Holds(texts, t, a)
    ensures FirstMatch(texts, [s, t], a) != FirstMatch(texts, [t, s], a)
  {
    assert FirstMatch(texts, [s, t], a) == Some(s);
    assert FirstMatch(texts, [t, s], a) == Some(t);
  }
}
