/** Overlap of IP subnets and the search for an unused one:
    qdb/server/subnet.cpp. */
module Subnets {
  import opened Protocol

  const V4_LIMIT := 0x1_0000_0000
  const V6_LIMIT := 0x1_0000_0000_0000_0000_0000_0000_0000_0000

  datatype Address = Unknown | V4(bits: nat) | V6(bits: nat)

  predicate IsAddress(a: Address) {
    match a
    case Unknown => true
    case V4(bits) => bits < V4_LIMIT
    case V6(bits) => bits < V6_LIMIT
  }

  /** A negative prefix length is how Qt says that it is not known. */
  datatype Subnet = Subnet(address: Address, prefixLength: int)

  const NULL_SUBNET := Subnet(Unknown, 0)

  function Width(a: Address): nat {
    match a
    case Unknown => 0
    case V4(_) => 32
    case V6(_) => 128
  }

  /** `n` without its last `count` bits. */
  function Top(n: nat, count: nat): nat
    decreases count
  {
    if count == 0 then n else Top(n / 2, count - 1)
  }

  function Clamp(a: Address, prefixLength: nat): (p: nat)
    ensures p <= Width(a)
  {
    if prefixLength > Width(a) then Width(a) else prefixLength
  }

  predicate SameProtocol(a: Address, b: Address) {
    (a.V4? && b.V4?) || (a.V6? && b.V6?)
  }

  /** QHostAddress::isInSubnet. */
  predicate IsInSubnet(a: Address, net: Address, prefixLength: int) {
    && SameProtocol(a, net)
    && prefixLength >= 0
    && var rest := Width(net) - Clamp(net, prefixLength);
       Top(a.bits, rest) == Top(net.bits, rest)
  }

  /** The test of findUnusedSubnet. */
  predicate Overlaps(candidate: Subnet, subnet: Subnet) {
    || IsInSubnet(candidate.address, subnet.address, subnet.prefixLength)
    || IsInSubnet(subnet.address, candidate.address, candidate.prefixLength)
  }

  // ---------- What the test means for the sets of addresses ----------

  /** The addresses of a subnet (prefix notation, section 3.1 of RFC 4632): those
      that share its first bits; just its own address if the prefix is not known. */
  predicate Covers(s: Subnet, a: Address) {
    if s.prefixLength < 0 then a == s.address && a != Unknown else IsInSubnet(a, s.address, s.prefixLength)
  }

  ghost predicate Intersect(s: Subnet, t: Subnet) {
    exists a :: IsAddress(a) && Covers(s, a) && Covers(t, a)
  }

  ghost predicate Contains(s: Subnet, t: Subnet) {
    forall a :: Covers(t, a) ==> Covers(s, a)
  }

  function Pow2(k: nat): (p: nat)
    ensures p > 0
  {
    if k == 0 then 1 else 2 * Pow2(k - 1)
  }

  /** Halving and doubling: a number lies in a block of twice the size exactly if
      its half lies in the block. */
  lemma HalfInBlock(n: nat, lower: nat, upper: nat)
    ensures lower <= n / 2 < upper <==> 2 * lower <= n < 2 * upper
  {
  }

  lemma DoubleProduct(a: nat, p: nat)
    ensures a * (2 * p) == 2 * (a * p)
  {
  }

  /** The numbers with the same first bits are an aligned block of consecutive ones. */
  lemma {:induction false} BlockOf(n: nat, count: nat, top: nat)
    ensures Top(n, count) == top <==> top * Pow2(count) <= n < (top + 1) * Pow2(count)
    decreases count
  {
    if count == 0 {
      assert top * Pow2(0) == top && (top + 1) * Pow2(0) == top + 1;
    } else {
      BlockOf(n / 2, count - 1, top);
      BlockStep(n, count, top);
    }
  }

  lemma BlockStep(n: nat, count: nat, top: nat)
    requires count > 0
    ensures top * Pow2(count - 1) <= n / 2 < (top + 1) * Pow2(count - 1)
       <==> top * Pow2(count) <= n < (top + 1) * Pow2(count)
  {
    var p := Pow2(count - 1);
    var lower, upper := top * p, (top + 1) * p;
    assert Pow2(count) == 2 * p;
    DoubleProduct(top, p);
    DoubleProduct(top + 1, p);
    HalfInBlock(n, lower, upper);
  }

  lemma {:induction false} TopIs(n: nat, count: nat)
    ensures Top(n, count) == n / Pow2(count)
    decreases count
  {
    var top, p := Top(n, count), Pow2(count);
    BlockOf(n, count, top);
    assert (top + 1) * p == top * p + p;
    QuotientIs(n, p, top);
  }

  lemma QuotientIs(n: nat, p: nat, q: nat)
    requires 0 < p && q * p <= n < q * p + p
    ensures n / p == q
  {
    var k := n / p;
    assert k * p <= n < k * p + p;
    Monotone(k + 1, q, p);
    Monotone(q + 1, k, p);
  }

  lemma Monotone(a: nat, b: nat, p: nat)
    ensures a <= b ==> a * p <= b * p
  {
  }

  /** The addresses of a subnet with a known prefix are those of its protocol in the
      same block, which has 2^(32 - prefix) addresses for IPv4 and 2^(128 - prefix)
      for IPv6; no block is smaller than one address. */
  lemma CoversBlock(s: Subnet, a: Address)
    requires s.prefixLength >= 0
    ensures s.address == Unknown ==> !Covers(s, a)
    ensures s.address.V4? ==>
      (Covers(s, a) <==> a.V4? && var size := Pow2(if s.prefixLength <= 32 then 32 - s.prefixLength else 0);
                                  a.bits / size == s.address.bits / size)
    ensures s.address.V6? ==>
      (Covers(s, a) <==> a.V6? && var size := Pow2(if s.prefixLength <= 128 then 128 - s.prefixLength else 0);
                                  a.bits / size == s.address.bits / size)
  {
    if s.address != Unknown && a != Unknown {
      var rest := Width(s.address) - Clamp(s.address, s.prefixLength);
      TopIs(a.bits, rest);
      TopIs(s.address.bits, rest);
    }
  }

  lemma {:induction false} TopOfTop(n: nat, j: nat, k: nat)
    ensures Top(n, j + k) == Top(Top(n, j), k)
    decreases j
  {
    if j > 0 {
      TopOfTop(n / 2, j - 1, k);
    }
  }

  /** Addresses that agree in many first bits agree in fewer. */
  lemma TopAgrees(a: nat, b: nat, j: nat, k: nat)
    requires j <= k && Top(a, j) == Top(b, j)
    ensures Top(a, k) == Top(b, k)
  {
    TopOfTop(a, j, k - j);
    TopOfTop(b, j, k - j);
  }

  /** The subnet with the longer prefix lies in the other one as soon as one of its
      addresses does. */
  lemma LongerIsInside(wide: Subnet, narrow: Subnet, a: Address)
    requires 0 <= wide.prefixLength <= narrow.prefixLength
    requires Covers(wide, a) && Covers(narrow, a)
    ensures IsInSubnet(narrow.address, wide.address, wide.prefixLength) && Contains(wide, narrow)
  {
    var w := Width(a);
    var j, k := w - Clamp(a, narrow.prefixLength), w - Clamp(a, wide.prefixLength);
    TopAgrees(a.bits, narrow.address.bits, j, k);
    forall b | Covers(narrow, b)
      ensures Covers(wide, b)
    {
      TopAgrees(b.bits, narrow.address.bits, j, k);
    }
  }

  lemma OverlapsIfIntersect(s: Subnet, t: Subnet, a: Address)
    requires Covers(s, a) && Covers(t, a) && (s.prefixLength >= 0 || t.prefixLength >= 0)
    ensures Overlaps(s, t) && (Contains(s, t) || Contains(t, s))
  {
    if s.prefixLength < 0 {
      assert Contains(t, s);
    } else if t.prefixLength < 0 {
      assert Contains(s, t);
    } else if s.prefixLength <= t.prefixLength {
      LongerIsInside(s, t, a);
    } else {
      LongerIsInside(t, s, a);
    }
  }

  /** The two-sided test says exactly whether the two sets of addresses intersect,
      except that it is blind when neither prefix is known; and subnets never
      overlap partially. */
  lemma OverlapsIffIntersect(s: Subnet, t: Subnet)
    requires IsAddress(s.address) && IsAddress(t.address)
    ensures Overlaps(s, t) <==> Intersect(s, t) && (s.prefixLength >= 0 || t.prefixLength >= 0)
    ensures Overlaps(s, t) ==> Contains(s, t) || Contains(t, s)
  {
    if Intersect(s, t) && (s.prefixLength >= 0 || t.prefixLength >= 0) {
      var a :| IsAddress(a) && Covers(s, a) && Covers(t, a);
      OverlapsIfIntersect(s, t, a);
    }
    if Overlaps(s, t) {
      var a := if IsInSubnet(s.address, t.address, t.prefixLength) then s.address else t.address;
      assert Covers(s, a) && Covers(t, a);
      OverlapsIfIntersect(s, t, a);
    }
  }

  /** Neither prefix length is known, and the addresses are the same one. */
  predicate SameUnknown(s: Subnet, t: Subnet) {
    s.prefixLength < 0 && t.prefixLength < 0 && s.address == t.address != Unknown
  }

  /** Exactly when two subnets share an address. */
  lemma IntersectIff(s: Subnet, t: Subnet)
    requires IsAddress(s.address) && IsAddress(t.address)
    ensures Intersect(s, t) <==> Overlaps(s, t) || SameUnknown(s, t)
  {
    OverlapsIffIntersect(s, t);
    if SameUnknown(s, t) {
      assert Covers(s, s.address) && Covers(t, s.address);
    }
  }

  // ---------- First fit ----------

  predicate Unused(candidate: Subnet, used: seq<Subnet>) {
    forall s :: s in used ==> !Overlaps(candidate, s)
  }

  function FirstUnused(candidates: seq<Subnet>, used: seq<Subnet>): Option<Subnet> {
    if candidates == [] then None
    else if Unused(candidates[0], used) then Some(candidates[0])
    else FirstUnused(candidates[1..], used)
  }

  /** findUnusedSubnet. */
  method FindUnusedSubnet(candidates: seq<Subnet>, used: seq<Subnet>) returns (subnet: Subnet, found: bool)
    ensures FirstUnused(candidates, used) == if found then Some(subnet) else None
    ensures !found ==> subnet == NULL_SUBNET
  {
    var i := 0;
    while i < |candidates|
      invariant i <= |candidates|
      invariant FirstUnused(candidates, used) == FirstUnused(candidates[i..], used)
    {
      var noneOf, k := true, 0;
      while k < |used| && noneOf
        invariant k <= |used|
        invariant noneOf <==> forall l :: 0 <= l < k ==> !Overlaps(candidates[i], used[l])
      {
        noneOf := !Overlaps(candidates[i], used[k]);
        k := k + 1;
      }
      assert noneOf ==> Unused(candidates[i], used);
      if noneOf {
        return candidates[i], true;
      }
      i := i + 1;
    }
    return NULL_SUBNET, false;
  }

  predicate AreSubnets(s: seq<Subnet>) {
    forall x :: x in s ==> IsAddress(x.address)
  }

  /** No address of `candidate` belongs to a used subnet. */
  ghost predicate DisjointFromAll(candidate: Subnet, used: seq<Subnet>) {
    forall s :: s in used ==> !Intersect(candidate, s)
  }

  /** ... or the test cannot see that it does, because neither prefix is known. */
  ghost predicate LooksDisjoint(candidate: Subnet, used: seq<Subnet>) {
    forall s :: s in used ==> !Intersect(candidate, s) || SameUnknown(candidate, s)
  }

  lemma UnusedIffLooksDisjoint(candidate: Subnet, used: seq<Subnet>)
    requires IsAddress(candidate.address) && AreSubnets(used)
    ensures Unused(candidate, used) <==> LooksDisjoint(candidate, used)
  {
    forall s | s in used
      ensures !Overlaps(candidate, s) <==> !Intersect(candidate, s) || SameUnknown(candidate, s)
    {
      OverlapsIffIntersect(candidate, s);
      IntersectIff(candidate, s);
    }
  }

  /** It looks disjoint exactly if it is, when its prefix or those of all used
      subnets are known. */
  lemma DisjointIfKnown(candidate: Subnet, used: seq<Subnet>)
    requires candidate.prefixLength >= 0 || forall s :: s in used ==> s.prefixLength >= 0
    ensures LooksDisjoint(candidate, used) <==> DisjointFromAll(candidate, used)
  {
  }

  /** Candidate `i` is disjoint from every used subnet, and it is the first that is. */
  ghost predicate FirstAt(candidates: seq<Subnet>, used: seq<Subnet>, i: nat) {
    && i < |candidates|
    && LooksDisjoint(candidates[i], used)
    && forall k :: 0 <= k < i ==> !LooksDisjoint(candidates[k], used)
  }

  /** For any lists, the result is the first candidate that is disjoint from every
      used subnet, as far as the test can see, and there is none exactly when no
      candidate is. */
  lemma {:induction false} FirstFit(candidates: seq<Subnet>, used: seq<Subnet>)
    requires AreSubnets(candidates) && AreSubnets(used)
    ensures var result := FirstUnused(candidates, used);
      && (result.Some? ==> exists i: nat :: FirstAt(candidates, used, i) && candidates[i] == result.value)
      && (result.None? <==> forall c :: c in candidates ==> !LooksDisjoint(c, used))
    decreases candidates
  {
    if candidates != [] {
      var rest := candidates[1..];
      UnusedIffLooksDisjoint(candidates[0], used);
      assert candidates[0] in candidates;
      assert forall c :: c in candidates <==> c == candidates[0] || c in rest;
      if Unused(candidates[0], used) {
        assert FirstAt(candidates, used, 0);
      } else {
        FirstFit(rest, used);
        if FirstUnused(rest, used).Some? {
          var i: nat :| FirstAt(rest, used, i) && rest[i] == FirstUnused(rest, used).value;
          LaterFits(candidates, used, i);
        }
      }
    }
  }

  lemma LaterFits(candidates: seq<Subnet>, used: seq<Subnet>, i: nat)
    requires candidates != [] && !LooksDisjoint(candidates[0], used)
    requires FirstAt(candidates[1..], used, i)
    ensures FirstAt(candidates, used, i + 1)
  {
    forall k | 0 <= k < i + 1
      ensures !LooksDisjoint(candidates[k], used)
    {
      assert k > 0 ==> candidates[k] == candidates[1..][k - 1];
    }
  }
}
