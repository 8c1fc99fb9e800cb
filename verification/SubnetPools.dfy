/** The pool of subnets and its reservations: qdb/server/subnet.cpp. A
    reservation is a shared object; destroying its last copy frees the subnet. */
module SubnetPools {
  import opened Protocol
  import opened Subnets

  function Host(a: nat, b: nat, c: nat): Subnet {
    Subnet(V4(a * 0x100_0000 + b * 0x1_0000 + c * 0x100 + 1), 30)
  }

  /** m_candidates. */
  const POOL := [
    Host(172, 16, 58), Host(172, 17, 58), Host(172, 18, 58), Host(172, 19, 58), Host(172, 20, 58), Host(172, 21, 58),
    Host(172, 22, 58), Host(172, 23, 58), Host(172, 24, 58), Host(172, 25, 58), Host(172, 26, 58), Host(172, 27, 58),
    Host(172, 28, 58), Host(172, 29, 58), Host(172, 30, 58), Host(172, 31, 58), Host(192, 168, 58), Host(10, 17, 20)]

  /** 172.16.58.1/30 to 172.31.58.1/30, 192.168.58.1/30 and 10.17.20.1/30. */
  lemma PoolIs(i: nat)
    requires i < 18
    ensures |POOL| == 18
    ensures var first := if i < 16 then 172 else if i == 16 then 192 else 10;
      var second := if i < 16 then 16 + i else if i == 16 then 168 else 17;
      var third := if i < 17 then 58 else 20;
      POOL[i] == Subnet(V4(first * 16777216 + second * 65536 + third * 256 + 1), 30)
  {
  }

  lemma PoolTops(i: nat, k: nat)
    requires i < k < |POOL|
    ensures IsAddress(POOL[i].address) && IsAddress(POOL[k].address)
    ensures POOL[i].address.V4? && POOL[k].address.V4?
    ensures POOL[i].address.bits / 4 != POOL[k].address.bits / 4
    ensures POOL[i].prefixLength == 30 && POOL[k].prefixLength == 30
  {
  }

  /** IPv4 subnets with four addresses each overlap only if they are the same four. */
  lemma OtherBlocks(s: Subnet, t: Subnet)
    requires IsAddress(s.address) && IsAddress(t.address) && s.address.V4? && t.address.V4?
    requires s.prefixLength == 30 && t.prefixLength == 30 && s.address.bits / 4 != t.address.bits / 4
    ensures !Overlaps(s, t) && !Intersect(s, t)
  {
    var a, b := s.address.bits, t.address.bits;
    assert Top(a, 2) == Top(a / 2, 1) == a / 2 / 2 && Top(b, 2) == Top(b / 2, 1) == b / 2 / 2;
    assert a / 2 / 2 == a / 4 && b / 2 / 2 == b / 4;
    OverlapsIffIntersect(s, t);
  }

  /** The subnets of the pool are proper, and no two of them overlap. */
  lemma PoolIsDisjoint(i: nat, k: nat)
    requires i < k < |POOL|
    ensures IsAddress(POOL[i].address) && IsAddress(POOL[k].address)
    ensures !Overlaps(POOL[i], POOL[k]) && !Intersect(POOL[i], POOL[k])
  {
    PoolTops(i, k);
    OtherBlocks(POOL[i], POOL[k]);
  }

  // ---------- The list of reserved subnets ----------

  /** The subnets of `pool` that are not reserved, in pool order. */
  function Free(pool: seq<Subnet>, reserved: seq<Subnet>): seq<Subnet> {
    if pool == [] then []
    else (if pool[0] in reserved then [] else [pool[0]]) + Free(pool[1..], reserved)
  }

  /** `s` without the first occurrence of `x`. */
  function Erased(s: seq<Subnet>, x: Subnet): seq<Subnet> {
    if s == [] then [] else if s[0] == x then s[1..] else [s[0]] + Erased(s[1..], x)
  }

  function Reserved(s: seq<Subnet>, x: Subnet): seq<Subnet> {
    if x in s then s else s + [x]
  }

  lemma {:induction false} FreeAppend(a: seq<Subnet>, b: seq<Subnet>, reserved: seq<Subnet>)
    ensures Free(a + b, reserved) == Free(a, reserved) + Free(b, reserved)
  {
    if a == [] {
      assert a + b == b;
    } else {
      assert (a + b)[1..] == a[1..] + b;
      FreeAppend(a[1..], b, reserved);
    }
  }

  lemma {:induction false} FreeIff(pool: seq<Subnet>, reserved: seq<Subnet>, x: Subnet)
    ensures x in Free(pool, reserved) <==> x in pool && x !in reserved
  {
    if pool != [] {
      FreeIff(pool[1..], reserved, x);
    }
  }

  /** Only the subnets in `pool` matter. */
  lemma {:induction false} FreeDepends(pool: seq<Subnet>, r: seq<Subnet>, s: seq<Subnet>)
    requires forall x :: x in pool ==> (x in r <==> x in s)
    ensures Free(pool, r) == Free(pool, s)
  {
    if pool != [] {
      FreeDepends(pool[1..], r, s);
    }
  }

  lemma {:induction false} ErasedIs(s: seq<Subnet>, x: Subnet)
    requires Distinct(s)
    ensures Distinct(Erased(s, x)) && forall y :: y in Erased(s, x) <==> y in s && y != x
  {
    if s != [] {
      var rest := s[1..];
      assert Distinct(rest) && s[0] !in rest;
      ErasedIs(rest, x);
    }
  }

  class SubnetPool {
    const candidates: seq<Subnet>
    var reserved: seq<Subnet>

    constructor ()
      ensures candidates == POOL && reserved == []
    {
      candidates, reserved := POOL, [];
    }

    method Candidates() returns (free: seq<Subnet>)
      ensures free == Free(candidates, reserved)
    {
      free := [];
      var i := 0;
      while i < |candidates|
        invariant i <= |candidates| && free == Free(candidates[..i], reserved)
      {
        FreeAppend(candidates[..i], [candidates[i]], reserved);
        assert candidates[..i + 1] == candidates[..i] + [candidates[i]];
        if candidates[i] !in reserved {
          free := free + [candidates[i]];
        }
        i := i + 1;
      }
      assert candidates[..i] == candidates;
    }

    /** False stands for a null reservation. */
    method Reserve(subnet: Subnet) returns (made: bool)
      modifies this`reserved
      ensures made <==> subnet !in old(reserved)
      ensures reserved == Reserved(old(reserved), subnet)
    {
      if subnet in reserved {
        return false;
      }
      reserved := reserved + [subnet];
      return true;
    }

    method Release(subnet: Subnet)
      modifies this`reserved
      ensures reserved == Erased(old(reserved), subnet)
    {
      var i := 0;
      while i < |reserved| && reserved[i] != subnet
        invariant i <= |reserved| && reserved == old(reserved)
        invariant Erased(reserved, subnet) == reserved[..i] + Erased(reserved[i..], subnet)
      {
        assert reserved[..i + 1] == reserved[..i] + [reserved[i]];
        Associative(reserved[..i], [reserved[i]], Erased(reserved[i + 1..], subnet));
        i := i + 1;
      }
      ghost var tail := reserved[i..];
      if i < |reserved| {
        assert tail[0] == subnet && tail[1..] == reserved[i + 1..];
        assert Erased(tail, subnet) == tail[1..];
        reserved := reserved[..i] + reserved[i + 1..];
      } else {
        assert tail == [] && reserved == reserved[..i] + tail;
      }
    }
  }
}
