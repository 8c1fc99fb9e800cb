/** Any number of threads that look for unused subnets, reserve them and drop
    their reservations: the calls of the pool, each of them under its lock, in
    any order. */
module Reservations {
  import opened Protocol
  import opened Subnets
  import opened SubnetPools

  /** `live` has the reservations that exist, `listed` the candidates that each
      thread has fetched and not yet chosen from. */
  datatype System = System(
    reserved: seq<Subnet>, live: map<nat, Subnet>, nextToken: nat, listed: map<nat, seq<Subnet>>)

  const IDLE := System([], map[], 0, map[])

  /** findUnusedSubnet is the two steps Fetch and Take, between which other threads
      may run; `used` is what the network interfaces say. */
  datatype Step =
    | Fetch(thread: nat)
    | Take(thread: nat, used: seq<Subnet>)
    | ReserveKnown(subnet: Subnet)
    | Drop(token: nat)

  predicate Enabled(s: System, step: Step) {
    match step
    case Fetch(_) => true
    case Take(thread, used) => thread in s.listed && AreSubnets(used)
    case ReserveKnown(subnet) => IsAddress(subnet.address)
    case Drop(token) => token in s.live
  }

  function Make(s: System, subnet: Subnet): System {
    if subnet in s.reserved then s
    else
      s.(reserved := Reserved(s.reserved, subnet),
         live := s.live[s.nextToken := subnet],
         nextToken := s.nextToken + 1)
  }

  function Next(s: System, step: Step): System
    requires Enabled(s, step)
  {
    match step
    case Fetch(thread) => s.(listed := s.listed[thread := Free(POOL, s.reserved)])
    case Take(thread, used) =>
      var chosen, e := FirstUnused(s.listed[thread], used), s.(listed := s.listed - {thread});
      if chosen.None? then e else Make(e, chosen.value)
    case ReserveKnown(subnet) => Make(s, subnet)
    case Drop(token) => s.(reserved := Erased(s.reserved, s.live[token]), live := s.live - {token})
  }

  predicate IsRun(s: System, steps: seq<Step>)
    decreases |steps|
  {
    steps == [] || (Enabled(s, steps[0]) && IsRun(Next(s, steps[0]), steps[1..]))
  }

  function After(s: System, steps: seq<Step>): System
    requires IsRun(s, steps)
    decreases |steps|
  {
    if steps == [] then s else After(Next(s, steps[0]), steps[1..])
  }

  /** The reserved list has no duplicates and consists of the subnets of the live
      reservations, each of which has one of its own. */
  ghost predicate Exclusive(s: System) {
    && Distinct(s.reserved)
    && (forall x :: x in s.reserved <==> exists t :: t in s.live && s.live[t] == x)
    && (forall t, u :: t in s.live && u in s.live && t != u ==> s.live[t] != s.live[u])
  }

  ghost predicate Invariant(s: System) {
    && Exclusive(s)
    && (forall t :: t in s.live ==> t < s.nextToken && IsAddress(s.live[t].address))
    && (forall thread :: thread in s.listed ==> forall x :: x in s.listed[thread] ==> x in POOL)
  }

  lemma MakeKeeps(s: System, subnet: Subnet)
    requires Invariant(s) && IsAddress(subnet.address)
    ensures Invariant(Make(s, subnet))
  {
    var e := Make(s, subnet);
    if subnet !in s.reserved {
      DistinctGrows(s.reserved, subnet);
      forall x
        ensures x in e.reserved <==> exists t :: t in e.live && e.live[t] == x
      {
        if x == subnet {
          assert e.live[s.nextToken] == x;
        } else if x in s.reserved {
          var t :| t in s.live && s.live[t] == x;
          assert e.live[t] == x;
        }
      }
    }
  }

  lemma DropKeeps(s: System, token: nat)
    requires Invariant(s) && token in s.live
    ensures Invariant(Next(s, Drop(token)))
  {
    var e := Next(s, Drop(token));
    ErasedIs(s.reserved, s.live[token]);
    forall x
      ensures x in e.reserved <==> exists t :: t in e.live && e.live[t] == x
    {
      if x in e.reserved {
        var t :| t in s.live && s.live[t] == x;
        assert t in e.live && e.live[t] == x;
      }
    }
  }

  lemma {:induction false} FirstUnusedIsCandidate(candidates: seq<Subnet>, used: seq<Subnet>)
    ensures var chosen := FirstUnused(candidates, used);
      chosen.Some? ==> chosen.value in candidates && Unused(chosen.value, used)
    decreases candidates
  {
    if candidates != [] && !Unused(candidates[0], used) {
      FirstUnusedIsCandidate(candidates[1..], used);
    }
  }

  lemma NextKeeps(s: System, step: Step)
    requires Invariant(s) && Enabled(s, step)
    ensures Invariant(Next(s, step))
  {
    match step
    case Fetch(thread) =>
      forall x | x in Free(POOL, s.reserved)
        ensures x in POOL
      {
        FreeIff(POOL, s.reserved, x);
      }
    case Take(thread, used) =>
      var chosen, e := FirstUnused(s.listed[thread], used), s.(listed := s.listed - {thread});
      assert Invariant(e);
      if chosen.Some? {
        FirstUnusedIsCandidate(s.listed[thread], used);
        PoolIsProper(chosen.value);
        MakeKeeps(e, chosen.value);
      }
    case ReserveKnown(subnet) => MakeKeeps(s, subnet);
    case Drop(token) => DropKeeps(s, token);
  }

  lemma {:induction false} RunKeeps(s: System, steps: seq<Step>)
    requires Invariant(s) && IsRun(s, steps)
    ensures Invariant(After(s, steps))
    decreases |steps|
  {
    if steps != [] {
      NextKeeps(s, steps[0]);
      RunKeeps(Next(s, steps[0]), steps[1..]);
    }
  }

  /** In every interleaving no subnet has two live reservations, and those of pool
      subnets do not even overlap. */
  lemma ReservationsAreExclusive(steps: seq<Step>, s: System)
    requires IsRun(IDLE, steps) && s == After(IDLE, steps)
    ensures Exclusive(s)
    ensures forall t, u :: t in s.live && u in s.live && t != u && s.live[t] in POOL && s.live[u] in POOL ==>
      !Overlaps(s.live[t], s.live[u]) && !Intersect(s.live[t], s.live[u])
  {
    RunKeeps(IDLE, steps);
    forall t, u | t in s.live && u in s.live && t != u && s.live[t] in POOL && s.live[u] in POOL
      ensures !Overlaps(s.live[t], s.live[u]) && !Intersect(s.live[t], s.live[u])
    {
      InPoolApart(s.live[t], s.live[u]);
    }
  }

  lemma InPoolApart(a: Subnet, b: Subnet)
    requires a in POOL && b in POOL && a != b
    ensures !Overlaps(a, b) && !Intersect(a, b)
  {
    var i :| 0 <= i < |POOL| && POOL[i] == a;
    var k :| 0 <= k < |POOL| && POOL[k] == b;
    if i < k {
      PoolIsDisjoint(i, k);
    } else {
      PoolIsDisjoint(k, i);
    }
  }

  /** Two live reservations share an address exactly if the test of the search
      would have found it, or if they are for one address with different unknown
      prefixes; at most one of the two is then a pool subnet. */
  lemma SharedAddresses(steps: seq<Step>, s: System, t: nat, u: nat)
    requires IsRun(IDLE, steps) && s == After(IDLE, steps)
    requires t in s.live && u in s.live && t != u
    ensures Intersect(s.live[t], s.live[u]) <==>
      Overlaps(s.live[t], s.live[u]) || SameUnknown(s.live[t], s.live[u])
    ensures Intersect(s.live[t], s.live[u]) ==> s.live[t] !in POOL || s.live[u] !in POOL
  {
    RunKeeps(IDLE, steps);
    IntersectIff(s.live[t], s.live[u]);
    if s.live[t] in POOL && s.live[u] in POOL {
      InPoolApart(s.live[t], s.live[u]);
    }
  }

  /** Such a pair is reached: a subnet reserved from outside the pool contains the
      pool subnet that a search then takes, because reservations are compared for
      equality only. */
  lemma OverlapReached() returns (steps: seq<Step>, s: System)
    ensures IsRun(IDLE, steps) && s == After(IDLE, steps)
    ensures s.live == map[0 := Subnet(POOL[0].address, 16), 1 := POOL[0]]
    ensures Intersect(s.live[0], s.live[1])
  {
    var wide := Subnet(POOL[0].address, 16);
    PoolTops(0, 1);
    FreeStarts(POOL, [wide]);
    steps, s := FetchAndTake(wide, POOL[0], Free(POOL, [wide]));
    assert Covers(wide, POOL[0].address) && Covers(POOL[0], POOL[0].address);
  }

  lemma FreeStarts(pool: seq<Subnet>, reserved: seq<Subnet>)
    requires pool != [] && pool[0] !in reserved
    ensures Free(pool, reserved) != [] && Free(pool, reserved)[0] == pool[0]
  {
  }

  lemma FetchAndTake(known: Subnet, first: Subnet, free: seq<Subnet>) returns (steps: seq<Step>, s: System)
    requires IsAddress(known.address) && known != first && free == Free(POOL, [known]) && free != [] && free[0] == first
    ensures IsRun(IDLE, steps) && s == After(IDLE, steps)
    ensures s.live == map[0 := known, 1 := first]
  {
    var a, b := System([known], map[0 := known], 1, map[]), System([known], map[0 := known], 1, map[0 := free]);
    assert Next(IDLE, ReserveKnown(known)) == a;
    assert Next(a, Fetch(0)) == b;
    s := Next(b, Take(0, []));
    TakesFirst(b, first);
    steps := [ReserveKnown(known), Fetch(0), Take(0, [])];
    ThreeSteps(IDLE, ReserveKnown(known), Fetch(0), Take(0, []));
  }

  lemma TakesFirst(s: System, first: Subnet)
    requires 0 in s.listed && s.listed[0] != [] && s.listed[0][0] == first && first !in s.reserved
    ensures Next(s, Take(0, [])).live == s.live[s.nextToken := first]
  {
    assert FirstUnused(s.listed[0], []) == Some(first);
  }

  lemma ThreeSteps(s: System, x: Step, y: Step, z: Step)
    requires Enabled(s, x) && Enabled(Next(s, x), y) && Enabled(Next(Next(s, x), y), z)
    ensures IsRun(s, [x, y, z]) && After(s, [x, y, z]) == Next(Next(Next(s, x), y), z)
  {
    StepThen(Next(Next(s, x), y), z, []);
    StepThen(Next(s, x), y, [z]);
    StepThen(s, x, [y, z]);
    assert [z] + [] == [z] && [y] + [z] == [y, z] && [x] + [y, z] == [x, y, z];
  }

  lemma StepThen(s: System, step: Step, steps: seq<Step>)
    requires Enabled(s, step) && IsRun(Next(s, step), steps)
    ensures IsRun(s, [step] + steps) && After(s, [step] + steps) == After(Next(s, step), steps)
  {
    assert ([step] + steps)[1..] == steps;
  }

  ghost predicate IsReserved(s: System, subnet: Subnet) {
    exists t :: t in s.live && s.live[t] == subnet
  }

  /** There is one more reservation, of `x`. */
  predicate Gained(s: System, e: System, x: Subnet) {
    s.nextToken !in s.live && e.live == s.live[s.nextToken := x]
  }

  /** A subnet can be reserved exactly if nobody has a reservation for it, whoever
      had one before. */
  lemma ReservedIfFree(steps: seq<Step>, s: System, subnet: Subnet)
    requires IsRun(IDLE, steps) && s == After(IDLE, steps) && IsAddress(subnet.address)
    ensures var e := Next(s, ReserveKnown(subnet));
      if IsReserved(s, subnet) then e == s else Gained(s, e, subnet) && e.listed == s.listed
  {
    RunKeeps(IDLE, steps);
  }

  /** The candidates that a thread fetches are the pool subnets that nobody has
      reserved; nothing else changes. */
  lemma FetchedAreFree(steps: seq<Step>, s: System, thread: nat)
    requires IsRun(IDLE, steps) && s == After(IDLE, steps)
    ensures var e := Next(s, Fetch(thread));
      && thread in e.listed && e == s.(listed := s.listed[thread := e.listed[thread]])
      && forall x :: x in e.listed[thread] <==> x in POOL && !IsReserved(s, x)
  {
    RunKeeps(IDLE, steps);
    FreeIsNotReserved(s, POOL);
  }

  lemma FreeIsNotReserved(s: System, pool: seq<Subnet>)
    requires Exclusive(s)
    ensures forall x :: x in Free(pool, s.reserved) <==> x in pool && !IsReserved(s, x)
  {
    forall x
      ensures x in Free(pool, s.reserved) <==> x in pool && !IsReserved(s, x)
    {
      FreeIff(pool, s.reserved, x);
    }
  }

  /** A search that has fetched its candidates reserves the first of them that is
      unused, unless somebody has reserved it since. That is a pool subnet which is
      disjoint from the used ones and, however old the list of candidates, from every
      pool subnet reserved before; it shares an address with another live reservation
      exactly if that one is not of the pool and overlaps it. */
  lemma TakenIsApart(steps: seq<Step>, s: System, thread: nat, used: seq<Subnet>)
    requires IsRun(IDLE, steps) && s == After(IDLE, steps)
    requires Enabled(s, Take(thread, used))
    ensures var e, first := Next(s, Take(thread, used)), FirstUnused(s.listed[thread], used);
      && e.listed == s.listed - {thread}
      && if first.None? || IsReserved(s, first.value) then e.live == s.live
         else
           var x := first.value;
           && Gained(s, e, x) && x in POOL && DisjointFromAll(x, used)
           && forall t :: t in s.live ==>
             (Intersect(x, s.live[t]) <==> s.live[t] !in POOL && Overlaps(x, s.live[t]))
  {
    RunKeeps(IDLE, steps);
    var chosen := FirstUnused(s.listed[thread], used);
    if chosen.Some? && chosen.value !in s.reserved {
      var x := chosen.value;
      FirstUnusedIsCandidate(s.listed[thread], used);
      PoolIsProper(x);
      UnusedIffLooksDisjoint(x, used);
      DisjointIfKnown(x, used);
      forall t | t in s.live
        ensures Intersect(x, s.live[t]) <==> s.live[t] !in POOL && Overlaps(x, s.live[t])
      {
        IntersectIff(x, s.live[t]);
        assert s.live[t] in s.reserved;
        if s.live[t] in POOL {
          InPoolApart(x, s.live[t]);
        }
      }
    }
  }

  lemma PoolIsProper(x: Subnet)
    requires x in POOL
    ensures IsAddress(x.address) && x.prefixLength == 30
  {
    var i :| 0 <= i < |POOL| && POOL[i] == x;
    if i == 0 {
      PoolTops(0, 1);
    } else {
      PoolTops(0, i);
    }
  }

  /** Dropping the reservation of a pool subnet makes it a candidate again, in its
      place in the order of the pool, and changes nothing else. */
  lemma DropRestores(steps: seq<Step>, s: System, token: nat, before: seq<Subnet>, after: seq<Subnet>)
    requires IsRun(IDLE, steps) && s == After(IDLE, steps)
    requires token in s.live && POOL == before + [s.live[token]] + after
    ensures var x, e := s.live[token], Next(s, Drop(token));
      && Free(POOL, s.reserved) == Free(before, s.reserved) + Free(after, s.reserved)
      && Free(POOL, e.reserved) == Free(before, s.reserved) + [x] + Free(after, s.reserved)
  {
    RunKeeps(IDLE, steps);
    var x, e := s.live[token], Next(s, Drop(token));
    assert x in s.reserved;
    ErasedIs(s.reserved, x);
    OncePerPool(before, x, after);
    PutsBack(before, x, after, s.reserved, e.reserved);
  }

  lemma PutsBack(before: seq<Subnet>, x: Subnet, after: seq<Subnet>, reserved: seq<Subnet>, rest: seq<Subnet>)
    requires x in reserved && x !in before && x !in after
    requires forall y :: y in rest <==> y in reserved && y != x
    ensures Free(before + [x] + after, reserved) == Free(before, reserved) + Free(after, reserved)
    ensures Free(before + [x] + after, rest) == Free(before, reserved) + [x] + Free(after, reserved)
  {
    FreeDepends(before, reserved, rest);
    FreeDepends(after, reserved, rest);
    FreeOfThree(before, x, after, reserved);
    FreeOfThree(before, x, after, rest);
    assert Free(before, reserved) + [] == Free(before, reserved);
  }

  lemma OncePerPool(before: seq<Subnet>, x: Subnet, after: seq<Subnet>)
    requires POOL == before + [x] + after
    ensures x !in before && x !in after
  {
    if x in before {
      var i :| 0 <= i < |before| && before[i] == x;
      assert POOL[i] == POOL[|before|];
      PoolTops(i, |before|);
    }
    if x in after {
      var i :| 0 <= i < |after| && after[i] == x;
      assert POOL[|before|] == POOL[|before| + 1 + i];
      PoolTops(|before|, |before| + 1 + i);
    }
  }

  lemma {:induction false} FreeOfThree(before: seq<Subnet>, x: Subnet, after: seq<Subnet>, reserved: seq<Subnet>)
    ensures Free(before + [x] + after, reserved)
         == Free(before, reserved) + (if x in reserved then [] else [x]) + Free(after, reserved)
  {
    FreeAppend(before + [x], after, reserved);
    FreeAppend(before, [x], reserved);
    assert [x][1..] == [];
  }
}
