/** The packet identifier pool of client/lib/src/op/Op.cpp: a sorted vector of the
    identifiers in use and the last identifier handed out. */
module PacketIds {

  const MAX_PACKET_ID := 0xFFFF

  /** std::uint16_t */
  type PacketId = n: nat | n <= 0xFFFF

  /** m_allocatedPacketIds, m_lastPacketId and the storage bound of the vector. */
  datatype Pool = Pool(ids: seq<PacketId>, last: PacketId, limit: nat)

  ghost predicate Ascending(ids: seq<PacketId>) {
    forall i, j | 0 <= i < j < |ids| :: ids[i] < ids[j]
  }

  /** 16-bit increment. */
  function Succ(n: PacketId): PacketId {
    if n == MAX_PACKET_ID then 0 else n + 1
  }

  /** The probe starts one past the last identifier, and at 1 when that wraps. */
  function ProbeStart(last: PacketId): PacketId {
    if Succ(last) == 0 then 1 else Succ(last)
  }

  predicate Exhausted(p: Pool) {
    p.limit <= |p.ids| || MAX_PACKET_ID <= |p.ids|
  }

  /** How many increments lead from `start` to `n`. */
  function Distance(start: PacketId, n: PacketId): nat {
    if start <= n then n - start else n + MAX_PACKET_ID + 1 - start
  }

  /** `n` is the first free identifier met by the cyclic probe from `start`. */
  ghost predicate FirstFree(ids: seq<PacketId>, start: PacketId, n: PacketId) {
    && n !in ids
    && forall m: PacketId | Distance(start, m) < Distance(start, n) :: m in ids
  }

  /** The probe: at most `left` further increments. */
  function Probe(ids: seq<PacketId>, n: PacketId, left: nat): PacketId
    decreases left
  {
    if left == 0 || n !in ids then n else Probe(ids, Succ(n), left - 1)
  }

  /** The identifier the allocator returns; zero when it gives up. */
  function Allocated(p: Pool): PacketId {
    if Exhausted(p) then 0 else Probe(p.ids, ProbeStart(p.last), |p.ids|)
  }

  /** std::lower_bound: how many entries come before the first one not below `id`. */
  function LowerBound(ids: seq<PacketId>, id: int): (k: nat)
    ensures k <= |ids|
  {
    if ids == [] || id <= ids[0] then 0 else 1 + LowerBound(ids[1..], id)
  }

  lemma {:induction false} LowerBoundSplits(ids: seq<PacketId>, id: int)
    ensures var k := LowerBound(ids, id);
      (forall i | 0 <= i < k :: ids[i] < id) && (k < |ids| ==> id <= ids[k])
  {
    if ids != [] && ids[0] < id {
      LowerBoundSplits(ids[1..], id);
      var k := LowerBound(ids, id);
      assert forall i | 1 <= i < k :: ids[i] == ids[1..][i - 1];
    }
  }

  lemma LowerBoundUnique(ids: seq<PacketId>, id: int, k: nat)
    requires k <= |ids|
    requires forall i | 0 <= i < k :: ids[i] < id
    requires forall i | k <= i < |ids| :: id <= ids[i]
    ensures k == LowerBound(ids, id)
  {
    LowerBoundSplits(ids, id);
    var l := LowerBound(ids, id);
    var atK, atL := k < |ids| && ids[k] < id, l < |ids| && ids[l] < id;
    assert !atK && !atL;
  }

  function Inserted(ids: seq<PacketId>, id: PacketId): seq<PacketId> {
    var k := LowerBound(ids, id);
    ids[..k] + [id] + ids[k..]
  }

  function Alloc(p: Pool): Pool {
    if Exhausted(p) then p else
    var id := Allocated(p);
    p.(ids := Inserted(p.ids, id), last := id)
  }

  function Release(p: Pool, id: int): Pool {
    var k := LowerBound(p.ids, id);
    if id == 0 || k == |p.ids| || p.ids[k] != id then p
    else p.(ids := p.ids[..k] + p.ids[k + 1..])
  }

  // ------------------------------------------------------------------ the probe

  /** Pigeonhole: `k` different identifiers in a list have at least `k` entries. */
  lemma {:induction false} RunFits(ids: seq<PacketId>, run: seq<PacketId>)
    requires forall i, j | 0 <= i < j < |run| :: run[i] != run[j]
    requires forall i | 0 <= i < |run| :: run[i] in ids
    ensures |run| <= |ids|
  {
    if run != [] {
      var k :| 0 <= k < |ids| && ids[k] == run[0];
      var rest := ids[..k] + ids[k + 1..];
      forall i | 0 <= i < |run| - 1 ensures run[1..][i] in rest {
        var m :| 0 <= m < |ids| && ids[m] == run[i + 1];
        assert m != k;
        assert rest[if m < k then m else m - 1] == run[i + 1];
      }
      RunFits(rest, run[1..]);
    }
  }

  /** Every identifier the probe meets on its way from `start` to `n` is in use. */
  ghost predicate UsedBefore(ids: seq<PacketId>, start: PacketId, n: PacketId) {
    forall m: PacketId | Distance(start, m) < Distance(start, n) :: m in ids
  }

  lemma UsedBeforeFits(ids: seq<PacketId>, start: PacketId, n: PacketId)
    requires UsedBefore(ids, start, n) && n in ids
    ensures Distance(start, n) < |ids|
  {
    var run: seq<PacketId> := seq(Distance(start, n) + 1, i requires 0 <= i <= Distance(start, n) =>
      if start + i <= MAX_PACKET_ID then start + i else start + i - MAX_PACKET_ID - 1);
    forall i | 0 <= i < |run| ensures run[i] in ids {
      assert Distance(start, run[i]) == i;
    }
    RunFits(ids, run);
  }

  lemma UsedBeforeStep(ids: seq<PacketId>, start: PacketId, n: PacketId)
    requires UsedBefore(ids, start, n) && n in ids && |ids| < MAX_PACKET_ID
    ensures Distance(start, Succ(n)) == Distance(start, n) + 1 && UsedBefore(ids, start, Succ(n))
  {
    UsedBeforeFits(ids, start, n);
  }

  lemma {:induction false} ProbeFrom(ids: seq<PacketId>, start: PacketId, n: PacketId, left: nat)
    requires |ids| < MAX_PACKET_ID && left + Distance(start, n) == |ids| && UsedBefore(ids, start, n)
    ensures FirstFree(ids, start, Probe(ids, n, left))
    ensures Distance(start, Probe(ids, n, left)) <= |ids|
    decreases left
  {
    if n in ids {
      UsedBeforeFits(ids, start, n);
      UsedBeforeStep(ids, start, n);
      ProbeFrom(ids, start, Succ(n), left - 1);
    }
  }

  /** The probe ends within size + 1 looks at the first free identifier in cyclic order. */
  lemma ProbeFindsFirstFree(p: Pool)
    requires !Exhausted(p)
    ensures FirstFree(p.ids, ProbeStart(p.last), Allocated(p))
    ensures Distance(ProbeStart(p.last), Allocated(p)) <= |p.ids|
  {
    ProbeFrom(p.ids, ProbeStart(p.last), ProbeStart(p.last), |p.ids|);
  }

  /** Section 2.3.1 of MQTT 3.1.1 wants a non-zero identifier. The allocator gives one
      unless the pool is exhausted or every identifier from the start of the probe to
      65535 is in use: the zero test stands outside the probing loop. */
  lemma ZeroExactlyWhenProbeWraps(p: Pool)
    ensures Allocated(p) == 0 <==>
              Exhausted(p) ||
              (0 !in p.ids && forall m: PacketId | ProbeStart(p.last) <= m :: m in p.ids)
  {
    if !Exhausted(p) {
      ProbeFindsFirstFree(p);
      var start, n := ProbeStart(p.last), Allocated(p);
      if n == 0 {
        forall m: PacketId | start <= m ensures m in p.ids {
          assert Distance(start, m) < Distance(start, 0);
        }
      } else if n < start {
        assert Distance(start, 0) < Distance(start, n);
      }
    }
  }

  // ------------------------------------------------------------------ the vector

  lemma InsertedFacts(ids: seq<PacketId>, id: PacketId)
    requires Ascending(ids) && id !in ids
    ensures Ascending(Inserted(ids, id))
    ensures forall x: PacketId :: x in Inserted(ids, id) <==> x == id || x in ids
    ensures |Inserted(ids, id)| == |ids| + 1
  {
    LowerBoundSplits(ids, id);
    InsertedAt(ids, id, LowerBound(ids, id));
  }

  lemma InsertedAt(ids: seq<PacketId>, id: PacketId, k: nat)
    requires Ascending(ids) && id !in ids && k <= |ids|
    requires (forall i | 0 <= i < k :: ids[i] < id) && (k < |ids| ==> id <= ids[k])
    ensures var q := ids[..k] + [id] + ids[k..];
      Ascending(q) && forall x: PacketId :: x in q <==> x == id || x in ids
  {
    var q := ids[..k] + [id] + ids[k..];
    assert ids == ids[..k] + ids[k..];
    AscendsAround(ids[..k], id, ids[k..]);
  }

  lemma AscendsAround(low: seq<PacketId>, id: PacketId, high: seq<PacketId>)
    requires Ascending(low) && Ascending(high)
    requires (forall i | 0 <= i < |low| :: low[i] < id) && (forall i | 0 <= i < |high| :: id < high[i])
    ensures Ascending(low + [id] + high)
  {
  }

  /** A successful allocation adds exactly one identifier, new to the pool, and keeps the
      vector strictly ascending. */
  lemma AllocAddsOne(p: Pool)
    requires Ascending(p.ids)
    ensures Ascending(Alloc(p).ids)
    ensures Exhausted(p) ==> Alloc(p) == p
    ensures !Exhausted(p) ==> Allocated(p) !in p.ids
    ensures !Exhausted(p) ==> forall x: PacketId :: x in Alloc(p).ids <==> x == Allocated(p) || x in p.ids
  {
    if !Exhausted(p) {
      ProbeFindsFirstFree(p);
      InsertedFacts(p.ids, Allocated(p));
    }
  }

  /** Releasing removes exactly that identifier; identifier zero is never given back. */
  lemma ReleaseRemovesOne(p: Pool, id: int)
    requires Ascending(p.ids)
    ensures Ascending(Release(p, id).ids)
    ensures forall x: PacketId :: x in Release(p, id).ids <==> x in p.ids && (x != id || id == 0)
  {
    LowerBoundSplits(p.ids, id);
    var k := LowerBound(p.ids, id);
    if k < |p.ids| && p.ids[k] == id {
      RemoveAt(p.ids, k);
    }
  }

  lemma RemoveAt(ids: seq<PacketId>, k: nat)
    requires Ascending(ids) && k < |ids|
    ensures Ascending(ids[..k] + ids[k + 1..])
    ensures forall x: PacketId :: x in ids[..k] + ids[k + 1..] <==> x in ids && x != ids[k]
  {
    var r := ids[..k] + ids[k + 1..];
    assert ids == ids[..k] + [ids[k]] + ids[k + 1..];
    forall x: PacketId | x in r ensures x != ids[k] {
      var m :| 0 <= m < |r| && r[m] == x;
    }
  }

  /** Allocation undone by release, for an identifier the allocator may give back. */
  lemma AllocThenRelease(p: Pool)
    requires Ascending(p.ids) && !Exhausted(p) && Allocated(p) != 0
    ensures Release(Alloc(p), Allocated(p)).ids == p.ids
  {
    var id := Allocated(p);
    ProbeFindsFirstFree(p);
    InsertedFacts(p.ids, id);
    InsertThenRemove(p.ids, id);
  }

  lemma InsertThenRemove(ids: seq<PacketId>, id: PacketId)
    requires Ascending(ids) && id !in ids
    ensures var k := LowerBound(ids, id);
      var q := Inserted(ids, id);
      LowerBound(q, id) == k && k < |q| && q[k] == id && q[..k] + q[k + 1..] == ids
  {
    LowerBoundSplits(ids, id);
    var k := LowerBound(ids, id);
    var q := Inserted(ids, id);
    assert q[k] == id;
    LowerBoundUnique(q, id, k);
    assert q[..k] == ids[..k] && q[k + 1..] == ids[k..];
  }

  // ------------------------------------------------------------------ a run to identifier 0

  datatype Use = Take | Give(id: PacketId)

  function UsedOnce(p: Pool, u: Use): Pool {
    match u
    case Take => Alloc(p)
    case Give(id) => Release(p, id)
  }

  function Used(p: Pool, uses: seq<Use>): Pool
    decreases |uses|
  {
    if uses == [] then p else UsedOnce(Used(p, uses[..|uses| - 1]), uses[|uses| - 1])
  }

  lemma UsedOneMore(p: Pool, uses: seq<Use>, u: Use)
    ensures Used(p, uses + [u]) == UsedOnce(Used(p, uses), u)
  {
    assert (uses + [u])[..|uses|] == uses;
  }

  lemma {:induction false} UsedOn(p: Pool, a: seq<Use>, b: seq<Use>)
    ensures Used(p, a + b) == Used(Used(p, a), b)
    decreases |b|
  {
    if b == [] {
      assert a + b == a;
    } else {
      var before, u := b[..|b| - 1], b[|b| - 1];
      UsedOn(p, a, before);
      UsedOneMore(p, a + before, u);
      assert a + b == a + before + [u];
    }
  }

  /** The identifiers 1 to `n` are taken and given back one after the other. */
  function Turns(n: PacketId): seq<Use> {
    if n == 0 then [] else Turns(n - 1) + [Take] + [Give(n)]
  }

  lemma {:induction false} TurnsPass(p: Pool, n: PacketId)
    requires p.limit >= 2 && p.last in {0, MAX_PACKET_ID} && n < MAX_PACKET_ID
    requires p.ids == [] || p.ids == [MAX_PACKET_ID]
    ensures Used(p, Turns(n)) == p.(last := if n == 0 then p.last else n)
  {
    if n > 0 {
      TurnsPass(p, n - 1);
      UsedOneMore(p, Turns(n - 1), Take);
      UsedOneMore(p, Turns(n - 1) + [Take], Give(n));
      TurnPasses(Used(p, Turns(n - 1)), n);
    }
  }

  lemma TurnPasses(p: Pool, n: PacketId)
    requires p.limit >= 2 && ProbeStart(p.last) == n < MAX_PACKET_ID && (p.ids == [] || p.ids == [MAX_PACKET_ID])
    ensures Release(Alloc(p), n) == p.(last := n)
  {
    assert Allocated(p) == n;
    AllocThenRelease(p);
  }

  /** In a run of allocations and releases, with one identifier held, 65535 (`n` is the one
      before), the next allocation gives 0. */
  lemma ZeroIsReached(limit: nat, n: PacketId)
    requires limit >= 2 && n + 1 == MAX_PACKET_ID
    ensures var p := Used(Pool([], 0, limit), Turns(n) + [Take] + Turns(n));
      p == Pool([MAX_PACKET_ID], n, limit) && !Exhausted(p) && Allocated(p) == 0
  {
    var p0 := Pool([], 0, limit);
    TurnsPass(p0, n);
    UsedOneMore(p0, Turns(n), Take);
    UsedOn(p0, Turns(n) + [Take], Turns(n));
    var p1 := Pool([], n, limit);
    assert Alloc(p1) == Pool([MAX_PACKET_ID], MAX_PACKET_ID, limit);
    TurnsPass(Alloc(p1), n);
    ZeroExactlyWhenProbeWraps(Pool([MAX_PACKET_ID], n, limit));
  }

  // ------------------------------------------------------------------ the code

  /** What the probing loop keeps: `next` is reached with `left` increments to spare. */
  ghost predicate Probing(p: Pool, next: PacketId, left: nat) {
    && !Exhausted(p)
    && left + Distance(ProbeStart(p.last), next) == |p.ids|
    && UsedBefore(p.ids, ProbeStart(p.last), next)
    && Probe(p.ids, next, left) == Allocated(p)
  }

  lemma ProbingStep(p: Pool, next: PacketId, left: nat)
    requires Probing(p, next, left) && next in p.ids
    ensures left > 0 && Probing(p, Succ(next), left - 1)
  {
    UsedBeforeFits(p.ids, ProbeStart(p.last), next);
    UsedBeforeStep(p.ids, ProbeStart(p.last), next);
  }

  lemma AllocIs(p: Pool, id: PacketId)
    requires Ascending(p.ids) && !Exhausted(p) && id == Allocated(p)
    ensures Alloc(p) == p.(ids := Inserted(p.ids, id), last := id) && Ascending(Inserted(p.ids, id))
  {
    AllocAddsOne(p);
  }

  lemma ProbingEnds(p: Pool, next: PacketId, left: nat, k: nat)
    requires Probing(p, next, left) && Ascending(p.ids) && k == LowerBound(p.ids, next)
    requires k == |p.ids| || p.ids[k] != next
    ensures Allocated(p) == next && Alloc(p).last == next
    ensures Alloc(p).ids == p.ids[..k] + [next] + p.ids[k..]
    ensures Ascending(Alloc(p).ids)
  {
    LowerBoundSplits(p.ids, next);
    assert next !in p.ids;
    AllocAddsOne(p);
  }

  /** std::lower_bound over the vector. */
  method FindLowerBound(ids: seq<PacketId>, id: PacketId) returns (k: nat)
    requires Ascending(ids)
    ensures k == LowerBound(ids, id)
  {
    var first, count := 0, |ids|;
    while count > 0
      invariant 0 <= first <= first + count <= |ids|
      invariant forall i | 0 <= i < first :: ids[i] < id
      invariant forall i | first + count <= i < |ids| :: id <= ids[i]
    {
      var step := count / 2;
      if ids[first + step] < id {
        first, count := first + step + 1, count - step - 1;
      } else {
        count := step;
      }
    }
    k := first;
    LowerBoundUnique(ids, id, k);
  }

  /** The identifiers of one client. */
  class PacketIdStore {
    var allocatedPacketIds: seq<PacketId>
    var lastPacketId: PacketId
    const limit: nat

    ghost predicate Valid() reads this { Ascending(allocatedPacketIds) }

    function Value(): Pool reads this { Pool(allocatedPacketIds, lastPacketId, limit) }

    constructor (limit: nat)
      ensures Valid() && Value() == Pool([], 0, limit)
    {
      allocatedPacketIds, lastPacketId, this.limit := [], 0, limit;
    }

    method AllocPacketId() returns (id: PacketId)
      requires Valid()
      modifies this
      ensures Valid()
      ensures id == Allocated(old(Value()))
      ensures Value() == Alloc(old(Value()))
    {
      if limit <= |allocatedPacketIds| || MAX_PACKET_ID <= |allocatedPacketIds| {
        return 0;
      }
      ghost var p := Value();
      var next := ProbeStart(lastPacketId);
      ghost var left: nat := |allocatedPacketIds|;
      while true
        invariant Value() == p && Probing(p, next, left)
        decreases left
      {
        if allocatedPacketIds == [] || allocatedPacketIds[|allocatedPacketIds| - 1] < next {
          LowerBoundUnique(p.ids, next, |p.ids|);
          ProbingEnds(p, next, left, |p.ids|);
          allocatedPacketIds := allocatedPacketIds + [next];
          assert allocatedPacketIds == Inserted(p.ids, next);
          break;
        }
        var k := FindLowerBound(allocatedPacketIds, next);
        if k == |allocatedPacketIds| || allocatedPacketIds[k] != next {
          ProbingEnds(p, next, left, k);
          allocatedPacketIds := allocatedPacketIds[..k] + [next] + allocatedPacketIds[k..];
          break;
        }
        ProbingStep(p, next, left);
        next := Succ(next);
        left := left - 1;
      }
      AllocIs(p, next);
      lastPacketId := next;
      id := lastPacketId;
    }

    method ReleasePacketId(id: PacketId)
      requires Valid()
      modifies this
      ensures Valid()
      ensures Value() == Release(old(Value()), id)
    {
      ReleaseRemovesOne(Value(), id);
      if id == 0 {
        return;
      }
      var k := FindLowerBound(allocatedPacketIds, id);
      if k == |allocatedPacketIds| || allocatedPacketIds[k] != id {
        return;
      }
      allocatedPacketIds := allocatedPacketIds[..k] + allocatedPacketIds[k + 1..];
    }
  }
}
