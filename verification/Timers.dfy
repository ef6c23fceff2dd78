/** The timer manager of client/lib/src/TimerMgr.cpp: a pool of slots with remaining times. */
module Timers {

  const UNSIGNED_MAX := 0xFFFF_FFFF
  const UINT64_MAX := 0xFFFF_FFFF_FFFF_FFFF

  /** TimerInfo. The callback is `active`, its data is `owner`. */
  datatype Timer = Timer(taken: bool, active: bool, timeout: int, owner: int, suspended: bool)

  const FREE: Timer := Timer(false, false, 0, 0, false)

  /** Remaining times fit 64 unsigned bits, and leave the value that stands for none. */
  predicate InRange(t: Timer) { 0 <= t.timeout < UINT64_MAX }

  ghost predicate AllInRange(ts: seq<Timer>) {
    forall i | 0 <= i < |ts| :: InRange(ts[i])
  }

  /** Time passes for this timer. */
  predicate Running(t: Timer) { t.taken && t.active && !t.suspended }

  function Cancelled(t: Timer): Timer { t.(active := false, timeout := 0, owner := 0) }

  predicate Expires(t: Timer, ms: int) { Running(t) && t.timeout <= ms }

  function Aged(t: Timer, ms: int): Timer {
    if Expires(t, ms) then Cancelled(t) else if Running(t) then t.(timeout := t.timeout - ms) else t
  }

  // ------------------------------------------------------------------ tick

  function Ticked(ts: seq<Timer>, ms: int): seq<Timer> {
    seq(|ts|, i requires 0 <= i < |ts| => Aged(ts[i], ms))
  }

  /** The slots whose callbacks are called, in the order of the calls. */
  function Fired(ts: seq<Timer>, ms: int): (f: seq<nat>)
    decreases |ts|
  {
    if ts == [] then []
    else
      var n := |ts| - 1;
      Fired(ts[..n], ms) + if Expires(ts[n], ms) then [n] else []
  }

  lemma {:induction false} FiredMeans(ts: seq<Timer>, ms: int)
    ensures forall i: nat :: i in Fired(ts, ms) <==> i < |ts| && Expires(ts[i], ms)
    ensures forall j, k | 0 <= j < k < |Fired(ts, ms)| :: Fired(ts, ms)[j] < Fired(ts, ms)[k]
    decreases |ts|
  {
    if ts != [] {
      var n := |ts| - 1;
      FiredMeans(ts[..n], ms);
      assert forall i | 0 <= i < n :: ts[..n][i] == ts[i];
      forall j, k | 0 <= j < k < |Fired(ts, ms)| ensures Fired(ts, ms)[j] < Fired(ts, ms)[k] {
        assert Fired(ts[..n], ms)[j] in Fired(ts[..n], ms);
      }
    }
  }

  /** Two ticks do what one does: the same timers fire, once each, and the others are left with
      the same remaining times. */
  lemma TickTwiceIsTickOnce(ts: seq<Timer>, a: nat, b: nat)
    requires AllInRange(ts)
    ensures Ticked(Ticked(ts, a), b) == Ticked(ts, a + b)
    ensures forall i: nat :: i in Fired(ts, a + b) <==> i in Fired(ts, a) || i in Fired(Ticked(ts, a), b)
    ensures forall i: nat :: !(i in Fired(ts, a) && i in Fired(Ticked(ts, a), b))
  {
    forall i | 0 <= i < |ts| ensures Ticked(Ticked(ts, a), b)[i] == Ticked(ts, a + b)[i] {
    }
    forall i: nat
      ensures i in Fired(ts, a + b) <==> i in Fired(ts, a) || i in Fired(Ticked(ts, a), b)
      ensures !(i in Fired(ts, a) && i in Fired(Ticked(ts, a), b))
    {
      FiredTwice(ts, a, b, i);
    }
  }

  lemma FiredTwice(ts: seq<Timer>, a: nat, b: nat, i: nat)
    requires AllInRange(ts)
    ensures i in Fired(ts, a + b) <==> i in Fired(ts, a) || i in Fired(Ticked(ts, a), b)
    ensures !(i in Fired(ts, a) && i in Fired(Ticked(ts, a), b))
  {
    FiredMeans(ts, a);
    FiredMeans(ts, a + b);
    FiredMeans(Ticked(ts, a), b);
  }

  lemma TickLeavesSuspended(ts: seq<Timer>, ms: nat, i: nat)
    requires i < |ts| && ts[i].suspended
    ensures Ticked(ts, ms)[i] == ts[i] && i !in Fired(ts, ms)
  {
    FiredMeans(ts, ms);
  }

  // ------------------------------------------------------------------ the least wait

  /** The least remaining time, or the 64-bit limit when no timer runs. */
  function LeastTimeout(ts: seq<Timer>): int
    decreases |ts|
  {
    if ts == [] then UINT64_MAX
    else
      var n := |ts| - 1;
      var m := LeastTimeout(ts[..n]);
      if Running(ts[n]) && ts[n].timeout < m then ts[n].timeout else m
  }

  /** getMinWait: 0 stands for nothing to wait for. */
  function MinWait(ts: seq<Timer>): int {
    var m := LeastTimeout(ts);
    if m == UINT64_MAX then 0 else if m < UNSIGNED_MAX then m else UNSIGNED_MAX
  }

  lemma {:induction false} LeastIsLeast(ts: seq<Timer>)
    requires AllInRange(ts)
    ensures forall i | 0 <= i < |ts| && Running(ts[i]) :: LeastTimeout(ts) <= ts[i].timeout
    ensures 0 <= LeastTimeout(ts) <= UINT64_MAX
    ensures LeastTimeout(ts) != UINT64_MAX <==> exists i | 0 <= i < |ts| :: Running(ts[i])
    ensures LeastTimeout(ts) != UINT64_MAX ==> exists i | 0 <= i < |ts| :: Running(ts[i]) && ts[i].timeout == LeastTimeout(ts)
    decreases |ts|
  {
    if ts != [] {
      var n := |ts| - 1;
      LeastIsLeast(ts[..n]);
      assert forall i | 0 <= i < n :: ts[..n][i] == ts[i];
    }
  }

  /** A tick below the least wait fires nothing. */
  lemma ShortTickFiresNothing(ts: seq<Timer>, ms: nat)
    requires AllInRange(ts) && ms < MinWait(ts)
    ensures Fired(ts, ms) == []
  {
    LeastIsLeast(ts);
    FiredMeans(ts, ms);
    if Fired(ts, ms) != [] { assert Fired(ts, ms)[0] in Fired(ts, ms); }
  }

  /** A tick of just the least wait fires the timers with the least remaining time and no
      others, if that time fits the type of a tick, and fires nothing if it does not. */
  lemma ExactTickFiresTheLeast(ts: seq<Timer>, i: nat)
    requires AllInRange(ts) && MinWait(ts) > 0 && i < |ts|
    ensures i in Fired(ts, MinWait(ts)) <==>
              Running(ts[i]) && LeastTimeout(ts) <= UNSIGNED_MAX && forall j | 0 <= j < |ts| && Running(ts[j]) :: ts[i].timeout <= ts[j].timeout
  {
    LeastIsLeast(ts);
    FiredMeans(ts, MinWait(ts));
    if Running(ts[i]) && forall j | 0 <= j < |ts| && Running(ts[j]) :: ts[i].timeout <= ts[j].timeout {
      var k :| 0 <= k < |ts| && Running(ts[k]) && ts[k].timeout == LeastTimeout(ts);
    }
  }

  // ------------------------------------------------------------------ slots

  function Allocated(ts: seq<Timer>): nat
    decreases |ts|
  {
    if ts == [] then 0 else Allocated(ts[..|ts| - 1]) + if ts[|ts| - 1].taken then 1 else 0
  }

  lemma {:induction false} AllocatedUpdated(ts: seq<Timer>, i: nat, t: Timer)
    requires i < |ts|
    ensures Allocated(ts[i := t]) + (if ts[i].taken then 1 else 0) == Allocated(ts) + if t.taken then 1 else 0
    decreases |ts|
  {
    var n := |ts| - 1;
    if i < n {
      AllocatedUpdated(ts[..n], i, t);
      assert ts[i := t][..n] == ts[..n][i := t];
    } else {
      assert ts[i := t][..n] == ts[..n];
    }
  }

  /** With every slot taken the count is the size, and only then. */
  lemma {:induction false} AllTaken(ts: seq<Timer>)
    ensures Allocated(ts) <= |ts|
    ensures Allocated(ts) == |ts| <==> forall i | 0 <= i < |ts| :: ts[i].taken
    decreases |ts|
  {
    if ts != [] {
      var n := |ts| - 1;
      AllTaken(ts[..n]);
      assert forall i | 0 <= i < n :: ts[..n][i] == ts[i];
    }
  }

  lemma {:induction false} AllocatedOfLike(s: seq<Timer>, t: seq<Timer>)
    requires |s| == |t| && forall i | 0 <= i < |s| :: s[i].taken == t[i].taken
    ensures Allocated(s) == Allocated(t)
    decreases |s|
  {
    if s != [] { AllocatedOfLike(s[..|s| - 1], t[..|t| - 1]); }
  }

  datatype Slot = Slot(idx: nat) | Invalid

  /** The first slot that nobody has, or the size. */
  function FirstFree(ts: seq<Timer>): (k: nat)
    ensures k <= |ts| && (k < |ts| ==> !ts[k].taken)
    ensures forall i | 0 <= i < k :: ts[i].taken
  {
    if ts == [] || !ts[0].taken then 0 else
    var k := 1 + FirstFree(ts[1..]);
    assert forall i | 1 <= i < k :: ts[i] == ts[1..][i - 1];
    k
  }

  /** A slot is given back; an invalid one is not. */
  function Freed(ts: seq<Timer>, s: Slot): seq<Timer> {
    if s.Slot? && s.idx < |ts| then ts[s.idx := FREE] else ts
  }

  /** A pool of `max` slots (0 when there is no bound) has one more. */
  predicate CanTake(max: nat, ts: seq<Timer>) { max == 0 || FirstFree(ts) < max }

  /** The pool with one more slot taken. */
  function Taken(ts: seq<Timer>): seq<Timer> {
    var k := FirstFree(ts);
    if k < |ts| then ts[k := FREE.(taken := true)] else ts + [FREE.(taken := true)]
  }

  // ------------------------------------------------------------------ the manager

  class TimerMgr {
    const maxTimers: nat        // capacity of m_timers, 0 when there is no bound
    var timers: seq<Timer>      // m_timers
    var allocatedTimers: nat    // m_allocatedTimers

    ghost predicate Valid()
      reads this
    {
      && allocatedTimers == Allocated(timers)
      && AllInRange(timers)
      && (maxTimers != 0 ==> |timers| <= maxTimers)
      && forall i | 0 <= i < |timers| && !timers[i].taken :: timers[i] == FREE
    }

    constructor (maxTimers: nat)
      ensures Valid() && timers == [] && this.maxTimers == maxTimers
    {
      this.maxTimers := maxTimers;
      timers, allocatedTimers := [], 0;
    }

    /** The first slot nobody has, or none when all slots there can be are taken. The count of free
        slots is right, so a slot counted as free is found. */
    method AllocTimer() returns (s: Slot)
      requires Valid()
      modifies this
      ensures Valid() && allocatedTimers == old(allocatedTimers) + (if s.Slot? then 1 else 0)
      ensures s.Invalid? <==> maxTimers != 0 && old(allocatedTimers) == maxTimers
      ensures s.Slot? <==> CanTake(maxTimers, old(timers))
      ensures s.Slot? ==> s.idx == FirstFree(old(timers)) && timers == Taken(old(timers))
      ensures s.Invalid? ==> timers == old(timers)
    {
      AllTaken(timers);
      if allocatedTimers < |timers| {
        var idx := 0;
        while timers[idx].taken
          invariant idx < |timers| && forall i | 0 <= i < idx :: timers[i].taken
          decreases |timers| - idx
        {
          idx := idx + 1;
        }
        AllocatedUpdated(timers, idx, FREE.(taken := true));
        timers := timers[idx := timers[idx].(taken := true)];
        allocatedTimers := allocatedTimers + 1;
        return Slot(idx);
      }
      if maxTimers != 0 && maxTimers <= |timers| { return Invalid; }
      timers := timers + [FREE.(taken := true)];
      allocatedTimers := allocatedTimers + 1;
      return Slot(|timers| - 1);
    }

    method FreeTimer(idx: nat)
      requires Valid() && idx < |timers| && timers[idx].taken
      modifies this
      ensures Valid() && timers == Freed(old(timers), Slot(idx)) && allocatedTimers == old(allocatedTimers) - 1
    {
      AllocatedUpdated(timers, idx, FREE);
      timers := timers[idx := FREE];
      allocatedTimers := allocatedTimers - 1;
    }

    method TimerWait(idx: nat, timeoutMs: int, owner: int)
      requires Valid() && idx < |timers| && timers[idx].taken && 0 <= timeoutMs < UINT64_MAX
      modifies this`timers
      ensures Valid() && timers == old(timers)[idx := old(timers)[idx].(active := true, timeout := timeoutMs, owner := owner)]
    {
      var t := timers[idx].(active := true, timeout := timeoutMs, owner := owner);
      AllocatedUpdated(timers, idx, t);
      timers := timers[idx := t];
    }

    method TimerCancel(idx: nat)
      requires Valid() && idx < |timers| && timers[idx].taken
      modifies this`timers
      ensures Valid() && timers == old(timers)[idx := Cancelled(old(timers)[idx])]
    {
      AllocatedUpdated(timers, idx, Cancelled(timers[idx]));
      timers := timers[idx := Cancelled(timers[idx])];
    }

    /** Timer::setSuspended: only while the timer is active. */
    method SetSuspended(idx: nat, suspended: bool)
      requires Valid() && idx < |timers| && timers[idx].taken
      modifies this`timers
      ensures Valid()
      ensures timers == if old(timers)[idx].active then old(timers)[idx := old(timers)[idx].(suspended := suspended)] else old(timers)
    {
      if !timers[idx].active { return; }
      AllocatedUpdated(timers, idx, timers[idx].(suspended := suspended));
      timers := timers[idx := timers[idx].(suspended := suspended)];
    }

    /** The callbacks to call, as slots, in the order of the calls. */
    method Tick(ms: nat) returns (calls: seq<nat>)
      requires Valid()
      modifies this`timers
      ensures Valid() && timers == Ticked(old(timers), ms) && calls == Fired(old(timers), ms)
    {
      calls := [];
      ghost var ts := timers;
      assert ts[..0] == [];
      var idx := 0;
      while idx < |timers|
        invariant idx <= |timers| == |ts| && calls == Fired(ts[..idx], ms)
        invariant forall i | 0 <= i < idx :: timers[i] == Aged(ts[i], ms)
        invariant forall i | idx <= i < |ts| :: timers[i] == ts[i]
      {
        var info := timers[idx];
        assert ts[..idx + 1][..idx] == ts[..idx];
        if info.taken && info.active && !info.suspended {
          if info.timeout <= ms {
            calls := calls + [idx];
            timers := timers[idx := Cancelled(info)];
          } else {
            timers := timers[idx := info.(timeout := info.timeout - ms)];
          }
        }
        idx := idx + 1;
      }
      assert ts[..idx] == ts;
      AllocatedOfLike(ts, timers);
    }

    method GetMinWait() returns (w: int)
      requires Valid()
      ensures w == MinWait(timers)
    {
      AllTaken(timers);
      if allocatedTimers == 0 {
        NoneRuns(timers);
        return 0;
      }
      var result: int := UINT64_MAX;
      var idx := 0;
      while idx < |timers|
        invariant idx <= |timers| && result == LeastTimeout(timers[..idx])
      {
        assert timers[..idx + 1][..idx] == timers[..idx];
        if Running(timers[idx]) && timers[idx].timeout < result { result := timers[idx].timeout; }
        idx := idx + 1;
      }
      assert timers[..idx] == timers;
      if result == UINT64_MAX { return 0; }
      w := if result < UNSIGNED_MAX then result else UNSIGNED_MAX;
    }

    method AllocCount() returns (n: nat)
      requires Valid()
      ensures n == allocatedTimers
    {
      n := 0;
      var idx := 0;
      while idx < |timers|
        invariant idx <= |timers| && n == Allocated(timers[..idx])
      {
        assert timers[..idx + 1][..idx] == timers[..idx];
        if timers[idx].taken { n := n + 1; }
        idx := idx + 1;
      }
      assert timers[..idx] == timers;
    }
  }

  lemma {:induction false} NoneRuns(ts: seq<Timer>)
    requires Allocated(ts) == 0
    ensures LeastTimeout(ts) == UINT64_MAX
    decreases |ts|
  {
    if ts != [] { NoneRuns(ts[..|ts| - 1]); }
  }
}
