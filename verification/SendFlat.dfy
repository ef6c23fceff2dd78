/** What a departure sets free, told in one pass from front to back: the reference that the
    mutually recursive resume and complete of the code is compared with. */
module SendFlat {
  import opened PacketIds
  import opened History
  import opened SendModel
  import opened SendInvariant
  import opened SendSteps
  import opened SendRuns
  import opened SendWakeups

  // ------------------------------------------------------------------ the reference

  /** Somebody before it waits, or is of higher QoS. */
  predicate KeptBack(ahead: seq<Send>, s: Send) {
    exists j | 0 <= j < |ahead| :: ahead[j].paused || ahead[j].qos > s.qos
  }

  /** The publish when its first PUBLISH has gone out. */
  function SentFirst(s: Send): Send {
    s.(paused := false, published := true, attempts := 1, armed := true)
  }

  function FirstPacket(s: Send): Event {
    Publish(s.id, s.pid, s.qos, false, First({}), s.total)
  }

  /** What is left of it in the list. */
  function Left(maxOut: int, s: Send): seq<Send> {
    if s.len <= maxOut && s.qos != 0 then [SentFirst(s)] else []
  }

  /** What it shows before those behind it are looked at, and after. */
  function ShownBefore(maxOut: int, s: Send): seq<Event> {
    if s.len <= maxOut then [FirstPacket(s)] else []
  }

  function ShownAfter(maxOut: int, s: Send): seq<Event> {
    if maxOut < s.len then [Callback(s.id, s.qos, OutOfMemory)]
    else if s.qos == 0 then [Callback(s.id, 0, Complete)]
    else []
  }

  /** One pass over those waiting: everybody not kept back goes out, or ends because it is too
      long; the pass stops at the first that is kept back. The list afterwards, and the events. */
  function Flat(maxOut: int, ahead: seq<Send>, rest: seq<Send>): (seq<Send>, seq<Event>)
    decreases |rest|
  {
    if rest == [] then (ahead, [])
    else if !rest[0].paused then Flat(maxOut, ahead + [rest[0]], rest[1..])
    else if KeptBack(ahead, rest[0]) then (ahead + rest, [])
    else
      var f := Flat(maxOut, ahead + Left(maxOut, rest[0]), rest[1..]);
      (f.0, ShownBefore(maxOut, rest[0]) + f.1 + ShownAfter(maxOut, rest[0]))
  }

  /** What becomes of the others when entry `i` leaves. */
  function Departure(c: Client, i: nat): (seq<Send>, seq<Event>)
    requires i < |c.sends|
  {
    if c.session.disconnecting then (Without(c.sends, i), [])
    else Flat(c.maxOut, c.sends[..i], c.sends[i + 1..])
  }

  // ------------------------------------------------------------------ resuming twice

  /** From entry `i` on the first that waits cannot go. */
  predicate Blocked(c: Client, i: nat)
    decreases |c.sends| - i
  {
    i >= |c.sends| || (if c.sends[i].paused then !CanSend(c, i) else Blocked(c, i + 1))
  }

  lemma {:induction false} BlockedStays(c: Client, i: nat)
    requires Blocked(c, i)
    ensures ResumeSince(c, i) == c
    decreases |c.sends| - i
  {
    if i < |c.sends| && !c.sends[i].paused { BlockedStays(c, i + 1); }
  }

  lemma {:induction false} BlockedLike(c: Client, d: Client, i: nat)
    requires Blocked(c, i) && d.sends == c.sends && d.ordering == c.ordering
    ensures Blocked(d, i)
    decreases |c.sends| - i
  {
    if i < |c.sends| && !c.sends[i].paused { BlockedLike(c, d, i + 1); }
  }

  lemma {:induction false} ResumeSinceBlocks(c: Client, i: nat)
    ensures Blocked(ResumeSince(c, i), i)
    decreases PausedCount(c.sends), |c.sends| - i
  {
    if i < |c.sends| {
      if !c.sends[i].paused {
        ResumeSinceBlocks(c, i + 1);
        ResumeSinceCarries(c, i + 1, i + 1);
        FirstStays(c, ResumeSince(c, i + 1), i);
      } else if CanSend(c, i) {
        ResumeSinceBlocks(Resume(c, i), i);
      }
    }
  }

  lemma FirstStays(c: Client, r: Client, i: nat)
    requires i < |c.sends| && Carries(c, r, i + 1)
    ensures i < |r.sends| && r.sends[i] == c.sends[i]
  {
    assert r.sends[i] == r.sends[..i + 1][i] && c.sends[i] == c.sends[..i + 1][i];
  }

  /** After resuming, resuming again does nothing, whatever was told meanwhile. */
  lemma ResumeAgain(c: Client, i: nat, e: Event)
    ensures var d := Emit(ResumeSince(c, i), e); ResumeSince(d, i) == d
  {
    ResumeSinceBlocks(c, i);
    BlockedLike(ResumeSince(c, i), Emit(ResumeSince(c, i), e), i);
    BlockedStays(Emit(ResumeSince(c, i), e), i);
  }

  // ------------------------------------------------------------------ the code does the same

  ghost predicate IsFlat(c: Client, i: nat, r: Client)
    requires i <= |c.sends|
  {
    var f := Flat(c.maxOut, c.sends[..i], c.sends[i..]);
    r.sends == f.0 && Events(r.log) == Events(c.log) + f.1
  }

  lemma {:induction false} ResumeSinceIsFlat(c: Client, i: nat, pending: set<int>)
    requires Inv(c, pending) && Calm(c) && !c.session.disconnecting && i <= |c.sends|
    ensures IsFlat(c, i, ResumeSince(c, i))
    decreases PausedCount(c.sends), 1, |c.sends| - i
  {
    if i == |c.sends| {
      assert c.sends[..i] == c.sends;
    } else if !c.sends[i].paused {
      ResumeSinceIsFlat(c, i + 1, pending);
      FlatPasses(c, i);
    } else if !CanSend(c, i) {
      FlatStops(c, i);
    } else {
      CanSendInTurn(c, i);
      CalmErased(c, i);
      ResumeKeeps(c, i, pending);
      if Fits(c, i) && c.sends[i].qos != 0 {
        LastingIsFlat(c, i, pending);
      } else {
        FleetingIsFlat(c, i, pending);
      }
    }
  }

  lemma FlatPasses(c: Client, i: nat)
    requires i < |c.sends| && !c.sends[i].paused
    ensures Flat(c.maxOut, c.sends[..i], c.sends[i..]) == Flat(c.maxOut, c.sends[..i + 1], c.sends[i + 1..])
  {
    assert c.sends[..i + 1] == c.sends[..i] + [c.sends[i]];
    assert c.sends[i..][1..] == c.sends[i + 1..];
  }

  lemma FlatStops(c: Client, i: nat)
    requires Calm(c) && i < |c.sends| && c.sends[i].paused && !CanSend(c, i)
    ensures IsFlat(c, i, c)
  {
    var ahead := c.sends[..i];
    if HasPausedSendsBefore(c.sends, i) {
      assert ahead[i - 1].paused;
    } else {
      var j :| 0 <= j < i && c.sends[j].qos > c.sends[i].qos;
      assert ahead[j].qos > c.sends[i].qos;
    }
    assert ahead + c.sends[i..] == c.sends;
  }

  lemma FirstPacketIs(c: Client, i: nat)
    requires ListOk(c) && i < |c.sends| && c.sends[i].paused && InTurn(c, i)
    ensures var s := c.sends[i]; FirstPacket(s) == Publish(s.id, s.pid, s.qos, s.dup, First(Unsent(c.sends[..i])), s.total)
  {
    assert EntryOk(c, c.sends[i]);
    assert Unsent(c.sends[..i]) == {};
  }

  lemma FlatFrees(c: Client, i: nat)
    requires ListOk(c) && Calm(c) && i < |c.sends| && c.sends[i].paused && CanSend(c, i) && InTurn(c, i)
    ensures FlatGoesOn(c, i)
  {
    var ahead := c.sends[..i];
    assert EntryOk(c, c.sends[i]);
    forall j | 0 <= j < |ahead| ensures ahead[j].published && !ahead[j].paused && ahead[j].qos <= c.sends[i].qos {
      assert ahead[j] == c.sends[j] && EntryOk(c, c.sends[j]);
    }
    assert c.sends[i..][1..] == c.sends[i + 1..];
  }

  lemma {:induction false} LastingIsFlat(c: Client, i: nat, pending: set<int>)
    requires Inv(c, pending) && Calm(c) && !c.session.disconnecting && i < |c.sends| && c.sends[i].paused
    requires CanSend(c, i) && InTurn(c, i) && Fits(c, i) && c.sends[i].qos != 0
    requires Inv(Resume(c, i), pending) && Calm(Resume(c, i)) && Follows(c, Resume(c, i))
    ensures IsFlat(c, i, ResumeSince(c, i))
    decreases PausedCount(c.sends), 0, 0
  {
    ResumePublishes(c, i);
    FirstPacketIs(c, i);
    ResumeSinceIsFlat(Resume(c, i), i, pending);
    FlatFrees(c, i);
    LastingJoins(c, i, Resume(c, i), ResumeSince(Resume(c, i), i));
  }

  lemma LastingJoins(c: Client, i: nat, d: Client, r: Client)
    requires i < |c.sends| && c.sends[i].len <= c.maxOut && c.sends[i].qos != 0
    requires d.sends == c.sends[i := SentFirst(c.sends[i])] && d.maxOut == c.maxOut
    requires Events(d.log) == Events(c.log) + [FirstPacket(c.sends[i])] && IsFlat(d, i, r)
    requires FlatGoesOn(c, i)
    ensures IsFlat(c, i, r)
  {
    FlatPasses(d, i);
    assert d.sends[..i + 1] == c.sends[..i] + [SentFirst(c.sends[i])];
    assert d.sends[i + 1..] == c.sends[i + 1..];
  }

  lemma {:induction false} FleetingIsFlat(c: Client, i: nat, pending: set<int>)
    requires Inv(c, pending) && Calm(c) && !c.session.disconnecting && i < |c.sends| && c.sends[i].paused
    requires CanSend(c, i) && InTurn(c, i) && (!Fits(c, i) || c.sends[i].qos == 0)
    ensures IsFlat(c, i, ResumeSince(c, i))
    decreases PausedCount(c.sends), 0, 0
  {
    CalmErased(c, i);
    PausedCountErase(c.sends, i);
    FlatFrees(c, i);
    assert ResumeSince(c, i) == ResumeSince(Resume(c, i), i);
    if Fits(c, i) { SentIsFlat(c, i, pending); } else { RefusedIsFlat(c, i, pending); }
  }

  lemma {:induction false} SentIsFlat(c: Client, i: nat, pending: set<int>)
    requires Inv(c, pending) && i < |c.sends| && c.sends[i].paused && Calm(Erase(c, i)) && !c.session.disconnecting
    requires InTurn(c, i) && Fits(c, i) && c.sends[i].qos == 0 && PausedCount(Erase(c, i).sends) < PausedCount(c.sends)
    requires FlatGoesOn(c, i)
    ensures IsFlat(c, i, ResumeSince(Resume(c, i), i))
    decreases PausedCount(Erase(c, i).sends), 2, 0
  {
    var s := c.sends[i];
    var d := Emit(Erase(c, i), FirstPacket(s));
    FirstPacketIs(c, i);
    QosZeroLeaves(c, i, pending);
    ResumeQosZero(c, i);
    ResumeSinceIsFlat(d, i, pending + {s.id});
    ResumeAgain(d, i, Callback(s.id, 0, Complete));
    FleetingJoins(c, i, d, ResumeSince(d, i), [FirstPacket(s)], Callback(s.id, 0, Complete));
  }

  lemma {:induction false} RefusedIsFlat(c: Client, i: nat, pending: set<int>)
    requires Inv(c, pending) && i < |c.sends| && c.sends[i].paused && Calm(Erase(c, i)) && !c.session.disconnecting
    requires !Fits(c, i) && PausedCount(Erase(c, i).sends) < PausedCount(c.sends) && FlatGoesOn(c, i)
    ensures IsFlat(c, i, ResumeSince(Resume(c, i), i))
    decreases PausedCount(Erase(c, i).sends), 2, 0
  {
    var s, d := c.sends[i], Erase(c, i);
    Erased(c, i, pending);
    assert EntryOk(c, s);
    ResumeRefused(c, i);
    ResumeSinceIsFlat(d, i, pending + {s.id});
    ResumeAgain(d, i, Callback(s.id, s.qos, OutOfMemory));
    FleetingJoins(c, i, d, ResumeSince(d, i), [], Callback(s.id, s.qos, OutOfMemory));
  }

  ghost predicate FlatGoesOn(c: Client, i: nat)
    requires i < |c.sends|
  {
    var s := c.sends[i];
    var f := Flat(c.maxOut, c.sends[..i] + Left(c.maxOut, s), c.sends[i + 1..]);
    Flat(c.maxOut, c.sends[..i], c.sends[i..]) == (f.0, ShownBefore(c.maxOut, s) + f.1 + ShownAfter(c.maxOut, s))
  }

  lemma FleetingJoins(c: Client, i: nat, d: Client, r: Client, before: seq<Event>, last: Event)
    requires i < |c.sends| && d.sends == Without(c.sends, i) && d.maxOut == c.maxOut && FlatGoesOn(c, i)
    requires Left(c.maxOut, c.sends[i]) == []
    requires before == ShownBefore(c.maxOut, c.sends[i]) && [last] == ShownAfter(c.maxOut, c.sends[i])
    requires Events(d.log) == Events(c.log) + before && IsFlat(d, i, r)
    ensures IsFlat(c, i, Emit(r, last))
  {
    assert d.sends[..i] == c.sends[..i] && d.sends[i..] == c.sends[i + 1..];
    assert c.sends[..i] + [] == c.sends[..i];
  }

  // ------------------------------------------------------------------ departures

  /** The recursion that a departure starts does what one pass does. */
  lemma OpCompleteIsFlat(c: Client, i: nat)
    requires Good(c) && i < |c.sends|
    ensures var r := OpComplete(c, i);
      r.sends == Departure(c, i).0 && Events(r.log) == Events(c.log) + Departure(c, i).1
  {
    var e := Erase(c, i);
    ErasedInv(c, i);
    assert e.sends[..i] == c.sends[..i] && e.sends[i..] == c.sends[i + 1..];
    if !c.session.disconnecting { ResumeSinceIsFlat(e, i, {c.sends[i].id}); }
  }

  lemma CompleteIsFlat(c: Client, i: nat, status: Status)
    requires Good(c) && i < |c.sends| && c.sends[i].issued
    ensures var r := CompleteWithCb(c, i, status);
      && r.sends == Departure(c, i).0
      && Events(r.log) == Events(c.log) + Departure(c, i).1 + [Callback(c.sends[i].id, c.sends[i].qos, status)]
  {
    OpCompleteIsFlat(c, i);
  }
}
