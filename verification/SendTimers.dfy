/** The response timers of publishes: which are set, and which are suspended for good. */
module SendTimers {
  import opened PacketIds
  import opened History
  import opened SendModel
  import opened SendInvariant
  import opened SendSteps
  import opened SendRuns
  import opened SendSession

  /** A published entry has its timer set, unless its callback is among those still to be called
      (`p`); the timer is suspended exactly when a loss of the session found it set. */
  predicate TimedEntry(h: Log, s: Send, p: set<int>) {
    (s.published ==> s.armed || s.id in p) && (s.suspended <==> Hit(h, s.id))
  }

  /** Only publishes there have been were hit; those in `w` were. */
  ghost predicate HitsKnown(c: Client, w: set<int>) {
    (forall id :: Hit(c.log, id) ==> id < c.nextId) && forall id | id in w :: Hit(c.log, id)
  }

  ghost predicate TimedExcept(c: Client, w: set<int>, p: set<int>, i: int) {
    HitsKnown(c, w) && forall j | 0 <= j < |c.sends| && j != i :: TimedEntry(c.log, c.sends[j], p)
  }

  ghost predicate Timed(c: Client, w: set<int>, p: set<int>) {
    TimedExcept(c, w, p, -1)
  }

  lemma TimedFollows(c: Client, d: Client, w: set<int>, p: set<int>)
    requires Follows(c, d) && Timed(c, w, p)
    ensures Timed(d, w, p)
  {
    forall j | 0 <= j < |d.sends| ensures TimedEntry(d.log, d.sends[j], p) {
      assert d.sends[j].id in LiveIds(d.sends);
      var i :| 0 <= i < |c.sends| && c.sends[i].id == d.sends[j].id;
      assert Kin(c.sends[i], d.sends[j]) && TimedEntry(c.log, c.sends[i], p);
      assert Hit(d.log, d.sends[j].id) == Hit(c.log, d.sends[j].id);
    }
  }

  lemma TimedErased(c: Client, i: nat, w: set<int>, p: set<int>)
    requires i < |c.sends| && TimedExcept(c, w, p, i)
    ensures Timed(Erase(c, i), w, p)
  {
    var d := Erase(c, i);
    assert forall k | 0 <= k < |d.sends| :: d.sends[k] == c.sends[if k < i then k else k + 1];
  }

  lemma OpCompleteTimed(c: Client, i: nat, w: set<int>, p: set<int>)
    requires Good(c) && i < |c.sends| && TimedExcept(c, w, p, i)
    ensures Timed(OpComplete(c, i), w, p)
    ensures forall status :: Timed(CompleteWithCb(c, i, status), w, p)
  {
    CalmErased(c, i);
    OpCompleteKeeps(c, i, {});
    TimedErased(c, i, w, p);
    var r := OpComplete(c, i);
    TimedFollows(Erase(c, i), r, w, p);
    forall status ensures Timed(CompleteWithCb(c, i, status), w, p) {
      var d := CompleteWithCb(c, i, status);
      assert forall id :: Hit(d.log, id) == Hit(r.log, id);
      assert d.sends == r.sends;
    }
  }

  lemma ResendDupTimed(c: Client, i: nat, w: set<int>, p: set<int>)
    requires Good(c) && i < |c.sends| && TimedExcept(c, w, p, i) && c.sends[i].published
    requires TimedEntry(c.log, c.sends[i].(armed := true), p)
    ensures Timed(ResendDup(c, i, Resend), w, p)
  {
    if c.sends[i].attempts < c.sends[i].total {
      RepeatFits(c, i);
      ResendDupIs(c, i, Resend);
      ResentTimed(c, i, w, p);
    } else {
      OpCompleteTimed(c, i, w, p);
    }
  }

  lemma ResentTimed(c: Client, i: nat, w: set<int>, p: set<int>)
    requires i < |c.sends| && TimedExcept(c, w, p, i) && TimedEntry(c.log, c.sends[i].(armed := true), p)
    ensures Timed(Resent(c, i, Resend, c.sends[i].attempts + 1), w, p)
  {
    var d := Resent(c, i, Resend, c.sends[i].attempts + 1);
    assert forall id :: Hit(d.log, id) == Hit(c.log, id);
    assert forall j | 0 <= j < |d.sends| && j != i :: d.sends[j] == c.sends[j];
  }

  lemma {:induction false} ResendAllUntilTimed(c: Client, target: int, i: nat, w: set<int>)
    requires Good(c) && Timed(c, w, {})
    ensures Timed(ResendAllUntil(c, target, i), w, {})
    decreases |c.sends| - i
  {
    if i < |c.sends| {
      var c1 := ForceDupResend(c, i);
      if !c.sends[i].paused {
        ResendDupKeeps(c, i);
        assert TimedEntry(c.log, c.sends[i], {});
        if c.sends[i].published { ResendDupTimed(c, i, w, {}); } else { UnpublishedUntouched(c, i); }
      }
      if c1.fault || c.sends[i].id == target || i >= |c1.sends| {
      } else if c1.sends[i].id == c.sends[i].id {
        ResendAllUntilTimed(c1, target, i + 1, w);
      } else {
        ResendAllUntilTimed(c1, target, i, w);
      }
    }
  }

  lemma UnpublishedUntouched(c: Client, i: nat)
    requires ListOk(c) && i < |c.sends| && !c.sends[i].published && !c.sends[i].paused
    ensures ResendDup(c, i, Resend) == c.(fault := true)
  {
    assert EntryOk(c, c.sends[i]);
  }

  /** A loss of the session hits the timers that are set, and no others. */
  lemma DisconnectedTimed(c: Client, report: bool, w: set<int>, p: set<int>)
    requires Timed(c, w, p) && Lined(c.ordering, c.sends) && forall j | 0 <= j < |c.sends| :: EntryOk(c, c.sends[j])
    ensures Timed(BrokerDisconnected(c, report), w, p)
  {
    var d := BrokerDisconnected(c, report);
    forall id | id in TimedIds(c.sends) ensures id < c.nextId {
      var k :| 0 <= k < |c.sends| && c.sends[k].armed && c.sends[k].id == id;
      assert EntryOk(c, c.sends[k]);
    }
    forall j | 0 <= j < |d.sends| ensures TimedEntry(d.log, d.sends[j], p) {
      assert TimedEntry(c.log, c.sends[j], p);
      OwnTimer(c, j);
    }
  }

  lemma OwnTimer(c: Client, j: nat)
    requires Lined(c.ordering, c.sends) && j < |c.sends|
    ensures c.sends[j].id in TimedIds(c.sends) <==> c.sends[j].armed
  {
    forall k: nat | k < |c.sends| && k != j ensures c.sends[k].id != c.sends[j].id {
      OtherIds(c.ordering, c.sends, k, j);
    }
  }

  lemma AckTimed(c: Client, kind: AckKind, pid: int, w: set<int>)
    requires Good(c) && Timed(c, w, {})
    ensures Timed(ProcessAck(c, kind, pid), w, {})
  {
    var i := FindSend(c.sends, pid);
    if i < |c.sends| {
      ResendAllUntilTimed(c, c.sends[i].id, 0, w);
      var legit := IsLegitSendAck(c.sends, i, kind.Pubcomp?);
      if legit {
        assert EntryOk(c, c.sends[i]);
        HandledTimed(c, i, w);
        if c.sends[i].qos == 2 && !c.sends[i].acked { AcceptPubrecTimed(c, i, w); }
      }
    }
  }

  lemma HandledTimed(c: Client, i: nat, w: set<int>)
    requires Good(c) && i < |c.sends| && c.sends[i].issued && c.sends[i].published && Timed(c, w, {})
    ensures var c1 := With(c, i, c.sends[i].(armed := false));
      && Timed(CompleteWithCb(c1, i, Complete), w, {})
      && Timed(BrokerDisconnected(CompleteWithCb(c1, i, ProtocolError), true), w, {})
  {
    var c1 := With(c, i, c.sends[i].(armed := false));
    DisarmedKeeps(c, i);
    OpCompleteTimed(c1, i, w, {});
    CompleteKeeps(c1, i, ProtocolError);
    DisconnectedTimed(CompleteWithCb(c1, i, ProtocolError), true, w, {});
  }

  lemma AcceptPubrecTimed(c: Client, i: nat, w: set<int>)
    requires Good(c) && i < |c.sends| && c.sends[i].published && Timed(c, w, {})
    ensures Timed(AcceptPubrec(With(c, i, c.sends[i].(armed := false)), i), w, {})
  {
    var c1 := With(c, i, c.sends[i].(armed := false));
    DisarmedKeeps(c, i);
    if c.maxOut < PUBREL_LEN {
      UnsentPubrel(c1, i);
      OpCompleteTimed(c1, i, w, {});
    } else {
      var d := AcceptPubrec(c1, i);
      assert forall id :: Hit(d.log, id) == Hit(c.log, id);
      assert TimedEntry(c.log, c.sends[i], {});
      assert forall j | 0 <= j < |d.sends| && j != i :: d.sends[j] == c.sends[j];
    }
  }

  // ------------------------------------------------------------------ ticks

  ghost function CalledIds(due: seq<Call>): set<int> {
    set k | 0 <= k < |due| && due[k].SendCall? :: due[k].id
  }

  /** A callback sets the timer of its own publish again, or the publish is gone. */
  lemma OnCallTimed(c: Client, x: Call, w: set<int>, p: set<int>)
    requires Good(c) && Timed(c, w, p)
    ensures Timed(OnCall(c, x), w, if x.SendCall? then p - {x.id} else p)
  {
    match x
    case PingCall => DisconnectedTimed(c, true, w, p);
    case SendCall(id) =>
      var i := IndexOf(c.sends, id);
      if i < |c.sends| {
        forall j: nat | j < |c.sends| && j != i ensures TimedEntry(c.log, c.sends[j], p - {id}) {
          OtherIds(c.ordering, c.sends, i, j);
          assert TimedEntry(c.log, c.sends[j], p);
        }
        assert TimedEntry(c.log, c.sends[i], p);
        if c.sends[i].published && !c.sends[i].armed { ResendDupTimed(c, i, w, p - {id}); }
      } else {
        forall j | 0 <= j < |c.sends| ensures TimedEntry(c.log, c.sends[j], p - {id}) {
          assert TimedEntry(c.log, c.sends[j], p);
        }
      }
  }

  lemma {:induction false} OnCallsTimed(c: Client, due: seq<Call>, w: set<int>)
    requires Good(c) && Timed(c, w, CalledIds(due))
    ensures !OnCalls(c, due).fault ==> Timed(OnCalls(c, due), w, {})
    decreases |due|
  {
    if due == [] {
      assert CalledIds(due) == {};
    } else if !c.fault {
      var x := due[0];
      OnCallKeeps(c, x);
      TimedOn(c, due, w);
      OnCallsTimed(OnCall(c, x), due[1..], w);
    }
  }

  lemma TimedOn(c: Client, due: seq<Call>, w: set<int>)
    requires Good(c) && due != [] && Timed(c, w, CalledIds(due))
    ensures Timed(OnCall(c, due[0]), w, CalledIds(due[1..]))
  {
    var x, p := due[0], CalledIds(due);
    var q := if x.SendCall? then p - {x.id} else p;
    OnCallTimed(c, x, w, p);
    assert q <= CalledIds(due[1..]) by {
      forall id | id in q ensures id in CalledIds(due[1..]) {
        var k :| 0 <= k < |due| && due[k].SendCall? && due[k].id == id;
        assert due[1..][k - 1] == due[k];
      }
    }
    TimedMore(OnCall(c, x), w, q, CalledIds(due[1..]));
  }

  lemma TimedMore(c: Client, w: set<int>, p: set<int>, q: set<int>)
    requires Timed(c, w, p) && p <= q
    ensures Timed(c, w, q)
  {
    forall j | 0 <= j < |c.sends| ensures TimedEntry(c.log, c.sends[j], q) {
      assert TimedEntry(c.log, c.sends[j], p);
    }
  }

  lemma TickTimed(c: Client, calls: seq<Call>, w: set<int>)
    requires Good(c) && Timed(c, w, {})
    ensures !DoTick(c, calls).fault ==> Timed(DoTick(c, calls), w, {})
  {
    var due := Collected(c.sends, calls);
    var d := c.(sends := TimersCancelled(c.sends, due));
    RetimedKeeps(c, d);
    CancelledTimed(c, calls, w);
    OnCallsTimed(d, due, w);
  }

  lemma CancelledTimed(c: Client, calls: seq<Call>, w: set<int>)
    requires Good(c) && Timed(c, w, {})
    ensures var due := Collected(c.sends, calls); Timed(c.(sends := TimersCancelled(c.sends, due)), w, CalledIds(due))
  {
    var due := Collected(c.sends, calls);
    var d := c.(sends := TimersCancelled(c.sends, due));
    forall j | 0 <= j < |d.sends| ensures TimedEntry(d.log, d.sends[j], CalledIds(due)) {
      assert TimedEntry(c.log, c.sends[j], {});
      if SendCall(c.sends[j].id) in due {
        var k :| 0 <= k < |due| && due[k] == SendCall(c.sends[j].id);
      }
    }
  }

  // ------------------------------------------------------------------ the other steps

  lemma IssuedTimed(c: Client, qos: int, len: int, total: int, w: set<int>)
    requires Good(c) && Timed(c, w, {}) && HasPrepared(c) && 0 <= qos <= MAX_QOS && total > 0
    ensures var d := HeldBack(c, qos, len, total); Timed(d, w, {}) && Timed(Erase(d, |c.sends| - 1), w, {})
  {
    var i := |c.sends| - 1;
    var d := HeldBack(c, qos, len, total);
    assert TimedEntry(c.log, c.sends[i], {}) && EntryOk(c, c.sends[i]);
    assert forall id :: Hit(d.log, id) == Hit(c.log, id);
    assert forall j | 0 <= j < i :: TimedEntry(c.log, c.sends[j], {});
    TimedErased(d, i, w, {});
  }

  lemma SendCallTimed(c: Client, qos: int, len: int, total: int, configured: bool, w: set<int>)
    requires Good(c) && Timed(c, w, {})
    ensures Timed(DoSendCall(c, qos, len, total, configured), w, {})
  {
    if HasPrepared(c) && 0 <= qos <= MAX_QOS && total > 0 {
      var i := |c.sends| - 1;
      if !configured {
        DroppedTimed(c, Refused, w);
      } else {
        SendCallIs(c, qos, len, total);
        IssuedTimed(c, qos, len, total, w);
        var d := HeldBack(c, qos, len, total);
        if CanSend(d, i) {
          if Fits(d, i) {
            ReleasedTimed(c, qos, len, total, w);
          } else {
            ToldTimed(Erase(d, i), Silent(c.sends[i].id, Refused), w);
          }
        }
      }
    }
  }

  /** Events other than losses of the session hit nobody. */
  lemma ToldTimed(c: Client, e: Event, w: set<int>)
    requires Timed(c, w, {}) && !e.Mark?
    ensures Timed(Emit(c, e), w, {})
  {
    assert forall id :: Hit(After(c.log, e), id) == Hit(c.log, id);
  }

  lemma DroppedTimed(c: Client, why: Silence, w: set<int>)
    requires Good(c) && Timed(c, w, {}) && HasPrepared(c)
    ensures var i := |c.sends| - 1;
      Timed(Emit(OpComplete(c.(locked := false), i), Silent(c.sends[i].id, why)), w, {})
  {
    var i := |c.sends| - 1;
    LastCompletes(c.(locked := false));
    TimedErased(c.(locked := false), i, w, {});
    ToldTimed(Erase(c.(locked := false), i), Silent(c.sends[i].id, why), w);
  }

  lemma ReleasedTimed(c: Client, qos: int, len: int, total: int, w: set<int>)
    requires Good(c) && HasPrepared(c) && 0 <= qos <= MAX_QOS && total > 0
    requires Timed(HeldBack(c, qos, len, total), w, {}) && CanSend(HeldBack(c, qos, len, total), |c.sends| - 1)
    ensures Timed(Resume(HeldBack(c, qos, len, total), |c.sends| - 1), w, {})
  {
    var i, d := |c.sends| - 1, HeldBack(c, qos, len, total);
    HeldBackKeeps(c, qos, len, total);
    IssuedInTurn(c, qos, len, total);
    ResumeKeeps(d, i, {});
    TimedFollows(d, Resume(d, i), w, {});
  }

  lemma CancelTimed(c: Client, id: int, w: set<int>)
    requires Good(c) && Timed(c, w, {})
    ensures Timed(DoCancel(c, id), w, {})
  {
    var i := IndexOf(c.sends, id);
    if i < |c.sends| {
      if c.sends[i].issued {
        OpCompleteTimed(c, i, w, {});
        ToldTimed(OpComplete(c, i), Silent(id, Cancelled), w);
      } else {
        PreparedIsLast(c, i);
        DroppedTimed(c, Cancelled, w);
      }
    }
  }

  lemma {:induction false} TerminateWalkTimed(c: Client, k: nat, w: set<int>)
    requires Good(c) && !c.locked && Timed(c, w, {})
    ensures Timed(TerminateWalk(c, k), w, {})
    decreases |c.sends|, |c.ops.refs| - k
  {
    if k < |c.ops.refs| {
      match c.ops.refs[k]
      case OtherRef => TerminateWalkTimed(c, k + 1, w);
      case Null =>
      case SendRef(id) =>
        var i := IndexOf(c.sends, id);
        if i < |c.sends| {
          assert EntryOk(c, c.sends[i]);
          CompleteKeeps(c, i, Aborted);
          OpCompleteTimed(c, i, w, {});
          TerminateWalkTimed(CompleteWithCb(c, i, Aborted), k + 1, w);
        }
    }
  }

  lemma {:induction false} ResendLoopHits(c: Client, i: nat, id: int)
    requires i <= |c.sends| && forall j | i <= j < |c.sends| :: Repeatable(c.sends[j], c.maxOut)
    ensures Hit(ResendLoop(c, i).log, id) == Hit(c.log, id)
    decreases |c.sends| - i
  {
    if i < |c.sends| {
      PostReconnectionIs(c, i);
      PostReconnectionDoes(c, i);
      ResendLoopHits(PostReconnectionResend(c, i), i + 1, id);
    }
  }

  lemma AllResentTimed(c: Client, w: set<int>)
    requires Good(c) && c.session.connecting && Timed(c, w, {})
    ensures Timed(AllResent(c), w, {})
  {
    AllResentKeeps(c);
    ConnectedKeeps(c, true);
    AllRepeatable(c);
    var d := AllResent(c);
    forall id ensures Hit(d.log, id) == Hit(c.log, id) {
      ResendLoopHits(Found(c), 0, id);
    }
    ResendLoopIs(Found(c), 0);
    forall j | 0 <= j < |d.sends| ensures TimedEntry(d.log, d.sends[j], {}) {
      assert d.sends[j] == Repeated(c.sends[j]) && TimedEntry(c.log, c.sends[j], {});
      assert EntryOk(d, d.sends[j]);
    }
  }

  lemma ConnackTimed(c: Client, accepted: bool, sessionPresent: bool, w: set<int>)
    requires Good(c) && Timed(c, w, {})
    ensures Timed(DoConnack(c, accepted, sessionPresent), w, {})
  {
    if c.session.connecting && accepted {
      if sessionPresent {
        AllResentKeeps(c);
        AllResentTimed(c, w);
        var d := AllResent(c);
        var from := TrailingPaused(d.sends, |d.sends|);
        ResumeSinceKeeps(d, from, {});
        TimedFollows(d, ResumeSince(d, from), w, {});
      } else {
        ConnectedKeeps(c, true);
        TerminateWalkTimed(c.(session := c.session.(connected := true, connecting := false)), 0, w);
      }
    }
  }

  lemma PrepareTimed(c: Client, w: set<int>)
    requires Good(c) && Timed(c, w, {})
    ensures Timed(DoPrepare(c), w, {})
  {
    var d := DoPrepare(c);
    if d != c {
      forall j | 0 <= j < |d.sends| ensures TimedEntry(d.log, d.sends[j], {}) {
        assert j < |c.sends| ==> TimedEntry(c.log, c.sends[j], {});
      }
    }
  }

  lemma NetworkDisconnectedTimed(c: Client, w: set<int>)
    requires Good(c) && Timed(c, w, {})
    ensures Timed(DoNetworkDisconnected(c), w, {})
  {
    var d := c.(session := c.session.(networkDown := true));
    assert forall j | 0 <= j < |d.sends| :: EntryOk(c, c.sends[j]) ==> EntryOk(d, d.sends[j]);
    DisconnectedTimed(d, false, w, {});
  }

  lemma StepTimed(c: Client, x: Input, w: set<int>)
    requires Good(c) && Timed(c, w, {})
    ensures !Step(c, x).fault ==> Timed(Step(c, x), w, {})
  {
    if !c.fault {
      match x
      case Prepare => PrepareTimed(c, w);
      case SendPrepared(qos, len, total, configured) => SendCallTimed(c, qos, len, total, configured, w);
      case Cancel(id) => CancelTimed(c, id, w);
      case Ack(kind, pid) => AckTimed(c, kind, pid, w);
      case Tick(calls) => TickTimed(c, calls, w);
      case NetworkDisconnected => NetworkDisconnectedTimed(c, w);
      case Disconnect(report) => DisconnectedTimed(c, report, w, {});
      case Connect =>
      case Connack(accepted, sp) => ConnackTimed(c, accepted, sp, w);
      case ConnectEnds =>
      case CleanOps =>
      case OtherStarts(_) =>
      case OtherEnds(_, _) =>
    }
  }

  // ------------------------------------------------------------------ whole runs

  lemma {:induction false} RunTimed(c: Client, xs: seq<Input>, w: set<int>)
    requires Good(c) && (!c.fault ==> Timed(c, w, {}))
    ensures Good(Run(c, xs)) && (!Run(c, xs).fault ==> Timed(Run(c, xs), w, {}))
    decreases |xs|
  {
    if xs != [] {
      var before := xs[..|xs| - 1];
      RunTimed(c, before, w);
      StepKeeps(Run(c, before), xs[|xs| - 1]);
      if !Run(c, before).fault { StepTimed(Run(c, before), xs[|xs| - 1], w); }
    }
  }

  /** In every run a publish on its way has its timer set, and the timer is suspended if and only
      if some loss of the session found it set. Nothing releases it again. */
  lemma SuspendedExactlyWhenHit(o: Ordering, maxOut: int, idLimit: nat, xs: seq<Input>, i: nat)
    requires var c := Run(NewClient(o, maxOut, idLimit), xs); !c.fault && i < |c.sends|
    ensures var c := Run(NewClient(o, maxOut, idLimit), xs);
      (c.sends[i].published ==> c.sends[i].armed) && (c.sends[i].suspended <==> Hit(c.log, c.sends[i].id))
  {
    RunTimed(NewClient(o, maxOut, idLimit), xs, {});
    var c := Run(NewClient(o, maxOut, idLimit), xs);
    assert TimedEntry(c.log, c.sends[i], {});
  }

  /** So once a publish was hit no tick of any continuation collects its callback: its timer
      neither repeats nor ends it, reconnections or not. */
  lemma TimersNeverRunAgain(o: Ordering, maxOut: int, idLimit: nat, xs: seq<Input>, ys: seq<Input>, id: int, calls: seq<Call>)
    requires var c := Run(NewClient(o, maxOut, idLimit), xs); !c.fault && Hit(c.log, id)
    requires !Run(Run(NewClient(o, maxOut, idLimit), xs), ys).fault
    ensures var d := Run(Run(NewClient(o, maxOut, idLimit), xs), ys); SendCall(id) !in Collected(d.sends, calls)
  {
    var n := NewClient(o, maxOut, idLimit);
    var c := Run(n, xs);
    RunTimed(n, xs, {});
    HitsRemembered(c, {id});
    RunTimed(c, ys, {id});
    var d := Run(c, ys);
    var i := IndexOf(d.sends, id);
    assert id in {id};
    assert i < |d.sends| ==> TimedEntry(d.log, d.sends[i], {});
    OnlyExpiring(d.sends, calls, id);
  }

  lemma HitsRemembered(c: Client, w: set<int>)
    requires Timed(c, {}, {}) && forall id | id in w :: Hit(c.log, id)
    ensures Timed(c, w, {})
  {
  }

  lemma {:induction false} OnlyExpiring(sends: seq<Send>, calls: seq<Call>, id: int)
    ensures SendCall(id) in Collected(sends, calls) ==> Expiring(sends, id)
    decreases |calls|
  {
    if calls != [] { OnlyExpiring(sends, calls[..|calls| - 1], id); }
  }

  // ------------------------------------------------------------------ who is hit

  /** An acknowledgement that its operation does not expect. */
  predicate Unexpected(s: Send, kind: AckKind) {
    match kind
    case Puback => s.qos != 1
    case Pubrec => s.qos != 2 || s.acked
    case Pubcomp => s.qos != 2 || !s.acked
  }

  /** The events that lose the session, ticks apart. */
  predicate LosesSession(c: Client, x: Input) {
    match x
    case Disconnect(_) => true
    case NetworkDisconnected => !c.session.disconnecting
    case Ack(kind, pid) =>
      var i := FindSend(c.sends, pid);
      pid != 0 && !c.session.networkDown && i < |c.sends|
      && Expected(c.sends, i, kind.Pubcomp?) && Unexpected(c.sends[i], kind)
    case _ => false
  }

  /** They hit every publish on its way. */
  lemma LossHitsAll(o: Ordering, maxOut: int, idLimit: nat, xs: seq<Input>, x: Input, i: nat)
    requires var c := Run(NewClient(o, maxOut, idLimit), xs);
      !c.fault && LosesSession(c, x) && !Step(c, x).fault && i < |Step(c, x).sends| && Step(c, x).sends[i].published
    ensures Hit(Step(Run(NewClient(o, maxOut, idLimit), xs), x).log, Step(Run(NewClient(o, maxOut, idLimit), xs), x).sends[i].id)
  {
    var n := NewClient(o, maxOut, idLimit);
    var c := Run(n, xs);
    RunTimed(n, xs, {});
    StepTimed(c, x, {});
    var d := Step(c, x);
    assert TimedEntry(d.log, d.sends[i], {});
    LostBySteps(c, x, i);
  }

  lemma LostBySteps(c: Client, x: Input, i: nat)
    requires Good(c) && !c.fault && LosesSession(c, x) && i < |Step(c, x).sends| && Step(c, x).sends[i].armed
    ensures Step(c, x).sends[i].suspended
  {
    if x.Ack? { LostByAck(c, x.kind, x.ackPid, i); }
  }

  lemma LostByAck(c: Client, kind: AckKind, pid: int, i: nat)
    requires LosesSession(c, Ack(kind, pid)) && i < |ProcessAck(c, kind, pid).sends| && ProcessAck(c, kind, pid).sends[i].armed
    ensures ProcessAck(c, kind, pid).sends[i].suspended
  {
    var k := FindSend(c.sends, pid);
    var c1 := With(c, k, c.sends[k].(armed := false));
    LegitExactly(c.sends, k, kind.Pubcomp?);
    assert ProcessAck(c, kind, pid) == BrokerDisconnected(CompleteWithCb(c1, k, ProtocolError), true);
  }

  /** A tick spares the publishes whose own timers expire in it, when their callbacks come after
      the one that loses the session: their timers are set again and run on. */
  lemma SameTickSpares(c: Client, i: nat)
    requires Good(c) && !c.fault && c.session.connected && i < |c.sends| && c.sends[i].published
    requires c.sends[i].armed && !c.sends[i].suspended && c.sends[i].attempts < c.sends[i].total
    ensures var d := Step(c, Tick([PingCall, SendCall(c.sends[i].id)]));
      && d.session.disconnecting && !d.fault && i < |d.sends| && d.sends[i].id == c.sends[i].id
      && d.sends[i].armed && !d.sends[i].suspended
  {
    var id := c.sends[i].id;
    var due := [PingCall, SendCall(id)];
    IndexIs(c, i);
    CollectsBoth(c.sends, id);
    var c1 := c.(sends := TimersCancelled(c.sends, due));
    RetimedKeeps(c, c1);
    TickIs(c, due);
    CancelledEntry(c.sends, due, i);
    LostThenSpared(c1, i);
  }

  lemma TickIs(c: Client, due: seq<Call>)
    requires !c.fault && Collected(c.sends, due) == due
    ensures Step(c, Tick(due)) == OnCalls(c.(sends := TimersCancelled(c.sends, due)), due)
  {
  }

  lemma CancelledEntry(sends: seq<Send>, due: seq<Call>, i: nat)
    requires i < |sends| && SendCall(sends[i].id) in due
    ensures TimersCancelled(sends, due)[i] == sends[i].(armed := false)
  {
  }

  lemma LostThenSpared(c: Client, i: nat)
    requires Good(c) && !c.fault && c.session.connected && i < |c.sends| && c.sends[i].published
    requires !c.sends[i].armed && !c.sends[i].suspended && c.sends[i].attempts < c.sends[i].total
    ensures var d := OnCalls(c, [PingCall, SendCall(c.sends[i].id)]);
      && d.session.disconnecting && !d.fault && |d.sends| == |c.sends| && d.sends[i].id == c.sends[i].id
      && d.sends[i].armed && !d.sends[i].suspended
  {
    var d := BrokerDisconnected(c, true);
    BrokerDisconnectedKeeps(c, true);
    assert d.sends[i] == c.sends[i];
    SparedThen(d, i);
    TwoCalls(c, PingCall, SendCall(c.sends[i].id));
  }

  lemma TwoCalls(c: Client, x: Call, y: Call)
    requires !c.fault && !OnCall(c, x).fault
    ensures OnCalls(c, [x, y]) == OnCall(OnCall(c, x), y)
  {
    var d := OnCall(c, x);
    assert [x, y][1..] == [y] && [y][1..] == [];
    assert OnCalls(c, [x, y]) == OnCalls(d, [y]);
    assert OnCalls(d, [y]) == OnCalls(OnCall(d, y), []);
  }

  lemma SparedThen(c: Client, i: nat)
    requires Good(c) && i < |c.sends| && c.sends[i].published && c.sends[i].attempts < c.sends[i].total
    requires !c.sends[i].armed && !c.sends[i].suspended
    ensures var d := OnCall(c, SendCall(c.sends[i].id));
      && d.session == c.session && d.fault == c.fault && |d.sends| == |c.sends| && d.sends[i].id == c.sends[i].id
      && d.sends[i].armed && !d.sends[i].suspended
  {
    IndexIs(c, i);
    RepeatFits(c, i);
    ResendDupIs(c, i, Resend);
  }

  lemma IndexIs(c: Client, i: nat)
    requires ListOk(c) && i < |c.sends|
    ensures IndexOf(c.sends, c.sends[i].id) == i
  {
    var k := IndexOf(c.sends, c.sends[i].id);
    forall j: nat | j < |c.sends| && j != i ensures c.sends[j].id != c.sends[i].id {
      OtherIds(c.ordering, c.sends, i, j);
    }
  }

  lemma CollectsBoth(sends: seq<Send>, id: int)
    requires Expiring(sends, id)
    ensures Collected(sends, [PingCall, SendCall(id)]) == [PingCall, SendCall(id)]
  {
    var calls := [PingCall, SendCall(id)];
    assert calls[..1] == [PingCall] && [PingCall][..0] == [];
    assert Collected(sends, [PingCall]) == [PingCall];
  }
}
