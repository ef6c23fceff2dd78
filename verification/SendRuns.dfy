/** Every call, packet and timer keeps the invariant, so every run does. */
module SendRuns {
  import opened PacketIds
  import opened History
  import opened SendModel
  import opened SendInvariant
  import opened SendSteps

  /** The invariant of the states between calls, carried as one fact. */
  ghost predicate Good(c: Client) {
    var good := Inv(c, {}) && Calm(c);
    good
  }

  // ------------------------------------------------------------------ what leaves the publishes alone

  lemma ElsewhereKeeps(c: Client, d: Client, pending: set<int>)
    requires Inv(c, pending) && d.sends == c.sends && d.log == c.log
    requires d.ordering == c.ordering && d.maxOut == c.maxOut && d.nextId == c.nextId && d.locked == c.locked
    requires SessionOk(d.session) && (d.session.connecting ==> !d.locked)
    ensures Inv(d, pending)
  {
    assert forall j | 0 <= j < |d.sends| :: EntryOk(c, c.sends[j]) ==> EntryOk(d, d.sends[j]);
    HistoryUnchanged(c, d, pending);
  }

  lemma FaultKeeps(c: Client)
    requires Good(c)
    ensures Good(c.(fault := true))
  {
    ElsewhereKeeps(c, c.(fault := true), {});
  }

  /** Only the timer or the DUP bit of an entry changes. */
  lemma TimerKeeps(c: Client, i: nat, s: Send, pending: set<int>)
    requires Inv(c, pending) && i < |c.sends| && EntryOk(c, s)
    requires SamePlace(c.sends[i], s) && SameRecord(c.sends[i], s)
    ensures Inv(With(c, i, s), pending)
    ensures Calm(c) ==> Calm(With(c, i, s))
  {
    HistoryUnchanged(c, With(c, i, s), pending);
  }

  lemma MarkKeeps(c: Client, what: Turn, pending: set<int>)
    requires Inv(c, pending)
    ensures Inv(Emit(c, Mark(what)), pending)
  {
    var d := Emit(c, Mark(what));
    forall j | 0 <= j < |d.sends| ensures Recorded(d.ordering, d.log, d.sends[j]) {
    }
    assert forall id :: Ends(d.log, id) == Ends(c.log, id);
    assert forall j | 0 <= j < |d.sends| :: EntryOk(c, c.sends[j]) ==> EntryOk(d, d.sends[j]);
  }

  /** Timers of any entries change, and the session. */
  lemma RetimedKeeps(c: Client, d: Client)
    requires Good(c) && d == c.(sends := d.sends, session := d.session) && |d.sends| == |c.sends|
    requires SessionOk(d.session) && (d.session.connecting ==> !d.locked)
    requires forall j | 0 <= j < |c.sends| ::
               d.sends[j] == c.sends[j].(armed := d.sends[j].armed, suspended := d.sends[j].suspended)
               && (d.sends[j].armed ==> c.sends[j].armed)
    ensures Good(d)
  {
    forall j | 0 <= j < |d.sends|
      ensures EntryOk(d, d.sends[j]) && SamePlace(c.sends[j], d.sends[j]) && SameRecord(c.sends[j], d.sends[j])
    {
      assert EntryOk(c, c.sends[j]);
    }
    forall j, k | 0 <= j < k < |d.sends| ensures InLine(d.ordering, d.sends[j], d.sends[k]) {
      assert InLine(c.ordering, c.sends[j], c.sends[k]);
    }
    HistoryUnchanged(c, d, {});
  }

  lemma BrokerDisconnectedKeeps(c: Client, report: bool)
    requires Good(c)
    ensures Good(BrokerDisconnected(c, report))
  {
    var d := c.(session := c.session.(initialized := false, connected := false, disconnecting := true, connecting := false),
                sends := Suspended(c.sends));
    RetimedKeeps(c, d);
    MarkKeeps(d, Lost(report, TimedIds(c.sends)), {});
  }

  // ------------------------------------------------------------------ re-sending

  lemma CompleteKeeps(c: Client, i: nat, status: Status)
    requires Good(c) && i < |c.sends| && c.sends[i].issued && MayComplete(c, i, status)
    requires status.Complete? ==> c.sends[i].published
    ensures Good(CompleteWithCb(c, i, status))
    ensures !status.Complete? ==> Follows(Erase(c, i), CompleteWithCb(c, i, status))
  {
    CalmErased(c, i);
    CompleteWithCbKeeps(c, i, status, {});
  }

  lemma ResentKeeps(c: Client, i: nat, cause: Cause, n: int)
    requires Good(c) && i < |c.sends| && c.sends[i].published
    requires CountsAs(c.sends[i], cause, n)
    requires cause.Reconnect? && !c.sends[i].acked ==> Due(c.log, c.sends[i].id)
    ensures Good(Resent(c, i, cause, n))
  {
    var s := c.sends[i];
    assert EntryOk(c, s);
    if s.acked {
      PubrelKeeps(c, i, n, {});
    } else {
      RepeatPublishKeeps(c, i, cause, n, {});
    }
  }

  lemma TimedOutKeeps(c: Client, i: nat)
    requires Good(c) && i < |c.sends| && c.sends[i].issued && c.sends[i].total <= c.sends[i].attempts
    ensures Good(ResendDup(c, i, Resend))
  {
    assert ResendDup(c, i, Resend) == CompleteWithCb(c, i, Timeout);
    CompleteKeeps(c, i, Timeout);
  }

  lemma RepeatFits(c: Client, i: nat)
    requires ListOk(c) && i < |c.sends| && c.sends[i].published
    ensures ResendFits(c, i)
  {
    assert EntryOk(c, c.sends[i]);
  }

  /** With attempts left the packet of entry `i` goes out again. */
  lemma ResendDupIs(c: Client, i: nat, cause: Cause)
    requires i < |c.sends| && c.sends[i].published && c.sends[i].attempts < c.sends[i].total && ResendFits(c, i)
    ensures ResendDup(c, i, cause) == Resent(c, i, cause, c.sends[i].attempts + 1)
  {
  }

  lemma RepeatedKeeps(c: Client, i: nat)
    requires Good(c) && i < |c.sends| && c.sends[i].published && c.sends[i].attempts < c.sends[i].total
    ensures Good(ResendDup(c, i, Resend))
  {
    RepeatFits(c, i);
    ResendDupIs(c, i, Resend);
    ResentKeeps(c, i, Resend, c.sends[i].attempts + 1);
  }

  /** A further packet for entry `i`, or its Timeout. */
  lemma ResendDupKeeps(c: Client, i: nat)
    requires Good(c) && i < |c.sends| && !c.sends[i].paused
    ensures Good(ResendDup(c, i, Resend))
  {
    if !c.sends[i].published {
    } else if c.sends[i].attempts < c.sends[i].total {
      RepeatedKeeps(c, i);
    } else {
      assert EntryOk(c, c.sends[i]);
      TimedOutKeeps(c, i);
    }
  }

  /** One turn of the re-send walk. */
  lemma WalkUnfolds(c: Client, target: int, i: nat, d: Client)
    requires i < |c.sends| && d == ForceDupResend(c, i)
    ensures d.fault || c.sends[i].id == target ==> ResendAllUntil(c, target, i) == d
    ensures !d.fault && c.sends[i].id != target && i >= |d.sends| ==> ResendAllUntil(c, target, i) == d.(fault := true)
    ensures !(d.fault || c.sends[i].id == target || i >= |d.sends|) ==>
              ResendAllUntil(c, target, i) == ResendAllUntil(d, target, if d.sends[i].id == c.sends[i].id then i + 1 else i)
  {
  }

  lemma {:induction false} ResendAllUntilKeeps(c: Client, target: int, i: nat)
    requires Good(c)
    ensures Good(ResendAllUntil(c, target, i))
    decreases |c.sends| - i
  {
    if i < |c.sends| {
      var c1 := ForceDupResend(c, i);
      if !c.sends[i].paused { ResendDupKeeps(c, i); }
      if c1.fault || c.sends[i].id == target {
      } else if i >= |c1.sends| {
        FaultKeeps(c1);
      } else if c1.sends[i].id == c.sends[i].id {
        ResendAllUntilKeeps(c1, target, i + 1);
      } else {
        ResendAllUntilKeeps(c1, target, i);
      }
    }
  }

  lemma OnCallKeeps(c: Client, x: Call)
    requires Good(c)
    ensures Good(OnCall(c, x))
  {
    match x
    case PingCall => BrokerDisconnectedKeeps(c, true);
    case SendCall(id) =>
      var i := IndexOf(c.sends, id);
      if i == |c.sends| || c.sends[i].armed || !c.sends[i].published {
        FaultKeeps(c);
      } else {
        assert EntryOk(c, c.sends[i]);
        ResendDupKeeps(c, i);
      }
  }

  lemma {:induction false} OnCallsKeeps(c: Client, due: seq<Call>)
    requires Good(c)
    ensures Good(OnCalls(c, due))
    decreases |due|
  {
    if due != [] && !c.fault {
      OnCallKeeps(c, due[0]);
      OnCallsKeeps(OnCall(c, due[0]), due[1..]);
    }
  }

  lemma TickKeeps(c: Client, calls: seq<Call>)
    requires Good(c)
    ensures Good(DoTick(c, calls))
  {
    var due := Collected(c.sends, calls);
    RetimedKeeps(c, c.(sends := TimersCancelled(c.sends, due)));
    OnCallsKeeps(c.(sends := TimersCancelled(c.sends, due)), due);
  }

  // ------------------------------------------------------------------ acknowledgements

  /** The broker acknowledges in the order it was sent to: the publish is on the wire, all before
      it have been received, and PUBCOMP is for the oldest. */
  predicate Expected(sends: seq<Send>, i: nat, pubcomp: bool)
    requires i < |sends|
  {
    && sends[i].published
    && (forall j | 0 <= j < i :: sends[j].acked)
    && (pubcomp ==> i == 0)
  }

  lemma {:induction false} LegitMeans(sends: seq<Send>, i: nat, pubcomp: bool, j: nat)
    requires j <= i < |sends|
    ensures LegitFrom(sends, i, pubcomp, j) <==> (forall k | j <= k < i :: sends[k].acked) && !(pubcomp && j < i)
    decreases i - j
  {
    if j < i { LegitMeans(sends, i, pubcomp, j + 1); }
  }

  /** What the loop decides is just that. */
  lemma LegitExactly(sends: seq<Send>, i: nat, pubcomp: bool)
    requires i < |sends|
    ensures IsLegitSendAck(sends, i, pubcomp) <==> Expected(sends, i, pubcomp)
  {
    LegitMeans(sends, i, pubcomp, 0);
  }

  lemma PubackMayComplete(c: Client, i: nat)
    requires ListOk(c) && i < |c.sends| && IsLegitSendAck(c.sends, i, false) && c.sends[i].qos == 1
    ensures MayComplete(c, i, Complete)
  {
    LegitMeans(c.sends, i, false, 0);
    forall j | 0 <= j < |c.sends| && j != i && c.sends[j].qos == 1 ensures c.sends[i].id < c.sends[j].id {
      assert EntryOk(c, c.sends[j]);
      assert j > i && InLine(c.ordering, c.sends[i], c.sends[j]);
    }
  }

  /** An operation ends with a protocol error, then the session is dropped. */
  lemma ProtocolErrorKeeps(c: Client, i: nat)
    requires Good(c) && i < |c.sends| && c.sends[i].issued && c.sends[i].published
    ensures Good(BrokerDisconnected(CompleteWithCb(c, i, ProtocolError), true))
  {
    CompleteKeeps(c, i, ProtocolError);
    BrokerDisconnectedKeeps(CompleteWithCb(c, i, ProtocolError), true);
  }

  lemma DisarmedKeeps(c: Client, i: nat)
    requires Good(c) && i < |c.sends|
    ensures Good(With(c, i, c.sends[i].(armed := false)))
  {
    assert EntryOk(c, c.sends[i]);
    TimerKeeps(c, i, c.sends[i].(armed := false), {});
  }

  lemma PubackKeeps(c: Client, i: nat)
    requires Good(c) && i < |c.sends| && IsLegitSendAck(c.sends, i, false)
    ensures Good(HandlePuback(c, i))
  {
    assert EntryOk(c, c.sends[i]);
    DisarmedKeeps(c, i);
    var c1 := With(c, i, c.sends[i].(armed := false));
    if c.sends[i].qos != 1 {
      ProtocolErrorKeeps(c1, i);
    } else {
      PubackMayComplete(c, i);
      CompleteKeeps(c1, i, Complete);
    }
  }

  lemma PubrecKeeps(c: Client, i: nat)
    requires Good(c) && i < |c.sends| && IsLegitSendAck(c.sends, i, false)
    ensures Good(HandlePubrec(c, i))
  {
    assert EntryOk(c, c.sends[i]);
    DisarmedKeeps(c, i);
    var c1 := With(c, i, c.sends[i].(armed := false));
    if c.sends[i].qos != 2 || c.sends[i].acked {
      ProtocolErrorKeeps(c1, i);
    } else {
      LegitMeans(c.sends, i, false, 0);
      AcceptPubrecKeeps(c1, i);
    }
  }

  lemma AcceptPubrecKeeps(c: Client, i: nat)
    requires Good(c) && i < |c.sends| && c.sends[i].published && c.sends[i].qos == 2
    requires forall j | 0 <= j < i :: c.sends[j].acked
    ensures Good(AcceptPubrec(c, i))
  {
    assert EntryOk(c, c.sends[i]);
    if c.maxOut < PUBREL_LEN {
      CompleteKeeps(c, i, InternalError);
      UnsentPubrel(c, i);
    } else {
      PubrelKeeps(c, i, 1, {});
    }
  }

  lemma UnsentPubrel(c: Client, i: nat)
    requires i < |c.sends|
    ensures CompleteWithCb(With(c, i, c.sends[i].(acked := true, attempts := 0)), i, InternalError)
              == CompleteWithCb(c, i, InternalError)
  {
    var t := c.sends[i].(acked := true, attempts := 0);
    ErasedAnyway(c, i, t);
    assert OpComplete(With(c, i, t), i) == OpComplete(c, i);
  }

  lemma PubcompKeeps(c: Client, i: nat)
    requires Good(c) && i < |c.sends| && IsLegitSendAck(c.sends, i, true)
    ensures Good(HandlePubcomp(c, i))
  {
    assert EntryOk(c, c.sends[i]);
    DisarmedKeeps(c, i);
    var c1 := With(c, i, c.sends[i].(armed := false));
    if c.sends[i].qos != 2 || !c.sends[i].acked {
      ProtocolErrorKeeps(c1, i);
    } else {
      CompleteKeeps(c1, i, Complete);
    }
  }

  lemma AckKeeps(c: Client, kind: AckKind, pid: int)
    requires Good(c)
    ensures Good(ProcessAck(c, kind, pid))
  {
    var i := FindSend(c.sends, pid);
    if i < |c.sends| {
      if !IsLegitSendAck(c.sends, i, kind.Pubcomp?) {
        ResendAllUntilKeeps(c, c.sends[i].id, 0);
      } else {
        match kind
        case Puback => PubackKeeps(c, i);
        case Pubrec => PubrecKeeps(c, i);
        case Pubcomp => PubcompKeeps(c, i);
      }
    }
  }
}
