/** Issuing and cancelling publishes, losing and regaining the session. */
module SendSession {
  import opened PacketIds
  import opened History
  import opened SendModel
  import opened SendInvariant
  import opened SendSteps
  import opened SendRuns

  // ------------------------------------------------------------------ prepare

  lemma PrepareKeeps(c: Client)
    requires Good(c)
    ensures Good(DoPrepare(c))
  {
    var d := DoPrepare(c);
    if d != c {
      var n := |c.sends|;
      UnmentionedIsBlank(c.log, c.nextId);
      forall j | 0 <= j < |d.sends| ensures EntryOk(d, d.sends[j]) && Recorded(d.ordering, d.log, d.sends[j]) {
        if j < n {
          assert EntryOk(c, c.sends[j]) && Recorded(c.ordering, c.log, c.sends[j]);
        } else {
          BlankRecord(c.ordering, c.log, c.nextId);
        }
      }
      forall j, k | 0 <= j < k < |d.sends| ensures InLine(d.ordering, d.sends[j], d.sends[k]) {
        assert EntryOk(c, c.sends[j]);
        assert k < n ==> InLine(c.ordering, c.sends[j], c.sends[k]);
      }
      PrepareAccounts(c, d);
    }
  }

  lemma BlankRecord(o: Ordering, h: Log, id: int)
    requires MaxId(h) < id
    ensures Recorded(o, h, Fresh(id))
  {
    UnmentionedIsBlank(h, id);
    MaxIdBounds(h, 0);
  }

  lemma PrepareAccounts(c: Client, d: Client)
    requires Good(c) && d == DoPrepare(c) && d != c
    ensures Accounted(d.log, LiveIds(d.sends), {}, d.nextId)
  {
    UnmentionedIsBlank(c.log, c.nextId);
    assert LiveIds(d.sends) == LiveIds(c.sends) + {c.nextId} by {
      assert d.sends[|c.sends|].id == c.nextId;
      assert forall j | 0 <= j < |c.sends| :: d.sends[j] == c.sends[j];
    }
    assert c.nextId !in LiveIds(c.sends) by {
      assert forall j | 0 <= j < |c.sends| :: EntryOk(c, c.sends[j]);
    }
  }

  // ------------------------------------------------------------------ send

  /** The issued publish, held back. */
  function HeldBack(c: Client, qos: int, len: int, total: int): Client
    requires c.sends != []
  {
    var i := |c.sends| - 1;
    var c1 := Issue(c.(locked := false), i, qos, len, total);
    With(c1, i, c1.sends[i].(paused := true))
  }

  lemma HeldBackKeeps(c: Client, qos: int, len: int, total: int)
    requires Good(c) && HasPrepared(c) && 0 <= qos <= MAX_QOS && total > 0
    ensures Inv(HeldBack(c, qos, len, total), {})
    ensures Calm(Erase(HeldBack(c, qos, len, total), |c.sends| - 1))
  {
    var i := |c.sends| - 1;
    var d := HeldBack(c, qos, len, total);
    var s := d.sends[i];
    assert EntryOk(c, c.sends[i]);
    assert d.sends == c.sends[i := s];
    forall j | 0 <= j < |d.sends| ensures EntryOk(d, d.sends[j]) {
      assert EntryOk(c, c.sends[j]);
      assert j < i ==> InLine(c.ordering, c.sends[j], c.sends[i]);
    }
    forall j, k | 0 <= j < k < |d.sends| ensures InLine(d.ordering, d.sends[j], d.sends[k]) {
      assert InLine(c.ordering, c.sends[j], c.sends[k]) && EntryOk(c, c.sends[j]);
    }
    HeldBackTold(c, qos, len, total, d);
    assert Erase(d, i).sends == c.sends[..i];
  }

  lemma HeldBackTold(c: Client, qos: int, len: int, total: int, d: Client)
    requires Good(c) && HasPrepared(c) && 0 <= qos <= MAX_QOS && total > 0 && d == HeldBack(c, qos, len, total)
    ensures HistoryOk(d, {})
  {
    var i := |c.sends| - 1;
    var s, e := d.sends[i], Issued(c.sends[i].id, qos, len, total, len <= c.maxOut);
    assert EntryOk(c, c.sends[i]) && Recorded(c.ordering, c.log, c.sends[i]);
    UnmentionedIsBlank(c.log, s.id);
    IssuedRecord(c.ordering, c.log, c.sends[i], s, e);
    forall j | 0 <= j < |c.sends| && j != i ensures Harmless(c.ordering, e, c.sends[j]) {
      LineAt(c.ordering, c.sends, j, i);
    }
    HistoryTold(c, {}, i, s, e);
    assert d.sends == c.sends[i := s];
    HistoryUnchanged(Emit(With(c, i, s), e), d, {});
  }

  lemma IssuedRecord(o: Ordering, h: Log, s: Send, t: Send, e: Event)
    requires Recorded(o, h, s) && !s.issued && !s.published && !s.acked && t.id == s.id && t.attempts == s.attempts
    requires t.issued && !t.published && !t.acked
    requires e.Issued? && e.id == t.id && e.qos == t.qos && e.len == t.len && e.budget == t.total
    ensures Recorded(o, After(h, e), t)
  {
    MaxIdBounds(h, t.qos);
  }

  lemma IssuedInTurn(c: Client, qos: int, len: int, total: int)
    requires Good(c) && HasPrepared(c) && 0 <= qos <= MAX_QOS && total > 0
    requires CanSend(HeldBack(c, qos, len, total), |c.sends| - 1)
    ensures InTurn(HeldBack(c, qos, len, total), |c.sends| - 1)
  {
    var i := |c.sends| - 1;
    var d := HeldBack(c, qos, len, total);
    assert forall j | 0 <= j < i :: d.sends[j] == c.sends[j];
    forall j | 0 <= j < i ensures d.sends[j].published {
      assert InLine(c.ordering, c.sends[j], c.sends[i]) && EntryOk(c, c.sends[j]);
      assert EntryOk(c, c.sends[i - 1]);
      assert j < i - 1 ==> InLine(c.ordering, c.sends[j], c.sends[i - 1]);
      assert InLine(c.ordering, c.sends[i - 1], c.sends[i]);
    }
  }

  /** The call in terms of holding back and resuming. */
  lemma SendCallIs(c: Client, qos: int, len: int, total: int)
    requires Good(c) && HasPrepared(c) && 0 <= qos <= MAX_QOS && total > 0
    ensures var i := |c.sends| - 1;
      var d := HeldBack(c, qos, len, total);
      DoSendCall(c, qos, len, total, true) ==
        if !CanSend(d, i) then d
        else if Fits(d, i) then Resume(d, i)
        else Emit(Erase(d, i), Silent(c.sends[i].id, Refused))
  {
    var i := |c.sends| - 1;
    var d := HeldBack(c, qos, len, total);
    var c1 := Issue(c.(locked := false), i, qos, len, total);
    assert EntryOk(c, c.sends[i]);
    var s := c1.sends[i];
    assert d == With(c1, i, s.(paused := true)) && !s.paused;
    assert HasHigherQosSendsBefore(d.sends, i) == HasHigherQosSendsBefore(c1.sends, i) by {
      assert forall j | 0 <= j <= i :: d.sends[j].qos == c1.sends[j].qos;
    }
    assert i > 0 ==> d.sends[i - 1] == c1.sends[i - 1];
    assert CanSend(d, i) == CanSend(c1, i);
    assert With(d, i, d.sends[i].(paused := false)) == c1;
    ErasedAnyway(c1, i, s.(paused := true));
    LastCompletes(c1);
  }

  /** Nothing follows the last entry, so nothing is resumed when it leaves. */
  lemma LastCompletes(c: Client)
    requires c.sends != []
    ensures OpComplete(c, |c.sends| - 1) == Erase(c, |c.sends| - 1)
  {
    var d := Erase(c, |c.sends| - 1);
    assert ResumeSince(d, |d.sends|) == d;
  }

  lemma SilentKeeps(d: Client, i: nat, why: Silence)
    requires Inv(d, {}) && i < |d.sends| && Calm(Erase(d, i))
    requires why.Refused? ==> d.sends[i].issued && !d.sends[i].published && !Fits(d, i)
    ensures Good(Emit(Erase(d, i), Silent(d.sends[i].id, why)))
  {
    var id := d.sends[i].id;
    assert Recorded(d.ordering, d.log, d.sends[i]);
    if d.sends[i].issued { FitsAsTold(d.maxOut, d.log, id); }
    Erased(d, i, {});
    HistoryErased(d, i, {});
    assert id in {} + {id};
    assert Ends(d.log, id) == 0;
    Settled(Erase(d, i), id, Silent(id, why), {});
  }

  /** The prepared publish leaves without having been issued. */
  lemma DroppedKeeps(c: Client, why: Silence)
    requires Good(c) && HasPrepared(c)
    ensures var i := |c.sends| - 1;
      Good(Emit(OpComplete(c.(locked := false), i), Silent(c.sends[i].id, why)))
  {
    var i := |c.sends| - 1;
    var id := c.sends[i].id;
    LastCompletes(c.(locked := false));
    assert EntryOk(c, c.sends[i]) && Recorded(c.ordering, c.log, c.sends[i]);
    UnmentionedIsBlank(c.log, id);
    Erased(c, i, {});
    HistoryErased(c, i, {});
    var d := Erase(c, i);
    assert id in {} + {id};
    forall j | 0 <= j < |d.sends| ensures d.sends[j].issued {
      assert d.sends[j] == c.sends[j];
      LineAt(c.ordering, c.sends, j, i);
    }
    UnlockedKeeps(d, {} + {id});
    assert Erase(c.(locked := false), i) == d.(locked := false);
    Settled(d.(locked := false), id, Silent(id, why), {});
  }

  lemma UnlockedKeeps(c: Client, pending: set<int>)
    requires Inv(c, pending) && forall j | 0 <= j < |c.sends| :: c.sends[j].issued
    ensures Inv(c.(locked := false), pending)
  {
    var d := c.(locked := false);
    forall j | 0 <= j < |d.sends| ensures EntryOk(d, d.sends[j]) { assert EntryOk(c, c.sends[j]); }
    HistoryUnchanged(c, d, pending);
  }

  lemma SendCallKeeps(c: Client, qos: int, len: int, total: int, configured: bool)
    requires Good(c)
    ensures Good(DoSendCall(c, qos, len, total, configured))
  {
    if HasPrepared(c) && 0 <= qos <= MAX_QOS && total > 0 {
      var i := |c.sends| - 1;
      if !configured {
        DroppedKeeps(c, Refused);
      } else {
        SendCallIs(c, qos, len, total);
        HeldBackKeeps(c, qos, len, total);
        var d := HeldBack(c, qos, len, total);
        if CanSend(d, i) {
          IssuedInTurn(c, qos, len, total);
          if Fits(d, i) { ResumeKeeps(d, i, {}); } else { SilentKeeps(d, i, Refused); }
        }
      }
    }
  }

  // ------------------------------------------------------------------ cancel

  lemma CancelKeeps(c: Client, id: int)
    requires Good(c)
    ensures Good(DoCancel(c, id))
  {
    var i := IndexOf(c.sends, id);
    if i < |c.sends| {
      if c.sends[i].issued {
        CancelIssuedKeeps(c, i);
      } else {
        PreparedIsLast(c, i);
        DroppedKeeps(c, Cancelled);
      }
    }
  }

  lemma PreparedIsLast(c: Client, i: nat)
    requires ListOk(c) && i < |c.sends| && !c.sends[i].issued
    ensures i == |c.sends| - 1 && HasPrepared(c)
  {
    assert EntryOk(c, c.sends[i]);
    if i < |c.sends| - 1 { LineAt(c.ordering, c.sends, i, i + 1); }
  }

  lemma CancelIssuedKeeps(c: Client, i: nat)
    requires Good(c) && i < |c.sends|
    ensures Good(Emit(OpComplete(c, i), Silent(c.sends[i].id, Cancelled)))
  {
    var id := c.sends[i].id;
    CalmErased(c, i);
    OpCompleteKeeps(c, i, {});
    var r := OpComplete(c, i);
    assert id in {} + {id};
    assert Recorded(c.ordering, c.log, c.sends[i]);
    assert EntryOk(c, c.sends[i]);
    Settled(r, id, Silent(id, Cancelled), {});
  }

  // ------------------------------------------------------------------ a session that is still there

  /** The entry after a reconnection has repeated its packet. */
  function Repeated(s: Send): Send {
    if s.paused then s else Marked(s).(armed := true)
  }

  /** Held back, or with an attempt to give back and a packet that fits. */
  predicate Repeatable(s: Send, maxOut: int) {
    s.paused || (s.published && 1 <= s.attempts <= s.total && (if s.acked then PUBREL_LEN else s.len) <= maxOut)
  }

  lemma PostReconnectionIs(c: Client, i: nat)
    requires i < |c.sends| && Repeatable(c.sends[i], c.maxOut)
    ensures PostReconnectionResend(c, i) ==
              if c.sends[i].paused then c else Resent(c, i, Reconnect, c.sends[i].attempts)
  {
    var s := c.sends[i];
    if !s.paused {
      var t := s.(attempts := s.attempts - 1, armed := false);
      var d := With(c, i, t);
      assert PostReconnectionResend(c, i) == ResendDup(d, i, Reconnect);
      assert ResendDup(d, i, Reconnect) == Resent(d, i, Reconnect, s.attempts);
      TimerForgotten(c, i, s.attempts - 1, s.attempts);
    }
  }

  lemma TimerForgotten(c: Client, i: nat, m: int, n: int)
    requires i < |c.sends|
    ensures Resent(With(c, i, c.sends[i].(attempts := m, armed := false)), i, Reconnect, n) == Resent(c, i, Reconnect, n)
  {
    var s := c.sends[i];
    var t := s.(attempts := m, armed := false);
    assert Marked(t).(attempts := n, armed := true) == Marked(s).(attempts := n, armed := true);
    assert c.sends[i := t][i := Marked(s).(attempts := n, armed := true)] == c.sends[i := Marked(s).(attempts := n, armed := true)];
  }

  /** One packet for every publish that is not held back, in list order. */
  function ReconnectPackets(sends: seq<Send>): seq<Event> {
    if sends == [] then [] else
    (if sends[0].paused then [] else [ResendPacket(sends[0], Reconnect)]) + ReconnectPackets(sends[1..])
  }

  function AllRepeated(sends: seq<Send>, i: nat): seq<Send>
    requires i <= |sends|
  {
    sends[..i] + seq(|sends| - i, k requires 0 <= k < |sends| - i => Repeated(sends[i + k]))
  }

  /** Nothing but the list and the history differs. */
  predicate OnlyRepeats(c: Client, r: Client) {
    r == c.(sends := r.sends, log := r.log)
  }

  /** What one turn of the re-send loop does. */
  lemma PostReconnectionDoes(c: Client, i: nat)
    requires i < |c.sends| && Repeatable(c.sends[i], c.maxOut)
    ensures var r := PostReconnectionResend(c, i);
      OnlyRepeats(c, r) && r.sends == c.sends[i := Repeated(c.sends[i])]
      && Events(r.log) == Events(c.log) + if c.sends[i].paused then [] else [ResendPacket(c.sends[i], Reconnect)]
  {
    PostReconnectionIs(c, i);
    var s := c.sends[i];
    if s.paused {
      assert c.sends[i := s] == c.sends;
    } else {
      assert Repeated(s) == Marked(s).(attempts := s.attempts, armed := true);
    }
  }

  /** The re-send loop touches every entry once, loses none and never runs into a missing one. */
  lemma {:induction false} ResendLoopIs(c: Client, i: nat)
    requires i <= |c.sends|
    requires forall j | i <= j < |c.sends| :: Repeatable(c.sends[j], c.maxOut)
    ensures LoopDone(c, i, ResendLoop(c, i))
    decreases |c.sends| - i
  {
    if i == |c.sends| {
      assert AllRepeated(c.sends, i) == c.sends;
    } else {
      PostReconnectionDoes(c, i);
      var d := PostReconnectionResend(c, i);
      LoopTurn(c, i);
      ResendLoopIs(d, i + 1);
      LoopOneMore(c, i, d, ResendLoop(d, i + 1));
    }
  }

  /** The entries from `i` on have repeated their packets. */
  ghost predicate LoopDone(c: Client, i: nat, r: Client)
    requires i <= |c.sends|
  {
    var done :=
      && OnlyRepeats(c, r) && r.sends == AllRepeated(c.sends, i)
      && Events(r.log) == Events(c.log) + ReconnectPackets(c.sends[i..]);
    done
  }

  lemma LoopOneMore(c: Client, i: nat, d: Client, r: Client)
    requires i < |c.sends| && OnlyRepeats(c, d) && d.sends == c.sends[i := Repeated(c.sends[i])]
    requires Events(d.log) == Events(c.log) + if c.sends[i].paused then [] else [ResendPacket(c.sends[i], Reconnect)]
    requires LoopDone(d, i + 1, r)
    ensures LoopDone(c, i, r)
  {
    RepeatedOneMore(c.sends, i);
    assert d.sends[i + 1..] == c.sends[i + 1..];
  }

  lemma LoopTurn(c: Client, i: nat)
    requires i < |c.sends| && |PostReconnectionResend(c, i).sends| == |c.sends|
    ensures ResendLoop(c, i) == ResendLoop(PostReconnectionResend(c, i), i + 1)
  {
  }

  lemma RepeatedOneMore(sends: seq<Send>, i: nat)
    requires i < |sends|
    ensures AllRepeated(sends[i := Repeated(sends[i])], i + 1) == AllRepeated(sends, i)
    ensures ReconnectPackets(sends[i..]) ==
      (if sends[i].paused then [] else [ResendPacket(sends[i], Reconnect)]) + ReconnectPackets(sends[i + 1..])
  {
    assert sends[i..][1..] == sends[i + 1..];
  }

  lemma PostReconnectionKeeps(c: Client, i: nat)
    requires Good(c) && i < |c.sends| && Repeatable(c.sends[i], c.maxOut) && DueFrom(c, i)
    ensures Good(PostReconnectionResend(c, i))
  {
    PostReconnectionIs(c, i);
    if !c.sends[i].paused { ResentKeeps(c, i, Reconnect, c.sends[i].attempts); }
  }

  /** The entries from `i` on are due the copy that the reconnection causes. */
  ghost predicate DueFrom(c: Client, i: nat) {
    forall j | i <= j < |c.sends| && c.sends[j].published && !c.sends[j].acked :: Due(c.log, c.sends[j].id)
  }

  lemma DueOn(c: Client, i: nat)
    requires ListOk(c) && i < |c.sends| && Repeatable(c.sends[i], c.maxOut) && DueFrom(c, i)
    ensures DueFrom(PostReconnectionResend(c, i), i + 1)
  {
    PostReconnectionIs(c, i);
    PostReconnectionDoes(c, i);
    var d := PostReconnectionResend(c, i);
    forall j | i + 1 <= j < |d.sends| && d.sends[j].published && !d.sends[j].acked ensures Due(d.log, d.sends[j].id) {
      assert d.sends[j] == c.sends[j];
      LineAt(c.ordering, c.sends, i, j);
    }
  }

  lemma AllDue(c: Client)
    requires Good(c)
    ensures DueFrom(Emit(c, Mark(Resumed)), 0)
  {
    forall j | 0 <= j < |c.sends| && c.sends[j].published && !c.sends[j].acked ensures OnTheWay(c.log, c.sends[j].id) {
      assert Recorded(c.ordering, c.log, c.sends[j]);
    }
  }

  lemma {:induction false} ResendLoopKeeps(c: Client, i: nat)
    requires Good(c) && i <= |c.sends| && DueFrom(c, i)
    requires forall j | i <= j < |c.sends| :: Repeatable(c.sends[j], c.maxOut)
    ensures Good(ResendLoop(c, i))
    decreases |c.sends| - i
  {
    if i < |c.sends| {
      PostReconnectionKeeps(c, i);
      PostReconnectionDoes(c, i);
      DueOn(c, i);
      ResendLoopKeeps(PostReconnectionResend(c, i), i + 1);
    }
  }

  /** With no publish being prepared, every entry can be repeated. */
  lemma AllRepeatable(c: Client)
    requires ListOk(c) && !c.locked
    ensures forall j | 0 <= j < |c.sends| :: Repeatable(c.sends[j], c.maxOut)
  {
    forall j | 0 <= j < |c.sends| ensures Repeatable(c.sends[j], c.maxOut) {
      assert EntryOk(c, c.sends[j]);
    }
  }

  lemma ConnectedKeeps(c: Client, connected: bool)
    requires Good(c) && c.session.connecting
    ensures Good(c.(session := c.session.(connected := connected, connecting := false))) && !c.locked
  {
    ElsewhereKeeps(c, c.(session := c.session.(connected := connected, connecting := false)), {});
  }

  /** The session is found: the mark in the history comes before the copies it causes. */
  function Found(c: Client): Client {
    Emit(c.(session := c.session.(connected := true, connecting := false)), Mark(Resumed))
  }

  /** The state in which all have repeated their packets and waiting ones are about to be resumed. */
  function AllResent(c: Client): Client {
    ResendLoop(Found(c), 0)
  }

  lemma AllResentKeeps(c: Client)
    requires Good(c) && c.session.connecting
    ensures var d := AllResent(c);
      Good(d) && d.fault == c.fault && !d.locked && d.session.connected && d.sends == AllRepeated(c.sends, 0)
      && Events(d.log) == Events(c.log) + [Mark(Resumed)] + ReconnectPackets(c.sends)
  {
    var c1 := c.(session := c.session.(connected := true, connecting := false));
    ConnectedKeeps(c, true);
    MarkKeeps(c1, Resumed, {});
    AllDue(c1);
    AllRepeatable(Found(c));
    ResendLoopIs(Found(c), 0);
    ResendLoopKeeps(Found(c), 0);
    assert c1.sends[0..] == c.sends;
  }

  lemma SessionPresentKeeps(c: Client)
    requires Good(c) && c.session.connecting
    ensures Good(BrokerConnected(c, true)) && BrokerConnected(c, true).fault == c.fault
  {
    AllResentKeeps(c);
    var d := AllResent(c);
    ResumeSinceKeeps(d, TrailingPaused(d.sends, |d.sends|), {});
  }

  // ------------------------------------------------------------------ a session that is gone

  lemma {:induction false} TerminateWalkKeeps(c: Client, k: nat)
    requires Good(c) && !c.locked
    ensures Good(TerminateWalk(c, k))
    decreases |c.sends|, |c.ops.refs| - k
  {
    if k < |c.ops.refs| {
      match c.ops.refs[k]
      case OtherRef => TerminateWalkKeeps(c, k + 1);
      case Null => FaultKeeps(c);
      case SendRef(id) =>
        var i := IndexOf(c.sends, id);
        if i == |c.sends| {
          FaultKeeps(c);
        } else {
          assert EntryOk(c, c.sends[i]);
          CompleteKeeps(c, i, Aborted);
          TerminateWalkKeeps(CompleteWithCb(c, i, Aborted), k + 1);
        }
    }
  }

  lemma ConnackKeeps(c: Client, accepted: bool, sessionPresent: bool)
    requires Good(c)
    ensures Good(DoConnack(c, accepted, sessionPresent))
  {
    if c.session.connecting {
      if !accepted {
        ElsewhereKeeps(c, DoConnack(c, accepted, sessionPresent), {});
      } else if sessionPresent {
        SessionPresentKeeps(c);
      } else {
        ConnectedKeeps(c, true);
        TerminateWalkKeeps(c.(session := c.session.(connected := true, connecting := false)), 0);
      }
    }
  }

  lemma NetworkDisconnectedKeeps(c: Client)
    requires Good(c)
    ensures Good(DoNetworkDisconnected(c))
  {
    var c0 := c.(session := c.session.(networkDown := true, connecting := false));
    var c1 := c.(session := c.session.(networkDown := true));
    ElsewhereKeeps(c, c0, {});
    if !c.session.disconnecting {
      BrokerDisconnectedKeeps(c0, false);
      assert BrokerDisconnected(c0, false) == BrokerDisconnected(c1, false);
    } else {
      assert c0 == c1;
    }
  }

  lemma ConnectKeeps(c: Client)
    requires Good(c)
    ensures Good(DoConnect(c))
  {
    ElsewhereKeeps(c, DoConnect(c), {});
  }

  // ------------------------------------------------------------------ every step, every run

  lemma ElsewhereStepKeeps(c: Client, x: Input)
    requires Good(c) && !c.fault && (x.ConnectEnds? || x.CleanOps? || x.OtherStarts? || x.OtherEnds?)
    ensures Good(Step(c, x))
  {
    ElsewhereKeeps(c, Step(c, x), {});
  }

  lemma LinkStepKeeps(c: Client, x: Input)
    requires Good(c) && !c.fault && (x.NetworkDisconnected? || x.Disconnect? || x.Connect? || x.Connack?)
    ensures Good(Step(c, x))
  {
    match x
    case NetworkDisconnected => NetworkDisconnectedKeeps(c);
    case Disconnect(report) => BrokerDisconnectedKeeps(c, report);
    case Connect => ConnectKeeps(c);
    case Connack(accepted, sp) => ConnackKeeps(c, accepted, sp);
  }

  lemma StepKeeps(c: Client, x: Input)
    requires Good(c)
    ensures Good(Step(c, x))
  {
    if !c.fault {
      match x
      case Prepare => PrepareKeeps(c);
      case SendPrepared(qos, len, total, configured) => SendCallKeeps(c, qos, len, total, configured);
      case Cancel(id) => CancelKeeps(c, id);
      case Ack(kind, pid) => AckKeeps(c, kind, pid);
      case Tick(calls) => TickKeeps(c, calls);
      case NetworkDisconnected => LinkStepKeeps(c, x);
      case Disconnect(_) => LinkStepKeeps(c, x);
      case Connect => LinkStepKeeps(c, x);
      case Connack(_, _) => LinkStepKeeps(c, x);
      case ConnectEnds => ElsewhereStepKeeps(c, x);
      case CleanOps => ElsewhereStepKeeps(c, x);
      case OtherStarts(_) => ElsewhereStepKeeps(c, x);
      case OtherEnds(_, _) => ElsewhereStepKeeps(c, x);
    }
  }

  lemma {:induction false} RunKeeps(o: Ordering, maxOut: int, idLimit: nat, xs: seq<Input>)
    ensures Good(Run(NewClient(o, maxOut, idLimit), xs))
    decreases |xs|
  {
    if xs != [] {
      var before := xs[..|xs| - 1];
      RunKeeps(o, maxOut, idLimit, before);
      StepKeeps(Run(NewClient(o, maxOut, idLimit), before), xs[|xs| - 1]);
    }
  }
}
