/** The client in the form of its source: publish operations are objects updated in place,
    lists are walked by index while entries leave them. Each method is proved to do what the
    function of the same name in SendModel says. */
module SendClient {
  import opened PacketIds
  import opened History
  import opened SendModel
  import opened SendInvariant
  import opened SendSteps
  import opened SendSession
  import opened SendRuns

  class SendOp {
    const id: int
    var qos: int
    var packetId: int
    var len: int
    var totalSendAttempts: int
    var sendAttempts: int
    var issued: bool
    var published: bool
    var acked: bool
    var paused: bool
    var dup: bool
    var timerActive: bool
    var timerSuspended: bool

    constructor (id: int)
      ensures State() == Fresh(id)
    {
      this.id := id;
      qos, packetId, len, totalSendAttempts, sendAttempts := 0, 0, 0, DEFAULT_ATTEMPTS, 0;
      issued, published, acked, paused, dup := false, false, false, false, false;
      timerActive, timerSuspended := false, false;
    }

    function State(): Send
      reads this
    {
      Send(id, qos, packetId, len, totalSendAttempts, sendAttempts, issued, published, acked, paused, dup,
           timerActive, timerSuspended)
    }
  }

  class ClientImpl {
    const ordering: Ordering
    const maxOut: int
    var session: Session
    var preparationLocked: bool
    var sendOps: seq<SendOp>
    var ops: Registry
    var ids: IdUse
    var nextId: int
    var halted: bool
    ghost var model: Client

    ghost predicate Valid()
      reads this, sendOps
    {
      && Matches(sendOps, model.sends, nextId)
      && model == Client(ordering, maxOut, session, preparationLocked, model.sends, ops, ids, nextId, model.log, halted)
    }

    constructor (o: Ordering, maxOut: int, idLimit: nat)
      ensures Valid() && model == NewClient(o, maxOut, idLimit)
    {
      ordering, this.maxOut := o, maxOut;
      session, preparationLocked, sendOps := Session(false, false, false, false, false), false, [];
      ops, ids, nextId, halted := Registry([], false), IdUse(Pool([], 0, idLimit), []), 1, false;
      model := NewClient(o, maxOut, idLimit);
    }

    // ---------------------------------------------------------------- questions about the list

    method PositionOf(op: SendOp, ghost i: nat) returns (idx: nat)
      requires i < |sendOps| && sendOps[i] == op
      requires forall j, k | 0 <= j < k < |sendOps| :: sendOps[j].id != sendOps[k].id
      ensures idx == i
    {
      idx := 0;
      while sendOps[idx] != op
        invariant idx <= i
        decreases i - idx
      {
        idx := idx + 1;
      }
    }

    method HasPausedSendsBefore(op: SendOp, ghost i: nat) returns (r: bool)
      requires Valid() && i < |sendOps| && sendOps[i] == op
      ensures r == SendModel.HasPausedSendsBefore(model.sends, i)
    {
      var idx := |sendOps| - 1;
      while sendOps[idx] != op
        invariant i <= idx < |sendOps|
        decreases idx
      {
        idx := idx - 1;
      }
      r := idx > 0 && sendOps[idx - 1].paused;
    }

    method HasHigherQosSendsBefore(op: SendOp, qos: int, ghost i: nat) returns (r: bool)
      requires Valid() && i < |sendOps| && sendOps[i] == op && qos == op.qos
      ensures r == SendModel.HasHigherQosSendsBefore(model.sends, i)
    {
      var idx := 0;
      while sendOps[idx] != op
        invariant idx <= i
        invariant forall j | 0 <= j < idx :: model.sends[j].qos <= qos
        decreases i - idx
      {
        if sendOps[idx].qos > qos { return true; }
        idx := idx + 1;
      }
      r := false;
    }

    method CanSend(op: SendOp, ghost i: nat) returns (r: bool)
      requires Valid() && i < |sendOps| && sendOps[i] == op
      ensures r == SendModel.CanSend(model, i)
    {
      if ordering.SameQos? { return true; }
      var paused := HasPausedSendsBefore(op, i);
      if paused { return false; }
      var higher := HasHigherQosSendsBefore(op, op.qos, i);
      r := !higher;
    }

    method FindSendOp(pid: int) returns (idx: nat)
      requires Valid()
      ensures idx == FindSend(model.sends, pid)
    {
      idx := 0;
      while idx < |sendOps| && sendOps[idx].packetId != pid
        invariant idx <= |sendOps|
        invariant forall j | 0 <= j < idx :: model.sends[j].pid != pid
      {
        idx := idx + 1;
      }
    }

    method IsLegitSendAck(op: SendOp, pubcompAck: bool, ghost i: nat) returns (r: bool)
      requires Valid() && i < |sendOps| && sendOps[i] == op
      ensures r == SendModel.IsLegitSendAck(model.sends, i, pubcompAck)
    {
      if !op.published { return false; }
      var idx := 0;
      while sendOps[idx] != op
        invariant idx <= i
        invariant LegitFrom(model.sends, i, pubcompAck, 0) == LegitFrom(model.sends, i, pubcompAck, idx)
        decreases i - idx
      {
        if !sendOps[idx].acked { return false; }
        if pubcompAck && op != sendOps[0] { return false; }
        idx := idx + 1;
      }
      r := true;
    }

    // ---------------------------------------------------------------- packets and callbacks

    /** Everything agrees with the model but entry `i`, which is now `s`. */
    ghost predicate ValidBut(i: nat, s: Send)
      reads this, sendOps
    {
      && i < |sendOps| && sendOps[i].State() == s
      && (forall j, k | 0 <= j < k < |sendOps| :: sendOps[j].id != sendOps[k].id)
      && (forall k | 0 <= k < |sendOps| :: sendOps[k].id < nextId)
      && |model.sends| == |sendOps|
      && (forall k | 0 <= k < |sendOps| && k != i :: sendOps[k].State() == model.sends[k])
      && model == Client(ordering, maxOut, session, preparationLocked, model.sends, ops, ids, nextId, model.log, halted)
    }

    lemma OthersApart(i: nat)
      requires i < |sendOps|
      requires forall j, k | 0 <= j < k < |sendOps| :: sendOps[j].id != sendOps[k].id
      ensures forall k | 0 <= k < |sendOps| && k != i :: sendOps[k] != sendOps[i]
    {
    }

    ghost method Track(i: nat, s: Send)
      requires ValidBut(i, s)
      modifies this`model
      ensures Valid() && model == With(old(model), i, s)
    {
      model := With(model, i, s);
    }

    /** The output buffer takes the packet, or it is too long. */
    method SendMessage(len: int, ghost e: Event) returns (ok: bool)
      modifies this`model
      ensures ok == (len <= maxOut)
      ensures model == if ok then Emit(old(model), e) else old(model)
    {
      ok := len <= maxOut;
      if ok { model := Emit(model, e); }
    }

    // ---------------------------------------------------------------- resume and complete

    method ResumeSendOpsSince(from: nat)
      requires Valid()
      modifies this, sendOps
      ensures Valid() && model == ResumeSince(old(model), from)
      ensures Within(sendOps, old(sendOps))
      decreases PausedCount(model.sends), |model.sends|, 1, 0
    {
      var idx: nat := from;
      while idx < |sendOps|
        invariant Valid() && ResumeSince(model, idx) == ResumeSince(old(model), from)
        invariant Within(sendOps, old(sendOps))
        invariant PausedCount(model.sends) <= PausedCount(old(model).sends) && |model.sends| <= |old(model).sends|
        decreases PausedCount(model.sends), |sendOps| - idx
      {
        var op := sendOps[idx];
        ResumeSinceUnfolds(model, idx);
        if !op.paused {
          idx := idx + 1;
          continue;
        }
        var resumed := Resume(op, idx);
        if !resumed { break; }
      }
    }

    method Resume(op: SendOp, ghost i: nat) returns (resumed: bool)
      requires Valid() && i < |sendOps| && sendOps[i] == op
      modifies this, sendOps
      ensures Valid() && resumed == (old(model).sends[i].paused && SendModel.CanSend(old(model), i))
      ensures model == if resumed then SendModel.Resume(old(model), i) else old(model)
      ensures Within(sendOps, old(sendOps))
      decreases PausedCount(model.sends), |model.sends|, 0, 0
    {
      if !op.paused { return false; }
      var can := CanSend(op, i);
      if !can { return false; }
      ghost var c := With(model, i, model.sends[i].(paused := false));
      PausedCountUpdate(model.sends, i, c.sends[i]);
      op.paused := false;
      Track(i, c.sends[i]);
      SendOrComplete(op, i);
      ResumeIs(old(model), i);
      resumed := true;
    }

    method SendOrComplete(op: SendOp, ghost i: nat)
      requires Valid() && i < |sendOps| && sendOps[i] == op && !op.paused
      modifies this, sendOps
      ensures Valid() && Within(sendOps, old(sendOps))
      ensures var c := old(model);
        model == if Fits(c, i) then DoSend(c, i) else SendModel.CompleteWithCb(c, i, OutOfMemory)
      decreases PausedCount(model.sends), |model.sends|, 3, 0
    {
      var ok := DoSendInternal(op, i);
      if !ok {
        PausedCountUpdate(old(model).sends, i, model.sends[i]);
        CompleteWithCb(op, OutOfMemory, i);
        UnsentAttempts(old(model), i);
      }
    }

    method DoSendInternal(op: SendOp, ghost i: nat) returns (ok: bool)
      requires Valid() && i < |sendOps| && sendOps[i] == op && !op.paused
      modifies this, sendOps
      ensures Valid() && ok == Fits(old(model), i)
      ensures model == if ok then DoSend(old(model), i) else With(old(model), i, old(model).sends[i].(attempts := 0))
      ensures Within(sendOps, old(sendOps))
      ensures !ok ==> sendOps == old(sendOps)
      decreases PausedCount(model.sends), |model.sends|, 2, 0
    {
      ok := SendPublish(op, i);
      if !ok { return; }
      PausedCountUpdate(old(model).sends, i, model.sends[i]);
      DoSendIs(old(model), i);
      if op.qos == 0 {
        CompleteWithCb(op, Complete, i);
        return;
      }
      op.timerActive := true;
      Track(i, model.sends[i].(armed := true));
    }

    method SendPublish(op: SendOp, ghost i: nat) returns (ok: bool)
      requires Valid() && i < |sendOps| && sendOps[i] == op
      modifies this`model, op`sendAttempts, op`published
      ensures Valid() && ok == Fits(old(model), i)
      ensures var c := With(old(model), i, Sent(old(model).sends[i], ok));
        model == if ok then Emit(c, FirstPublish(old(model), i)) else c
    {
      ok := PublishOnWire(op, i);
      Track(i, Sent(old(model).sends[i], ok));
    }

    method PublishOnWire(op: SendOp, ghost i: nat) returns (ok: bool)
      requires Valid() && i < |sendOps| && sendOps[i] == op
      modifies this`model, op`sendAttempts, op`published
      ensures ok == Fits(old(model), i) && ValidBut(i, Sent(old(model).sends[i], ok))
      ensures model == if ok then Emit(old(model), FirstPublish(old(model), i)) else old(model)
    {
      OthersApart(i);
      op.sendAttempts := 0;
      ok := SendMessage(op.len, FirstPublish(old(model), i));
      if ok {
        op.published := true;
        op.sendAttempts := op.sendAttempts + 1;
      }
    }

    method CompleteWithCb(op: SendOp, status: Status, ghost i: nat)
      requires Valid() && i < |sendOps| && sendOps[i] == op
      modifies this, sendOps
      ensures Valid() && model == SendModel.CompleteWithCb(old(model), i, status)
      ensures Within(sendOps, old(sendOps))
      decreases PausedCount(model.sends), |model.sends|, 1, 0
    {
      var cb, qos := op.issued, op.qos;
      OpComplete(op, i);
      if cb { model := Emit(model, Callback(op.id, qos, status)); }
    }

    method OpComplete(op: SendOp, ghost i: nat)
      requires Valid() && i < |sendOps| && sendOps[i] == op
      modifies this, sendOps
      ensures Valid() && model == SendModel.OpComplete(old(model), i)
      ensures Within(sendOps, old(sendOps))
      decreases PausedCount(model.sends), |model.sends|, 0, 0
    {
      PausedCountErase(model.sends, i);
      var idx := EraseFromLists(op, i);
      if session.disconnecting { return; }
      ResumeSendOpsSince(idx);
    }

    /** Out of m_ops and m_sendOps; the packet identifier goes back to the pool. */
    method EraseFromLists(op: SendOp, ghost i: nat) returns (idx: nat)
      requires Valid() && i < |sendOps| && sendOps[i] == op
      modifies this
      ensures Valid() && idx == i && model == Erase(old(model), i)
      ensures sendOps == old(sendOps)[..i] + old(sendOps)[i + 1..]
    {
      ops := Registry(Nullified(ops.refs, op.id), true);
      idx := PositionOf(op, i);
      ids := ids.(pool := Release(ids.pool, op.packetId));
      ErasedMatches(sendOps, model.sends, i, nextId);
      sendOps := sendOps[..idx] + sendOps[idx + 1..];
      model := Erase(model, i);
    }

    // ---------------------------------------------------------------- re-sending

    method CancelTimer(op: SendOp, ghost i: nat)
      requires Valid() && i < |sendOps| && sendOps[i] == op
      modifies this`model, op`timerActive
      ensures Valid() && model == With(old(model), i, old(model).sends[i].(armed := false))
    {
      OthersApart(i);
      op.timerActive := false;
      Track(i, old(model).sends[i].(armed := false));
    }

    /** An assertion of the code fails. */
    method Halt()
      requires Valid()
      modifies this`halted, this`model
      ensures Valid() && model == old(model).(fault := true)
    {
      halted := true;
      model := model.(fault := true);
    }

    method ResendDupMsg(op: SendOp, ghost cause: Cause, ghost i: nat)
      requires Valid() && i < |sendOps| && sendOps[i] == op
      modifies this, sendOps
      ensures Valid() && model == ResendDup(old(model), i, cause) && Within(sendOps, old(sendOps))
    {
      if op.totalSendAttempts <= op.sendAttempts {
        CompleteWithCb(op, Timeout, i);
        return;
      }
      if !op.published {
        Halt();
        return;
      }
      var ok := RepeatOnWire(op, cause, i);
      if !ok { CompleteWithCb(op, InternalError, i); }
    }

    method RepeatOnWire(op: SendOp, ghost cause: Cause, ghost i: nat) returns (ok: bool)
      requires Valid() && i < |sendOps| && sendOps[i] == op
      modifies this`model, op
      ensures Valid() && ok == ResendFits(old(model), i)
      ensures var c := old(model);
        model == if ok then Resent(c, i, cause, c.sends[i].attempts + 1) else With(c, i, Marked(c.sends[i]))
    {
      ok := RepeatPacket(op, cause, i);
      Track(i, Retried(old(model).sends[i], ok));
    }

    method RepeatPacket(op: SendOp, ghost cause: Cause, ghost i: nat) returns (ok: bool)
      requires Valid() && i < |sendOps| && sendOps[i] == op
      modifies this`model, op
      ensures ok == ResendFits(old(model), i) && ValidBut(i, Retried(old(model).sends[i], ok))
      ensures model == if ok then Emit(old(model), ResendPacket(old(model).sends[i], cause)) else old(model)
    {
      OthersApart(i);
      if !op.acked {
        op.dup := true;
        ok := SendMessage(op.len, ResendPacket(old(model).sends[i], cause));
      } else {
        ok := SendMessage(PUBREL_LEN, ResendPacket(old(model).sends[i], cause));
      }
      if ok {
        op.sendAttempts := op.sendAttempts + 1;
        op.timerActive := true;
      }
    }

    method ForceDupResend(op: SendOp, ghost i: nat)
      requires Valid() && i < |sendOps| && sendOps[i] == op
      modifies this, sendOps
      ensures Valid() && model == SendModel.ForceDupResend(old(model), i) && Within(sendOps, old(sendOps))
    {
      if op.paused { return; }
      ResendDupMsg(op, Resend, i);
    }

    method PostReconnectionResend(op: SendOp, ghost i: nat)
      requires Valid() && i < |sendOps| && sendOps[i] == op
      modifies this, sendOps
      ensures Valid() && model == SendModel.PostReconnectionResend(old(model), i) && Within(sendOps, old(sendOps))
    {
      if op.paused { return; }
      GiveAttemptBack(op, i);
      ResendDupMsg(op, Reconnect, i);
    }

    /** The count is unsigned. */
    method GiveAttemptBack(op: SendOp, ghost i: nat)
      requires Valid() && i < |sendOps| && sendOps[i] == op
      modifies this`model, op`sendAttempts, op`timerActive
      ensures Valid()
      ensures model == With(old(model), i, GivenBack(old(model).sends[i]))
    {
      LowerAttempts(op, i);
      Track(i, GivenBack(old(model).sends[i]));
    }

    method LowerAttempts(op: SendOp, ghost i: nat)
      requires Valid() && i < |sendOps| && sendOps[i] == op
      modifies op`sendAttempts, op`timerActive
      ensures ValidBut(i, GivenBack(model.sends[i]))
    {
      OthersApart(i);
      op.sendAttempts := if op.sendAttempts == 0 then MAX_UNSIGNED else op.sendAttempts - 1;
      op.timerActive := false;
    }

    /** responseTimeoutInternal, with its assertions. */
    method ResponseTimeout(id: int)
      requires Valid()
      modifies this, sendOps
      ensures Valid() && model == OnCall(old(model), SendCall(id)) && Within(sendOps, old(sendOps))
    {
      var i := PositionOfId(id);
      if i == |sendOps| || sendOps[i].timerActive || !sendOps[i].published { Halt(); } else { ResendDupMsg(sendOps[i], Resend, i); }
    }

    method ResendAllUntil(target: SendOp)
      requires Valid() && target in sendOps
      modifies this, sendOps
      ensures Valid() && model == SendModel.ResendAllUntil(old(model), target.id, 0) && Within(sendOps, old(sendOps))
    {
      ghost var all := sendOps;
      var idx: nat := 0;
      while idx < |sendOps|
        invariant Valid() && Within(sendOps, all) && Named(all, target)
        invariant SendModel.ResendAllUntil(model, target.id, idx) == SendModel.ResendAllUntil(old(model), target.id, 0)
        decreases |sendOps| - idx
      {
        var stop;
        idx, stop := ServeOne(idx, target, all);
        if stop { return; }
      }
    }

    /** One turn: where the walk goes on, or that it is over. */
    method ServeOne(idx: nat, target: SendOp, ghost all: seq<SendOp>) returns (next: nat, stop: bool)
      requires Valid() && idx < |sendOps| && Within(sendOps, all) && Named(all, target)
      modifies this, sendOps
      ensures Valid() && Within(sendOps, old(sendOps))
      ensures !stop ==> |sendOps| - next < old(|sendOps|) - idx
      ensures SendModel.ResendAllUntil(old(model), target.id, idx)
                == if stop then model else SendModel.ResendAllUntil(model, target.id, next)
    {
      next, stop := idx, true;
      var op := sendOps[idx];
      ForceDupResend(op, idx);
      if halted || op == target { return; }
      if idx >= |sendOps| {
        Halt();
        return;
      }
      stop := false;
      if sendOps[idx] == op { next := idx + 1; }
    }

    // ---------------------------------------------------------------- acknowledgements

    /** The operation completes with a protocol error, then the session is dropped. */
    method FailProtocol(op: SendOp, ghost i: nat)
      requires Valid() && i < |sendOps| && sendOps[i] == op
      modifies this, sendOps
      ensures Valid() && Within(sendOps, old(sendOps))
      ensures model == SendModel.BrokerDisconnected(SendModel.CompleteWithCb(old(model), i, ProtocolError), true)
    {
      CompleteWithCb(op, ProtocolError, i);
      BrokerDisconnected(true);
    }

    method HandlePuback(op: SendOp, ghost i: nat)
      requires Valid() && i < |sendOps| && sendOps[i] == op
      modifies this, sendOps
      ensures Valid() && model == SendModel.HandlePuback(old(model), i) && Within(sendOps, old(sendOps))
    {
      CancelTimer(op, i);
      if op.qos != 1 { FailProtocol(op, i); } else { CompleteWithCb(op, Complete, i); }
    }

    method HandlePubrec(op: SendOp, ghost i: nat)
      requires Valid() && i < |sendOps| && sendOps[i] == op
      modifies this, sendOps
      ensures Valid() && model == SendModel.HandlePubrec(old(model), i) && Within(sendOps, old(sendOps))
    {
      CancelTimer(op, i);
      if op.qos != 2 || op.acked { FailProtocol(op, i); } else { AcceptPubrec(op, i); }
    }

    method AcceptPubrec(op: SendOp, ghost i: nat)
      requires Valid() && i < |sendOps| && sendOps[i] == op
      modifies this, sendOps
      ensures Valid() && model == SendModel.AcceptPubrec(old(model), i) && Within(sendOps, old(sendOps))
    {
      var ok := PubrelOnWire(op, i);
      if !ok { CompleteWithCb(op, InternalError, i); }
    }

    method PubrelOnWire(op: SendOp, ghost i: nat) returns (ok: bool)
      requires Valid() && i < |sendOps| && sendOps[i] == op
      modifies this`model, op
      ensures Valid() && ok == (PUBREL_LEN <= maxOut)
      ensures var s := old(model).sends[i];
        model == if ok then Emit(With(old(model), i, Received(s, ok)), Pubrel(s.id, s.pid)) else With(old(model), i, Received(s, ok))
    {
      ok := AnswerPubrec(op, i);
      Track(i, Received(old(model).sends[i], ok));
    }

    method AnswerPubrec(op: SendOp, ghost i: nat) returns (ok: bool)
      requires Valid() && i < |sendOps| && sendOps[i] == op
      modifies this`model, op
      ensures ok == (PUBREL_LEN <= maxOut) && ValidBut(i, Received(old(model).sends[i], ok))
      ensures var s := old(model).sends[i]; model == if ok then Emit(old(model), Pubrel(s.id, s.pid)) else old(model)
    {
      OthersApart(i);
      op.acked := true;
      op.sendAttempts := 0;
      ok := SendMessage(PUBREL_LEN, Pubrel(op.id, op.packetId));
      if ok {
        op.sendAttempts := op.sendAttempts + 1;
        op.timerActive := true;
      }
    }

    method HandlePubcomp(op: SendOp, ghost i: nat)
      requires Valid() && i < |sendOps| && sendOps[i] == op
      modifies this, sendOps
      ensures Valid() && model == SendModel.HandlePubcomp(old(model), i) && Within(sendOps, old(sendOps))
    {
      CancelTimer(op, i);
      if op.qos != 2 || !op.acked { FailProtocol(op, i); } else { CompleteWithCb(op, Complete, i); }
    }

    method ProcessPublishAckMsg(kind: AckKind, pid: int)
      requires Valid()
      modifies this, sendOps
      ensures Valid() && model == ProcessAck(old(model), kind, pid) && Within(sendOps, old(sendOps))
    {
      var i := FindSendOp(pid);
      if i == |sendOps| { return; }
      var op := sendOps[i];
      var legit := IsLegitSendAck(op, kind.Pubcomp?, i);
      if !legit {
        ResendAllUntil(op);
        return;
      }
      match kind
      case Puback => HandlePuback(op, i);
      case Pubrec => HandlePubrec(op, i);
      case Pubcomp => HandlePubcomp(op, i);
    }

    // ---------------------------------------------------------------- the session

    method BrokerDisconnected(report: bool)
      requires Valid()
      modifies this, sendOps
      ensures Valid() && model == SendModel.BrokerDisconnected(old(model), report) && sendOps == old(sendOps)
    {
      session := session.(initialized := false, connected := false, disconnecting := true, connecting := false);
      SuspendTimers();
      model := SendModel.BrokerDisconnected(model, report);
    }

    method SuspendTimers()
      requires |sendOps| == |model.sends| && !session.connected
      requires forall i, j | 0 <= i < j < |sendOps| :: sendOps[i].id != sendOps[j].id
      requires forall k | 0 <= k < |sendOps| :: sendOps[k].State() == model.sends[k]
      modifies sendOps
      ensures forall k | 0 <= k < |sendOps| :: sendOps[k].State() == Suspended(model.sends)[k]
    {
      var idx := 0;
      while idx < |sendOps|
        invariant idx <= |sendOps|
        invariant forall k | 0 <= k < idx :: sendOps[k].State() == Suspended(model.sends)[k]
        invariant forall k | idx <= k < |sendOps| :: sendOps[k].State() == model.sends[k]
      {
        OthersApart(idx);
        ConnectivityChanged(sendOps[idx]);
        idx := idx + 1;
      }
    }

    /** A timer is suspended only while it is active. */
    method ConnectivityChanged(op: SendOp)
      modifies op`timerSuspended
      ensures op.timerSuspended == if op.timerActive then !session.connected || session.networkDown else old(op.timerSuspended)
    {
      if op.timerActive { op.timerSuspended := !session.connected || session.networkDown; }
    }

    method PostReconnectionResendAll()
      requires Valid()
      modifies this, sendOps
      ensures Valid() && model == ResendLoop(old(model), 0) && Within(sendOps, old(sendOps))
    {
      var idx := 0;
      while idx < |sendOps|
        invariant Valid() && Within(sendOps, old(sendOps))
        invariant ResendLoop(model, idx) == ResendLoop(old(model), 0)
        decreases |sendOps| - idx
      {
        var intact := ResendOne(idx);
        if !intact { return; }
        idx := idx + 1;
      }
    }

    method ResendOne(idx: nat) returns (intact: bool)
      requires Valid() && idx < |sendOps|
      modifies this, sendOps
      ensures Valid() && Within(sendOps, old(sendOps)) && |sendOps| <= old(|sendOps|)
      ensures intact ==> |sendOps| == old(|sendOps|)
      ensures ResendLoop(old(model), idx) == if intact then ResendLoop(model, idx + 1) else model
    {
      var n := |sendOps|;
      PostReconnectionResend(sendOps[idx], idx);
      intact := |sendOps| == n;
      if !intact { Halt(); }
    }

    method ResumeFromIdx() returns (from: nat)
      requires Valid()
      ensures from == TrailingPaused(model.sends, |model.sends|)
    {
      from := |sendOps|;
      while from > 0 && sendOps[from - 1].paused
        invariant from <= |sendOps| && TrailingPaused(model.sends, from) == TrailingPaused(model.sends, |model.sends|)
      {
        from := from - 1;
      }
    }

    method PositionOfId(id: int) returns (i: nat)
      requires Valid()
      ensures i == IndexOf(model.sends, id)
    {
      i := 0;
      while i < |sendOps| && sendOps[i].id != id
        invariant i <= |sendOps| && forall j | 0 <= j < i :: model.sends[j].id != id
      {
        i := i + 1;
      }
    }

    method TerminateSendOps()
      requires Valid()
      modifies this, sendOps
      ensures Valid() && model == TerminateWalk(old(model), 0) && Within(sendOps, old(sendOps))
    {
      var k := 0;
      while k < |ops.refs|
        invariant Valid() && Within(sendOps, old(sendOps))
        invariant TerminateWalk(model, k) == TerminateWalk(old(model), 0)
        decreases |sendOps|, |ops.refs| - k
      {
        match ops.refs[k] {
          case OtherRef =>
          case Null =>
            Halt();
            return;
          case SendRef(id) =>
            var i := PositionOfId(id);
            if i == |sendOps| {
              Halt();
              return;
            }
            CompleteWithCb(sendOps[i], Aborted, i);
        }
        k := k + 1;
      }
    }

    method BrokerConnected(sessionPresent: bool)
      requires Valid()
      modifies this, sendOps
      ensures Valid() && model == SendModel.BrokerConnected(old(model), sessionPresent) && Within(sendOps, old(sendOps))
    {
      session := session.(connected := true, connecting := false);
      model := model.(session := session);
      if sessionPresent {
        model := Emit(model, Mark(Resumed));
        PostReconnectionResendAll();
        if halted { return; }
        var from := ResumeFromIdx();
        if from < |sendOps| { ResumeSendOpsSince(from); }
      } else {
        TerminateSendOps();
      }
    }


    // ---------------------------------------------------------------- the calls

    method PublishPrepare()
      requires Valid()
      modifies this
      ensures Valid() && model == DoPrepare(old(model))
      ensures forall k | 0 <= k < |sendOps| :: sendOps[k] in old(sendOps) || fresh(sendOps[k])
    {
      if !session.connected || session.disconnecting || session.networkDown || preparationLocked { return; }
      var op := new SendOp(nextId);
      preparationLocked := true;
      ops := ops.(refs := ops.refs + [SendRef(nextId)]);
      sendOps := sendOps + [op];
      nextId := nextId + 1;
      model := DoPrepare(model);
    }

    /** Configures and sends the prepared publish. */
    method Send(qos: int, len: int, total: int, configured: bool)
      requires Valid()
      modifies this, sendOps
      ensures Valid() && model == DoSendCall(old(model), qos, len, total, configured) && Within(sendOps, old(sendOps))
    {
      SendCallForm(model, qos, len, total, configured);
      if sendOps == [] || !(0 <= qos <= MAX_QOS) || total <= 0 { return; }
      var op := sendOps[|sendOps| - 1];
      assert op.State() == model.sends[|model.sends| - 1];
      if op.issued || op.paused { return; }
      SendPrepared(op, qos, len, total, configured, |sendOps| - 1);
    }

    method SendPrepared(op: SendOp, qos: int, len: int, total: int, configured: bool, ghost i: nat)
      requires Valid() && i < |sendOps| && sendOps[i] == op && !op.paused
      modifies this, sendOps
      ensures Valid() && Within(sendOps, old(sendOps))
      ensures var c := old(model).(locked := false);
        model == if configured then IssuedGoesOn(Issue(c, i, qos, len, total), i) else Leaves(c, i, Refused)
    {
      AllowNextPrepare();
      if configured { IssueAndSend(op, qos, len, total, i); } else { Leave(op, Refused, i); }
    }

    method IssueAndSend(op: SendOp, qos: int, len: int, total: int, ghost i: nat)
      requires Valid() && i < |sendOps| && sendOps[i] == op && !op.paused
      modifies this, sendOps
      ensures Valid() && Within(sendOps, old(sendOps))
      ensures model == IssuedGoesOn(Issue(old(model), i, qos, len, total), i)
    {
      IssueOp(op, qos, len, total, i);
      SendIssued(op, i);
    }

    method AllowNextPrepare()
      requires Valid()
      modifies this`preparationLocked, this`model
      ensures Valid() && model == old(model).(locked := false)
    {
      preparationLocked := false;
      model := model.(locked := false);
    }

    /** Out of the lists without a callback. */
    method Leave(op: SendOp, ghost why: Silence, ghost i: nat)
      requires Valid() && i < |sendOps| && sendOps[i] == op
      modifies this, sendOps
      ensures Valid() && Within(sendOps, old(sendOps)) && model == Leaves(old(model), i, why)
    {
      OpComplete(op, i);
      model := Emit(model, Silent(op.id, why));
    }

    method IssueOp(op: SendOp, qos: int, len: int, total: int, ghost i: nat)
      requires Valid() && i < |sendOps| && sendOps[i] == op
      modifies this`ids, this`model, op
      ensures Valid() && model == Issue(old(model), i, qos, len, total)
    {
      FillIn(op, qos, len, total, i);
      model := Issue(model, i, qos, len, total);
    }

    method FillIn(op: SendOp, qos: int, len: int, total: int, ghost i: nat)
      requires Valid() && i < |sendOps| && sendOps[i] == op
      modifies this`ids, op
      ensures op.State() == Issue(old(model), i, qos, len, total).sends[i]
      ensures ids == Issue(old(model), i, qos, len, total).ids
      ensures forall k | 0 <= k < |sendOps| && k != i :: sendOps[k].State() == model.sends[k]
    {
      OthersApart(i);
      op.issued, op.qos, op.len, op.totalSendAttempts, op.packetId := true, qos, len, total, 0;
      if qos > 0 {
        op.packetId := Allocated(ids.pool);
        ids := ids.(pool := Alloc(ids.pool));
      }
    }

    method SendIssued(op: SendOp, ghost i: nat)
      requires Valid() && i < |sendOps| && sendOps[i] == op && !op.paused
      modifies this, sendOps
      ensures Valid() && Within(sendOps, old(sendOps))
      ensures model == IssuedGoesOn(old(model), i)
    {
      var can := CanSend(op, i);
      if !can {
        Pause(op, i);
        return;
      }
      var ok := DoSendInternal(op, i);
      if !ok {
        Leave(op, Refused, i);
        UnsentRefused(old(model), i);
      }
    }

    method Pause(op: SendOp, ghost i: nat)
      requires Valid() && i < |sendOps| && sendOps[i] == op
      modifies this`model, op`paused
      ensures Valid() && model == With(old(model), i, old(model).sends[i].(paused := true))
    {
      OthersApart(i);
      op.paused := true;
      Track(i, old(model).sends[i].(paused := true));
    }

    method Cancel(id: int)
      requires Valid()
      modifies this, sendOps
      ensures Valid() && model == DoCancel(old(model), id) && Within(sendOps, old(sendOps))
    {
      var i := PositionOfId(id);
      if i == |sendOps| { return; }
      CancelAt(i);
    }

    method CancelAt(i: nat)
      requires Valid() && i < |sendOps|
      modifies this, sendOps
      ensures Valid() && Within(sendOps, old(sendOps))
      ensures var c := old(model); model == Leaves(if c.sends[i].issued then c else c.(locked := false), i, Cancelled)
    {
      if !sendOps[i].issued { AllowNextPrepare(); }
      Leave(sendOps[i], Cancelled, i);
    }

    /** A tick: timers that expire are cancelled as they are found, then called. */
    method TimersTick(calls: seq<Call>)
      requires Valid()
      modifies this, sendOps
      ensures Valid() && model == DoTick(old(model), calls) && Within(sendOps, old(sendOps))
    {
      var due := CollectCalls(calls);
      CallBack(due);
    }

    method CollectCalls(calls: seq<Call>) returns (due: seq<Call>)
      requires Valid()
      modifies this`model, sendOps
      ensures Valid() && due == Collected(old(model).sends, calls)
      ensures model == old(model).(sends := TimersCancelled(old(model).sends, due))
    {
      due := [];
      var k := 0;
      assert TimersCancelled(model.sends, []) == model.sends;
      while k < |calls|
        invariant k <= |calls| && Valid() && due == Collected(old(model).sends, calls[..k])
        invariant model == old(model).(sends := TimersCancelled(old(model).sends, due))
      {
        assert calls[..k + 1][..k] == calls[..k];
        var x := calls[k];
        match x {
          case PingCall =>
            if x !in due {
              PingCancelsNone(old(model).sends, due);
              due := due + [x];
            }
          case SendCall(id) =>
            var expired := CancelExpired(id, old(model), due);
            if expired { due := due + [x]; }
        }
        k := k + 1;
      }
      assert calls[..k] == calls;
    }

    method CancelExpired(id: int, ghost c: Client, ghost due: seq<Call>) returns (expired: bool)
      requires Valid() && model == c.(sends := TimersCancelled(c.sends, due))
      modifies this`model, sendOps
      ensures Valid() && expired == (Expiring(c.sends, id) && SendCall(id) !in due)
      ensures model == c.(sends := TimersCancelled(c.sends, if expired then due + [SendCall(id)] else due))
    {
      var i := PositionOfId(id);
      SamePositions(c.sends, due, id);
      expired := i < |sendOps| && sendOps[i].timerActive && !sendOps[i].timerSuspended;
      if expired {
        CancelsOneMore(c.sends, due, i);
        CancelTimer(sendOps[i], i);
      }
    }

    method CallBack(due: seq<Call>)
      requires Valid()
      modifies this, sendOps
      ensures Valid() && model == OnCalls(old(model), due) && Within(sendOps, old(sendOps))
    {
      var k := 0;
      while k < |due| && !halted
        invariant k <= |due| && Valid() && Within(sendOps, old(sendOps))
        invariant OnCalls(model, due[k..]) == OnCalls(old(model), due)
      {
        assert due[k..][1..] == due[k + 1..];
        match due[k] {
          case PingCall => if session.connected { BrokerDisconnected(true); }
          case SendCall(id) => ResponseTimeout(id);
        }
        k := k + 1;
      }
    }

    method NotifyNetworkDisconnected()
      requires Valid()
      modifies this, sendOps
      ensures Valid() && model == DoNetworkDisconnected(old(model)) && Within(sendOps, old(sendOps))
    {
      session := session.(networkDown := true);
      model := model.(session := session);
      if !session.disconnecting { BrokerDisconnected(false); }
    }

    method ConnackReceived(accepted: bool, sessionPresent: bool)
      requires Valid()
      modifies this, sendOps
      ensures Valid() && model == DoConnack(old(model), accepted, sessionPresent) && Within(sendOps, old(sendOps))
    {
      if !session.connecting { return; }
      if !accepted {
        session := session.(connecting := false, connected := false, disconnecting := false);
        model := model.(session := session);
      } else {
        BrokerConnected(sessionPresent);
      }
    }

    method Connect()
      requires Valid()
      modifies this`session, this`model
      ensures Valid() && model == DoConnect(old(model))
    {
      session := session.(networkDown := false);
      if !session.initialized {
        session := session.(initialized := true, connected := false, disconnecting := false, connecting := false);
      }
      if !session.connecting && !session.disconnecting && !session.connected && !preparationLocked {
        session := session.(connecting := true);
      }
      model := model.(session := session);
    }

    method ConnectEnds()
      requires Valid()
      modifies this`session, this`model
      ensures Valid() && model == old(model).(session := old(model).session.(connecting := false))
    {
      session := session.(connecting := false);
      model := model.(session := session);
    }

    method CleanOps()
      requires Valid()
      modifies this`ops, this`model
      ensures Valid() && model == DoCleanOps(old(model))
    {
      if !ops.deleted { return; }
      var live: seq<Ref>, k := [], 0;
      assert ops.refs[0..] == ops.refs;
      while k < |ops.refs|
        invariant k <= |ops.refs| && live + LiveRefs(ops.refs[k..]) == LiveRefs(ops.refs)
      {
        assert ops.refs[k..][1..] == ops.refs[k + 1..];
        if !ops.refs[k].Null? { live := live + [ops.refs[k]]; }
        k := k + 1;
      }
      ops := Registry(live, false);
      model := model.(ops := ops);
    }

    method OtherStarts(takesId: bool)
      requires Valid()
      modifies this`ops, this`ids, this`model
      ensures Valid() && model == DoOtherStarts(old(model), takesId)
    {
      ops := ops.(refs := ops.refs + [OtherRef]);
      if takesId { ids := IdUse(Alloc(ids.pool), ids.others + [Allocated(ids.pool)]); }
      model := DoOtherStarts(model, takesId);
    }

    method OtherEnds(ref: nat, held: nat)
      requires Valid()
      modifies this`ops, this`ids, this`model
      ensures Valid() && model == DoOtherEnds(old(model), ref, held)
    {
      if ref < |ops.refs| && ops.refs[ref].OtherRef? { ops := Registry(ops.refs[ref := Null], true); }
      if held < |ids.others| {
        ids := IdUse(Release(ids.pool, ids.others[held]), ids.others[..held] + ids.others[held + 1..]);
      }
      model := DoOtherEnds(model, ref, held);
    }

    /** Any event: so every run of the object is a run of the model. */
    method Perform(x: Input)
      requires Valid()
      modifies this, sendOps
      ensures Valid() && model == Step(old(model), x)
      ensures forall k | 0 <= k < |sendOps| :: sendOps[k] in old(sendOps) || fresh(sendOps[k])
    {
      if halted { return; }
      match x
      case Prepare => PublishPrepare();
      case SendPrepared(qos, len, total, configured) => Send(qos, len, total, configured);
      case Cancel(id) => Cancel(id);
      case Ack(kind, pid) => if pid != 0 && !session.networkDown { ProcessPublishAckMsg(kind, pid); }
      case Tick(calls) => TimersTick(calls);
      case NetworkDisconnected => NotifyNetworkDisconnected();
      case Disconnect(report) => BrokerDisconnected(report);
      case Connack(accepted, sessionPresent) => ConnackReceived(accepted, sessionPresent);
      case Connect => Connect();
      case _ => PerformApart(x);
    }

    /** Events that touch no publish. */
    method PerformApart(x: Input)
      requires Valid() && !halted && (x.ConnectEnds? || x.CleanOps? || x.OtherStarts? || x.OtherEnds?)
      modifies this
      ensures Valid() && model == Step(old(model), x) && sendOps == old(sendOps)
    {
      match x
      case ConnectEnds => ConnectEnds();
      case CleanOps => CleanOps();
      case OtherStarts(takesId) => OtherStarts(takesId);
      case OtherEnds(ref, held) => OtherEnds(ref, held);
    }
  }

  /** Object by object the list is the list of states; that survives an erasure. */
  ghost predicate Matches(ops: seq<SendOp>, sends: seq<Send>, nextId: int)
    reads ops
  {
    && |ops| == |sends|
    && (forall k | 0 <= k < |ops| :: ops[k].State() == sends[k] && ops[k].id < nextId)
    && (forall j, k | 0 <= j < k < |ops| :: ops[j].id != ops[k].id)
  }

  lemma ErasedMatches(ops: seq<SendOp>, sends: seq<Send>, i: nat, nextId: int)
    requires Matches(ops, sends, nextId) && i < |ops|
    ensures Matches(ops[..i] + ops[i + 1..], Without(sends, i), nextId)
  {
    var r := ops[..i] + ops[i + 1..];
    assert forall k | 0 <= k < |r| :: r[k] == ops[if k < i then k else k + 1];
    assert forall k | 0 <= k < |r| :: Without(sends, i)[k] == sends[if k < i then k else k + 1];
  }

  /** Identities tell the objects of the list apart. */
  ghost predicate Named(all: seq<SendOp>, target: SendOp) {
    && target in all
    && forall j, k | 0 <= j < |all| && 0 <= k < |all| && all[j].id == all[k].id :: all[j] == all[k]
  }

  ghost predicate Within(some: seq<SendOp>, all: seq<SendOp>) {
    forall k | 0 <= k < |some| :: some[k] in all
  }

  // Cancelling timers while collecting their callbacks.

  lemma PingCancelsNone(sends: seq<Send>, due: seq<Call>)
    ensures TimersCancelled(sends, due + [PingCall]) == TimersCancelled(sends, due)
  {
  }

  lemma SamePositions(sends: seq<Send>, due: seq<Call>, id: int)
    ensures IndexOf(TimersCancelled(sends, due), id) == IndexOf(sends, id)
    ensures Expiring(TimersCancelled(sends, due), id) <==> Expiring(sends, id) && SendCall(id) !in due
  {
    SamePlaceOfId(sends, TimersCancelled(sends, due), id);
  }

  lemma {:induction false} SamePlaceOfId(s: seq<Send>, t: seq<Send>, id: int)
    requires |s| == |t| && forall j | 0 <= j < |s| :: s[j].id == t[j].id
    ensures IndexOf(s, id) == IndexOf(t, id)
  {
    if s != [] { SamePlaceOfId(s[1..], t[1..], id); }
  }

  lemma CancelsOneMore(sends: seq<Send>, due: seq<Call>, i: nat)
    requires i < |sends| && forall j, k | 0 <= j < k < |sends| :: TimersCancelled(sends, due)[j].id != TimersCancelled(sends, due)[k].id
    ensures var t := TimersCancelled(sends, due);
      TimersCancelled(sends, due + [SendCall(sends[i].id)]) == t[i := t[i].(armed := false)]
  {
    var t, u := TimersCancelled(sends, due), TimersCancelled(sends, due + [SendCall(sends[i].id)]);
    forall k | 0 <= k < |sends| ensures u[k] == t[i := t[i].(armed := false)][k] {
      assert k != i ==> t[k].id != t[i].id;
    }
  }

  function GivenBack(s: Send): Send {
    s.(attempts := if s.attempts == 0 then MAX_UNSIGNED else s.attempts - 1, armed := false)
  }

  function Received(s: Send, ok: bool): Send {
    if ok then s.(acked := true, attempts := 1, armed := true) else s.(acked := true, attempts := 0)
  }

  function Retried(s: Send, ok: bool): Send {
    if ok then Marked(s).(attempts := s.attempts + 1, armed := true) else Marked(s)
  }

  function Sent(s: Send, ok: bool): Send {
    if ok then s.(attempts := 1, published := true) else s.(attempts := 0)
  }

  function FirstPublish(c: Client, i: nat): Event
    requires i < |c.sends|
  {
    var s := c.sends[i];
    Publish(s.id, s.pid, s.qos, s.dup, First(Unsent(c.sends[..i])), s.total)
  }

  lemma DoSendIs(c: Client, i: nat)
    requires i < |c.sends| && !c.sends[i].paused
    ensures var s := Sent(c.sends[i], true);
      var d := Emit(With(c, i, s), FirstPublish(c, i));
      DoSend(c, i) == if s.qos == 0 then SendModel.CompleteWithCb(d, i, Complete) else With(d, i, s.(armed := true))
  {
  }

  lemma ResumeIs(c: Client, i: nat)
    requires i < |c.sends| && c.sends[i].paused
    ensures var d := With(c, i, c.sends[i].(paused := false));
      SendModel.Resume(c, i) == if Fits(d, i) then DoSend(d, i) else SendModel.CompleteWithCb(d, i, OutOfMemory)
  {
  }

  lemma UnsentRefused(c: Client, i: nat)
    requires i < |c.sends|
    ensures SendModel.OpComplete(With(c, i, c.sends[i].(attempts := 0)), i) == SendModel.OpComplete(c, i)
  {
    ErasedAnyway(c, i, c.sends[i].(attempts := 0));
  }

  /** What becomes of an issued publish. */
  function IssuedGoesOn(c: Client, i: nat): Client
    requires i < |c.sends| && !c.sends[i].paused
  {
    if !SendModel.CanSend(c, i) then With(c, i, c.sends[i].(paused := true))
    else if Fits(c, i) then DoSend(c, i)
    else Leaves(c, i, Refused)
  }

  function Leaves(c: Client, i: nat, why: Silence): Client
    requires i < |c.sends|
  {
    Emit(SendModel.OpComplete(c, i), Silent(c.sends[i].id, why))
  }

  lemma ResumeSinceUnfolds(c: Client, i: nat)
    requires i < |c.sends|
    ensures ResumeSince(c, i) ==
              if !c.sends[i].paused then ResumeSince(c, i + 1)
              else if !SendModel.CanSend(c, i) then c
              else ResumeSince(SendModel.Resume(c, i), i)
  {
  }

  lemma SendCallForm(c: Client, qos: int, len: int, total: int, configured: bool)
    ensures !(HasPrepared(c) && 0 <= qos <= MAX_QOS && total > 0) ==> DoSendCall(c, qos, len, total, configured) == c
    ensures HasPrepared(c) && 0 <= qos <= MAX_QOS && total > 0 ==>
      var i, c0 := |c.sends| - 1, c.(locked := false);
      DoSendCall(c, qos, len, total, configured) ==
        if configured then IssuedGoesOn(Issue(c0, i, qos, len, total), i)
        else Leaves(c0, i, Refused)
  {
  }

  lemma UnsentAttempts(c: Client, i: nat)
    requires i < |c.sends|
    ensures SendModel.CompleteWithCb(With(c, i, c.sends[i].(attempts := 0)), i, OutOfMemory)
              == SendModel.CompleteWithCb(c, i, OutOfMemory)
  {
    var t := c.sends[i].(attempts := 0);
    ErasedAnyway(c, i, t);
    assert SendModel.OpComplete(With(c, i, t), i) == SendModel.OpComplete(c, i);
  }
}
