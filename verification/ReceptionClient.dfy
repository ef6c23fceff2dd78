/** The receiving side in the form of its source: receptions are objects updated in place, the
    filters a vector searched and changed by index. Each method is proved to do what the
    function in Reception says. */
module ReceptionClient {
  import opened Topics
  import opened Filters
  import opened Reception

  class RecvOp {
    var packetId: int
    var timerActive: bool
    var timerSuspended: bool

    constructor ()
      ensures State() == Recv(0, false, false)
    {
      packetId, timerActive, timerSuspended := 0, false, false;
    }

    function State(): Recv
      reads this
    {
      Recv(packetId, timerActive, timerSuspended)
    }
  }

  class ClientImpl {
    const setup: Setup
    var link: Link
    var recvOps: seq<RecvOp>
    var subFilters: seq<string>
    ghost var model: Receiver

    ghost predicate Valid()
      reads this, recvOps
    {
      && (forall i, j | 0 <= i < j < |recvOps| :: recvOps[i] != recvOps[j])
      && |recvOps| == |model.recvs|
      && (forall i | 0 <= i < |recvOps| :: recvOps[i].State() == model.recvs[i])
      && Sorted(subFilters)
      && model == Receiver(link, model.recvs, subFilters, model.log)
    }

    constructor (u: Setup)
      ensures Valid() && model == NewReceiver() && setup == u
    {
      setup, link, recvOps, subFilters := u, Link(false, false, false), [], [];
      model := NewReceiver();
    }

    // ---------------------------------------------------------------- pieces

    method SendMessage(ghost e: Event)
      modifies this`model
      ensures model == old(model).(log := old(model).log + Ack(setup, e))
    {
      model := model.(log := model.log + Ack(setup, e));
    }

    method ReportMsgInfo(topic: string, qos: int, pid: int)
      modifies this`model
      ensures model == old(model).(log := old(model).log + [Report(CString(topic), qos, pid)])
    {
      model := model.(log := model.log + [Report(CString(topic), qos, pid)]);
    }

    method FindRecvOp(pid: int) returns (k: nat)
      requires Valid()
      ensures k == FindRecv(model.recvs, pid)
    {
      k := 0;
      while k < |recvOps| && recvOps[k].packetId != pid
        invariant k <= |recvOps| && forall j | 0 <= j < k :: model.recvs[j].pid != pid
      {
        k := k + 1;
      }
    }

    method FindFilter(topic: string) returns (found: bool)
      requires Valid()
      ensures found == Subscribed(model.filters, topic)
    {
      var i := 0;
      while i < |subFilters|
        invariant i <= |subFilters| && forall j | 0 <= j < i :: !IsTopicMatch(subFilters[j], topic)
      {
        if IsTopicMatch(subFilters[i], topic) { return true; }
        i := i + 1;
      }
      found := false;
    }

    method OpComplete(op: RecvOp, ghost k: nat)
      requires Valid() && k < |recvOps| && recvOps[k] == op
      modifies this`recvOps, this`model
      ensures Valid() && model == old(model).(recvs := Without(old(model).recvs, k))
      ensures recvOps == old(recvOps)[..k] + old(recvOps)[k + 1..]
    {
      var idx := 0;
      while recvOps[idx] != op
        invariant idx <= k
        decreases k - idx
      {
        idx := idx + 1;
      }
      recvOps := recvOps[..idx] + recvOps[idx + 1..];
      model := model.(recvs := Without(model.recvs, k));
      assert forall i | 0 <= i < |recvOps| :: recvOps[i] == old(recvOps)[if i < k then i else i + 1];
    }

    method CancelTimer(op: RecvOp, ghost k: nat)
      requires Valid() && k < |recvOps| && recvOps[k] == op
      modifies op`timerActive, this`model
      ensures Valid() && model == TimerStopped(old(model), k)
    {
      op.timerActive := false;
      model := TimerStopped(model, k);
    }

    method BrokerDisconnected(report: bool)
      requires Valid()
      modifies this`link, this`model, recvOps
      ensures Valid() && model == Dropped(old(model), report)
    {
      link := link.(connected := false, disconnecting := true);
      var i := 0;
      while i < |recvOps|
        invariant i <= |recvOps|
        invariant model == old(model) && link == Dropped(model, report).link
        invariant forall j | 0 <= j < i :: recvOps[j].State() == SuspendedRecv(model.recvs[j])
        invariant forall j | i <= j < |recvOps| :: recvOps[j].State() == model.recvs[j]
      {
        SetSuspended(recvOps[i]);
        i := i + 1;
      }
      model := Dropped(model, report);
    }

    /** connectivityChangedImpl: a timer is suspended, or released, only while it is active. */
    method SetSuspended(op: RecvOp)
      modifies op`timerSuspended
      ensures op.timerSuspended == if op.timerActive then !link.connected || link.networkDown else old(op.timerSuspended)
    {
      if op.timerActive { op.timerSuspended := !link.connected || link.networkDown; }
    }

    // ---------------------------------------------------------------- packets

    method HandlePublish(qos: int, dup: bool, pid: int, topic: string)
      requires Valid() && 0 <= qos <= 3
      modifies this, recvOps
      ensures Valid() && model == OnPublish(setup, old(model), qos, dup, pid, topic)
      ensures forall i | 0 <= i < |recvOps| :: recvOps[i] in old(recvOps) || fresh(recvOps[i])
    {
      if link.disconnecting { return; }
      if qos <= 1 {
        CreateRecvOp(qos, pid, topic);
        return;
      }
      var k := FindRecvOp(pid);
      if k == |recvOps| {
        CreateRecvOp(qos, pid, topic);
      } else if !dup {
        BrokerDisconnected(true);
      } else {
        CancelTimer(recvOps[k], k);
        SendMessage(Pubrec(pid));
      }
    }

    method CreateRecvOp(qos: int, pid: int, topic: string)
      requires Valid() && 0 <= qos <= 3
      modifies this, recvOps
      ensures Valid() && model == Begin(setup, old(model), qos, pid, topic)
      ensures forall i | 0 <= i < |recvOps| :: recvOps[i] in old(recvOps) || fresh(recvOps[i])
    {
      var op := new RecvOp();
      recvOps := recvOps + [op];
      model := model.(recvs := model.recvs + [Recv(0, false, false)]);
      assert model.recvs[..|old(model).recvs|] == old(model).recvs;
      HandleNew(op, qos, pid, topic, old(model));
    }

    /** RecvOp::handle(PublishMsg&), of an operation that has just been created. */
    method HandleNew(op: RecvOp, qos: int, pid: int, topic: string, ghost r: Receiver)
      requires Valid() && recvOps != [] && recvOps[|recvOps| - 1] == op && 0 <= qos <= 3
      requires model == r.(recvs := r.recvs + [Recv(0, false, false)])
      modifies this, recvOps
      ensures Valid() && model == Begin(setup, r, qos, pid, topic)
      ensures forall i | 0 <= i < |recvOps| :: recvOps[i] in old(recvOps)
    {
      if qos > 2 || !link.connected {
        BrokerDisconnected(true);
        return;
      }
      var welcome := TopicIsWelcome(topic);
      if !welcome {
        BrokerDisconnected(true);
        return;
      }
      ghost var n := |r.recvs|;
      assert Without(model.recvs, n) == r.recvs;
      if qos == 0 {
        ReportMsgInfo(topic, 0, 0);
        OpComplete(op, n);
        return;
      }
      ReportMsgInfo(topic, qos, pid);
      if qos == 1 {
        SendMessage(Puback(pid));
        OpComplete(op, n);
        return;
      }
      op.packetId := pid;
      SendMessage(Pubrec(pid));
      op.timerActive := true;
      model := model.(recvs := r.recvs + [Recv(pid, true, false)]);
    }

    method TopicIsWelcome(topic: string) returns (r: bool)
      requires Valid()
      ensures r == (ValidTopic(setup, topic) && (setup.gate.verify ==> Subscribed(model.filters, topic)))
    {
      ShownUpToNul(topic);
      var valid := VerifyPubTopic(CString(topic), false, setup.verifyIncoming);
      if topic == "" || !valid { return false; }
      if !setup.gate.verify { return true; }
      r := FindFilter(topic);
    }

    method HandlePubrel(pid: int, valid: bool)
      requires Valid()
      modifies this, recvOps
      ensures Valid() && model == OnPubrel(setup, old(model), pid, valid)
      ensures forall i | 0 <= i < |recvOps| :: recvOps[i] in old(recvOps)
    {
      var k := FindRecvOp(pid);
      if k == |recvOps| { return; }
      var op := recvOps[k];
      CancelTimer(op, k);
      if !valid {
        BrokerDisconnected(true);
        return;
      }
      SendMessage(Pubcomp(pid));
      OpComplete(op, k);
      model := model.(log := model.log + [Ended(pid, Released)]);
      assert Without(TimerStopped(old(model), k).recvs, k) == Without(old(model).recvs, k);
    }

    method TimerExpires(k: nat)
      requires Valid()
      modifies this
      ensures Valid() && model == OnExpire(old(model), k)
      ensures forall i | 0 <= i < |recvOps| :: recvOps[i] in old(recvOps)
    {
      if k >= |recvOps| || !recvOps[k].timerActive || recvOps[k].timerSuspended { return; }
      ghost var pid := recvOps[k].packetId;
      OpComplete(recvOps[k], k);
      model := model.(log := model.log + [Ended(pid, TimedOut)]);
    }

    // ---------------------------------------------------------------- subscriptions

    method HandleSuback(reqs: seq<Request>, codes: seq<int>)
      requires Valid()
      modifies this, recvOps
      ensures Valid() && recvOps == old(recvOps)
      ensures var (fs, verdict) := OnSuback(setup.gate, reqs, codes, old(model).filters);
        var r := old(model).(filters := fs);
        model == if verdict.Completed? then r else Dropped(r, true)
    {
      var verdict := StoreGranted(reqs, codes);
      if !verdict.Completed? { BrokerDisconnected(true); }
    }

    method StoreGranted(reqs: seq<Request>, codes: seq<int>) returns (verdict: Verdict)
      requires Valid()
      modifies this`subFilters, this`model
      ensures Valid()
      ensures var r := OnSuback(setup.gate, reqs, codes, old(model).filters);
        model == old(model).(filters := r.0) && verdict == r.1
    {
      if |reqs| != |codes| { return ProtocolError; }
      verdict := Completed;
      var idx := 0;
      while idx < |codes|
        invariant idx <= |codes| && Sorted(subFilters) && model == old(model)
        invariant Granting(setup.gate, reqs, codes, idx, subFilters) == OnSuback(setup.gate, reqs, codes, old(model).filters)
      {
        var code := codes[idx];
        if !Acceptable(reqs[idx], code) {
          verdict := ProtocolError;
          break;
        }
        if setup.gate.verify && code <= GRANTED_QOS_2 {
          var k := LowerBound(subFilters, reqs[idx].topic);
          FoundIsMembership(subFilters, reqs[idx].topic);
          if k == |subFilters| || subFilters[k] != reqs[idx].topic {
            if setup.gate.limit != 0 && setup.gate.limit <= |subFilters| {
              verdict := InternalError;
              break;
            }
            InsertAddsOne(subFilters, reqs[idx].topic);
            subFilters := subFilters[..k] + [reqs[idx].topic] + subFilters[k..];
          }
        }
        idx := idx + 1;
      }
      model := model.(filters := subFilters);
    }

    method HandleUnsuback(topics: seq<string>)
      requires Valid()
      modifies this`subFilters, this`model
      ensures Valid() && model == old(model).(filters := Removing(topics, 0, old(model).filters))
    {
      var idx := 0;
      while idx < |topics|
        invariant idx <= |topics| && Sorted(subFilters) && model == old(model)
        invariant Removing(topics, idx, subFilters) == Removing(topics, 0, old(model).filters)
      {
        EraseFilter(topics[idx]);
        idx := idx + 1;
      }
      model := model.(filters := subFilters);
    }

    method EraseFilter(topic: string)
      requires Sorted(subFilters)
      modifies this`subFilters
      ensures Sorted(subFilters) && subFilters == Removed(old(subFilters), topic)
    {
      var k := LowerBound(subFilters, topic);
      RemoveTakesOne(subFilters, topic);
      if k < |subFilters| && subFilters[k] == topic {
        subFilters := subFilters[..k] + subFilters[k + 1..];
      }
    }

    // ---------------------------------------------------------------- the session

    method BrokerConnected(sessionPresent: bool)
      requires Valid() && !link.networkDown
      modifies this, recvOps
      ensures Valid() && model == Connected(old(model), sessionPresent)
      ensures forall i | 0 <= i < |recvOps| :: recvOps[i] in old(recvOps)
    {
      link := link.(connected := true);
      if sessionPresent {
        ResumeRecvOps();
      } else {
        subFilters := [];
        recvOps := [];
      }
      model := Connected(model, sessionPresent);
    }

    method ResumeRecvOps()
      requires forall i, j | 0 <= i < j < |recvOps| :: recvOps[i] != recvOps[j]
      requires link.connected && !link.networkDown
      modifies recvOps
      ensures forall i | 0 <= i < |recvOps| :: recvOps[i].State() == ResumedRecv(old(recvOps[i].State()))
    {
      var i := 0;
      while i < |recvOps|
        invariant i <= |recvOps|
        invariant forall j | 0 <= j < i :: recvOps[j].State() == ResumedRecv(old(recvOps[j].State()))
        invariant forall j | i <= j < |recvOps| :: recvOps[j].State() == old(recvOps[j].State())
      {
        SetSuspended(recvOps[i]);
        recvOps[i].timerActive := true;
        i := i + 1;
      }
    }

    method Perform(x: Input)
      requires Valid()
      modifies this, recvOps
      ensures Valid() && model == Step(setup, old(model), x)
      ensures forall i | 0 <= i < |recvOps| :: recvOps[i] in old(recvOps) || fresh(recvOps[i])
    {
      match x
      case PublishReceived(qos, dup, pid, topic) =>
        if !link.networkDown && 0 <= qos <= 3 { HandlePublish(qos, dup, pid, topic); }
      case PubrelReceived(pid, valid) => if !link.networkDown { HandlePubrel(pid, valid); }
      case Expire(k) => TimerExpires(k);
      case SubackReceived(reqs, codes) => if Hears(link) { HandleSuback(reqs, codes); }
      case UnsubackReceived(topics) => if Hears(link) { HandleUnsuback(topics); }
      case NetworkDisconnected =>
        link := link.(networkDown := true);
        model := model.(link := link);
        if !link.disconnecting { BrokerDisconnected(false); }
      case Disconnect(report) => BrokerDisconnected(report);
      case Connect =>
        link := if link.disconnecting then Link(false, false, false) else link.(networkDown := false);
        model := model.(link := link);
      case ConnackReceived(accepted, sessionPresent) =>
        if AwaitsConnack(link) && accepted { BrokerConnected(sessionPresent); }
    }
  }
}
