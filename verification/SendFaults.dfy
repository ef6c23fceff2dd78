/** Where the assertions of the code can fail, and that they fail nowhere else. */
module SendFaults {
  import opened PacketIds
  import opened History
  import opened SendModel
  import opened SendInvariant
  import opened SendSteps
  import opened SendRuns
  import opened SendSession
  import opened SendBooks
  import opened SendWakeups
  import opened SendReconnect
  import opened SendTimers
  import opened SendForced
  import opened SendOverrun

  // ------------------------------------------------------------------ ticks do not fault

  /** The publish is on the wire and its timer is not set. */
  predicate Waits(sends: seq<Send>, id: int) {
    var i := IndexOf(sends, id);
    i < |sends| && sends[i].published && !sends[i].armed
  }

  /** The callbacks still to be called are all different, and find their publishes waiting. */
  ghost predicate Awaiting(c: Client, due: seq<Call>) {
    && (forall j, k | 0 <= j < k < |due| :: due[j] != due[k])
    && forall k | 0 <= k < |due| && due[k].SendCall? :: Waits(c.sends, due[k].id)
  }

  lemma {:induction false} CollectedOnce(sends: seq<Send>, calls: seq<Call>, j: nat, k: nat)
    requires j <= k < |Collected(sends, calls)|
    ensures var due := Collected(sends, calls);
      (j < k ==> due[j] != due[k]) && (due[k].SendCall? ==> Expiring(sends, due[k].id))
    decreases |calls|
  {
    var before := Collected(sends, calls[..|calls| - 1]);
    if k < |before| {
      CollectedOnce(sends, calls[..|calls| - 1], j, k);
    } else if j < k {
      assert before[j] in before;
    }
  }

  lemma CollectedAwaits(c: Client, calls: seq<Call>)
    requires Good(c)
    ensures var due := Collected(c.sends, calls); Awaiting(c.(sends := TimersCancelled(c.sends, due)), due)
  {
    var due := Collected(c.sends, calls);
    var d := c.(sends := TimersCancelled(c.sends, due));
    RetimedKeeps(c, d);
    forall j: nat, k: nat | j < k < |due| ensures due[j] != due[k] { CollectedOnce(c.sends, calls, j, k); }
    forall k: nat | k < |due| && due[k].SendCall? ensures Waits(d.sends, due[k].id) {
      var i := IndexOf(c.sends, due[k].id);
      CollectedOnce(c.sends, calls, k, k);
      assert EntryOk(c, c.sends[i]);
      assert d.sends[i].id == due[k].id;
      IndexIs(d, i);
    }
  }

  /** A publish that waits and is not the one called goes on waiting. */
  lemma StillWaits(c: Client, x: Call, id: int)
    requires Good(c) && !c.fault && Waits(c.sends, id) && x != SendCall(id)
    requires x.SendCall? ==> Waits(c.sends, x.id)
    ensures Waits(OnCall(c, x).sends, id)
  {
    var d, k := OnCall(c, x), IndexOf(c.sends, id);
    OnCallKeeps(c, x);
    match x
    case PingCall =>
      assert c.session.connected ==> d.sends[k] == c.sends[k];
      IndexIs(d, k);
    case SendCall(other) =>
      var i := IndexOf(c.sends, other);
      OthersUntouched(c, i, k);
      var l: nat :| l < |d.sends| && d.sends[l] == c.sends[k];
      IndexIs(d, l);
  }

  lemma OthersUntouched(c: Client, i: nat, k: nat)
    requires Good(c) && !c.fault && i < |c.sends| && k < |c.sends| && c.sends[i].id != c.sends[k].id
    requires c.sends[i].published && c.sends[k].published
    ensures var d := ResendDup(c, i, Resend); !d.fault && c.sends[k] in d.sends
  {
    if c.sends[i].attempts < c.sends[i].total { ResentServes(c, i); } else { TimedOutServes(c, i); }
    assert Untouched(c, ResendDup(c, i, Resend), c.sends[k]);
  }

  lemma CalledFinds(c: Client, x: Call)
    requires Good(c) && !c.fault && (x.SendCall? ==> Waits(c.sends, x.id))
    ensures !OnCall(c, x).fault
  {
    if x.SendCall? {
      var i := IndexOf(c.sends, x.id);
      if c.sends[i].attempts < c.sends[i].total { ResentServes(c, i); } else { TimedOutServes(c, i); }
    }
  }

  lemma {:induction false} OnCallsFind(c: Client, due: seq<Call>)
    requires Good(c) && !c.fault && Awaiting(c, due)
    ensures !OnCalls(c, due).fault
    decreases |due|
  {
    if due != [] {
      AwaitingOn(c, due);
      OnCallsFind(OnCall(c, due[0]), due[1..]);
    }
  }

  /** The first of the callbacks finds its publish, and leaves the others waiting. */
  lemma AwaitingOn(c: Client, due: seq<Call>)
    requires Good(c) && !c.fault && Awaiting(c, due) && due != []
    ensures var d := OnCall(c, due[0]); Good(d) && !d.fault && Awaiting(d, due[1..])
  {
    var x, rest := due[0], due[1..];
    CalledFinds(c, x);
    OnCallKeeps(c, x);
    forall k | 0 <= k < |rest| && rest[k].SendCall? ensures Waits(OnCall(c, x).sends, rest[k].id) {
      assert rest[k] == due[k + 1];
      StillWaits(c, x, rest[k].id);
    }
    assert forall j, k | 0 <= j < k < |rest| :: rest[j] == due[j + 1] && rest[k] == due[k + 1];
  }

  lemma TickFinds(c: Client, calls: seq<Call>)
    requires Good(c) && !c.fault
    ensures !DoTick(c, calls).fault
  {
    var due := Collected(c.sends, calls);
    var d := c.(sends := TimersCancelled(c.sends, due));
    RetimedKeeps(c, d);
    CollectedAwaits(c, calls);
    OnCallsFind(d, due);
  }

  // ------------------------------------------------------------------ neither do these

  lemma CompletionFinds(c: Client, i: nat)
    requires Good(c) && i < |c.sends|
    ensures OpComplete(c, i).fault == c.fault && forall status :: CompleteWithCb(c, i, status).fault == c.fault
  {
    CalmErased(c, i);
    OpCompleteKeeps(c, i, {});
  }

  lemma SendCallFinds(c: Client, qos: int, len: int, total: int, configured: bool)
    requires Good(c)
    ensures DoSendCall(c, qos, len, total, configured).fault == c.fault
  {
    if HasPrepared(c) && 0 <= qos <= MAX_QOS && total > 0 {
      if configured {
        SendCallIs(c, qos, len, total);
        ResumedFinds(c, qos, len, total);
      } else {
        LastCompletes(c.(locked := false));
      }
    }
  }

  lemma ResumedFinds(c: Client, qos: int, len: int, total: int)
    requires Good(c) && HasPrepared(c) && 0 <= qos <= MAX_QOS && total > 0
    ensures var d, i := HeldBack(c, qos, len, total), |c.sends| - 1;
      i < |d.sends| && d.sends[i].paused && d.fault == c.fault && (CanSend(d, i) ==> Resume(d, i).fault == c.fault)
  {
    var d, i := HeldBack(c, qos, len, total), |c.sends| - 1;
    if CanSend(d, i) {
      HeldBackKeeps(c, qos, len, total);
      IssuedInTurn(c, qos, len, total);
      ResumeKeeps(d, i, {});
    }
  }

  lemma CancelFinds(c: Client, id: int)
    requires Good(c)
    ensures DoCancel(c, id).fault == c.fault
  {
    var i := IndexOf(c.sends, id);
    if i < |c.sends| {
      if c.sends[i].issued {
        CompletionFinds(c, i);
      } else {
        PreparedIsLast(c, i);
        LastCompletes(c.(locked := false));
      }
    }
  }

  /** An acknowledgement that names a publish which leaves before the walk gets to it, while all
      behind it leave too or one is prepared. */
  ghost predicate NamesVanishing(c: Client, pid: int) {
    var k := FindSend(c.sends, pid);
    k < |c.sends| && Fleeting(c.maxOut, c.sends[k]) && Overruns(ViewOf(c), 0, c.sends[k].id)
  }

  lemma AckFinds(c: Client, kind: AckKind, pid: int)
    requires Good(c) && !c.fault && pid != 0
    ensures ProcessAck(c, kind, pid).fault <==> NamesVanishing(c, pid)
  {
    var i := FindSend(c.sends, pid);
    if i < |c.sends| {
      assert EntryOk(c, c.sends[i]);
      LegitExactly(c.sends, i, kind.Pubcomp?);
      if Expected(c.sends, i, kind.Pubcomp?) { AckInTurnFinds(c, i); } else { OutOfTurnOverrunsExactly(c, kind, pid); }
    }
  }

  lemma AckInTurnFinds(c: Client, i: nat)
    requires Good(c) && i < |c.sends|
    ensures HandlePuback(c, i).fault == HandlePubrec(c, i).fault == HandlePubcomp(c, i).fault == c.fault
  {
    var c1 := With(c, i, c.sends[i].(armed := false));
    DisarmedKeeps(c, i);
    CompletionFinds(c1, i);
    UnsentPubrel(c1, i);
  }

  // ------------------------------------------------------------------ the two places

  /** The guards of the branches that can fail: the walk of a lost session over a null entry, and
      the walk up to a publish that leaves under it. */
  ghost predicate AtFault(c: Client, x: Input) {
    match x
    case Connack(accepted, sessionPresent) =>
      c.session.connecting && accepted && !sessionPresent
      && (Null in c.ops.refs || exists p | 1 <= p < |c.sends| :: Fleeting(c.maxOut, c.sends[p]))
    case Ack(kind, pid) => pid != 0 && !c.session.networkDown && NamesVanishing(c, pid)
    case _ => false
  }

  /** In every run an assertion fails, or a missing object is touched, there and only there. */
  lemma FaultsExactlyThere(o: Ordering, maxOut: int, idLimit: nat, xs: seq<Input>, x: Input)
    requires !Run(NewClient(o, maxOut, idLimit), xs).fault
    ensures var c := Run(NewClient(o, maxOut, idLimit), xs); Step(c, x).fault <==> AtFault(c, x)
  {
    RunKeeps(o, maxOut, idLimit, xs);
    RunTidy(o, maxOut, idLimit, xs);
    var c := Run(NewClient(o, maxOut, idLimit), xs);
    match x
    case SendPrepared(qos, len, total, configured) => SendCallFinds(c, qos, len, total, configured);
    case Cancel(id) => CancelFinds(c, id);
    case Ack(kind, pid) => if pid != 0 && !c.session.networkDown { AckFinds(c, kind, pid); }
    case Tick(calls) => TickFinds(c, calls);
    case Connack(accepted, sessionPresent) => ConnackFinds(c, accepted, sessionPresent);
    case _ =>
  }

  lemma ConnackFinds(c: Client, accepted: bool, sessionPresent: bool)
    requires Good(c) && Tidy(c) && !c.fault
    ensures DoConnack(c, accepted, sessionPresent).fault <==> AtFault(c, Connack(accepted, sessionPresent))
  {
    if c.session.connecting && accepted {
      if sessionPresent { SessionPresentKeeps(c); } else { SessionAbsentMeetsNullExactly(c); }
    }
  }

  // ------------------------------------------------------------------ the assertions not in the flag

  /** What the other assertions about publishes ask: a prepared publish has locked preparation, an
      acknowledged one is of QoS 2, one on the wire has used an attempt, one held back has had none
      and the ordering is full, and an identifier to be released is in use. */
  predicate Guarded(c: Client, s: Send) {
    && (!s.issued ==> c.locked)
    && (s.acked ==> s.qos == 2)
    && (s.published ==> s.attempts > 0)
    && (s.paused ==> !s.published && s.attempts == 0 && c.ordering.Full?)
    && (s.pid == 0 || s.pid in c.ids.pool.ids)
  }

  /** They hold of every publish wherever the invariant and the books do, that is before and
      after each piece of the engine, */
  lemma GuardsHold(c: Client, pending: set<int>, i: nat)
    requires Inv(c, pending) && Calm(c) && Tidy(c) && i < |c.sends|
    ensures Guarded(c, c.sends[i])
  {
    assert EntryOk(c, c.sends[i]);
    HoldersMember(c.sends, i);
  }

  /** and so in every run. */
  lemma OtherAssertionsHold(o: Ordering, maxOut: int, idLimit: nat, xs: seq<Input>, i: nat)
    requires i < |Run(NewClient(o, maxOut, idLimit), xs).sends|
    ensures var c := Run(NewClient(o, maxOut, idLimit), xs); Guarded(c, c.sends[i])
  {
    RunKeeps(o, maxOut, idLimit, xs);
    RunTidy(o, maxOut, idLimit, xs);
    GuardsHold(Run(NewClient(o, maxOut, idLimit), xs), {}, i);
  }
}
