/** What the callbacks of a tick do to each publish, and which response timers a tick spares that
    loses the session. */
module SendTicks {
  import opened PacketIds
  import opened History
  import opened SendModel
  import opened SendInvariant
  import opened SendSteps
  import opened SendRuns
  import opened SendSession
  import opened SendWakeups
  import opened SendTimers
  import opened SendForced
  import opened SendFaults

  /** The callback of this publish comes after the one that loses the session. */
  ghost predicate CalledAfterPing(due: seq<Call>, id: int) {
    exists a, b :: 0 <= a < b < |due| && due[a] == PingCall && due[b] == SendCall(id)
  }

  ghost predicate OnWire(sends: seq<Send>, id: int) {
    exists j :: 0 <= j < |sends| && sends[j].published && sends[j].id == id
  }

  /** What a callback of a publish does to the session and to who was hit. */
  lemma SendCallHitsNobody(c: Client, id: int)
    requires Good(c) && !c.fault && Waits(c.sends, id)
    ensures var d := OnCall(c, SendCall(id));
      d.session == c.session && forall x :: Hit(d.log, x) == Hit(c.log, x)
  {
    var i := IndexOf(c.sends, id);
    assert EntryOk(c, c.sends[i]);
    if c.sends[i].attempts < c.sends[i].total {
      RepeatFits(c, i);
      ResendDupIs(c, i, Resend);
    } else {
      assert ResendDup(c, i, Resend) == CompleteWithCb(c, i, Timeout);
      CompleteKeeps(c, i, Timeout);
    }
  }

  lemma ErasedOnWire(c: Client, i: nat, x: int)
    requires i < |c.sends| && OnWire(Without(c.sends, i), x)
    ensures OnWire(c.sends, x)
  {
    var sends := Without(c.sends, i);
    var j :| 0 <= j < |sends| && sends[j].published && sends[j].id == x;
    assert sends[j] == c.sends[if j < i then j else j + 1];
  }

  lemma RepeatedOnWire(c: Client, i: nat, s: Send, x: int)
    requires i < |c.sends| && c.sends[i].published && s.id == c.sends[i].id && OnWire(c.sends[i := s], x)
    ensures OnWire(c.sends, x)
  {
    var j :| 0 <= j < |c.sends| && c.sends[i := s][j].published && c.sends[i := s][j].id == x;
    assert c.sends[j].published && c.sends[j].id == x;
  }

  /** With the session going down nobody goes out that was not on the wire. */
  lemma NobodyNew(c: Client, id: int, x: int)
    requires Good(c) && !c.fault && Waits(c.sends, id) && c.session.disconnecting
    requires OnWire(OnCall(c, SendCall(id)).sends, x)
    ensures OnWire(c.sends, x)
  {
    var i := IndexOf(c.sends, id);
    if c.sends[i].attempts < c.sends[i].total {
      RepeatFits(c, i);
      ResendDupIs(c, i, Resend);
      RepeatedOnWire(c, i, Marked(c.sends[i]).(attempts := c.sends[i].attempts + 1, armed := true), x);
    } else {
      SpentCompletes(c, i);
      ErasedOnWire(c, i, x);
    }
  }

  lemma {:induction false} AfterLoss(c: Client, due: seq<Call>, id: int)
    requires Good(c) && !c.fault && Awaiting(c, due) && c.session.disconnecting && PingCall !in due
    ensures Hit(OnCalls(c, due).log, id) == Hit(c.log, id)
    ensures OnWire(OnCalls(c, due).sends, id) ==> OnWire(c.sends, id)
    decreases |due|
  {
    if due != [] {
      assert due[0] in due && due[0].SendCall?;
      AwaitingOn(c, due);
      SendCallHitsNobody(c, due[0].id);
      assert forall x | x in due[1..] :: x in due;
      AfterLoss(OnCall(c, due[0]), due[1..], id);
      if OnWire(OnCall(c, due[0]).sends, id) { NobodyNew(c, due[0].id, id); }
    }
  }

  lemma PingHits(c: Client, rest: seq<Call>, id: int)
    requires Good(c) && Timed(c, {}, CalledIds(rest)) && Awaiting(c, rest) && OnWire(c.sends, id)
    ensures Hit(BrokerDisconnected(c, true).log, id) <==> Hit(c.log, id) || SendCall(id) !in rest
  {
    var j: nat :| j < |c.sends| && c.sends[j].published && c.sends[j].id == id;
    assert TimedEntry(c.log, c.sends[j], CalledIds(rest));
    IndexIs(c, j);
    if SendCall(id) in rest {
      var k :| 0 <= k < |rest| && rest[k] == SendCall(id);
      assert Waits(c.sends, rest[k].id);
    }
    forall k: nat | k < |c.sends| && c.sends[k].id == id ensures k == j {
      if k != j { OtherIds(c.ordering, c.sends, k, j); }
    }
  }

  lemma {:induction false} CallsHit(c: Client, due: seq<Call>, id: int)
    requires Good(c) && !c.fault && Awaiting(c, due) && Timed(c, {}, CalledIds(due))
    requires c.session.connected && PingCall in due && OnWire(OnCalls(c, due).sends, id)
    ensures Hit(OnCalls(c, due).log, id) <==> Hit(c.log, id) || !CalledAfterPing(due, id)
    decreases |due|
  {
    var d, rest := OnCall(c, due[0]), due[1..];
    AwaitingOn(c, due);
    TimedOn(c, due, {});
    assert OnCalls(c, due) == OnCalls(d, rest);
    if due[0].PingCall? {
      PingOnce(c, due);
      AfterLoss(d, rest, id);
      BeforePing(c, due, id, d);
      AfterPing(due, id);
    } else {
      SendCallHitsNobody(c, due[0].id);
      assert PingCall in rest;
      CallsHit(d, rest, id);
      LaterInRest(due, id);
    }
  }

  lemma PingOnce(c: Client, due: seq<Call>)
    requires Awaiting(c, due) && due != [] && due[0].PingCall?
    ensures PingCall !in due[1..]
  {
    forall k | 0 <= k < |due[1..]| ensures due[1..][k] != PingCall { assert due[1..][k] == due[k + 1]; }
  }

  lemma BeforePing(c: Client, due: seq<Call>, id: int, d: Client)
    requires Good(c) && Awaiting(c, due) && due != [] && Timed(c, {}, CalledIds(due)) && due[0].PingCall?
    requires d == BrokerDisconnected(c, true) && OnWire(d.sends, id)
    ensures Hit(d.log, id) <==> Hit(c.log, id) || SendCall(id) !in due[1..]
  {
    var rest := due[1..];
    var j :| 0 <= j < |d.sends| && d.sends[j].published && d.sends[j].id == id;
    assert c.sends[j].published && c.sends[j].id == id;
    CalledInRest(due);
    TimedMore(c, {}, CalledIds(due), CalledIds(rest));
    assert forall k | 0 <= k < |rest| :: rest[k] == due[k + 1];
    PingHits(c, rest, id);
  }

  lemma CalledInRest(due: seq<Call>)
    requires due != [] && due[0].PingCall?
    ensures CalledIds(due) <= CalledIds(due[1..])
  {
    forall x | x in CalledIds(due) ensures x in CalledIds(due[1..]) {
      var k :| 0 <= k < |due| && due[k].SendCall? && due[k].id == x;
      assert due[1..][k - 1] == due[k];
    }
  }

  lemma AfterPing(due: seq<Call>, id: int)
    requires due != [] && due[0].PingCall?
    ensures CalledAfterPing(due, id) <==> SendCall(id) in due[1..]
  {
    if SendCall(id) in due[1..] {
      var k :| 0 <= k < |due[1..]| && due[1..][k] == SendCall(id);
      assert due[0] == PingCall && due[k + 1] == SendCall(id);
    }
    if a, b :| 0 <= a < b < |due| && due[a] == PingCall && due[b] == SendCall(id) { assert due[1..][b - 1] == due[b]; }
  }

  lemma LaterInRest(due: seq<Call>, id: int)
    requires due != [] && due[0].SendCall?
    ensures CalledAfterPing(due, id) <==> CalledAfterPing(due[1..], id)
  {
    var rest := due[1..];
    if a, b :| 0 <= a < b < |due| && due[a] == PingCall && due[b] == SendCall(id) {
      assert rest[a - 1] == PingCall && rest[b - 1] == SendCall(id);
    }
    if a, b :| 0 <= a < b < |rest| && rest[a] == PingCall && rest[b] == SendCall(id) {
      assert due[a + 1] == PingCall && due[b + 1] == SendCall(id);
    }
  }

  lemma TickSpares(c: Client, calls: seq<Call>, i: nat)
    requires Good(c) && Timed(c, {}, {}) && !c.fault && c.session.connected && PingCall in Collected(c.sends, calls)
    requires i < |DoTick(c, calls).sends| && DoTick(c, calls).sends[i].published
    ensures var d := DoTick(c, calls);
      Hit(d.log, d.sends[i].id) <==> Hit(c.log, d.sends[i].id) || !CalledAfterPing(Collected(c.sends, calls), d.sends[i].id)
  {
    var due := Collected(c.sends, calls);
    var c1 := c.(sends := TimersCancelled(c.sends, due));
    RetimedKeeps(c, c1);
    CollectedAwaits(c, calls);
    CancelledTimed(c, calls, {});
    CallsHit(c1, due, OnCalls(c1, due).sends[i].id);
  }

  /** In every run: of the publishes on their way after a tick that loses the session, those are
      hit that were hit before or whose own callback does not come after the loss in that tick;
      only the others are spared. */
  lemma TickSparesExactly(o: Ordering, maxOut: int, idLimit: nat, xs: seq<Input>, calls: seq<Call>, i: nat)
    requires var c := Run(NewClient(o, maxOut, idLimit), xs);
      && !c.fault && c.session.connected && PingCall in Collected(c.sends, calls)
      && i < |Step(c, Tick(calls)).sends| && Step(c, Tick(calls)).sends[i].published
    ensures var c := Run(NewClient(o, maxOut, idLimit), xs);
      var d := Step(c, Tick(calls));
      Hit(d.log, d.sends[i].id) <==> Hit(c.log, d.sends[i].id) || !CalledAfterPing(Collected(c.sends, calls), d.sends[i].id)
  {
    var n := NewClient(o, maxOut, idLimit);
    RunKeeps(o, maxOut, idLimit, xs);
    RunTimed(n, xs, {});
    TickSpares(Run(n, xs), calls, i);
  }

  // ------------------------------------------------------------------ what the callbacks do

  /** The publish but for its timer. */
  predicate Aside(s: Send, t: Send) { t == s.(armed := t.armed, suspended := t.suspended) }

  /** Its callback has run: one more packet, or the end with Timeout. */
  ghost predicate CalledServed(c: Client, d: Client, s: Send) {
    if s.attempts < s.total then
      && (exists t :: t in d.sends && Aside(Marked(s).(attempts := s.attempts + 1), t))
      && Pubs(d.log, s.id) == Pubs(c.log, s.id) + (if s.acked then 0 else 1)
      && Rels(d.log, s.id) == Rels(c.log, s.id) + (if s.acked then 1 else 0)
    else
      && s.id !in LiveIds(d.sends)
      && Pubs(d.log, s.id) == Pubs(c.log, s.id) && Rels(d.log, s.id) == Rels(c.log, s.id)
      && Ends(c.log, s.id) == 0 && Contains(d.log, Callback(s.id, s.qos, Timeout))
  }

  ghost predicate LeftAlone(c: Client, d: Client, s: Send) {
    (exists t :: t in d.sends && Aside(s, t)) && SameMarks(c.log, d.log, s.id)
  }

  ghost predicate CallsServe(c: Client, d: Client, due: seq<Call>) {
    forall j | 0 <= j < |c.sends| && c.sends[j].published ::
      if SendCall(c.sends[j].id) in due then CalledServed(c, d, c.sends[j]) else LeftAlone(c, d, c.sends[j])
  }

  lemma {:induction false} OnCallsExtends(c: Client, due: seq<Call>)
    ensures Extends(OnCalls(c, due).log, c.log)
    decreases |due|
  {
    if due != [] && !c.fault {
      OnCallsExtends(OnCall(c, due[0]), due[1..]);
      OnCallExtends(c, due[0]);
      ExtendsTransitive(OnCalls(c, due).log, OnCall(c, due[0]).log, c.log);
    }
  }

  lemma OnCallExtends(c: Client, x: Call)
    ensures Extends(OnCall(c, x).log, c.log)
  {
    if x.SendCall? {
      var i := IndexOf(c.sends, x.id);
      if i < |c.sends| {
        CompleteCarries(c, i, Timeout, 0);
        CompleteCarries(With(c, i, Marked(c.sends[i])), i, InternalError, 0);
      }
    }
  }

  lemma {:induction false} OnCallsServe(c: Client, due: seq<Call>)
    requires Good(c) && !c.fault && Awaiting(c, due)
    ensures CallsServe(c, OnCalls(c, due), due)
    decreases |due|
  {
    if due == [] {
      assert forall j | 0 <= j < |c.sends| :: Aside(c.sends[j], c.sends[j]);
    } else {
      var d, rest := OnCall(c, due[0]), due[1..];
      AwaitingOn(c, due);
      OnCallsServe(d, rest);
      OnCallsKeeps(d, rest);
      OnCallsExtends(d, rest);
      assert OnCalls(c, due) == OnCalls(d, rest);
      forall j: nat | j < |c.sends| && c.sends[j].published
        ensures var s, e := c.sends[j], OnCalls(d, rest); if SendCall(s.id) in due then CalledServed(c, e, s) else LeftAlone(c, e, s)
      {
        if due[0].PingCall? { ServedAfterPing(c, due, j, OnCalls(d, rest)); } else { ServedAfterCall(c, due, j, OnCalls(d, rest)); }
      }
    }
  }

  lemma CalledOn(c: Client, d: Client, e: Client, s: Send, t: Send)
    requires Aside(s, t) && SameMarks(c.log, d.log, s.id) && CalledServed(d, e, t) && Ends(c.log, s.id) == 0
    ensures CalledServed(c, e, s)
  {
    if s.attempts < s.total {
      var u :| u in e.sends && Aside(Marked(t).(attempts := t.attempts + 1), u);
      assert Aside(Marked(s).(attempts := s.attempts + 1), u);
    }
  }

  lemma AloneOn(c: Client, d: Client, e: Client, s: Send, t: Send)
    requires Aside(s, t) && SameMarks(c.log, d.log, s.id) && LeftAlone(d, e, t)
    ensures LeftAlone(c, e, s)
  {
    var u :| u in e.sends && Aside(t, u);
    assert Aside(s, u);
  }

  lemma ServedAfterPing(c: Client, due: seq<Call>, j: nat, e: Client)
    requires Good(c) && due != [] && due[0].PingCall? && j < |c.sends| && c.sends[j].published
    requires CallsServe(OnCall(c, PingCall), e, due[1..])
    ensures var s := c.sends[j]; if SendCall(s.id) in due then CalledServed(c, e, s) else LeftAlone(c, e, s)
  {
    var s, d := c.sends[j], OnCall(c, PingCall);
    PingAside(c, j);
    assert due == [due[0]] + due[1..];
    assert Recorded(c.ordering, c.log, s);
    if SendCall(s.id) in due { CalledOn(c, d, e, s, d.sends[j]); } else { AloneOn(c, d, e, s, d.sends[j]); }
  }

  lemma MarkSame(h: Log, what: Turn, id: int)
    ensures SameMarks(h, After(h, Mark(what)), id)
  {
  }

  lemma PingAside(c: Client, j: nat)
    requires j < |c.sends|
    ensures var d := OnCall(c, PingCall);
      j < |d.sends| && Aside(c.sends[j], d.sends[j]) && d.sends[j].published == c.sends[j].published
      && d.sends[j].id == c.sends[j].id && SameMarks(c.log, d.log, c.sends[j].id)
  {
    MarkSame(c.log, Lost(true, TimedIds(c.sends)), c.sends[j].id);
    if c.session.connected { assert BrokerDisconnected(c, true).sends == Suspended(c.sends); }
  }

  lemma ServedAfterCall(c: Client, due: seq<Call>, j: nat, e: Client)
    requires Good(c) && !c.fault && Awaiting(c, due) && due != [] && due[0].SendCall? && j < |c.sends| && c.sends[j].published
    requires var d := OnCall(c, due[0]);
      && Good(d) && Good(e) && CallsServe(d, e, due[1..]) && Extends(e.log, d.log)
      && e.ordering == d.ordering && e.nextId == d.nextId == c.nextId && d.ordering == c.ordering
    ensures var s := c.sends[j]; if SendCall(s.id) in due then CalledServed(c, e, s) else LeftAlone(c, e, s)
  {
    CallServesOne(c, due[0].id);
    assert Waits(c.sends, due[0].id);
    OwnCallOnce(due);
    assert due == [due[0]] + due[1..];
    ServedFurther(c, OnCall(c, due[0]), e, IndexOf(c.sends, due[0].id), j, due[1..]);
  }

  lemma ServedFurther(c: Client, d: Client, e: Client, i: nat, j: nat, rest: seq<Call>)
    requires Good(c) && Good(d) && Good(e) && i < |c.sends| && j < |c.sends| && c.sends[j].published && OneServed(c, d, i)
    requires CallsServe(d, e, rest) && Extends(e.log, d.log) && SendCall(c.sends[i].id) !in rest
    requires e.ordering == d.ordering && e.nextId == d.nextId == c.nextId && d.ordering == c.ordering
    ensures var s := c.sends[j]; if j == i || SendCall(s.id) in rest then CalledServed(c, e, s) else LeftAlone(c, e, s)
    ensures j != i ==> c.sends[j].id != c.sends[i].id
  {
    var s := c.sends[j];
    assert EntryOk(c, s) && Recorded(c.ordering, c.log, s);
    if j == i {
      OwnServed(c, d, e, s, rest);
    } else {
      OtherIds(c.ordering, c.sends, i, j);
      var l := PlaceOf(d, s);
      if SendCall(s.id) in rest { CalledOn(c, d, e, s, d.sends[l]); } else { AloneOn(c, d, e, s, d.sends[l]); }
    }
  }

  lemma CallServesOne(c: Client, id: int)
    requires Good(c) && !c.fault && Waits(c.sends, id)
    ensures OneServed(c, OnCall(c, SendCall(id)), IndexOf(c.sends, id))
  {
    var i := IndexOf(c.sends, id);
    if c.sends[i].attempts < c.sends[i].total { ResentServes(c, i); } else { TimedOutServes(c, i); }
  }

  lemma OwnServed(c: Client, d: Client, e: Client, s: Send, rest: seq<Call>)
    requires Good(c) && Good(d) && Good(e) && Served(c, d, s) && s.published && 1 <= s.id < c.nextId
    requires CallsServe(d, e, rest) && SendCall(s.id) !in rest && Extends(e.log, d.log)
    requires e.ordering == d.ordering && e.nextId == d.nextId == c.nextId && d.ordering == c.ordering
    ensures CalledServed(c, e, s)
  {
    if s.attempts < s.total {
      var l := PlaceOf(d, Marked(s).(attempts := s.attempts + 1, armed := true));
      assert LeftAlone(d, e, d.sends[l]);
      var u :| u in e.sends && Aside(d.sends[l], u);
      assert Aside(Marked(s).(attempts := s.attempts + 1), u);
    } else {
      GoneStaysGone(c, d, e, s);
    }
  }

  lemma OwnCallOnce(due: seq<Call>)
    requires due != [] && forall j, k | 0 <= j < k < |due| :: due[j] != due[k]
    ensures due[0] !in due[1..]
  {
    forall k | 0 <= k < |due[1..]| ensures due[1..][k] != due[0] { assert due[1..][k] == due[k + 1]; }
  }
}
