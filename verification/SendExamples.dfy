/** Runs from a fresh client to the states in which the code does not do what it should. */
module SendExamples {
  import opened PacketIds
  import opened History
  import opened SendModel
  import opened SendInvariant
  import opened SendSteps
  import opened SendRuns
  import opened SendSession
  import opened SendBooks
  import opened SendReconnect
  import opened SendTimers
  import opened SendOverrun

  // ------------------------------------------------------------------ common beginnings

  function Fresh0(): Client { NewClient(Full, 10, 100) }

  function Linked(sends: seq<Send>, locked: bool, refs: seq<Ref>, ids: seq<PacketId>, log: Log): Client
    requires |ids| <= 2
  {
    Client(Full, 10, Session(true, false, false, true, false), locked, sends, Registry(refs, false),
           IdUse(Pool(ids, |ids|, 100), []), |refs| + 1, log, false)
  }

  /** A publish of QoS 2 on the wire, with `total` attempts. */
  function Lone(total: int): Send {
    Send(1, 2, 1, 5, total, 1, true, true, false, false, false, true, false)
  }

  function LoneLog(total: int): Log {
    After(After(Empty, Issued(1, 2, 5, total, true)), Publish(1, 1, 2, false, First({}), total))
  }

  /** With the call that issues the second one. */
  function QueueLog(qos: int, len: int): Log {
    After(LoneLog(1), Issued(2, qos, len, 1, len <= 10))
  }

  function Started(total: int): Client {
    Linked([Lone(total)], false, [SendRef(1)], [1], LoneLog(total))
  }

  function Start(total: int): seq<Input> {
    [Connect] + [Connack(true, false)] + [Prepare] + [SendPrepared(2, 5, total, true)]
  }

  lemma RunOneMore(c: Client, xs: seq<Input>, x: Input)
    ensures Run(c, xs + [x]) == Step(Run(c, xs), x)
  {
    assert (xs + [x])[..|xs|] == xs;
  }

  lemma FirstIsSent(c: Client, total: int)
    requires c == Step(Step(Step(Fresh0(), Connect), Connack(true, false)), Prepare) && total > 0
    ensures Step(c, SendPrepared(2, 5, total, true)) == Started(total)
  {
    assert c == Linked([Fresh(1)], true, [SendRef(1)], [], Empty);
    assert Alloc(c.ids.pool) == Pool([1], 1, 100);
    var d := Issue(c.(locked := false), 0, 2, 5, total);
    assert d.sends[0].pid == 1 && CanSend(d, 0);
    assert Unsent(d.sends[..0]) == {};
    assert DoSend(d, 0).sends == [Lone(total)];
  }

  lemma StartIs(total: int)
    requires total > 0
    ensures Run(Fresh0(), Start(total)) == Started(total)
  {
    var x1 := [Connect];
    var x2 := x1 + [Connack(true, false)];
    var x3 := x2 + [Prepare];
    RunOneMore(Fresh0(), [], Connect);
    assert [] + x1 == x1;
    RunOneMore(Fresh0(), x1, Connack(true, false));
    RunOneMore(Fresh0(), x2, Prepare);
    RunOneMore(Fresh0(), x3, SendPrepared(2, 5, total, true));
    FirstIsSent(Run(Fresh0(), x3), total);
  }

  /** A second publish, of lower QoS, that the first holds back. */
  function Held(qos: int, len: int): Send {
    Send(2, qos, if qos > 0 then 2 else 0, len, 1, 0, true, false, false, true, false, false, false)
  }

  function Queue(qos: int, len: int): seq<Input> {
    Start(1) + [Prepare] + [SendPrepared(qos, len, 1, true)]
  }

  lemma SecondIsHeld(qos: int, len: int)
    requires 0 <= qos <= 1
    ensures var c := Run(Fresh0(), Queue(qos, len));
      c == Linked([Lone(1), Held(qos, len)], false, [SendRef(1), SendRef(2)], if qos > 0 then [1, 2] else [1], QueueLog(qos, len))
  {
    StartIs(1);
    RunOneMore(Fresh0(), Start(1), Prepare);
    RunOneMore(Fresh0(), Start(1) + [Prepare], SendPrepared(qos, len, 1, true));
    SecondIsPrepared();
    QueuedIs(Step(Started(1), Prepare), qos, len);
  }

  lemma SecondIsPrepared()
    ensures Step(Started(1), Prepare) == Linked([Lone(1), Fresh(2)], true, [SendRef(1), SendRef(2)], [1], LoneLog(1))
  {
  }

  lemma QueuedIs(c: Client, qos: int, len: int)
    requires 0 <= qos <= 1 && c == Linked([Lone(1), Fresh(2)], true, [SendRef(1), SendRef(2)], [1], LoneLog(1))
    ensures Step(c, SendPrepared(qos, len, 1, true))
              == Linked([Lone(1), Held(qos, len)], false, [SendRef(1), SendRef(2)], if qos > 0 then [1, 2] else [1], QueueLog(qos, len))
  {
    assert Alloc(c.ids.pool) == Pool([1, 2], 2, 100);
    var d := Issue(c.(locked := false), 1, qos, len, 1);
    assert d.sends[0].qos > d.sends[1].qos;
    assert !CanSend(d, 1);
    assert With(d, 1, d.sends[1].(paused := true)).sends == [Lone(1), Held(qos, len)];
  }

  // ------------------------------------------------------------------ the publish named vanishes

  /** An acknowledgement for a publish held back, too long for the output buffer. */
  lemma NamedPublishVanishes()
    ensures var c := Run(Fresh0(), Queue(1, 20)); !c.fault && Step(c, Ack(Puback, 2)).fault
  {
    SecondIsHeld(1, 20);
    RunKeeps(Full, 10, 100, Queue(1, 20));
    VanishesAt(Run(Fresh0(), Queue(1, 20)));
  }

  lemma VanishesAt(c: Client)
    requires Good(c) && c == Linked([Lone(1), Held(1, 20)], false, [SendRef(1), SendRef(2)], [1, 2], QueueLog(1, 20))
    ensures Step(c, Ack(Puback, 2)).fault
  {
    LastHeldVanishesExactly(c, Puback);
    assert Step(c, Ack(Puback, 2)) == ProcessAck(c, Puback, 2);
  }

  // ------------------------------------------------------------------ the walk meets a null

  /** A publish is cancelled between reconnecting and the CONNACK that finds no session. */
  lemma CancelledBeforeConnack()
    ensures var c := Run(Fresh0(), Start(1) + [Disconnect(true)] + [Connect] + [Cancel(1)]);
      !c.fault && Step(c, Connack(true, false)).fault
  {
    var x1 := Start(1) + [Disconnect(true)];
    var x2 := x1 + [Connect];
    StartIs(1);
    RunOneMore(Fresh0(), Start(1), Disconnect(true));
    RunOneMore(Fresh0(), x1, Connect);
    RunOneMore(Fresh0(), x2, Cancel(1));
    LoneIsLeft(Started(1));
    CancelNulls(Run(Fresh0(), x2));
    NullAtConnack(x2 + [Cancel(1)]);
  }

  lemma LoneIsLeft(c: Client)
    requires c == Started(1)
    ensures var d := Step(Step(c, Disconnect(true)), Connect);
      && !d.fault && |d.sends| == 1 && d.sends[0].id == 1 && d.sends[0].issued && !d.sends[0].paused
      && d.session.connecting && d.ops.refs == [SendRef(1)]
  {
  }

  lemma CancelNulls(c: Client)
    requires !c.fault && |c.sends| == 1 && c.sends[0].id == 1 && c.sends[0].issued && !c.sends[0].paused
    requires c.session.connecting && c.ops.refs == [SendRef(1)]
    ensures var d := Step(c, Cancel(1)); !d.fault && d.session.connecting && Null in d.ops.refs
  {
    LastCompletes(c);
    assert Step(c, Cancel(1)).ops.refs[0] == Null;
  }

  lemma NullAtConnack(xs: seq<Input>)
    requires var c := Run(Fresh0(), xs);
      !c.fault && c.session.connecting && (Null in c.ops.refs || exists p | 1 <= p < |c.sends| :: Fleeting(c.maxOut, c.sends[p]))
    ensures Step(Run(Fresh0(), xs), Connack(true, false)).fault
  {
    RunKeeps(Full, 10, 100, xs);
    RunTidy(Full, 10, 100, xs);
    SessionAbsentMeetsNullExactly(Run(Fresh0(), xs));
  }

  /** A publish of QoS 0 is held back when the session goes down. */
  lemma HeldBackAtConnack()
    ensures var c := Run(Fresh0(), Queue(0, 5) + [Disconnect(true)] + [Connect]);
      !c.fault && Step(c, Connack(true, false)).fault
  {
    var x1 := Queue(0, 5) + [Disconnect(true)];
    SecondIsHeld(0, 5);
    RunOneMore(Fresh0(), Queue(0, 5), Disconnect(true));
    RunOneMore(Fresh0(), x1, Connect);
    StillHeldBack(Run(Fresh0(), Queue(0, 5)));
    NullAtConnack(x1 + [Connect]);
  }

  lemma StillHeldBack(c: Client)
    requires c == Linked([Lone(1), Held(0, 5)], false, [SendRef(1), SendRef(2)], [1], QueueLog(0, 5))
    ensures var d := Step(Step(c, Disconnect(true)), Connect);
      !d.fault && d.session.connecting && |d.sends| == 2 && Fleeting(d.maxOut, d.sends[1])
  {
  }

  // ------------------------------------------------------------------ a timer that runs on

  /** The response to PINGREQ and a publish time out in one tick: the session is lost, and the
      timer of the publish runs on. */
  lemma SparedByTheSameTick()
    ensures var c := Run(Fresh0(), Start(2) + [Tick([PingCall, SendCall(1)])]);
      && c.session.disconnecting && |c.sends| > 0 && c.sends[0].id == 1
      && c.sends[0].armed && !c.sends[0].suspended && SendCall(1) in Collected(c.sends, [SendCall(1)])
  {
    StartIs(2);
    RunOneMore(Fresh0(), Start(2), Tick([PingCall, SendCall(1)]));
    RunKeeps(Full, 10, 100, Start(2));
    SameTickSpares(Started(2), 0);
    var c := Run(Fresh0(), Start(2) + [Tick([PingCall, SendCall(1)])]);
    assert [SendCall(1)][..0] == [];
  }
}
