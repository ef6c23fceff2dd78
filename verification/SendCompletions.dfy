/** A publish above QoS 0 is told complete for nothing but the acknowledgement it waits for. */
module SendCompletions {
  import opened PacketIds
  import opened History
  import opened SendModel
  import opened SendInvariant
  import opened SendSteps
  import opened SendRuns
  import opened SendSession
  import opened SendBooks
  import opened SendReconnect
  import opened SendFaults
  import opened SendFlat
  import opened SendEffects

  predicate Completes(e: Event) { e.Callback? && e.status.Complete? && e.qos > 0 }

  /** How many publishes above QoS 0 have been told complete. */
  function Completions(es: seq<Event>): nat
    decreases |es|
  {
    if es == [] then 0 else Completions(es[..|es| - 1]) + if Completes(es[|es| - 1]) then 1 else 0
  }

  lemma {:induction false} CompletionsJoined(a: seq<Event>, b: seq<Event>)
    ensures Completions(a + b) == Completions(a) + Completions(b)
    decreases |b|
  {
    if b == [] {
      assert a + b == a;
    } else {
      CompletionsJoined(a, b[..|b| - 1]);
      assert (a + b)[..|a + b| - 1] == a + b[..|b| - 1];
    }
  }

  lemma {:induction false} NoneCompletes(es: seq<Event>)
    requires forall k | 0 <= k < |es| :: !Completes(es[k])
    ensures Completions(es) == 0
    decreases |es|
  {
    if es != [] { NoneCompletes(es[..|es| - 1]); }
  }

  /** Setting others free completes nobody above QoS 0. */
  lemma {:induction false} FlatCompletesNone(maxOut: int, ahead: seq<Send>, rest: seq<Send>)
    ensures forall k | 0 <= k < |Flat(maxOut, ahead, rest).1| :: !Completes(Flat(maxOut, ahead, rest).1[k])
    decreases |rest|
  {
    if rest != [] && !rest[0].paused {
      FlatCompletesNone(maxOut, ahead + [rest[0]], rest[1..]);
    } else if rest != [] && !KeptBack(ahead, rest[0]) {
      FlatCompletesNone(maxOut, ahead + Left(maxOut, rest[0]), rest[1..]);
    }
  }

  /** As many as before. */
  ghost predicate SameCompletions(c: Client, d: Client) { Completions(Events(d.log)) == Completions(Events(c.log)) }

  lemma AddsNone(c: Client, d: Client, news: seq<Event>)
    requires Events(d.log) == Events(c.log) + news && forall k | 0 <= k < |news| :: !Completes(news[k])
    ensures SameCompletions(c, d)
  {
    CompletionsJoined(Events(c.log), news);
    NoneCompletes(news);
  }

  lemma EndAddsNone(c: Client, i: nat, status: Status)
    requires Good(c) && i < |c.sends| && c.sends[i].issued && (status.Complete? ==> c.sends[i].qos == 0)
    ensures SameCompletions(c, CompleteWithCb(c, i, status))
  {
    CompleteIsFlat(c, i, status);
    FlatCompletesNone(c.maxOut, c.sends[..i], c.sends[i + 1..]);
    var s := c.sends[i];
    AddsNone(c, CompleteWithCb(c, i, status), Departure(c, i).1 + [Callback(s.id, s.qos, status)]);
  }

  lemma RepeatAddsNone(c: Client, i: nat)
    requires Good(c) && i < |c.sends| && !c.sends[i].paused
    ensures SameCompletions(c, ResendDup(c, i, Resend))
  {
    assert EntryOk(c, c.sends[i]);
    if c.sends[i].total <= c.sends[i].attempts {
      EndAddsNone(c, i, Timeout);
      assert ResendDup(c, i, Resend) == CompleteWithCb(c, i, Timeout);
    } else if c.sends[i].published {
      RepeatFits(c, i);
      ResendDupIs(c, i, Resend);
    }
  }

  lemma {:induction false} WalkAddsNone(c: Client, target: int, i: nat)
    requires Good(c)
    ensures SameCompletions(c, ResendAllUntil(c, target, i))
    decreases |c.sends| - i
  {
    if i < |c.sends| {
      var d := ForceDupResend(c, i);
      if !c.sends[i].paused {
        ResendDupKeeps(c, i);
        RepeatAddsNone(c, i);
      }
      WalkUnfolds(c, target, i, d);
      if !d.fault && c.sends[i].id != target && i < |d.sends| {
        WalkAddsNone(d, target, if d.sends[i].id == c.sends[i].id then i + 1 else i);
      }
    }
  }

  lemma {:induction false} CallsAddNone(c: Client, due: seq<Call>)
    requires Good(c)
    ensures SameCompletions(c, OnCalls(c, due))
    decreases |due|
  {
    if due != [] && !c.fault {
      var d := OnCall(c, due[0]);
      OnCallKeeps(c, due[0]);
      if due[0].SendCall? {
        var i := IndexOf(c.sends, due[0].id);
        if i < |c.sends| && c.sends[i].published && !c.sends[i].armed {
          assert EntryOk(c, c.sends[i]);
          RepeatAddsNone(c, i);
        }
      }
      CallsAddNone(d, due[1..]);
    }
  }

  lemma {:induction false} TerminateAddsNone(c: Client, k: nat)
    requires Good(c) && !c.locked
    ensures SameCompletions(c, TerminateWalk(c, k))
    decreases |c.sends|, |c.ops.refs| - k
  {
    if k < |c.ops.refs| {
      match c.ops.refs[k]
      case OtherRef => TerminateAddsNone(c, k + 1);
      case Null =>
      case SendRef(id) =>
        var i := IndexOf(c.sends, id);
        if i < |c.sends| {
          assert EntryOk(c, c.sends[i]);
          EndAddsNone(c, i, Aborted);
          CompleteKeeps(c, i, Aborted);
          TerminateAddsNone(CompleteWithCb(c, i, Aborted), k + 1);
        }
    }
  }

  lemma {:induction false} PacketsOnly(sends: seq<Send>)
    ensures forall k | 0 <= k < |ReconnectPackets(sends)| :: !ReconnectPackets(sends)[k].Callback?
  {
    if sends != [] { PacketsOnly(sends[1..]); }
  }

  lemma ConnackAddsNone(c: Client, accepted: bool, sessionPresent: bool)
    requires Reached(c)
    ensures SameCompletions(c, DoConnack(c, accepted, sessionPresent))
  {
    ReachedIsGood(c);
    if c.session.connecting && accepted {
      if sessionPresent { FoundAddsNone(c); } else { GoneAddsNone(c); }
      AcceptedIs(c, sessionPresent);
    }
  }

  lemma AcceptedIs(c: Client, sessionPresent: bool)
    requires c.session.connecting
    ensures DoConnack(c, true, sessionPresent) == BrokerConnected(c, sessionPresent)
  {
  }

  lemma GoneAddsNone(c: Client)
    requires Good(c) && c.session.connecting
    ensures SameCompletions(c, BrokerConnected(c, false))
  {
    ConnectedKeeps(c, true);
    TerminateAddsNone(c.(session := c.session.(connected := true, connecting := false)), 0);
  }

  lemma FoundAddsNone(c: Client)
    requires Reached(c) && c.session.connecting
    ensures SameCompletions(c, BrokerConnected(c, true))
  {
    SessionFoundResumes(c);
    assert Step(c, Connack(true, true)) == BrokerConnected(c, true);
    PacketsOnly(c.sends);
    var again := AllRepeated(c.sends, 0);
    var from := TrailingPaused(again, |again|);
    FlatCompletesNone(c.maxOut, again[..from], again[from..]);
    FoundTold(c, BrokerConnected(c, true), Flat(c.maxOut, again[..from], again[from..]).1);
  }

  lemma FoundTold(c: Client, d: Client, freed: seq<Event>)
    requires Events(d.log) == Events(c.log) + [Mark(Resumed)] + ReconnectPackets(c.sends) + freed
    requires forall k | 0 <= k < |freed| :: !Completes(freed[k])
    requires forall k | 0 <= k < |ReconnectPackets(c.sends)| :: !ReconnectPackets(c.sends)[k].Callback?
    ensures SameCompletions(c, d)
  {
    var news := [Mark(Resumed)] + ReconnectPackets(c.sends) + freed;
    assert Events(d.log) == Events(c.log) + news;
    AddsNone(c, d, news);
  }

  lemma SendAddsNone(c: Client, qos: int, len: int, total: int, configured: bool)
    requires Reached(c)
    ensures SameCompletions(c, Step(c, SendPrepared(qos, len, total, configured)))
  {
    if c.sends != [] && !c.sends[|c.sends| - 1].issued && 0 <= qos <= MAX_QOS && total > 0 {
      if configured { IssueAddsNone(c, qos, len, total); } else { SendDrops(c, qos, len, total); }
    }
  }

  lemma IssueAddsNone(c: Client, qos: int, len: int, total: int)
    requires Reached(c) && c.sends != [] && !c.sends[|c.sends| - 1].issued && 0 <= qos <= MAX_QOS && total > 0
    ensures SameCompletions(c, Step(c, SendPrepared(qos, len, total, true)))
  {
    SendIssues(c, qos, len, total);
    var s := AsIssued(c, qos, len, total);
    IssueTold(c, s, Step(c, SendPrepared(qos, len, total, true)), Issued(s.id, qos, len, total, len <= c.maxOut));
  }

  lemma IssueTold(c: Client, s: Send, d: Client, e: Event)
    requires c.sends != [] && e.Issued? && Events(d.log) == Events(c.log) + [e] + IssueShows(c, s)
    ensures SameCompletions(c, d)
  {
    assert Events(d.log) == Events(c.log) + ([e] + IssueShows(c, s));
    AddsNone(c, d, [e] + IssueShows(c, s));
  }

  lemma CancelAddsNone(c: Client, id: int)
    requires Reached(c)
    ensures SameCompletions(c, Step(c, Cancel(id)))
  {
    var i := IndexOf(c.sends, id);
    if i < |c.sends| {
      CancelRemoves(c, i);
      FlatCompletesNone(c.maxOut, c.sends[..i], c.sends[i + 1..]);
      AddsNone(c, Step(c, Cancel(id)), Departure(c, i).1 + [Silent(id, Cancelled)]);
    }
  }

  /** The acknowledgement that completes a publish: PUBACK for QoS 1, or PUBCOMP for the oldest one
      with its PUBREC accepted, when its turn has come. */
  ghost predicate Answers(c: Client, x: Input) {
    exists i: nat :: x.Ack? && ItsTurn(c, i, x.ackPid)
      && ((x.kind.Puback? && c.sends[i].qos == 1) || (x.kind.Pubcomp? && i == 0 && c.sends[i].acked))
  }

  lemma AckAddsNone(c: Client, kind: AckKind, pid: int)
    requires Reached(c) && !Answers(c, Ack(kind, pid))
    ensures SameCompletions(c, Step(c, Ack(kind, pid)))
  {
    ReachedIsGood(c);
    var i := FindSend(c.sends, pid);
    if pid != 0 && !c.session.networkDown && i < |c.sends| {
      LegitExactly(c.sends, i, kind.Pubcomp?);
      assert EntryOk(c, c.sends[i]);
      if !Expected(c.sends, i, kind.Pubcomp?) {
        WalkAddsNone(c, c.sends[i].id, 0);
      } else {
        assert ItsTurn(c, i, pid);
        TurnAddsNone(c, i, kind, pid);
      }
    }
  }

  lemma TurnAddsNone(c: Client, i: nat, kind: AckKind, pid: int)
    requires Reached(c) && ItsTurn(c, i, pid) && (kind.Pubcomp? ==> i == 0) && !Answers(c, Ack(kind, pid))
    ensures SameCompletions(c, Step(c, Ack(kind, pid)))
  {
    ReachedIsGood(c);
    var s := c.sends[i];
    assert EntryOk(c, s);
    FlatCompletesNone(c.maxOut, c.sends[..i], c.sends[i + 1..]);
    if kind.Pubrec? && s.qos == 2 && !s.acked {
      PubrecIsAnswered(c, i, pid);
      var news := if PUBREL_LEN <= c.maxOut then [Pubrel(s.id, pid)] else Departure(c, i).1 + [Callback(s.id, s.qos, InternalError)];
      AddsNone(c, Step(c, Ack(kind, pid)), news);
    } else {
      UnexpectedEndsBoth(c, i, kind, pid);
      AddsNone(c, Step(c, Ack(kind, pid)), Departure(c, i).1 + [Callback(s.id, s.qos, ProtocolError)] + [Mark(Lost(true, TimedIds(Departure(c, i).0)))]);
    }
  }

  /** In every reachable state: the step that tells a publish above QoS 0 complete is the
      acknowledgement it waits for, and that one tells just this. */
  lemma OnlyAnswersComplete(c: Client, x: Input)
    requires Reached(c)
    ensures Completions(Events(Step(c, x).log)) == Completions(Events(c.log)) + if Answers(c, x) then 1 else 0
  {
    ReachedIsGood(c);
    if Answers(c, x) {
      AnswerAddsOne(c, x);
    } else {
      match x
      case SendPrepared(qos, len, total, configured) => SendAddsNone(c, qos, len, total, configured);
      case Cancel(id) => CancelAddsNone(c, id);
      case Ack(kind, pid) => AckAddsNone(c, kind, pid);
      case Tick(calls) => TickAddsNone(c, calls);
      case Connack(accepted, sessionPresent) => ConnackAddsNone(c, accepted, sessionPresent);
      case _ => OthersAddNone(c, x);
    }
  }

  lemma OthersAddNone(c: Client, x: Input)
    requires !c.fault && !x.SendPrepared? && !x.Cancel? && !x.Ack? && !x.Tick? && !x.Connack?
    ensures SameCompletions(c, Step(c, x))
  {
    match x
    case Disconnect(report) => AddsNone(c, BrokerDisconnected(c, report), [Mark(Lost(report, TimedIds(c.sends)))]);
    case OtherEnds(ref, held) => OtherEndsSilently(c, ref, held);
    case _ =>
  }

  lemma OtherEndsSilently(c: Client, ref: nat, held: nat)
    ensures DoOtherEnds(c, ref, held).log == c.log
  {
  }

  lemma TickAddsNone(c: Client, calls: seq<Call>)
    requires Good(c)
    ensures SameCompletions(c, DoTick(c, calls))
  {
    var due := Collected(c.sends, calls);
    RetimedKeeps(c, c.(sends := TimersCancelled(c.sends, due)));
    CallsAddNone(c.(sends := TimersCancelled(c.sends, due)), due);
  }

  lemma AnswerAddsOne(c: Client, x: Input)
    requires Reached(c) && Answers(c, x)
    ensures Completions(Events(Step(c, x).log)) == Completions(Events(c.log)) + 1
  {
    var i: nat :| x.Ack? && ItsTurn(c, i, x.ackPid)
      && ((x.kind.Puback? && c.sends[i].qos == 1) || (x.kind.Pubcomp? && i == 0 && c.sends[i].acked));
    if x.kind.Puback? { PubackCompletes(c, i, x.ackPid); } else { PubcompCompletes(c, x.ackPid); }
    var s, f := c.sends[i], Departure(c, i).1;
    FlatCompletesNone(c.maxOut, c.sends[..i], c.sends[i + 1..]);
    NoneCompletes(f);
    CompletionsJoined(Events(c.log), f + [Callback(s.id, s.qos, Complete)]);
    CompletionsJoined(f, [Callback(s.id, s.qos, Complete)]);
    assert Events(c.log) + (f + [Callback(s.id, s.qos, Complete)]) == Events(Step(c, x).log);
    OneCompletes(Callback(s.id, s.qos, Complete));
  }

  lemma OneCompletes(e: Event)
    ensures Completions([e]) == if Completes(e) then 1 else 0
  {
    assert [e][..0] == [];
  }
}
