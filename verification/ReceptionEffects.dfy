/** What each packet and event brings about on the receiving side: which acknowledgement goes out
    for which message, and what the application gets. */
module ReceptionEffects {
  import opened Topics
  import opened Filters
  import opened Reception

  // ------------------------------------------------------------------ single events

  /** An acknowledgement, where it fits the output buffer. */
  function IfFits(u: Setup, e: Event): seq<Event> { if 4 <= u.maxOut then [e] else [] }

  /** What a PUBLISH shows: nothing while nothing is heard; for a known QoS 2 identifier a repeated
      PUBREC and no report, or the loss of the session without DUP; for a new message its report
      and the acknowledgement of its QoS; the loss of the session if it cannot be taken. */
  function PublishShows(u: Setup, r: Receiver, qos: int, dup: bool, pid: int, topic: string): seq<Event> {
    if r.link.networkDown || r.link.disconnecting then []
    else if qos >= 2 && exists i | 0 <= i < |r.recvs| :: r.recvs[i].pid == pid then
      if dup then [Stop(pid)] + IfFits(u, Pubrec(pid)) else [Lost(true)]
    else if !(r.link.connected && qos <= 2 && topic != ""
              && (u.verifyIncoming ==> CString(topic) != "" && '#' !in CString(topic) && '+' !in CString(topic))
              && (u.gate.verify ==> exists i | 0 <= i < |r.filters| :: IsTopicMatch(r.filters[i], topic)))
    then [Lost(true)]
    else if qos == 0 then [Report(CString(topic), 0, 0)]
    else if qos == 1 then [Report(CString(topic), 1, pid)] + IfFits(u, Puback(pid))
    else [Report(CString(topic), 2, pid)] + IfFits(u, Pubrec(pid))
  }

  lemma KnownMeansFound(recvs: seq<Recv>, pid: int)
    ensures FindRecv(recvs, pid) < |recvs| <==> exists i | 0 <= i < |recvs| :: recvs[i].pid == pid
  {
  }

  lemma PublishEffect(u: Setup, r: Receiver, qos: int, dup: bool, pid: int, topic: string)
    requires 0 <= qos <= 3
    ensures Step(u, r, PublishReceived(qos, dup, pid, topic)).log == r.log + PublishShows(u, r, qos, dup, pid, topic)
  {
    KnownMeansFound(r.recvs, pid);
    if !r.link.networkDown && !r.link.disconnecting {
      var k := FindRecv(r.recvs, pid);
      if qos >= 2 && k < |r.recvs| {
        assert (r.log + [Stop(pid)]) + Ack(u, Pubrec(pid)) == r.log + ([Stop(pid)] + Ack(u, Pubrec(pid)));
      } else {
        NewEffect(u, r, qos, pid, topic);
      }
    }
  }

  lemma NewEffect(u: Setup, r: Receiver, qos: int, pid: int, topic: string)
    requires 0 <= qos <= 3
    ensures Begin(u, r, qos, pid, topic).log == r.log +
              (if !Welcome(u, r, qos, topic) then [Lost(true)]
               else if qos == 0 then [Report(CString(topic), 0, 0)]
               else if qos == 1 then [Report(CString(topic), 1, pid)] + IfFits(u, Puback(pid))
               else [Report(CString(topic), 2, pid)] + IfFits(u, Pubrec(pid)))
  {
  }

  /** A PUBREL for a known identifier stops its timer, and is answered by PUBCOMP, which ends the
      reception; a malformed one loses the session. For an unknown identifier nothing happens. */
  lemma PubrelEffect(u: Setup, r: Receiver, pid: int, valid: bool)
    ensures Step(u, r, PubrelReceived(pid, valid)).log == r.log +
              if r.link.networkDown || !exists i | 0 <= i < |r.recvs| :: r.recvs[i].pid == pid then []
              else if valid then [Stop(pid)] + IfFits(u, Pubcomp(pid)) + [Ended(pid, Released)]
              else [Stop(pid)] + [Lost(true)]
  {
    KnownMeansFound(r.recvs, pid);
    var k := FindRecv(r.recvs, pid);
    if k < |r.recvs| {
      assert (r.log + [Stop(pid)]) + Ack(u, Pubcomp(pid)) + [Ended(pid, Released)]
          == r.log + ([Stop(pid)] + Ack(u, Pubcomp(pid)) + [Ended(pid, Released)]);
      assert (r.log + [Stop(pid)]) + [Lost(true)] == r.log + ([Stop(pid)] + [Lost(true)]);
    }
  }

  /** The rest: a timer that runs ends its reception, and only that; a lost session is told, a
      found one too; a new one ends all receptions and forgets all filters. */
  lemma OtherEffects(u: Setup, r: Receiver, x: Input)
    requires !x.PublishReceived? && !x.PubrelReceived?
    ensures Step(u, r, x).log == r.log +
      match x
      case Expire(k) => (if k < |r.recvs| && r.recvs[k].armed && !r.recvs[k].suspended then [Ended(r.recvs[k].pid, TimedOut)] else [])
      case SubackReceived(reqs, codes) =>
        (if !r.link.networkDown && !r.link.disconnecting && !OnSuback(u.gate, reqs, codes, r.filters).1.Completed? then [Lost(true)] else [])
      case NetworkDisconnected => (if r.link.disconnecting then [] else [Lost(false)])
      case Disconnect(report) => [Lost(report)]
      case ConnackReceived(accepted, present) =>
        (if r.link.networkDown || r.link.disconnecting || r.link.connected || !accepted then []
         else if present then [Resumed] else Terminations(r.recvs))
      case _ => []
  {
  }

  /** A packet that costs the session tells so, and the others leave the link as it is. */
  lemma LossIsTold(u: Setup, r: Receiver, x: Input)
    requires x.PublishReceived? || x.PubrelReceived? || x.SubackReceived?
    ensures var d := Step(u, r, x);
      d.link == if Lost(true) in d.log[|r.log|..] then r.link.(connected := false, disconnecting := true) else r.link
  {
    match x
    case PublishReceived(qos, dup, pid, topic) => if 0 <= qos <= 3 { PublishLoss(u, r, qos, dup, pid, topic); }
    case PubrelReceived(pid, valid) => PubrelLoss(u, r, pid, valid);
    case SubackReceived(reqs, codes) => SubackLoss(u, r, reqs, codes);
  }

  lemma PublishLoss(u: Setup, r: Receiver, qos: int, dup: bool, pid: int, topic: string)
    requires 0 <= qos <= 3
    ensures var d := Step(u, r, PublishReceived(qos, dup, pid, topic));
      d.link == if Lost(true) in d.log[|r.log|..] then r.link.(connected := false, disconnecting := true) else r.link
  {
    PublishEffect(u, r, qos, dup, pid, topic);
    PublishLink(u, r, qos, dup, pid, topic);
    var shows := PublishShows(u, r, qos, dup, pid, topic);
    assert (r.log + shows)[|r.log|..] == shows;
  }

  lemma PublishLink(u: Setup, r: Receiver, qos: int, dup: bool, pid: int, topic: string)
    requires 0 <= qos <= 3
    ensures Step(u, r, PublishReceived(qos, dup, pid, topic)).link
              == if Lost(true) in PublishShows(u, r, qos, dup, pid, topic) then r.link.(connected := false, disconnecting := true) else r.link
  {
    KnownMeansFound(r.recvs, pid);
  }

  lemma PubrelLoss(u: Setup, r: Receiver, pid: int, valid: bool)
    ensures var d := Step(u, r, PubrelReceived(pid, valid));
      d.link == if Lost(true) in d.log[|r.log|..] then r.link.(connected := false, disconnecting := true) else r.link
  {
    PubrelEffect(u, r, pid, valid);
    KnownMeansFound(r.recvs, pid);
    var news := Step(u, r, PubrelReceived(pid, valid)).log[|r.log|..];
    if FindRecv(r.recvs, pid) < |r.recvs| && !r.link.networkDown && !valid { assert news[1] == Lost(true); }
  }

  lemma SubackLoss(u: Setup, r: Receiver, reqs: seq<Request>, codes: seq<int>)
    ensures var d := Step(u, r, SubackReceived(reqs, codes));
      d.link == if Lost(true) in d.log[|r.log|..] then r.link.(connected := false, disconnecting := true) else r.link
  {
    var news := Step(u, r, SubackReceived(reqs, codes)).log[|r.log|..];
    if Hears(r.link) && !OnSuback(u.gate, reqs, codes, r.filters).1.Completed? { assert news[0] == Lost(true); }
  }

  lemma {:induction false} TerminationsAre(recvs: seq<Recv>)
    ensures |Terminations(recvs)| == |recvs|
    ensures forall k | 0 <= k < |recvs| :: Terminations(recvs)[k] == Ended(recvs[k].pid, Terminated)
  {
    if recvs != [] { TerminationsAre(recvs[1..]); }
  }

  // ------------------------------------------------------------------ whole runs

  /** Event `k` has the acknowledgement beside it that it asks for, and is beside what it answers. */
  predicate Answered(es: seq<Event>, k: nat)
    requires k < |es|
  {
    var e := es[k];
    && (e.Report? && e.qos == 1 ==> k + 1 < |es| && es[k + 1] == Puback(e.pid))
    && (e.Report? && e.qos == 2 ==> k + 1 < |es| && es[k + 1] == Pubrec(e.pid))
    && (e.Ended? && e.how.Released? ==> k > 0 && es[k - 1] == Pubcomp(e.pid))
    && (e.Puback? ==> k > 0 && es[k - 1].Report? && es[k - 1].qos == 1 && es[k - 1].pid == e.pid)
    && (e.Pubrec? ==> k > 0 && (es[k - 1] == Stop(e.pid) || (es[k - 1].Report? && es[k - 1].qos == 2 && es[k - 1].pid == e.pid)))
    && (e.Pubcomp? ==> k > 0 && es[k - 1] == Stop(e.pid) && k + 1 < |es| && es[k + 1] == Ended(e.pid, Released))
  }

  ghost predicate AllAnswered(es: seq<Event>) { forall k | 0 <= k < |es| :: Answered(es, k) }

  lemma AnsweredJoined(a: seq<Event>, b: seq<Event>)
    requires AllAnswered(a) && AllAnswered(b)
    ensures AllAnswered(a + b)
  {
    var es := a + b;
    forall k | 0 <= k < |es| ensures Answered(es, k) {
      if k < |a| {
        assert Answered(a, k);
      } else {
        assert Answered(b, k - |a|);
      }
    }
  }

  lemma StepAnswers(u: Setup, r: Receiver, x: Input)
    requires ACK_LEN <= u.maxOut && AllAnswered(r.log)
    ensures AllAnswered(Step(u, r, x).log)
  {
    match x
    case PublishReceived(qos, dup, pid, topic) => if 0 <= qos <= 3 { PublishAnswers(u, r, qos, dup, pid, topic); }
    case PubrelReceived(pid, valid) => PubrelAnswers(u, r, pid, valid);
    case _ => OtherAnswers(u, r, x);
  }

  lemma PublishAnswers(u: Setup, r: Receiver, qos: int, dup: bool, pid: int, topic: string)
    requires ACK_LEN <= u.maxOut && AllAnswered(r.log) && 0 <= qos <= 3
    ensures AllAnswered(Step(u, r, PublishReceived(qos, dup, pid, topic)).log)
  {
    PublishEffect(u, r, qos, dup, pid, topic);
    AnsweredJoined(r.log, PublishShows(u, r, qos, dup, pid, topic));
  }

  lemma PubrelAnswers(u: Setup, r: Receiver, pid: int, valid: bool)
    requires ACK_LEN <= u.maxOut && AllAnswered(r.log)
    ensures AllAnswered(Step(u, r, PubrelReceived(pid, valid)).log)
  {
    PubrelEffect(u, r, pid, valid);
    AnsweredJoined(r.log, [Stop(pid)] + IfFits(u, Pubcomp(pid)) + [Ended(pid, Released)]);
    AnsweredJoined(r.log, [Stop(pid)] + [Lost(true)]);
  }

  lemma OtherAnswers(u: Setup, r: Receiver, x: Input)
    requires AllAnswered(r.log) && !x.PublishReceived? && !x.PubrelReceived?
    ensures AllAnswered(Step(u, r, x).log)
  {
    OtherEffects(u, r, x);
    TerminationsAre(r.recvs);
    AnsweredJoined(r.log, Terminations(r.recvs));
    QuietJoined(u, r, x);
  }

  lemma QuietJoined(u: Setup, r: Receiver, x: Input)
    requires AllAnswered(r.log)
    ensures forall e: Event | e.Lost? || e.Resumed? || (e.Ended? && !e.how.Released?) :: AllAnswered(r.log + [e])
  {
    forall e: Event | e.Lost? || e.Resumed? || (e.Ended? && !e.how.Released?) ensures AllAnswered(r.log + [e]) {
      AnsweredJoined(r.log, [e]);
    }
  }

  /** In every run: each report of QoS 1 is followed at once by PUBACK, each of QoS 2 by PUBREC, each
      end by PUBREL comes at once after PUBCOMP; and those three packets go out for nothing
      else but, PUBREC, a duplicate, whose Stop it follows. */
  lemma {:induction false} AcknowledgedAsAsked(u: Setup, xs: seq<Input>)
    requires ACK_LEN <= u.maxOut
    ensures AllAnswered(Run(u, xs).log)
    decreases |xs|
  {
    if xs != [] {
      AcknowledgedAsAsked(u, xs[..|xs| - 1]);
      StepAnswers(u, Run(u, xs[..|xs| - 1]), xs[|xs| - 1]);
    }
  }

  /** What the application has asked for it gets: over an open session a message on a topic that a
      granted filter matches by the rules is reported, unless it is a QoS 2 message whose
      reception is still under way. */
  lemma MatchingIsReported(u: Setup, xs: seq<Input>, qos: int, dup: bool, pid: int, topic: string, filter: string)
    requires var l := Run(u, xs).link; l.connected && !l.disconnecting && !l.networkDown
    requires 0 <= qos <= 2 && topic != "" && NUL !in topic && '#' !in topic && '+' !in topic
    requires u.gate.verify ==>
               filter in Granted(u, xs) && LevelMatch(Levels(filter), Levels(topic))
               && !TrailingLevelRefused(Levels(filter), Levels(topic))
    requires qos == 2 ==> pid != 0 && !Open(Run(u, xs).log, pid)
    ensures var d := Step(u, Run(u, xs), PublishReceived(qos, dup, pid, topic)).log;
      var n := |Run(u, xs).log|;
      && n < |d| && d[..n] == Run(u, xs).log && d[n] == Report(topic, qos, if qos == 0 then 0 else pid)
      && d[n + 1..] == if qos == 0 then [] else IfFits(u, if qos == 1 then Puback(pid) else Pubrec(pid))
  {
    var r := Run(u, xs);
    VectorIsGranted(u, xs);
    RunKeeps(u, xs);
    ShownUpToNul(topic);
    PublishEffect(u, r, qos, dup, pid, topic);
    if u.gate.verify {
      MatchIsLevelMatch(filter, topic);
      assert filter in r.filters;
      var i :| 0 <= i < |r.filters| && r.filters[i] == filter;
      assert IsTopicMatch(r.filters[i], topic);
    }
    assert Handles(r.recvs, pid) <==> exists i | 0 <= i < |r.recvs| :: r.recvs[i].pid == pid;
  }
}
