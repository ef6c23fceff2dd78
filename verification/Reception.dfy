/** Incoming publishes: the QoS 2 handshake of the receiver and the subscription gate, as
    functions on the state kept by client/lib/src/ClientImpl.cpp and
    client/lib/src/op/RecvOp.cpp, and what holds of them in every run. */
module Reception {
  import opened Topics
  import opened Filters

  /** One RecvOp: the identifier of the message it handles (0 before it is known) and the
      state of its response timer. */
  datatype Recv = Recv(pid: int, armed: bool, suspended: bool)

  datatype Ending = Released | TimedOut | Terminated

  /** What the outside sees, the end of receptions, and what moves their timers: the timer of
      one is stopped, the session is lost, a reconnection finds the session. */
  datatype Event =
    | Report(topic: string, qos: int, pid: int)
    | Puback(pid: int)
    | Pubrec(pid: int)
    | Pubcomp(pid: int)
    | Ended(pid: int, how: Ending)
    | Stop(pid: int)
    | Lost(reported: bool)
    | Resumed

  /** Settings that do not change: verification of incoming topics, the gate, the output buffer. */
  datatype Setup = Setup(verifyIncoming: bool, gate: Gate, maxOut: int)

  datatype Link = Link(connected: bool, disconnecting: bool, networkDown: bool)

  datatype Receiver = Receiver(link: Link, recvs: seq<Recv>, filters: seq<string>, log: seq<Event>)

  datatype Input =
    | PublishReceived(qos: int, dup: bool, pid: int, topic: string)
    | PubrelReceived(pid: int, valid: bool)
    | Expire(index: nat)
    | SubackReceived(reqs: seq<Request>, codes: seq<int>)
    | UnsubackReceived(topics: seq<string>)
    | NetworkDisconnected
    | Disconnect(report: bool)
    | Connect
    | ConnackReceived(accepted: bool, sessionPresent: bool)

  const ACK_LEN := 4

  function NewReceiver(): Receiver {
    Receiver(Link(false, false, false), [], [], [])
  }

  // ------------------------------------------------------------------ pieces

  /** The acknowledgement, if the output buffer takes it: the result of sending is not looked at. */
  function Ack(u: Setup, e: Event): seq<Event> {
    if ACK_LEN <= u.maxOut then [e] else []
  }

  /** What c_str() shows of a string. */
  function CString(s: string): string {
    if s == "" || s[0] == NUL then "" else [s[0]] + CString(s[1..])
  }

  predicate ValidTopic(u: Setup, topic: string) {
    var shown := CString(topic);
    topic != "" && (u.verifyIncoming ==> shown != "" && MULTI_LEVEL !in shown && SINGLE_LEVEL !in shown)
  }

  predicate Subscribed(filters: seq<string>, topic: string) {
    exists i | 0 <= i < |filters| :: IsTopicMatch(filters[i], topic)
  }

  function FindRecv(recvs: seq<Recv>, pid: int): (k: nat)
    ensures k <= |recvs|
    ensures k < |recvs| ==> recvs[k].pid == pid
    ensures forall j | 0 <= j < k :: recvs[j].pid != pid
  {
    if recvs == [] || recvs[0].pid == pid then 0 else
    var k := 1 + FindRecv(recvs[1..], pid);
    assert forall j | 1 <= j < k :: recvs[j] == recvs[1..][j - 1];
    k
  }

  function Without(recvs: seq<Recv>, k: nat): seq<Recv>
    requires k < |recvs|
  {
    recvs[..k] + recvs[k + 1..]
  }

  /** Time passes for the timer of this reception. */
  predicate Runs(s: Recv) { s.armed && !s.suspended }

  function SuspendedRecv(s: Recv): Recv { if s.armed then s.(suspended := true) else s }

  /** postReconnectionResume: an inactive timer keeps its suspension. */
  function ResumedRecv(s: Recv): Recv { s.(armed := true, suspended := s.suspended && !s.armed) }

  /** The timer of a reception is cancelled. */
  function TimerStopped(r: Receiver, k: nat): Receiver
    requires k < |r.recvs|
  {
    r.(recvs := r.recvs[k := r.recvs[k].(armed := false)], log := r.log + [Stop(r.recvs[k].pid)])
  }

  /** brokerDisconnected: receptions are kept, their running timers are suspended. */
  function Dropped(r: Receiver, report: bool): Receiver {
    r.(link := r.link.(connected := false, disconnecting := true),
       recvs := seq(|r.recvs|, k requires 0 <= k < |r.recvs| => SuspendedRecv(r.recvs[k])),
       log := r.log + [Lost(report)])
  }

  // ------------------------------------------------------------------ packets

  predicate Welcome(u: Setup, r: Receiver, qos: int, topic: string) {
    qos <= 2 && r.link.connected && ValidTopic(u, topic) && (u.gate.verify ==> Subscribed(r.filters, topic))
  }

  /** A new RecvOp handles the message. When it refuses it, it stays in the list with no
      identifier. */
  function Begin(u: Setup, r: Receiver, qos: int, pid: int, topic: string): Receiver {
    if !Welcome(u, r, qos, topic) then Dropped(r.(recvs := r.recvs + [Recv(0, false, false)]), true)
    else if qos == 0 then r.(log := r.log + [Report(CString(topic), 0, 0)])
    else if qos == 1 then r.(log := r.log + [Report(CString(topic), 1, pid)] + Ack(u, Puback(pid)))
    else
      r.(recvs := r.recvs + [Recv(pid, true, false)],
         log := r.log + [Report(CString(topic), 2, pid)] + Ack(u, Pubrec(pid)))
  }

  /** ClientImpl::handle(PublishMsg&) */
  function OnPublish(u: Setup, r: Receiver, qos: int, dup: bool, pid: int, topic: string): Receiver {
    if r.link.disconnecting then r
    else if qos <= 1 then Begin(u, r, qos, pid, topic)
    else
      var k := FindRecv(r.recvs, pid);
      if k == |r.recvs| then Begin(u, r, qos, pid, topic)
      else if !dup then Dropped(r, true)
      else
        var r1 := TimerStopped(r, k);
        r1.(log := r1.log + Ack(u, Pubrec(pid)))
  }

  /** ClientImpl::handle(PubrelMsg&) and RecvOp::handle(PubrelMsg&) */
  function OnPubrel(u: Setup, r: Receiver, pid: int, valid: bool): Receiver {
    var k := FindRecv(r.recvs, pid);
    if k == |r.recvs| then r
    else
      var r1 := TimerStopped(r, k);
      if !valid then Dropped(r1, true)
      else r1.(recvs := Without(r1.recvs, k), log := r1.log + Ack(u, Pubcomp(pid)) + [Ended(pid, Released)])
  }

  function OnExpire(r: Receiver, k: nat): Receiver {
    if k < |r.recvs| && Runs(r.recvs[k])
    then r.(recvs := Without(r.recvs, k), log := r.log + [Ended(r.recvs[k].pid, TimedOut)])
    else r
  }

  function Terminations(recvs: seq<Recv>): seq<Event> {
    if recvs == [] then [] else [Ended(recvs[0].pid, Terminated)] + Terminations(recvs[1..])
  }

  /** An accepted CONNACK: receptions go on, or end together with the stored filters. */
  function Connected(r: Receiver, sessionPresent: bool): Receiver {
    var l := r.link.(connected := true);
    if sessionPresent
    then
      r.(link := l, recvs := seq(|r.recvs|, k requires 0 <= k < |r.recvs| => ResumedRecv(r.recvs[k])),
         log := r.log + [Resumed])
    else r.(link := l, recvs := [], filters := [], log := r.log + Terminations(r.recvs))
  }

  /** Packets are taken in. */
  predicate Hears(l: Link) { !l.networkDown && !l.disconnecting }

  predicate AwaitsConnack(l: Link) { Hears(l) && !l.connected }

  function Step(u: Setup, r: Receiver, x: Input): Receiver {
    match x
    case PublishReceived(qos, dup, pid, topic) =>
      if r.link.networkDown || !(0 <= qos <= 3) then r else OnPublish(u, r, qos, dup, pid, topic)
    case PubrelReceived(pid, valid) => if r.link.networkDown then r else OnPubrel(u, r, pid, valid)
    case Expire(k) => OnExpire(r, k)
    case SubackReceived(reqs, codes) =>
      if !Hears(r.link) then r
      else
        var (fs, verdict) := OnSuback(u.gate, reqs, codes, r.filters);
        var r1 := r.(filters := fs);
        if verdict.Completed? then r1 else Dropped(r1, true)
    case UnsubackReceived(topics) => if !Hears(r.link) then r else r.(filters := Removing(topics, 0, r.filters))
    case NetworkDisconnected =>
      var r1 := r.(link := r.link.(networkDown := true));
      if r.link.disconnecting then r1 else Dropped(r1, false)
    case Disconnect(report) => Dropped(r, report)
    case Connect =>
      if r.link.disconnecting then r.(link := Link(false, false, false)) else r.(link := r.link.(networkDown := false))
    case ConnackReceived(accepted, sessionPresent) =>
      if !AwaitsConnack(r.link) || !accepted then r else Connected(r, sessionPresent)
  }

  function Run(u: Setup, xs: seq<Input>): Receiver
    decreases |xs|
  {
    if xs == [] then NewReceiver() else Step(u, Run(u, xs[..|xs| - 1]), xs[|xs| - 1])
  }

  // ------------------------------------------------------------------ the gate

  /** What one step grants or withdraws. */
  function GrantStep(u: Setup, l: Link, s: set<string>, x: Input): set<string> {
    if x.SubackReceived? && Hears(l) then GrantedBy(u.gate, x.reqs, x.codes, s).0
    else if x.UnsubackReceived? && Hears(l) then s - AsSet(x.topics)
    else if x.ConnackReceived? && AwaitsConnack(l) && x.accepted && !x.sessionPresent then {}
    else s
  }

  /** The filters the broker has granted and not withdrawn, since it last had no session. */
  function Granted(u: Setup, xs: seq<Input>): set<string>
    decreases |xs|
  {
    if xs == [] then {}
    else
      var before := xs[..|xs| - 1];
      GrantStep(u, Run(u, before).link, Granted(u, before), xs[|xs| - 1])
  }

  /** The vector is always sorted and holds just the granted filters. */
  lemma {:induction false} VectorIsGranted(u: Setup, xs: seq<Input>)
    ensures Sorted(Run(u, xs).filters) && AsSet(Run(u, xs).filters) == Granted(u, xs)
    decreases |xs|
  {
    if xs != [] {
      var before, x := xs[..|xs| - 1], xs[|xs| - 1];
      VectorIsGranted(u, before);
      VectorStep(u, Run(u, before), x);
    }
  }

  lemma VectorStep(u: Setup, r: Receiver, x: Input)
    requires Sorted(r.filters)
    ensures var fs := Step(u, r, x).filters; Sorted(fs) && AsSet(fs) == GrantStep(u, r.link, AsSet(r.filters), x)
  {
    match x
    case SubackReceived(reqs, codes) => SubackVector(u, r, reqs, codes);
    case UnsubackReceived(topics) => UnsubackVector(u, r, topics);
    case ConnackReceived(_, _) =>
    case _ => OtherVector(u, r, x);
  }

  lemma SubackVector(u: Setup, r: Receiver, reqs: seq<Request>, codes: seq<int>)
    requires Sorted(r.filters)
    ensures var x := SubackReceived(reqs, codes);
      var fs := Step(u, r, x).filters; Sorted(fs) && AsSet(fs) == GrantStep(u, r.link, AsSet(r.filters), x)
  {
    SubackIsOnSets(u.gate, reqs, codes, r.filters);
    SubackFilters(u, r, reqs, codes);
  }

  lemma SubackFilters(u: Setup, r: Receiver, reqs: seq<Request>, codes: seq<int>)
    ensures Step(u, r, SubackReceived(reqs, codes)).filters
              == if Hears(r.link) then OnSuback(u.gate, reqs, codes, r.filters).0 else r.filters
  {
  }

  lemma UnsubackVector(u: Setup, r: Receiver, topics: seq<string>)
    requires Sorted(r.filters)
    ensures var x := UnsubackReceived(topics);
      var fs := Step(u, r, x).filters; Sorted(fs) && AsSet(fs) == GrantStep(u, r.link, AsSet(r.filters), x)
  {
    RemovingIsOnSets(topics, 0, r.filters);
    assert topics[0..] == topics;
  }

  lemma OtherVector(u: Setup, r: Receiver, x: Input)
    requires !x.SubackReceived? && !x.UnsubackReceived? && !x.ConnackReceived?
    ensures Step(u, r, x).filters == r.filters
  {
  }

  /** With the gate on, every message reported is on a topic that a granted filter matches by
      the rules of section 4.7.1 of MQTT 3.1.1, and came over an open session. What the report
      shows of the topic is all of it, unless it holds a NUL. */
  lemma ReportsAreSubscribed(u: Setup, xs: seq<Input>, x: Input, i: nat) returns (topic: string, filter: string)
    requires u.gate.verify && |Run(u, xs).log| <= i < |Step(u, Run(u, xs), x).log|
    requires Step(u, Run(u, xs), x).log[i].Report?
    ensures x.PublishReceived? && x.topic == topic && Run(u, xs).link.connected
    ensures filter in Granted(u, xs) && IsTopicMatch(filter, topic) && LevelMatch(Levels(filter), Levels(topic))
    ensures var shown := Step(u, Run(u, xs), x).log[i].topic;
      shown == CString(topic) && (shown == topic <==> NUL !in topic)
  {
    var r := Run(u, xs);
    topic := OnlyPublishReports(u, r, x, i);
    VectorIsGranted(u, xs);
    var k :| 0 <= k < |r.filters| && IsTopicMatch(r.filters[k], topic);
    filter := r.filters[k];
    assert filter in AsSet(r.filters);
    MatchIsLevelMatch(filter, topic);
    ShownUpToNul(topic);
  }

  lemma {:induction false} ShownUpToNul(s: string)
    ensures NUL !in CString(s) && CString(s) <= s && (CString(s) == s <==> NUL !in s)
  {
    if s != "" && s[0] != NUL {
      ShownUpToNul(s[1..]);
      assert s == [s[0]] + s[1..];
    }
  }

  lemma OnlyPublishReports(u: Setup, r: Receiver, x: Input, i: nat) returns (topic: string)
    requires |r.log| <= i < |Step(u, r, x).log| && Step(u, r, x).log[i].Report?
    ensures x.PublishReceived? && x.topic == topic && Welcome(u, r, x.qos, topic)
    ensures Step(u, r, x).log[i].topic == CString(topic)
  {
    if x.ConnackReceived? { TerminationsOnly(r.recvs); }
    topic := x.topic;
  }

  lemma {:induction false} TerminationsOnly(recvs: seq<Recv>)
    ensures forall k | 0 <= k < |Terminations(recvs)| :: Terminations(recvs)[k].Ended?
  {
    if recvs != [] { TerminationsOnly(recvs[1..]); }
  }

  /** So over a whole run every report shows a topic that, when it was made, a filter then
      granted matched. */
  lemma {:induction false} EveryReportWasSubscribed(u: Setup, xs: seq<Input>, i: nat)
    returns (n: nat, topic: string, filter: string)
    requires u.gate.verify && i < |Run(u, xs).log| && Run(u, xs).log[i].Report?
    ensures n < |xs| && xs[n].PublishReceived? && xs[n].topic == topic && Run(u, xs).log[i].topic == CString(topic)
    ensures filter in Granted(u, xs[..n]) && IsTopicMatch(filter, topic)
    decreases |xs|
  {
    var before, x := xs[..|xs| - 1], xs[|xs| - 1];
    LogGrows(u, Run(u, before), x);
    if i < |Run(u, before).log| {
      n, topic, filter := EveryReportWasSubscribed(u, before, i);
      assert before[..n] == xs[..n];
    } else {
      n := |xs| - 1;
      topic, filter := ReportsAreSubscribed(u, before, x, i);
    }
  }

  lemma LogGrows(u: Setup, r: Receiver, x: Input)
    ensures r.log <= Step(u, r, x).log
  {
  }

  // ------------------------------------------------------------------ once and only once

  /** A message of QoS 2 with this identifier has been reported and its reception has not ended. */
  predicate Open(log: seq<Event>, pid: int)
    decreases |log|
  {
    log != [] &&
    var e := log[|log| - 1];
    if e.Report? && e.qos == 2 && e.pid == pid then true
    else if e.Ended? && e.pid == pid then false
    else Open(log[..|log| - 1], pid)
  }

  predicate Handles(recvs: seq<Recv>, pid: int) {
    exists i | 0 <= i < |recvs| :: recvs[i].pid == pid
  }

  ghost predicate Distinct(recvs: seq<Recv>) {
    forall i, j | 0 <= i < j < |recvs| && recvs[i].pid != 0 :: recvs[i].pid != recvs[j].pid
  }

  ghost predicate Once(log: seq<Event>) {
    forall j | 0 <= j < |log| && log[j].Report? && log[j].qos == 2 && log[j].pid != 0 :: !Open(log[..j], log[j].pid)
  }

  predicate Opens(e: Event, pid: int) { e.Report? && e.qos == 2 && e.pid == pid }

  /** The timer of the reception with this identifier has been stopped, and neither a new
      reception nor a resumed session has set it again. */
  predicate Stopped(log: seq<Event>, pid: int)
    decreases |log|
  {
    log != [] &&
    var e := log[|log| - 1];
    if Opens(e, pid) || e.Resumed? then false
    else e == Stop(pid) || Stopped(log[..|log| - 1], pid)
  }

  /** The session was lost at m while the timer was not stopped, and each time it was found again
      since the timer was stopped. */
  ghost predicate HeldSince(log: seq<Event>, m: nat, pid: int) {
    && m < |log| && log[m].Lost? && !Stopped(log[..m], pid)
    && forall n | m < n < |log| :: !Opens(log[n], pid) && (log[n].Resumed? ==> Stopped(log[..n], pid))
  }

  ghost predicate Held(log: seq<Event>, pid: int) {
    exists m: nat :: HeldSince(log, m, pid)
  }

  /** The state of a timer can be read from the log. */
  ghost predicate ClockOk(log: seq<Event>, s: Recv) {
    s.armed == !Stopped(log, s.pid) && s.suspended == Held(log, s.pid)
  }

  /** What an event does to a reception under way. */
  function Moved(s: Recv, e: Event): Recv {
    if e == Stop(s.pid) then s.(armed := false)
    else if e.Lost? then SuspendedRecv(s)
    else if e.Resumed? then ResumedRecv(s)
    else s
  }

  lemma StoppedAppended(log: seq<Event>, e: Event, pid: int)
    ensures Stopped(log + [e], pid) <==> !Opens(e, pid) && !e.Resumed? && (e == Stop(pid) || Stopped(log, pid))
  {
    assert (log + [e])[..|log|] == log;
  }

  lemma HeldAppended(log: seq<Event>, e: Event, pid: int)
    ensures Held(log + [e], pid) <==>
              (e.Lost? && !Stopped(log, pid))
              || (Held(log, pid) && !Opens(e, pid) && (e.Resumed? ==> Stopped(log, pid)))
  {
    var g := log + [e];
    assert g[..|log|] == log;
    forall m: nat | m < |log| ensures
        HeldSince(g, m, pid) <==> HeldSince(log, m, pid) && !Opens(e, pid) && (e.Resumed? ==> Stopped(log, pid))
    {
      assert forall n | 0 <= n < |log| :: g[n] == log[n] && g[..n] == log[..n];
      assert g[|log|] == e;
    }
    assert HeldSince(g, |log|, pid) <==> e.Lost? && !Stopped(log, pid);
  }

  lemma ClockMoved(log: seq<Event>, s: Recv, e: Event)
    requires ClockOk(log, s) && !Opens(e, s.pid)
    ensures ClockOk(log + [e], Moved(s, e))
  {
    StoppedAppended(log, e, s.pid);
    HeldAppended(log, e, s.pid);
  }

  lemma ClockOpened(log: seq<Event>, topic: string, pid: int)
    ensures ClockOk(log + [Report(topic, 2, pid)], Recv(pid, true, false))
  {
    StoppedAppended(log, Report(topic, 2, pid), pid);
    HeldAppended(log, Report(topic, 2, pid), pid);
  }

  ghost predicate Good(r: Receiver) {
    var good :=
      && Distinct(r.recvs) && Once(r.log)
      && (forall pid | pid != 0 :: Open(r.log, pid) <==> Handles(r.recvs, pid))
      && forall i | 0 <= i < |r.recvs| && r.recvs[i].pid != 0 :: ClockOk(r.log, r.recvs[i]);
    good
  }

  lemma OnceAppended(log: seq<Event>, e: Event)
    requires Once(log) && (e.Report? && e.qos == 2 && e.pid != 0 ==> !Open(log, e.pid))
    ensures Once(log + [e])
  {
    var g := log + [e];
    assert g[..|log|] == log;
    forall j | 0 <= j < |g| && g[j].Report? && g[j].qos == 2 && g[j].pid != 0 ensures !Open(g[..j], g[j].pid) {
      if j < |log| { assert g[..j] == log[..j]; }
    }
  }

  /** Events that begin and end no reception of QoS 2. */
  lemma GoodTold(r: Receiver, recvs: seq<Recv>, e: Event)
    requires Good(r) && |recvs| == |r.recvs| && !e.Ended? && !(e.Report? && e.qos == 2)
    requires forall i | 0 <= i < |recvs| :: recvs[i].pid == r.recvs[i].pid
    requires forall i | 0 <= i < |recvs| && recvs[i].pid != 0 :: recvs[i] == Moved(r.recvs[i], e)
    ensures Good(r.(recvs := recvs, log := r.log + [e]))
  {
    OnceAppended(r.log, e);
    forall pid | pid != 0
      ensures Open(r.log + [e], pid) == Open(r.log, pid) && Handles(recvs, pid) == Handles(r.recvs, pid)
    {
      if Handles(r.recvs, pid) {
        var i :| 0 <= i < |r.recvs| && r.recvs[i].pid == pid;
        assert recvs[i].pid == pid;
      }
    }
    forall i | 0 <= i < |recvs| && recvs[i].pid != 0 ensures ClockOk(r.log + [e], recvs[i]) {
      ClockMoved(r.log, r.recvs[i], e);
    }
  }

  lemma DroppedKeeps(r: Receiver, report: bool)
    requires Good(r)
    ensures Good(Dropped(r, report))
  {
    GoodTold(r, Dropped(r, report).recvs, Lost(report));
  }

  lemma StopKeeps(r: Receiver, k: nat)
    requires Good(r) && k < |r.recvs|
    ensures Good(TimerStopped(r, k))
  {
    GoodTold(r, TimerStopped(r, k).recvs, Stop(r.recvs[k].pid));
  }

  lemma AckedKeeps(u: Setup, r: Receiver, e: Event)
    requires Good(r) && (e.Puback? || e.Pubrec? || e.Pubcomp?)
    ensures Good(r.(log := r.log + Ack(u, e)))
  {
    GoodTold(r, r.recvs, e);
    assert r.log + [] == r.log;
  }

  lemma NamelessKeeps(r: Receiver)
    requires Good(r)
    ensures Good(r.(recvs := r.recvs + [Recv(0, false, false)]))
  {
    var recvs := r.recvs + [Recv(0, false, false)];
    forall pid | pid != 0 ensures Handles(recvs, pid) == Handles(r.recvs, pid) {
      if Handles(r.recvs, pid) {
        var i :| 0 <= i < |r.recvs| && r.recvs[i].pid == pid;
        assert recvs[i].pid == pid;
      }
    }
  }

  lemma OpenedKeeps(r: Receiver, pid: int, topic: string)
    requires Good(r) && FindRecv(r.recvs, pid) == |r.recvs|
    ensures Good(r.(recvs := r.recvs + [Recv(pid, true, false)], log := r.log + [Report(topic, 2, pid)]))
  {
    var recvs, e := r.recvs + [Recv(pid, true, false)], Report(topic, 2, pid);
    OnceAppended(r.log, e);
    forall p | p != 0 ensures Open(r.log + [e], p) <==> Handles(recvs, p) {
      assert recvs[|r.recvs|].pid == pid;
      if Handles(r.recvs, p) {
        var i :| 0 <= i < |r.recvs| && r.recvs[i].pid == p;
        assert recvs[i].pid == p;
      }
    }
    ClockOpened(r.log, topic, pid);
    forall i | 0 <= i < |r.recvs| && r.recvs[i].pid != 0 ensures ClockOk(r.log + [e], recvs[i]) {
      ClockMoved(r.log, r.recvs[i], e);
    }
  }

  lemma BeginKeeps(u: Setup, r: Receiver, qos: int, pid: int, topic: string)
    requires Good(r) && (qos == 2 ==> FindRecv(r.recvs, pid) == |r.recvs|) && 0 <= qos
    ensures Good(Begin(u, r, qos, pid, topic))
  {
    if !Welcome(u, r, qos, topic) {
      NamelessKeeps(r);
      DroppedKeeps(r.(recvs := r.recvs + [Recv(0, false, false)]), true);
    } else if qos == 0 {
      GoodTold(r, r.recvs, Report(CString(topic), 0, 0));
    } else if qos == 1 {
      GoodTold(r, r.recvs, Report(CString(topic), 1, pid));
      AckedKeeps(u, r.(log := r.log + [Report(CString(topic), 1, pid)]), Puback(pid));
    } else {
      OpenedKeeps(r, pid, CString(topic));
      var r1 := r.(recvs := r.recvs + [Recv(pid, true, false)], log := r.log + [Report(CString(topic), 2, pid)]);
      AckedKeeps(u, r1, Pubrec(pid));
    }
  }

  lemma EndedKeeps(r: Receiver, k: nat, how: Ending)
    requires Good(r) && k < |r.recvs|
    ensures Good(r.(recvs := Without(r.recvs, k), log := r.log + [Ended(r.recvs[k].pid, how)]))
  {
    var recvs, e := Without(r.recvs, k), Ended(r.recvs[k].pid, how);
    OnceAppended(r.log, e);
    assert forall i | 0 <= i < |recvs| :: recvs[i] == r.recvs[if i < k then i else i + 1];
    forall p | p != 0 ensures Open(r.log + [e], p) <==> Handles(recvs, p) {
      StillHandled(r.recvs, k, p);
    }
    forall i | 0 <= i < |recvs| && recvs[i].pid != 0 ensures ClockOk(r.log + [e], recvs[i]) {
      ClockMoved(r.log, r.recvs[if i < k then i else i + 1], e);
    }
  }

  lemma StillHandled(recvs: seq<Recv>, k: nat, p: int)
    requires Distinct(recvs) && k < |recvs| && p != 0
    ensures Handles(Without(recvs, k), p) <==> Handles(recvs, p) && recvs[k].pid != p
  {
    var rest := Without(recvs, k);
    if Handles(recvs, p) && recvs[k].pid != p {
      var i :| 0 <= i < |recvs| && recvs[i].pid == p;
      assert rest[if i < k then i else i - 1] == recvs[i];
    }
    if Handles(rest, p) {
      var i :| 0 <= i < |rest| && rest[i].pid == p;
      assert rest[i] == recvs[if i < k then i else i + 1];
    }
  }

  lemma {:induction false} TerminatedKeeps(r: Receiver)
    requires Good(r)
    ensures Good(r.(recvs := [], log := r.log + Terminations(r.recvs)))
    decreases |r.recvs|
  {
    if r.recvs == [] {
      assert r.log + [] == r.log;
    } else {
      EndedKeeps(r, 0, Terminated);
      assert Without(r.recvs, 0) == r.recvs[1..];
      var r1 := r.(recvs := r.recvs[1..], log := r.log + [Ended(r.recvs[0].pid, Terminated)]);
      TerminatedKeeps(r1);
      assert r1.log + Terminations(r1.recvs) == r.log + Terminations(r.recvs);
    }
  }

  lemma PubrelKeeps(u: Setup, r: Receiver, pid: int, valid: bool)
    requires Good(r)
    ensures Good(OnPubrel(u, r, pid, valid))
  {
    var k := FindRecv(r.recvs, pid);
    if k < |r.recvs| {
      StopKeeps(r, k);
      var r1 := TimerStopped(r, k);
      if valid {
        AckedKeeps(u, r1, Pubcomp(pid));
        EndedKeeps(r1.(log := r1.log + Ack(u, Pubcomp(pid))), k, Released);
      } else {
        DroppedKeeps(r1, true);
      }
    }
  }

  lemma PublishKeeps(u: Setup, r: Receiver, qos: int, dup: bool, pid: int, topic: string)
    requires Good(r) && 0 <= qos
    ensures Good(OnPublish(u, r, qos, dup, pid, topic))
  {
    if !r.link.disconnecting {
      var k := FindRecv(r.recvs, pid);
      if qos <= 1 || k == |r.recvs| {
        BeginKeeps(u, r, qos, pid, topic);
      } else if !dup {
        DroppedKeeps(r, true);
      } else {
        StopKeeps(r, k);
        AckedKeeps(u, TimerStopped(r, k), Pubrec(pid));
      }
    }
  }

  lemma StepKeeps(u: Setup, r: Receiver, x: Input)
    requires Good(r)
    ensures Good(Step(u, r, x))
  {
    match x
    case PublishReceived(qos, dup, pid, topic) => if 0 <= qos { PublishKeeps(u, r, qos, dup, pid, topic); }
    case PubrelReceived(pid, valid) => PubrelKeeps(u, r, pid, valid);
    case Expire(k) => if k < |r.recvs| { EndedKeeps(r, k, TimedOut); }
    case SubackReceived(reqs, codes) => DroppedKeeps(r.(filters := OnSuback(u.gate, reqs, codes, r.filters).0), true);
    case UnsubackReceived(_) =>
    case NetworkDisconnected => DroppedKeeps(r.(link := r.link.(networkDown := true)), false);
    case Disconnect(report) => DroppedKeeps(r, report);
    case Connect =>
    case ConnackReceived(_, sessionPresent) =>
      TerminatedKeeps(r);
      GoodTold(r, Connected(r, true).recvs, Resumed);
  }

  lemma {:induction false} RunKeeps(u: Setup, xs: seq<Input>)
    ensures Good(Run(u, xs))
    decreases |xs|
  {
    if xs != [] {
      RunKeeps(u, xs[..|xs| - 1]);
      StepKeeps(u, Run(u, xs[..|xs| - 1]), xs[|xs| - 1]);
    }
  }

  lemma {:induction false} ClosedMeansEnded(log: seq<Event>, i: nat, pid: int) returns (k: nat)
    requires i < |log| && log[i].Report? && log[i].qos == 2 && log[i].pid == pid && !Open(log, pid)
    ensures i < k < |log| && log[k].Ended? && log[k].pid == pid
    decreases |log|
  {
    var n := |log| - 1;
    if log[n].Ended? && log[n].pid == pid { k := n; } else { k := ClosedMeansEnded(log[..n], i, pid); }
  }

  /** Section 4.3.3 of MQTT 3.1.1: between two reports of QoS 2 messages with the same
      identifier the first reception has ended, by PUBREL, by its timer or with the session. */
  lemma ReportedOnce(u: Setup, xs: seq<Input>, i: nat, j: nat) returns (k: nat)
    requires var log := Run(u, xs).log;
      && i < j < |log| && log[i].Report? && log[j].Report? && log[i].qos == log[j].qos == 2
      && log[i].pid == log[j].pid != 0
    ensures var log := Run(u, xs).log; i < k < j && log[k].Ended? && log[k].pid == log[i].pid
  {
    RunKeeps(u, xs);
    var log := Run(u, xs).log;
    k := ClosedMeansEnded(log[..j], i, log[i].pid);
  }

  /** Identifiers of receptions under way are distinct, and are those whose message has been
      reported and not yet released. */
  lemma UnderWayMeansReported(u: Setup, xs: seq<Input>, pid: int)
    requires pid != 0
    ensures var r := Run(u, xs); Distinct(r.recvs) && (Handles(r.recvs, pid) <==> Open(r.log, pid))
  {
    RunKeeps(u, xs);
  }

  // ------------------------------------------------------------------ when a timer runs

  /** In every run: time passes for a reception under way exactly when its timer has not been
      stopped, and no loss of the session that caught it still holds it. */
  lemma TimerRunsExactly(u: Setup, xs: seq<Input>, i: nat)
    requires i < |Run(u, xs).recvs| && Run(u, xs).recvs[i].pid != 0
    ensures var r := Run(u, xs);
      Runs(r.recvs[i]) <==> !Stopped(r.log, r.recvs[i].pid) && !Held(r.log, r.recvs[i].pid)
  {
    RunKeeps(u, xs);
    var r := Run(u, xs);
    assert ClockOk(r.log, r.recvs[i]);
  }

  /** What stops the timer: a duplicate PUBLISH, or a PUBREL, of this reception. */
  lemma StopsExactlyBy(u: Setup, r: Receiver, x: Input, pid: int)
    ensures Stop(pid) in Step(u, r, x).log[|r.log|..] <==>
              && !r.link.networkDown && FindRecv(r.recvs, pid) < |r.recvs|
              && ((x.PublishReceived? && x.pid == pid && 2 <= x.qos <= 3 && x.dup && !r.link.disconnecting)
                  || (x.PubrelReceived? && x.pid == pid))
  {
    var news := Step(u, r, x).log[|r.log|..];
    if x.PublishReceived? {
      PublishStops(u, r, x, news, pid);
    } else if x.PubrelReceived? {
      PubrelStops(u, r, x, news, pid);
    } else {
      TerminationsOnly(r.recvs);
    }
  }

  lemma PublishStops(u: Setup, r: Receiver, x: Input, news: seq<Event>, pid: int)
    requires x.PublishReceived? && news == Step(u, r, x).log[|r.log|..]
    ensures Stop(pid) in news <==>
              && x.pid == pid && FindRecv(r.recvs, pid) < |r.recvs| && 2 <= x.qos <= 3 && x.dup
              && !r.link.networkDown && !r.link.disconnecting
  {
    if 2 <= x.qos <= 3 && x.dup && !r.link.networkDown && !r.link.disconnecting && FindRecv(r.recvs, x.pid) < |r.recvs| {
      assert news == [Stop(x.pid)] + Ack(u, Pubrec(x.pid));
      assert news[0] == Stop(x.pid);
    }
  }

  lemma PubrelStops(u: Setup, r: Receiver, x: Input, news: seq<Event>, pid: int)
    requires x.PubrelReceived? && news == Step(u, r, x).log[|r.log|..]
    ensures Stop(pid) in news <==> x.pid == pid && FindRecv(r.recvs, pid) < |r.recvs| && !r.link.networkDown
  {
    if !r.link.networkDown && FindRecv(r.recvs, x.pid) < |r.recvs| {
      assert news == [Stop(x.pid)] + if x.valid then Ack(u, Pubcomp(x.pid)) + [Ended(x.pid, Released)] else [Lost(true)];
      assert news[0] == Stop(x.pid);
    }
  }

  /** A reconnection that finds the session sets every timer again, but does not get those to
      run that were caught by a loss and stopped after it. */
  lemma ResumptionMissesExactly(u: Setup, xs: seq<Input>, i: nat)
    requires i < |Run(u, xs).recvs| && Run(u, xs).recvs[i].pid != 0 && AwaitsConnack(Run(u, xs).link)
    ensures var r := Run(u, xs);
      var pid := r.recvs[i].pid;
      !Runs(Step(u, r, ConnackReceived(true, true)).recvs[i]) <==> Held(r.log, pid) && Stopped(r.log, pid)
  {
    RunKeeps(u, xs);
    assert ClockOk(Run(u, xs).log, Run(u, xs).recvs[i]);
  }

  // ------------------------------------------------------------------ a stopped clock

  /** A reception that only its peer or a reconnection can end. */
  predicate Idle(r: Receiver, pid: int) {
    exists i | 0 <= i < |r.recvs| :: r.recvs[i].pid == pid && !Runs(r.recvs[i])
  }

  predicate MayRestart(x: Input, pid: int) {
    (x.ConnackReceived? && x.accepted) || (x.PubrelReceived? && x.pid == pid && x.valid)
  }

  lemma IdleStep(u: Setup, r: Receiver, x: Input, pid: int)
    requires Idle(r, pid) && !MayRestart(x, pid)
    ensures Idle(Step(u, r, x), pid)
  {
    var i :| 0 <= i < |r.recvs| && r.recvs[i].pid == pid && !Runs(r.recvs[i]);
    var d := Step(u, r, x);
    if x.PubrelReceived? && x.valid {
      var k := FindRecv(r.recvs, x.pid);
      if k < |r.recvs| && !r.link.networkDown { IdleBeside(r.recvs, k, i, d); }
    } else if x.Expire? {
      if x.index < |r.recvs| && Runs(r.recvs[x.index]) { IdleBeside(r.recvs, x.index, i, d); }
    } else {
      assert i < |d.recvs| && d.recvs[i].pid == pid && !Runs(d.recvs[i]);
    }
  }

  lemma IdleBeside(recvs: seq<Recv>, k: nat, i: nat, d: Receiver)
    requires k < |recvs| && i < |recvs| && i != k && !Runs(recvs[i]) && d.recvs == Without(recvs, k)
    ensures Idle(d, recvs[i].pid)
  {
    assert d.recvs[if i < k then i else i - 1] == recvs[i];
  }

  /** Once idle, a reception stays so until PUBREL or an accepted CONNACK, whatever else comes. */
  lemma {:induction false} IdleStays(u: Setup, xs: seq<Input>, pid: int, ys: seq<Input>)
    requires Idle(Run(u, xs), pid) && forall i | 0 <= i < |ys| :: !MayRestart(ys[i], pid)
    ensures Idle(Run(u, xs + ys), pid)
    decreases |ys|
  {
    if ys == [] {
      assert xs + ys == xs;
    } else {
      var n := |ys| - 1;
      var before := xs + ys[..n];
      IdleStays(u, xs, pid, ys[..n]);
      IdleOn(u, before, ys[n], pid);
      assert xs + ys == before + [ys[n]];
    }
  }

  lemma IdleOn(u: Setup, xs: seq<Input>, x: Input, pid: int)
    requires Idle(Run(u, xs), pid) && !MayRestart(x, pid)
    ensures Idle(Run(u, xs + [x]), pid)
  {
    RunOn(u, xs, x);
    IdleStep(u, Run(u, xs), x, pid);
  }

  lemma RunOn(u: Setup, xs: seq<Input>, x: Input)
    ensures Run(u, xs + [x]) == Step(u, Run(u, xs), x)
  {
    assert (xs + [x])[..|xs|] == xs;
  }

  /** A duplicate PUBLISH, received in any reachable state, stops the timer of the reception it
      belongs to for good. */
  lemma DuplicateStopsTheClock(u: Setup, xs: seq<Input>, pid: int, topic: string, ys: seq<Input>)
    requires Hears(Run(u, xs).link) && Handles(Run(u, xs).recvs, pid)
    requires forall i | 0 <= i < |ys| :: !MayRestart(ys[i], pid)
    ensures Idle(Run(u, xs + [PublishReceived(2, true, pid, topic)] + ys), pid)
  {
    var x := PublishReceived(2, true, pid, topic);
    RunOn(u, xs, x);
    var d := Step(u, Run(u, xs), x);
    assert !Runs(d.recvs[FindRecv(Run(u, xs).recvs, pid)]);
    IdleStays(u, xs + [x], pid, ys);
  }

  // ------------------------------------------------------------------ two runs

  function Opening(): seq<Input> {
    [Connect] + [ConnackReceived(true, false)] + [PublishReceived(2, false, 7, "a")]
  }

  lemma OpeningIs(u: Setup)
    requires !u.gate.verify
    ensures var r := Run(u, Opening()); r.link == Link(true, false, false) && r.recvs == [Recv(7, true, false)]
  {
    RunOn(u, [Connect] + [ConnackReceived(true, false)], PublishReceived(2, false, 7, "a"));
    SessionOpens(u);
    FirstReported(u, Run(u, [Connect] + [ConnackReceived(true, false)]));
  }

  lemma SessionOpens(u: Setup)
    ensures var r := Run(u, [Connect] + [ConnackReceived(true, false)]); r.link == Link(true, false, false) && r.recvs == []
  {
    RunOn(u, [], Connect);
    assert [] + [Connect] == [Connect];
    RunOn(u, [Connect], ConnackReceived(true, false));
  }

  lemma FirstReported(u: Setup, r: Receiver)
    requires !u.gate.verify && r.link == Link(true, false, false) && r.recvs == []
    ensures var d := Step(u, r, PublishReceived(2, false, 7, "a")); d.link == r.link && d.recvs == [Recv(7, true, false)]
  {
    ShownUpToNul("a");
  }

  /** While the session is open a timer can stand because a duplicate has come. */
  lemma StandsStopped(u: Setup)
    requires !u.gate.verify
    ensures var r := Run(u, Opening() + [PublishReceived(2, true, 7, "a")]);
      r.link.connected && r.recvs == [Recv(7, false, false)]
  {
    OpeningIs(u);
    RunOn(u, Opening(), PublishReceived(2, true, 7, "a"));
  }

  /** It can also stand although it was set again at the CONNACK: the duplicate came before
      that, and the suspension of a stopped timer is not taken back. */
  lemma StandsSuspended(u: Setup)
    requires !u.gate.verify
    ensures var r := Run(u, Opening() + [NetworkDisconnected] + [Connect] + [PublishReceived(2, true, 7, "a")] + [ConnackReceived(true, true)]);
      r.link.connected && r.recvs == [Recv(7, true, true)]
  {
    OpeningIs(u);
    var x1 := Opening() + [NetworkDisconnected];
    var x2 := x1 + [Connect];
    var x3 := x2 + [PublishReceived(2, true, 7, "a")];
    RunOn(u, Opening(), NetworkDisconnected);
    assert Run(u, x1).recvs == [Recv(7, true, true)];
    RunOn(u, x1, Connect);
    RunOn(u, x2, PublishReceived(2, true, 7, "a"));
    assert Run(u, x3).recvs == [Recv(7, false, true)];
    RunOn(u, x3, ConnackReceived(true, true));
  }
}
