/** The keep-alive protocol of client/lib/src/op/KeepAliveOp.cpp over its three timers, and
    when it keeps the promise of section 3.1.2.10 of MQTT 3.1.1: no two packets sent further
    apart than the keep-alive period. */
module KeepAlive {
  import opened Timers

  /** The keep-alive period and the response timeout, in milliseconds. */
  datatype Periods = Periods(keepAlive: int, response: int)

  datatype KeepAliveState = KeepAliveState(
    ping: Timer,       // m_pingTimer
    recv: Timer,       // m_recvTimer
    resp: Timer,       // m_respTimer
    up: bool,          // the session is not being dropped
    since: int,        // time since the last packet sent, or since the operation was made
    sent: seq<int>,    // for each packet sent, the time since the one before
    clash: bool)       // the assertion in pingTimeoutInternal has failed

  datatype Input = MessageSent | MessageReceived | PingrespReceived | Tick(ms: nat)

  function Idle(): Timer { FREE.(taken := true) }

  function Wait(t: Timer, ms: int): Timer { t.(active := true, timeout := ms) }

  function RestartPing(p: Periods, s: KeepAliveState): KeepAliveState {
    if p.keepAlive == 0 then s else s.(ping := Wait(s.ping, p.keepAlive))
  }

  function RestartRecv(p: Periods, s: KeepAliveState): KeepAliveState {
    if p.keepAlive == 0 then s else s.(recv := Wait(s.recv, p.keepAlive))
  }

  function Made(p: Periods): KeepAliveState {
    RestartPing(p, KeepAliveState(Idle(), Idle(), Idle(), true, 0, [], false))
  }

  /** A packet goes out: messageSent is called. */
  function Sent(p: Periods, s: KeepAliveState): KeepAliveState {
    RestartPing(p, s.(sent := s.sent + [s.since], since := 0))
  }

  function PingSent(p: Periods, s: KeepAliveState): (r: KeepAliveState) {
    if s.resp.active then s
    else
      var s1 := Sent(p, s);
      s1.(resp := Wait(s1.resp, p.response))
  }

  function PingUnanswered(s: KeepAliveState): KeepAliveState {
    s.(up := false, clash := s.clash || s.resp.active)
  }

  function Pingresp(p: Periods, s: KeepAliveState): KeepAliveState {
    RestartRecv(p, s.(resp := Cancelled(s.resp)))
  }

  /** The three slots in the order they were allocated, which is the order of the callbacks. */
  function Slots(s: KeepAliveState): seq<Timer> { [s.ping, s.recv, s.resp] }

  function Age(s: KeepAliveState, ms: nat): KeepAliveState {
    s.(ping := Aged(s.ping, ms), recv := Aged(s.recv, ms), resp := Aged(s.resp, ms), since := s.since + ms)
  }

  /** First the timers are counted down, then the callbacks of the expired ones are called. */
  function OnTick(p: Periods, s: KeepAliveState, ms: nat): KeepAliveState {
    var s0 := Age(s, ms);
    var s1 := if Expires(s.ping, ms) then PingSent(p, s0) else s0;
    var s2 := if Expires(s.recv, ms) then PingSent(p, s1) else s1;
    if Expires(s.resp, ms) then PingUnanswered(s2) else s2
  }

  /** The host never lets more time pass than the least wait it was given. */
  predicate InTime(s: KeepAliveState, ms: nat) { ms <= LeastTimeout(Slots(s)) }

  function Step(p: Periods, s: KeepAliveState, x: Input): KeepAliveState {
    if !s.up then s
    else
      match x
      case MessageSent => Sent(p, s)
      case MessageReceived => RestartRecv(p, s)
      case PingrespReceived => Pingresp(p, s)
      case Tick(ms) => if InTime(s, ms) then OnTick(p, s, ms) else s
  }

  function Run(p: Periods, xs: seq<Input>): KeepAliveState
    decreases |xs|
  {
    if xs == [] then Made(p) else Step(p, Run(p, xs[..|xs| - 1]), xs[|xs| - 1])
  }

  // ------------------------------------------------------------------ the promise

  /** Never longer than the period without a packet, up to now and at every packet so far. */
  ghost predicate Prompt(p: Periods, s: KeepAliveState) {
    s.since <= p.keepAlive && forall i | 0 <= i < |s.sent| :: s.sent[i] <= p.keepAlive
  }

  predicate Ready(t: Timer) { t.taken && !t.suspended && (t.active ==> 0 <= t.timeout) }

  /** What makes it so: the ping timer says how long ago the last packet was, and the response
      timer never expires after it. */
  ghost predicate Good(p: Periods, s: KeepAliveState) {
    && Ready(s.ping) && Ready(s.recv) && Ready(s.resp) && 0 <= s.since && Prompt(p, s)
    && (s.up ==>
          && s.ping.active && s.ping.timeout == p.keepAlive - s.since
          && (s.resp.active ==> s.resp.timeout <= s.ping.timeout))
  }

  function Lesser(m: int, t: Timer): int { if Running(t) && t.timeout < m then t.timeout else m }

  lemma LeastAppended(ts: seq<Timer>, t: Timer, all: seq<Timer>)
    requires all == ts + [t]
    ensures LeastTimeout(all) == Lesser(LeastTimeout(ts), t)
  {
    assert all[..|all| - 1] == ts;
  }

  lemma LeastInSlots(s: KeepAliveState)
    ensures LeastTimeout(Slots(s)) == Lesser(Lesser(Lesser(UINT64_MAX, s.ping), s.recv), s.resp)
  {
    LeastAppended([], s.ping, [s.ping]);
    LeastAppended([s.ping], s.recv, [s.ping, s.recv]);
    LeastAppended([s.ping, s.recv], s.resp, Slots(s));
  }

  lemma LeastOfThree(s: KeepAliveState)
    ensures var m := LeastTimeout(Slots(s));
      && (Running(s.ping) ==> m <= s.ping.timeout) && (Running(s.recv) ==> m <= s.recv.timeout)
      && (Running(s.resp) ==> m <= s.resp.timeout)
  {
    LeastInSlots(s);
  }

  lemma SentKeeps(p: Periods, s: KeepAliveState)
    requires 0 < p.keepAlive && Prompt(p, s) && Ready(s.ping)
    ensures var r := Sent(p, s);
      && Prompt(p, r) && Ready(r.ping) && r.ping.active && r.ping.timeout == p.keepAlive && r.since == 0
      && r.recv == s.recv && r.resp == s.resp && r.up == s.up
  {
  }

  lemma TickKeeps(p: Periods, s: KeepAliveState, ms: nat)
    requires 0 < p.keepAlive && 0 <= p.response <= p.keepAlive && Good(p, s) && s.up && InTime(s, ms)
    ensures Good(p, OnTick(p, s, ms))
  {
    LeastOfThree(s);
    var s0 := Age(s, ms);
    SentKeeps(p, s0);
    var s1 := if Expires(s.ping, ms) then PingSent(p, s0) else s0;
    SentKeeps(p, s1);
  }

  lemma {:induction false} RunKeeps(p: Periods, xs: seq<Input>)
    requires 0 < p.keepAlive && 0 <= p.response <= p.keepAlive
    ensures Good(p, Run(p, xs))
    decreases |xs|
  {
    if xs != [] {
      RunKeeps(p, xs[..|xs| - 1]);
      var s := Run(p, xs[..|xs| - 1]);
      match xs[|xs| - 1]
      case MessageSent => SentKeeps(p, s);
      case MessageReceived =>
      case PingrespReceived =>
      case Tick(ms) => if s.up && InTime(s, ms) { TickKeeps(p, s, ms); }
    }
  }

  /** Before PINGRESP comes the ping timer has gone off in vain: it stays idle. */
  function SilentRun(p: Periods): seq<Input>
    requires 0 <= p.keepAlive
  {
    [Tick(p.keepAlive)] + [Tick(p.keepAlive)] + [PingrespReceived] + [Tick(1)]
  }

  lemma RunOneMore(p: Periods, xs: seq<Input>, x: Input)
    ensures Run(p, xs + [x]) == Step(p, Run(p, xs), x)
  {
    assert (xs + [x])[..|xs|] == xs;
  }

  lemma LeastIsOneOf(s: KeepAliveState, m: int)
    requires Running(s.ping) ==> m <= s.ping.timeout
    requires Running(s.recv) ==> m <= s.recv.timeout
    requires Running(s.resp) ==> m <= s.resp.timeout
    requires m <= UINT64_MAX
    ensures m <= LeastTimeout(Slots(s))
  {
    LeastInSlots(s);
  }

  lemma SilentRunIsLate(p: Periods)
    requires 0 < p.keepAlive < p.response && p.keepAlive < UINT64_MAX
    ensures !Prompt(p, Run(p, SilentRun(p))) && Run(p, SilentRun(p)).up
  {
    var K := p.keepAlive;
    var x1 := [Tick(K)];
    var x2 := x1 + [Tick(K)];
    var x3 := x2 + [PingrespReceived];
    var s0 := Made(p);
    RunOneMore(p, [], Tick(K));
    assert [] + x1 == x1;
    LeastIsOneOf(s0, K);
    var s1 := Run(p, x1);
    assert s1.ping.timeout == K && s1.resp.timeout == p.response && !s1.recv.active && s1.up;
    RunOneMore(p, x1, Tick(K));
    LeastIsOneOf(s1, K);
    var s2 := Run(p, x2);
    assert !s2.ping.active && s2.resp.active && s2.since == K && s2.up;
    RunOneMore(p, x2, PingrespReceived);
    var s3 := Run(p, x3);
    assert !s3.ping.active && !s3.resp.active && s3.recv.timeout == K && s3.up && s3.since == K;
    RunOneMore(p, x3, Tick(1));
    LeastIsOneOf(s3, 1);
    var s4 := Run(p, x3 + [Tick(1)]);
    assert x3 + [Tick(1)] == SilentRun(p);
    assert if K == 1 then s4.sent[|s3.sent|] == K + 1 else s4.since == K + 1;
  }

  /** The promise is kept in every run exactly when the response timeout is not longer than the
      keep-alive period; nothing in the code makes it so. */
  lemma PromptExactlyWhenResponseIsShort(p: Periods)
    requires 0 < p.keepAlive < UINT64_MAX && 0 <= p.response
    ensures (forall xs :: Prompt(p, Run(p, xs))) <==> p.response <= p.keepAlive
  {
    if p.response <= p.keepAlive {
      forall xs ensures Prompt(p, Run(p, xs)) { RunKeeps(p, xs); }
    } else {
      SilentRunIsLate(p);
    }
  }

  /** Up to the moment the session is dropped the ping timer runs, and while an answer is
      awaited the response timer expires first. */
  lemma ResponseTimerIsFirst(p: Periods, xs: seq<Input>)
    requires 0 < p.keepAlive && 0 <= p.response < p.keepAlive && Run(p, xs).up
    ensures var s := Run(p, xs);
      s.ping.active && s.ping.timeout <= p.keepAlive && (s.resp.active ==> s.resp.timeout < s.ping.timeout)
    decreases |xs|
  {
    if xs != [] {
      var before, x := xs[..|xs| - 1], xs[|xs| - 1];
      ResponseTimerIsFirst(p, before);
      RunKeeps(p, before);
      RunKeeps(p, xs);
      var s := Run(p, before);
      if x.Tick? && InTime(s, x.ms) { LeastOfThree(s); }
    }
  }

  // ------------------------------------------------------------------ the assertion

  /** The guard, tick by tick: the assertion fails when the response timer expires together with
      the ping or the receive timer. Their callbacks come first and find no answer awaited: a
      second PINGREQ goes out and the response timer runs while the session is dropped. */
  lemma ClashesWhenBothExpire(p: Periods, s: KeepAliveState, ms: nat)
    ensures OnTick(p, s, ms).clash <==> s.clash || (Expires(s.resp, ms) && (Expires(s.ping, ms) || Expires(s.recv, ms)))
  {
  }

  /** Without response timeout the response timer expires before any other can; without
      keep-alive period none ever runs. */
  ghost predicate Apart(p: Periods, s: KeepAliveState) {
    && !s.clash
    && (s.resp.active ==> 0 == s.resp.timeout == p.response < p.keepAlive)
    && (s.ping.active ==> 0 < s.ping.timeout)
    && (s.recv.active ==> 0 < s.recv.timeout)
    && (p.keepAlive == 0 ==> !s.ping.active && !s.recv.active)
  }

  lemma {:induction false} StaysApart(p: Periods, xs: seq<Input>)
    requires 0 <= p.response && 0 <= p.keepAlive && (p.response == 0 || p.keepAlive == 0)
    ensures Apart(p, Run(p, xs)) && TimersReady(Run(p, xs))
    decreases |xs|
  {
    if xs != [] {
      var before, x := xs[..|xs| - 1], xs[|xs| - 1];
      StaysApart(p, before);
      StepApart(p, Run(p, before), x);
    }
  }

  lemma StepApart(p: Periods, s: KeepAliveState, x: Input)
    requires 0 <= p.response && 0 <= p.keepAlive && (p.response == 0 || p.keepAlive == 0)
    requires Apart(p, s) && TimersReady(s)
    ensures Apart(p, Step(p, s, x)) && TimersReady(Step(p, s, x))
  {
    if x.Tick? && s.up && InTime(s, x.ms) { TickApart(p, s, x.ms); }
  }

  lemma TickApart(p: Periods, s: KeepAliveState, ms: nat)
    requires 0 <= p.response && 0 <= p.keepAlive && (p.response == 0 || p.keepAlive == 0)
    requires Apart(p, s) && TimersReady(s) && InTime(s, ms)
    ensures Apart(p, OnTick(p, s, ms)) && TimersReady(OnTick(p, s, ms))
  {
    LeastOfThree(s);
    ClashesWhenBothExpire(p, s, ms);
  }

  predicate TimersReady(s: KeepAliveState) { Ready(s.ping) && Ready(s.recv) && Ready(s.resp) }

  /** With a response timeout shorter than the period: an answer that comes at once starts the
      receive timer, whose end is the time of the next answer missed. */
  lemma ShortClash(p: Periods) returns (xs: seq<Input>)
    requires 0 < p.response < p.keepAlive < UINT64_MAX
    ensures Run(p, xs).clash
  {
    var K, R := p.keepAlive, p.response;
    var x1 := [Tick(R)];
    var x2 := x1 + [MessageReceived];
    var x3 := x2 + [Tick(K - R)];
    xs := x3 + [Tick(R)];
    RunOneMore(p, [], Tick(R));
    assert [] + x1 == x1;
    LeastIsOneOf(Made(p), R);
    var s1 := Run(p, x1);
    assert s1.ping.timeout == K - R && !s1.resp.active && !s1.recv.active && s1.up;
    RunOneMore(p, x1, MessageReceived);
    var s2 := Run(p, x2);
    assert s2.recv.timeout == K;
    RunOneMore(p, x2, Tick(K - R));
    LeastIsOneOf(s2, K - R);
    var s3 := Run(p, x3);
    assert s3.ping.timeout == K && s3.resp.timeout == R && s3.recv.timeout == R && s3.up;
    RunOneMore(p, x3, Tick(R));
    LeastIsOneOf(s3, R);
  }

  /** With a longer one: a packet sent a period before the answer is given up restarts the
      ping timer, and both end together. */
  lemma LongClash(p: Periods) returns (xs: seq<Input>)
    requires 0 < p.keepAlive <= p.response < UINT64_MAX
    ensures Run(p, xs).clash
  {
    var K, R := p.keepAlive, p.response;
    var x1 := [Tick(K)];
    RunOneMore(p, [], Tick(K));
    assert [] + x1 == x1;
    LeastIsOneOf(Made(p), K);
    var s1 := Run(p, x1);
    assert Pinged(s1, K, R);
    var x2 := x1 + [Tick(if R - K <= K then R - K else K)];
    RunOneMore(p, x1, x2[1]);
    LeastIsOneOf(s1, x2[1].ms);
    if R - K > K {
      var s := Run(p, x2);
      assert !s.ping.active && s.resp.active && s.resp.timeout == R - K;
      RunOneMore(p, x2, Tick(R - 2 * K));
      LeastIsOneOf(s, R - 2 * K);
      x2 := x2 + [Tick(R - 2 * K)];
    }
    var s2 := Run(p, x2);
    assert s2.resp.active && s2.resp.timeout == K && !s2.recv.active && s2.up;
    var x3 := x2 + [MessageSent];
    RunOneMore(p, x2, MessageSent);
    var s3 := Run(p, x3);
    assert Pinged(s3, K, K);
    xs := x3 + [Tick(K)];
    RunOneMore(p, x3, Tick(K));
    LeastIsOneOf(s3, K);
    ClashesWhenBothExpire(p, s3, K);
  }

  predicate Pinged(s: KeepAliveState, ping: int, resp: int) {
    && TimersReady(s) && s.up && !s.recv.active
    && s.ping.active && s.ping.timeout == ping && s.resp.active && s.resp.timeout == resp
  }

  /** The assertion holds in every run exactly when one of the two settings is 0, that is when no
      PINGREQ is ever sent or none is ever waited for. */
  lemma AssertionFailsExactly(p: Periods)
    requires 0 <= p.keepAlive < UINT64_MAX && 0 <= p.response < UINT64_MAX
    ensures (forall xs :: !Run(p, xs).clash) <==> p.response == 0 || p.keepAlive == 0
  {
    if p.response == 0 || p.keepAlive == 0 {
      forall xs ensures !Run(p, xs).clash { StaysApart(p, xs); }
    } else if p.response < p.keepAlive {
      var xs := ShortClash(p);
    } else {
      var xs := LongClash(p);
    }
  }

  // ------------------------------------------------------------------ what a missing answer does

  /** The session is dropped exactly when the response timer runs out. */
  lemma DropsExactlyThen(p: Periods, s: KeepAliveState, x: Input)
    ensures Step(p, s, x).up <==> s.up && !(x.Tick? && InTime(s, x.ms) && Expires(s.resp, x.ms))
  {
  }

  /** A tick sends PINGREQ exactly when a period runs out, of sending or of receiving, and no answer
      is awaited any more. */
  lemma PingreqExactly(p: Periods, s: KeepAliveState, ms: nat)
    ensures var d, due := OnTick(p, s, ms), Expires(s.ping, ms) || Expires(s.recv, ms);
      if due && (!s.resp.active || Expires(s.resp, ms))
      then |d.sent| == |s.sent| + 1 && d.since == 0 && d.resp.active && d.resp.timeout == p.response
      else d.sent == s.sent
  {
  }

  predicate Effective(s: KeepAliveState, x: Input) { s.up && x.Tick? && InTime(s, x.ms) }

  /** The time that has passed in a run. */
  function Passed(p: Periods, xs: seq<Input>): int
    decreases |xs|
  {
    if xs == [] then 0
    else
      var before, x := xs[..|xs| - 1], xs[|xs| - 1];
      Passed(p, before) + if Effective(Run(p, before), x) then x.ms else 0
  }

  /** PINGREQ went out with event `n - 1`, and no answer has come before event `m`. */
  ghost predicate Pending(p: Periods, xs: seq<Input>, n: nat, m: nat) {
    && 1 <= n <= m <= |xs|
    && !Run(p, xs[..n - 1]).resp.active && Run(p, xs[..n]).resp.active && Run(p, xs[..n]).up
    && forall k | n <= k < m :: !xs[k].PingrespReceived?
  }

  /** An answer stayed out for the response timeout: at event `m - 1` that time was over. */
  ghost predicate Unanswered(p: Periods, xs: seq<Input>, n: nat, m: nat) {
    && Pending(p, xs, n, m) && n < m && Effective(Run(p, xs[..m - 1]), xs[m - 1])
    && Passed(p, xs[..m]) - Passed(p, xs[..n]) == p.response
  }

  lemma {:induction false} RunReady(p: Periods, xs: seq<Input>)
    requires 0 <= p.response && 0 <= p.keepAlive
    ensures TimersReady(Run(p, xs))
    decreases |xs|
  {
    if xs != [] {
      RunReady(p, xs[..|xs| - 1]);
      StepReady(p, Run(p, xs[..|xs| - 1]), xs[|xs| - 1]);
    }
  }

  lemma StepReady(p: Periods, s: KeepAliveState, x: Input)
    requires 0 <= p.response && 0 <= p.keepAlive && TimersReady(s)
    ensures TimersReady(Step(p, s, x))
  {
    if x.Tick? { TickReady(p, s, x.ms); }
  }

  lemma TickReady(p: Periods, s: KeepAliveState, ms: nat)
    requires 0 <= p.response && 0 <= p.keepAlive && TimersReady(s)
    ensures TimersReady(OnTick(p, s, ms))
  {
    assert TimersReady(Age(s, ms));
  }

  lemma JustSent(p: Periods, s: KeepAliveState, x: Input)
    requires TimersReady(s) && !s.resp.active && Step(p, s, x).resp.active
    ensures Step(p, s, x).resp.timeout == p.response && s.up && Step(p, s, x).up
  {
  }

  /** While the answer is awaited the response timer says how much of its time is left; when
      none is left the session is down. */
  lemma {:induction false} WaitRunsOut(p: Periods, xs: seq<Input>, n: nat)
    requires 0 <= p.response && 0 <= p.keepAlive && Pending(p, xs, n, |xs|)
    ensures var s, t := Run(p, xs), Passed(p, xs) - Passed(p, xs[..n]);
      && (s.up ==> s.resp.active && s.resp.timeout == p.response - t && t <= p.response)
      && (!s.up ==> exists m | n < m <= |xs| :: Unanswered(p, xs, n, m))
      && (n < |xs| && s.up && xs[|xs| - 1].Tick? && Effective(Run(p, xs[..|xs| - 1]), xs[|xs| - 1]) ==> t < p.response)
    decreases |xs|
  {
    assert xs[..|xs|] == xs;
    if n == |xs| {
      RunReady(p, xs[..n - 1]);
      JustSent(p, Run(p, xs[..n - 1]), xs[n - 1]);
    } else {
      var before, x := xs[..|xs| - 1], xs[|xs| - 1];
      PendingBefore(p, xs, n, before);
      WaitRunsOut(p, before, n);
      RunReady(p, before);
      if Run(p, before).up { WaitStep(p, Run(p, before), x); }
      assert before[..n] == xs[..n];
      if !Run(p, before).up {
        var m :| n < m <= |before| && Unanswered(p, before, n, m);
        UnansweredLonger(p, before, xs, n, m);
      } else if !Run(p, xs).up {
        assert Unanswered(p, xs, n, |xs|);
      }
    }
  }

  lemma PendingBefore(p: Periods, xs: seq<Input>, n: nat, before: seq<Input>)
    requires Pending(p, xs, n, |xs|) && n < |xs| && before == xs[..|xs| - 1]
    ensures Pending(p, before, n, |before|)
  {
    assert before[..n - 1] == xs[..n - 1] && before[..n] == xs[..n];
  }

  lemma UnansweredLonger(p: Periods, before: seq<Input>, xs: seq<Input>, n: nat, m: nat)
    requires Unanswered(p, before, n, m) && |before| <= |xs| && before == xs[..|before|]
    ensures Unanswered(p, xs, n, m)
  {
    assert before[..n - 1] == xs[..n - 1] && before[..n] == xs[..n] && before[..m] == xs[..m] && before[..m - 1] == xs[..m - 1];
  }

  lemma WaitStep(p: Periods, s: KeepAliveState, x: Input)
    requires 0 <= p.response && TimersReady(s) && s.up && s.resp.active && !x.PingrespReceived?
    ensures var d, t := Step(p, s, x), if Effective(s, x) then x.ms else 0;
      && t <= s.resp.timeout
      && (d.up ==> d.resp.active && d.resp.timeout == s.resp.timeout - t && (Effective(s, x) ==> t < s.resp.timeout))
      && (!d.up ==> Effective(s, x) && t == s.resp.timeout)
  {
    if x.Tick? && InTime(s, x.ms) { LeastOfThree(s); }
  }

  /** While an answer is awaited there is a PINGREQ it is awaited for. */
  lemma {:induction false} AwaitedSince(p: Periods, xs: seq<Input>) returns (n: nat)
    requires 0 <= p.response && 0 <= p.keepAlive && Run(p, xs).up && Run(p, xs).resp.active
    ensures Pending(p, xs, n, |xs|)
    decreases |xs|
  {
    var before, x := xs[..|xs| - 1], xs[|xs| - 1];
    assert xs[..|xs|] == xs;
    RunReady(p, before);
    if Run(p, before).resp.active {
      StillAwaited(p, Run(p, before), x);
      n := AwaitedSince(p, before);
      PendingOn(p, xs, n, before);
    } else {
      n := |xs|;
    }
  }

  lemma PendingOn(p: Periods, xs: seq<Input>, n: nat, before: seq<Input>)
    requires xs != [] && before == xs[..|xs| - 1] && Pending(p, before, n, |before|) && !xs[|xs| - 1].PingrespReceived?
    ensures Pending(p, xs, n, |xs|)
  {
    assert before[..n - 1] == xs[..n - 1] && before[..n] == xs[..n];
    assert forall k | n <= k < |before| :: before[k] == xs[k];
  }

  lemma StillAwaited(p: Periods, s: KeepAliveState, x: Input)
    requires TimersReady(s) && s.resp.active && Step(p, s, x).up && Step(p, s, x).resp.active
    ensures s.up && !x.PingrespReceived?
  {
  }

  /** In every run the session is dropped if and only if some PINGREQ has stayed without PINGRESP
      for the response timeout: an answer in between prevents it, whatever the periods. */
  lemma {:induction false} DroppedExactlyWhenUnanswered(p: Periods, xs: seq<Input>)
    requires 0 <= p.response && 0 <= p.keepAlive
    ensures !Run(p, xs).up <==> exists n, m :: Unanswered(p, xs, n, m)
    decreases |xs|
  {
    if !Run(p, xs).up { DroppedFor(p, xs); }
    if n, m :| Unanswered(p, xs, n, m) {
      DownAt(p, xs, n, m);
      assert xs[..|xs|] == xs;
      DownStays(p, xs, m, |xs|);
    }
  }

  lemma {:induction false} DroppedFor(p: Periods, xs: seq<Input>)
    requires 0 <= p.response && 0 <= p.keepAlive && !Run(p, xs).up
    ensures exists n, m :: Unanswered(p, xs, n, m)
    decreases |xs|
  {
    var before, x := xs[..|xs| - 1], xs[|xs| - 1];
    if !Run(p, before).up {
      DroppedFor(p, before);
      var n, m :| Unanswered(p, before, n, m);
      UnansweredLonger(p, before, xs, n, m);
    } else {
      RunReady(p, before);
      WasAwaiting(p, Run(p, before), x);
      var n := AwaitedSince(p, before);
      PendingOn(p, xs, n, before);
      WaitRunsOut(p, xs, n);
    }
  }

  lemma WasAwaiting(p: Periods, s: KeepAliveState, x: Input)
    requires TimersReady(s) && s.up && !Step(p, s, x).up
    ensures s.resp.active && !x.PingrespReceived?
  {
    DropsExactlyThen(p, s, x);
  }

  lemma DownAt(p: Periods, xs: seq<Input>, n: nat, m: nat)
    requires 0 <= p.response && 0 <= p.keepAlive && Unanswered(p, xs, n, m)
    ensures !Run(p, xs[..m]).up
  {
    var ys := xs[..m];
    assert ys[..n - 1] == xs[..n - 1] && ys[..n] == xs[..n] && ys[..m - 1] == xs[..m - 1];
    WaitRunsOut(p, ys, n);
  }

  lemma {:induction false} DownStays(p: Periods, xs: seq<Input>, m: nat, k: nat)
    requires m <= k <= |xs| && !Run(p, xs[..m]).up
    ensures !Run(p, xs[..k]).up
    decreases k
  {
    if m < k {
      DownStays(p, xs, m, k - 1);
      assert xs[..k][..k - 1] == xs[..k - 1];
    }
  }

  // ------------------------------------------------------------------ a silent broker is asked

  /** No packet comes in with these events. */
  predicate Quiet(ys: seq<Input>) { forall k | 0 <= k < |ys| :: !ys[k].MessageReceived? && !ys[k].PingrespReceived? }

  /** After a packet has come in the receive timer says how long none has: it runs out when the
      keep-alive period has passed in silence. */
  lemma {:induction false} SilenceIsMeasured(p: Periods, xs: seq<Input>, ys: seq<Input>)
    requires 0 <= p.response && 0 < p.keepAlive && xs != [] && Run(p, xs[..|xs| - 1]).up
    requires (xs[|xs| - 1].MessageReceived? || xs[|xs| - 1].PingrespReceived?) && Quiet(ys) && Run(p, xs + ys).up
    ensures 0 <= Passed(p, xs + ys) - Passed(p, xs)
    ensures var s, t := Run(p, xs + ys), Passed(p, xs + ys) - Passed(p, xs);
      t < p.keepAlive ==> Running(s.recv) && s.recv.timeout == p.keepAlive - t
    decreases |ys|
  {
    RunReady(p, xs[..|xs| - 1]);
    if ys == [] {
      assert xs + ys == xs;
    } else {
      var before, y := ys[..|ys| - 1], ys[|ys| - 1];
      assert (xs + ys)[..|xs + ys| - 1] == xs + before;
      DropsExactlyThen(p, Run(p, xs + before), y);
      SilenceIsMeasured(p, xs, before);
      RunReady(p, xs + before);
      RecvStep(p, Run(p, xs + before), y);
    }
  }

  lemma RecvStep(p: Periods, s: KeepAliveState, x: Input)
    requires TimersReady(s) && s.up && !x.MessageReceived? && !x.PingrespReceived?
    ensures var d, t := Step(p, s, x), if Effective(s, x) then x.ms else 0;
      && (s.recv.active && t < s.recv.timeout ==> Running(d.recv) && d.recv.timeout == s.recv.timeout - t)
  {
  }

  /** So a PINGREQ goes out when a keep-alive period has passed without an incoming packet, unless
      an answer is awaited already. */
  lemma SilenceIsProbed(p: Periods, xs: seq<Input>, ys: seq<Input>, ms: nat)
    requires 0 <= p.response && 0 < p.keepAlive && xs != [] && Run(p, xs[..|xs| - 1]).up
    requires (xs[|xs| - 1].MessageReceived? || xs[|xs| - 1].PingrespReceived?) && Quiet(ys)
    requires var s := Run(p, xs + ys); s.up && InTime(s, ms) && !s.resp.active
    requires Passed(p, xs + ys) - Passed(p, xs) < p.keepAlive == Passed(p, xs + ys) - Passed(p, xs) + ms
    ensures var s := Run(p, xs + ys);
      var d := Step(p, s, Tick(ms));
      d.up && |d.sent| == |s.sent| + 1 && d.resp.active && d.resp.timeout == p.response
  {
    SilenceIsMeasured(p, xs, ys);
    PingreqExactly(p, Run(p, xs + ys), ms);
    DropsExactlyThen(p, Run(p, xs + ys), Tick(ms));
  }

  // ------------------------------------------------------------------ in the form of the source

  class KeepAliveOp {
    const periods: Periods
    var pingTimer: Timer
    var recvTimer: Timer
    var respTimer: Timer
    var sessionUp: bool         // brokerDisconnected has not been called
    var assertionFailed: bool
    ghost var model: KeepAliveState

    ghost predicate Valid()
      reads this
    {
      && model.ping == pingTimer && model.recv == recvTimer && model.resp == respTimer
      && model.up == sessionUp && model.clash == assertionFailed
    }

    constructor (p: Periods)
      ensures Valid() && periods == p && model == Made(p)
    {
      periods := p;
      pingTimer, recvTimer, respTimer := Idle(), Idle(), Idle();
      sessionUp, assertionFailed := true, false;
      model := KeepAliveState(Idle(), Idle(), Idle(), true, 0, [], false);
      new;
      RestartPingTimer();
    }

    method RestartPingTimer()
      requires Valid()
      modifies this
      ensures Valid() && model == RestartPing(periods, old(model))
    {
      if periods.keepAlive == 0 { return; }
      pingTimer := Wait(pingTimer, periods.keepAlive);
      model := model.(ping := pingTimer);
    }

    method RestartRecvTimer()
      requires Valid()
      modifies this
      ensures Valid() && model == RestartRecv(periods, old(model))
    {
      if periods.keepAlive == 0 { return; }
      recvTimer := Wait(recvTimer, periods.keepAlive);
      model := model.(recv := recvTimer);
    }

    /** Called for every packet the client sends. */
    method MessageSent()
      requires Valid()
      modifies this
      ensures Valid() && model == Sent(periods, old(model))
    {
      model := model.(sent := model.sent + [model.since], since := 0);
      RestartPingTimer();
    }

    method HandlePingresp()
      requires Valid()
      modifies this
      ensures Valid() && model == Pingresp(periods, old(model))
    {
      respTimer := Cancelled(respTimer);
      model := model.(resp := respTimer);
      RestartRecvTimer();
    }

    method SendPing()
      requires Valid()
      modifies this
      ensures Valid() && model == PingSent(periods, old(model))
    {
      if respTimer.active { return; }
      MessageSent();
      respTimer := Wait(respTimer, periods.response);
      model := model.(resp := respTimer);
    }

    method PingTimeout()
      requires Valid()
      modifies this
      ensures Valid() && model == PingUnanswered(old(model))
    {
      if respTimer.active { assertionFailed := true; }
      sessionUp := false;
      model := model.(up := false, clash := assertionFailed);
    }

    /** A tick of the timer manager, as far as these three timers go. */
    method Tick(ms: nat)
      requires Valid()
      modifies this
      ensures Valid() && model == OnTick(periods, old(model), ms)
    {
      var ping, recv, resp := Expires(pingTimer, ms), Expires(recvTimer, ms), Expires(respTimer, ms);
      pingTimer, recvTimer, respTimer := Aged(pingTimer, ms), Aged(recvTimer, ms), Aged(respTimer, ms);
      model := Age(model, ms);
      if ping { SendPing(); }
      if recv { SendPing(); }
      if resp { PingTimeout(); }
    }

    method Perform(x: Input)
      requires Valid()
      modifies this
      ensures Valid() && model == Step(periods, old(model), x)
    {
      if !sessionUp { return; }
      match x
      case MessageSent => MessageSent();
      case MessageReceived => RestartRecvTimer();
      case PingrespReceived => HandlePingresp();
      case Tick(ms) => if ms <= LeastTimeout([pingTimer, recvTimer, respTimer]) { Tick(ms); }
    }
  }
}
