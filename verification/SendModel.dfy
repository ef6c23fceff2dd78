/** What the calls of client/lib/src/ClientImpl.cpp and client/lib/src/op/SendOp.cpp do to
    the outgoing publishes of one client, as functions on its state. */
module SendModel {
  import opened PacketIds
  import opened History

  /** One SendOp. `id` is its identity and place in the issue order. */
  datatype Send = Send(
    id: int,
    qos: int,
    pid: int,
    len: int,          // serialized length of its PUBLISH
    total: int,        // m_totalSendAttempts
    attempts: int,     // m_sendAttempts
    issued: bool,      // m_cb is set
    published: bool,   // m_published
    acked: bool,       // m_acked
    paused: bool,      // m_paused
    dup: bool,         // the DUP bit of m_pubMsg
    armed: bool,       // m_responseTimer is active
    suspended: bool)   // m_responseTimer is suspended

  /** An entry of m_ops. */
  datatype Ref = Null | SendRef(id: int) | OtherRef

  /** m_ops and m_opsDeleted */
  datatype Registry = Registry(refs: seq<Ref>, deleted: bool)

  /** The packet identifiers in use: the pool, and those of subscribe and unsubscribe operations. */
  datatype IdUse = IdUse(pool: Pool, others: seq<int>)

  datatype Session = Session(
    connected: bool,       // m_sessionState.m_connected
    disconnecting: bool,   // m_sessionState.m_disconnecting
    networkDown: bool,     // m_clientState.m_networkDisconnected
    initialized: bool,     // m_clientState.m_initialized
    connecting: bool)      // a connect operation awaits its CONNACK

  datatype Client = Client(
    ordering: Ordering,
    maxOut: int,           // capacity of the output buffer
    session: Session,
    locked: bool,          // m_preparationLocked
    sends: seq<Send>,      // m_sendOps
    ops: Registry,
    ids: IdUse,
    nextId: int,
    log: Log,
    fault: bool)           // an assertion of the code fails, or it would touch a missing object

  const DEFAULT_ATTEMPTS := 2
  const PUBREL_LEN := 4
  const MAX_UNSIGNED := 0xFFFF_FFFF
  const MAX_QOS := 2

  function NewClient(o: Ordering, maxOut: int, idLimit: nat): Client {
    Client(o, maxOut, Session(false, false, false, false, false), false, [], Registry([], false),
           IdUse(Pool([], 0, idLimit), []), 1, Empty, false)
  }

  // ------------------------------------------------------------------ small pieces

  function Emit(c: Client, e: Event): Client {
    c.(log := After(c.log, e))
  }

  function With(c: Client, i: nat, s: Send): Client
    requires i < |c.sends|
  {
    c.(sends := c.sends[i := s])
  }

  /** Only the entry just before is looked at. */
  predicate HasPausedSendsBefore(sends: seq<Send>, i: nat)
    requires i < |sends|
  {
    i > 0 && sends[i - 1].paused
  }

  predicate HasHigherQosSendsBefore(sends: seq<Send>, i: nat)
    requires i < |sends|
  {
    exists j | 0 <= j < i :: sends[j].qos > sends[i].qos
  }

  predicate CanSend(c: Client, i: nat)
    requires i < |c.sends|
  {
    c.ordering.SameQos? || (!HasPausedSendsBefore(c.sends, i) && !HasHigherQosSendsBefore(c.sends, i))
  }

  function PausedCount(sends: seq<Send>): nat {
    if sends == [] then 0 else (if sends[0].paused then 1 else 0) + PausedCount(sends[1..])
  }

  function Without(sends: seq<Send>, i: nat): seq<Send>
    requires i < |sends|
  {
    sends[..i] + sends[i + 1..]
  }

  function Nullified(refs: seq<Ref>, id: int): seq<Ref> {
    seq(|refs|, k requires 0 <= k < |refs| => if refs[k] == SendRef(id) then Null else refs[k])
  }

  /** The entry leaves both lists and its destructor gives the packet identifier back. */
  function Erase(c: Client, i: nat): Client
    requires i < |c.sends|
  {
    c.(sends := Without(c.sends, i),
       ops := Registry(Nullified(c.ops.refs, c.sends[i].id), true),
       ids := c.ids.(pool := Release(c.ids.pool, c.sends[i].pid)))
  }

  lemma {:induction false} PausedCountErase(sends: seq<Send>, i: nat)
    requires i < |sends|
    ensures PausedCount(sends) == PausedCount(Without(sends, i)) + if sends[i].paused then 1 else 0
  {
    if i == 0 {
      assert Without(sends, 0) == sends[1..];
    } else {
      PausedCountErase(sends[1..], i - 1);
      assert Without(sends, i)[1..] == Without(sends[1..], i - 1);
    }
  }

  lemma PausedCountUpdate(sends: seq<Send>, i: nat, s: Send)
    requires i < |sends|
    ensures PausedCount(sends[i := s]) + (if sends[i].paused then 1 else 0)
              == PausedCount(sends) + if s.paused then 1 else 0
  {
    PausedCountErase(sends, i);
    PausedCountErase(sends[i := s], i);
    assert Without(sends[i := s], i) == Without(sends, i);
  }

  // ------------------------------------------------------------------ resume and complete

  /** What no handling of existing publishes changes. */
  predicate OnSameTerms(c: Client, r: Client) {
    r.ordering == c.ordering && r.maxOut == c.maxOut && r.nextId == c.nextId && (r.session.connected ==> c.session.connected)
  }

  /** resumeSendOpsSince */
  function ResumeSince(c: Client, i: nat): (r: Client)
    ensures OnSameTerms(c, r)
    ensures PausedCount(r.sends) <= PausedCount(c.sends) && |r.sends| <= |c.sends|
    decreases PausedCount(c.sends), |c.sends|, |c.sends| - i
  {
    if i >= |c.sends| then c
    else if !c.sends[i].paused then ResumeSince(c, i + 1)
    else if !CanSend(c, i) then c
    else ResumeSince(Resume(c, i), i)
  }

  /** SendOp::resume, for a paused publish that may go out now. */
  function Resume(c: Client, i: nat): (r: Client)
    requires i < |c.sends| && c.sends[i].paused
    ensures OnSameTerms(c, r)
    ensures PausedCount(r.sends) < PausedCount(c.sends) && |r.sends| <= |c.sends|
    decreases PausedCount(c.sends), 0, 0
  {
    var c1 := With(c, i, c.sends[i].(paused := false));
    PausedCountUpdate(c.sends, i, c.sends[i].(paused := false));
    if Fits(c1, i) then DoSend(c1, i) else CompleteWithCb(c1, i, OutOfMemory)
  }

  /** Who of them has had no PUBLISH. */
  function Unsent(ahead: seq<Send>): set<int> {
    set j | 0 <= j < |ahead| && !ahead[j].published :: ahead[j].id
  }

  predicate Fits(c: Client, i: nat)
    requires i < |c.sends|
  {
    c.sends[i].len <= c.maxOut
  }

  /** doSendInternal, for a PUBLISH that fits the output buffer. */
  function DoSend(c: Client, i: nat): (r: Client)
    requires i < |c.sends| && !c.sends[i].paused
    ensures OnSameTerms(c, r)
    ensures PausedCount(r.sends) <= PausedCount(c.sends) && |r.sends| <= |c.sends|
    decreases PausedCount(c.sends), |c.sends|, 2
  {
    var s := c.sends[i].(attempts := 1, published := true);
    var c1 := Emit(With(c, i, s), Publish(s.id, s.pid, s.qos, s.dup, First(Unsent(c.sends[..i])), s.total));
    PausedCountUpdate(c.sends, i, s);
    if s.qos == 0 then CompleteWithCb(c1, i, Complete)
    else
      PausedCountUpdate(c1.sends, i, s.(armed := true));
      With(c1, i, s.(armed := true))
  }

  /** completeWithCb: the callback runs after the entry is gone and others were resumed. */
  function CompleteWithCb(c: Client, i: nat, status: Status): (r: Client)
    requires i < |c.sends|
    ensures OnSameTerms(c, r)
    ensures PausedCount(r.sends) <= PausedCount(c.sends) && |r.sends| < |c.sends|
    decreases PausedCount(c.sends), |c.sends|, 1
  {
    var s := c.sends[i];
    var c1 := OpComplete(c, i);
    if s.issued then Emit(c1, Callback(s.id, s.qos, status)) else c1
  }

  /** opComplete and opComplete_Send */
  function OpComplete(c: Client, i: nat): (r: Client)
    requires i < |c.sends|
    ensures OnSameTerms(c, r)
    ensures PausedCount(r.sends) <= PausedCount(c.sends) && |r.sends| < |c.sends|
    decreases PausedCount(c.sends), |c.sends|, 0
  {
    PausedCountErase(c.sends, i);
    var c1 := Erase(c, i);
    if c.session.disconnecting then c1 else ResumeSince(c1, i)
  }

  // ------------------------------------------------------------------ re-sending

  /** resendDupMsg */
  function ResendDup(c: Client, i: nat, cause: Cause): (r: Client)
    requires i < |c.sends|
    ensures OnSameTerms(c, r)
    ensures |r.sends| <= |c.sends|
    ensures |r.sends| == |c.sends| ==> r.sends[i].id == c.sends[i].id
  {
    if c.sends[i].total <= c.sends[i].attempts then CompleteWithCb(c, i, Timeout)
    else if !c.sends[i].published then c.(fault := true)
    else if ResendFits(c, i) then Resent(c, i, cause, c.sends[i].attempts + 1)
    else CompleteWithCb(With(c, i, Marked(c.sends[i])), i, InternalError)
  }

  predicate ResendFits(c: Client, i: nat)
    requires i < |c.sends|
  {
    (if c.sends[i].acked then PUBREL_LEN else c.sends[i].len) <= c.maxOut
  }

  /** A PUBLISH to be repeated carries the DUP bit. */
  function Marked(s: Send): Send {
    s.(dup := s.dup || !s.acked)
  }

  function ResendPacket(s: Send, cause: Cause): Event {
    if s.acked then Pubrel(s.id, s.pid) else Publish(s.id, s.pid, s.qos, true, cause, s.total)
  }

  /** Entry `i` is repeated, which makes `n` attempts. */
  function Resent(c: Client, i: nat, cause: Cause, n: int): Client
    requires i < |c.sends|
  {
    Emit(With(c, i, Marked(c.sends[i]).(attempts := n, armed := true)), ResendPacket(c.sends[i], cause))
  }

  /** forceDupResend */
  function ForceDupResend(c: Client, i: nat): (r: Client)
    requires i < |c.sends|
    ensures OnSameTerms(c, r)
    ensures |r.sends| <= |c.sends|
    ensures |r.sends| == |c.sends| ==> r.sends[i].id == c.sends[i].id
  {
    if c.sends[i].paused then c else ResendDup(c, i, Resend)
  }

  /** postReconnectionResend: the count of attempts is unsigned. */
  function PostReconnectionResend(c: Client, i: nat): (r: Client)
    requires i < |c.sends|
    ensures OnSameTerms(c, r)
    ensures |r.sends| <= |c.sends|
  {
    var s := c.sends[i];
    if s.paused then c
    else
      var n := if s.attempts == 0 then MAX_UNSIGNED else s.attempts - 1;
      ResendDup(With(c, i, s.(attempts := n, armed := false)), i, Reconnect)
  }

  /** resendAllUntil: walks the list by index while entries may leave it. After each entry
      but the last one wanted it looks at the same place of the list again. */
  function ResendAllUntil(c: Client, target: int, i: nat): (r: Client)
    ensures OnSameTerms(c, r)
    decreases |c.sends| - i
  {
    if i >= |c.sends| then c
    else
      var before := c.sends[i].id;
      var c1 := ForceDupResend(c, i);
      if c1.fault || before == target then c1
      else if i >= |c1.sends| then c1.(fault := true)
      else if c1.sends[i].id == before then ResendAllUntil(c1, target, i + 1)
      else ResendAllUntil(c1, target, i)
  }

  // ------------------------------------------------------------------ acknowledgements

  datatype AckKind = Puback | Pubrec | Pubcomp

  /** findSendOp: the first entry with the identifier, or the length of the list. */
  function FindSend(sends: seq<Send>, pid: int): (k: nat)
    ensures k <= |sends|
    ensures k < |sends| ==> sends[k].pid == pid
    ensures forall j | 0 <= j < k :: sends[j].pid != pid
  {
    if sends == [] || sends[0].pid == pid then 0 else
    var k := 1 + FindSend(sends[1..], pid);
    assert forall j | 1 <= j < k :: sends[j] == sends[1..][j - 1];
    k
  }

  /** isLegitSendAck, as its loop decides it from entry `j` on. */
  predicate LegitFrom(sends: seq<Send>, i: nat, pubcomp: bool, j: nat)
    requires j <= i < |sends|
    decreases i - j
  {
    j == i || (sends[j].acked && !(pubcomp && i != 0) && LegitFrom(sends, i, pubcomp, j + 1))
  }

  predicate IsLegitSendAck(sends: seq<Send>, i: nat, pubcomp: bool)
    requires i < |sends|
  {
    sends[i].published && LegitFrom(sends, i, pubcomp, 0)
  }

  /** SendOp::handle(PubackMsg&): the operation completes before the session is dropped. */
  function HandlePuback(c: Client, i: nat): (r: Client)
    requires i < |c.sends|
    ensures OnSameTerms(c, r)
  {
    var c1 := With(c, i, c.sends[i].(armed := false));
    if c.sends[i].qos != 1 then BrokerDisconnected(CompleteWithCb(c1, i, ProtocolError), true)
    else CompleteWithCb(c1, i, Complete)
  }

  function HandlePubrec(c: Client, i: nat): (r: Client)
    requires i < |c.sends|
    ensures OnSameTerms(c, r)
  {
    var c1 := With(c, i, c.sends[i].(armed := false));
    if c.sends[i].qos != 2 || c.sends[i].acked then BrokerDisconnected(CompleteWithCb(c1, i, ProtocolError), true)
    else AcceptPubrec(c1, i)
  }

  function AcceptPubrec(c: Client, i: nat): (r: Client)
    requires i < |c.sends|
    ensures OnSameTerms(c, r)
  {
    var s := c.sends[i].(acked := true, attempts := 0);
    if c.maxOut < PUBREL_LEN then CompleteWithCb(With(c, i, s), i, InternalError)
    else Emit(With(c, i, s.(attempts := 1, armed := true)), Pubrel(s.id, s.pid))
  }

  function HandlePubcomp(c: Client, i: nat): (r: Client)
    requires i < |c.sends|
    ensures OnSameTerms(c, r)
  {
    var c1 := With(c, i, c.sends[i].(armed := false));
    if c.sends[i].qos != 2 || !c.sends[i].acked then BrokerDisconnected(CompleteWithCb(c1, i, ProtocolError), true)
    else CompleteWithCb(c1, i, Complete)
  }

  /** processPublishAckMsg */
  function ProcessAck(c: Client, kind: AckKind, pid: int): (r: Client)
    ensures OnSameTerms(c, r)
  {
    var i := FindSend(c.sends, pid);
    if i == |c.sends| then c
    else if !IsLegitSendAck(c.sends, i, kind.Pubcomp?) then ResendAllUntil(c, c.sends[i].id, 0)
    else
      match kind
      case Puback => HandlePuback(c, i)
      case Pubrec => HandlePubrec(c, i)
      case Pubcomp => HandlePubcomp(c, i)
  }

  // ------------------------------------------------------------------ the session

  function Suspended(sends: seq<Send>): seq<Send> {
    seq(|sends|, k requires 0 <= k < |sends| => if sends[k].armed then sends[k].(suspended := true) else sends[k])
  }

  function TimedIds(sends: seq<Send>): set<int> {
    set k | 0 <= k < |sends| && sends[k].armed :: sends[k].id
  }

  /** brokerDisconnected: publishes are kept, their running timers are suspended. */
  function BrokerDisconnected(c: Client, report: bool): Client {
    Emit(c.(session := c.session.(initialized := false, connected := false, disconnecting := true, connecting := false),
            sends := Suspended(c.sends)),
         Mark(Lost(report, TimedIds(c.sends))))
  }

  /** The re-send loop of a session-present reconnection; it cannot survive an erasure. */
  function ResendLoop(c: Client, i: nat): (r: Client)
    ensures OnSameTerms(c, r)
    decreases |c.sends| - i
  {
    if i >= |c.sends| then c
    else
      var c1 := PostReconnectionResend(c, i);
      if |c1.sends| == |c.sends| then ResendLoop(c1, i + 1) else c1.(fault := true)
  }

  /** Where the block of paused publishes at the end of the list begins. */
  function TrailingPaused(sends: seq<Send>, k: nat): (i: nat)
    requires k <= |sends|
    ensures i <= k
    ensures forall j | i <= j < k :: sends[j].paused
    ensures i > 0 ==> !sends[i - 1].paused
  {
    if k == 0 || !sends[k - 1].paused then k else TrailingPaused(sends, k - 1)
  }

  function IndexOf(sends: seq<Send>, id: int): (k: nat)
    ensures k <= |sends|
    ensures k < |sends| ==> sends[k].id == id
    ensures k == |sends| ==> forall j | 0 <= j < |sends| :: sends[j].id != id
  {
    if sends == [] || sends[0].id == id then 0 else
    var k := 1 + IndexOf(sends[1..], id);
    assert forall j | 1 <= j < |sends| :: sends[j] == sends[1..][j - 1];
    k
  }

  /** The walk over m_ops after a reconnection without a session: it does not skip the
      entries nulled meanwhile. */
  function TerminateWalk(c: Client, k: nat): (r: Client)
    ensures OnSameTerms(c, r)
    decreases |c.sends|, |c.ops.refs| - k
  {
    if k >= |c.ops.refs| then c
    else
      match c.ops.refs[k]
      case OtherRef => TerminateWalk(c, k + 1)
      case Null => c.(fault := true)
      case SendRef(id) =>
        var i := IndexOf(c.sends, id);
        if i == |c.sends| then c.(fault := true)
        else TerminateWalk(CompleteWithCb(c, i, Aborted), k + 1)
  }

  /** brokerConnected */
  function BrokerConnected(c: Client, sessionPresent: bool): (r: Client)
    ensures r.ordering == c.ordering && r.maxOut == c.maxOut && r.nextId == c.nextId
  {
    var c1 := c.(session := c.session.(connected := true, connecting := false));
    if !sessionPresent then TerminateWalk(c1, 0)
    else
      var c2 := ResendLoop(Emit(c1, Mark(Resumed)), 0);
      if c2.fault then c2
      else
        var from := TrailingPaused(c2.sends, |c2.sends|);
        ResumeSince(c2, from)
  }

  // ------------------------------------------------------------------ the calls

  datatype Input =
    | Prepare
    | SendPrepared(qos: int, len: int, total: int, configured: bool)
    | Cancel(id: int)
    | Ack(kind: AckKind, ackPid: int)
    | Tick(calls: seq<Call>)
    | NetworkDisconnected
    | Disconnect(report: bool)
    | Connect
    | Connack(accepted: bool, sessionPresent: bool)
    | ConnectEnds
    | CleanOps
    | OtherStarts(takesId: bool)
    | OtherEnds(ref: nat, held: nat)

  /** publishPrepare */
  function DoPrepare(c: Client): Client {
    if !c.session.connected || c.session.disconnecting || c.session.networkDown || c.locked then c
    else
      c.(locked := true,
         nextId := c.nextId + 1,
         ops := c.ops.(refs := c.ops.refs + [SendRef(c.nextId)]),
         sends := c.sends + [Fresh(c.nextId)])
  }

  function Fresh(id: int): Send {
    Send(id, 0, 0, 0, DEFAULT_ATTEMPTS, 0, false, false, false, false, false, false, false)
  }

  /** The prepared publish, if there is one, is the last entry. */
  predicate HasPrepared(c: Client) {
    c.sends != [] && !c.sends[|c.sends| - 1].issued && !c.sends[|c.sends| - 1].paused
  }

  /** The configuration and the callback are stored, a packet identifier is taken. The log tells
      what the call asked for. */
  function Issue(c: Client, i: nat, qos: int, len: int, total: int): (r: Client)
    requires i < |c.sends|
    ensures |r.sends| == |c.sends| && r.sends[i].paused == c.sends[i].paused
  {
    var pid := if qos > 0 then Allocated(c.ids.pool) else 0;
    var pool := if qos > 0 then Alloc(c.ids.pool) else c.ids.pool;
    With(c, i, c.sends[i].(issued := true, qos := qos, len := len, total := total, pid := pid))
      .(ids := c.ids.(pool := pool),
        log := After(c.log, Issued(c.sends[i].id, qos, len, total, len <= c.maxOut)))
  }

  /** SendOp::config, setResendAttempts and send. */
  function DoSendCall(c: Client, qos: int, len: int, total: int, configured: bool): (r: Client)
    ensures OnSameTerms(c, r)
  {
    if !HasPrepared(c) || !(0 <= qos <= MAX_QOS) || total <= 0 then c
    else
      var i := |c.sends| - 1;
      var c0 := c.(locked := false);
      if !configured then
        Emit(OpComplete(c0, i), Silent(c.sends[i].id, Refused))
      else
        var c1 := Issue(c0, i, qos, len, total);
        if !CanSend(c1, i) then With(c1, i, c1.sends[i].(paused := true))
        else if Fits(c1, i) then DoSend(c1, i)
        else Emit(OpComplete(c1, i), Silent(c.sends[i].id, Refused))
  }

  /** SendOp::cancel */
  function DoCancel(c: Client, id: int): (r: Client)
    ensures OnSameTerms(c, r)
  {
    var i := IndexOf(c.sends, id);
    if i == |c.sends| then c
    else
      var c1 := if c.sends[i].issued then c else c.(locked := false);
      Emit(OpComplete(c1, i), Silent(id, Cancelled))
  }

  /** A callback of an expired timer: of a publish, or of the one that waits for PINGRESP. */
  datatype Call = SendCall(id: int) | PingCall

  /** The timer of this publish can expire. */
  predicate Expiring(sends: seq<Send>, id: int) {
    var i := IndexOf(sends, id);
    i < |sends| && sends[i].armed && !sends[i].suspended
  }

  /** The callbacks a tick collects, once each, in the order given. */
  function Collected(sends: seq<Send>, calls: seq<Call>): seq<Call> {
    if calls == [] then []
    else
      var due, x := Collected(sends, calls[..|calls| - 1]), calls[|calls| - 1];
      if x !in due && (x.PingCall? || Expiring(sends, x.id)) then due + [x] else due
  }

  /** Collecting a callback cancels its timer. */
  function TimersCancelled(sends: seq<Send>, due: seq<Call>): seq<Send> {
    seq(|sends|, k requires 0 <= k < |sends| =>
      if SendCall(sends[k].id) in due then sends[k].(armed := false) else sends[k])
  }

  /** pingTimeoutInternal, or responseTimeoutInternal with its assertions. */
  function OnCall(c: Client, x: Call): (r: Client)
    ensures OnSameTerms(c, r)
  {
    match x
    case PingCall => if c.session.connected then BrokerDisconnected(c, true) else c
    case SendCall(id) =>
      var i := IndexOf(c.sends, id);
      if i == |c.sends| || c.sends[i].armed || !c.sends[i].published then c.(fault := true)
      else ResendDup(c, i, Resend)
  }

  function OnCalls(c: Client, due: seq<Call>): (r: Client)
    ensures OnSameTerms(c, r)
    decreases |due|
  {
    if due == [] || c.fault then c else OnCalls(OnCall(c, due[0]), due[1..])
  }

  /** A tick first cancels all timers that expire in it and then calls their callbacks. */
  function DoTick(c: Client, calls: seq<Call>): (r: Client)
    ensures OnSameTerms(c, r)
  {
    var due := Collected(c.sends, calls);
    OnCalls(c.(sends := TimersCancelled(c.sends, due)), due)
  }

  /** notifyNetworkDisconnected */
  function DoNetworkDisconnected(c: Client): Client {
    var c1 := c.(session := c.session.(networkDown := true));
    if c.session.disconnecting then c1 else BrokerDisconnected(c1, false)
  }

  /** connectPrepare with initInternal, and the send of the connect operation. */
  function DoConnect(c: Client): Client {
    var s1 := c.session.(networkDown := false);
    var s2 := if s1.initialized then s1
              else s1.(initialized := true, connected := false, disconnecting := false, connecting := false);
    var ready := !s2.connecting && !s2.disconnecting && !s2.connected && !c.locked;
    c.(session := s2.(connecting := s2.connecting || ready))
  }

  /** ConnectOp::handle(ConnackMsg&) */
  function DoConnack(c: Client, accepted: bool, sessionPresent: bool): Client {
    if !c.session.connecting then c
    else if !accepted then c.(session := c.session.(connecting := false, connected := false, disconnecting := false))
    else BrokerConnected(c, sessionPresent)
  }

  function LiveRefs(refs: seq<Ref>): seq<Ref> {
    if refs == [] then [] else (if refs[0].Null? then [] else [refs[0]]) + LiveRefs(refs[1..])
  }

  /** cleanOps */
  function DoCleanOps(c: Client): Client {
    if c.ops.deleted then c.(ops := Registry(LiveRefs(c.ops.refs), false)) else c
  }

  /** Another operation enters m_ops and may take a packet identifier. */
  function DoOtherStarts(c: Client, takesId: bool): Client {
    var c1 := c.(ops := c.ops.(refs := c.ops.refs + [OtherRef]));
    if takesId
    then c1.(ids := IdUse(Alloc(c.ids.pool), c.ids.others + [Allocated(c.ids.pool)]))
    else c1
  }

  /** It leaves again, and gives the identifier back. */
  function DoOtherEnds(c: Client, ref: nat, held: nat): Client {
    var refs, others := c.ops.refs, c.ids.others;
    var c1 := if ref < |refs| && refs[ref].OtherRef? then c.(ops := Registry(refs[ref := Null], true)) else c;
    if held < |others|
    then c1.(ids := IdUse(Release(c.ids.pool, others[held]), others[..held] + others[held + 1..]))
    else c1
  }

  /** One event in the life of the client. */
  function Step(c: Client, x: Input): (r: Client)
    ensures r.ordering == c.ordering && r.maxOut == c.maxOut && r.nextId >= c.nextId
  {
    if c.fault then c
    else
      match x
      case Prepare => DoPrepare(c)
      case SendPrepared(qos, len, total, configured) => DoSendCall(c, qos, len, total, configured)
      case Cancel(id) => DoCancel(c, id)
      case Ack(kind, pid) => if pid == 0 || c.session.networkDown then c else ProcessAck(c, kind, pid)
      case Tick(calls) => DoTick(c, calls)
      case NetworkDisconnected => DoNetworkDisconnected(c)
      case Disconnect(report) => BrokerDisconnected(c, report)
      case Connect => DoConnect(c)
      case Connack(accepted, sp) => DoConnack(c, accepted, sp)
      case ConnectEnds => c.(session := c.session.(connecting := false))
      case CleanOps => DoCleanOps(c)
      case OtherStarts(takesId) => DoOtherStarts(c, takesId)
      case OtherEnds(ref, held) => DoOtherEnds(c, ref, held)
  }

  function Run(c: Client, xs: seq<Input>): (r: Client)
    ensures r.ordering == c.ordering && r.maxOut == c.maxOut && r.nextId >= c.nextId
    decreases |xs|
  {
    if xs == [] then c else Step(Run(c, xs[..|xs| - 1]), xs[|xs| - 1])
  }
}
