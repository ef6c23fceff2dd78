/** What each call, packet and timer brings about, in every state that can be reached: the list and
    the history afterwards, event by event. */
module SendEffects {
  import opened PacketIds
  import opened History
  import opened SendModel
  import opened SendInvariant
  import opened SendSteps
  import opened SendRuns
  import opened SendSession
  import opened SendBooks
  import opened SendWakeups
  import opened SendReconnect
  import opened SendTimers
  import opened SendForced
  import opened SendFaults
  import opened SendTicks
  import opened SendFlat

  /** Some run of a fresh client ends here, and nothing has gone wrong so far. */
  ghost predicate Reached(c: Client) {
    !c.fault && exists o, maxOut, idLimit, xs :: c == Run(NewClient(o, maxOut, idLimit), xs)
  }

  lemma ReachedIsGood(c: Client)
    requires Reached(c)
    ensures Good(c) && Tidy(c)
  {
    var o, maxOut, idLimit, xs :| c == Run(NewClient(o, maxOut, idLimit), xs);
    RunKeeps(o, maxOut, idLimit, xs);
    RunTidy(o, maxOut, idLimit, xs);
  }

  /** The list and the events of a step; `r` is like `c` but for them and the books. */
  ghost predicate Brings(c: Client, r: Client, sends: seq<Send>, news: seq<Event>) {
    && r.sends == sends && Events(r.log) == Events(c.log) + news
    && r.session == c.session && r.fault == c.fault && r.locked == c.locked
  }

  // ------------------------------------------------------------------ acknowledgements

  /** Entry `i` is the one the broker has to acknowledge next: it is on the wire and all before
      it have been received. The network is up. */
  ghost predicate ItsTurn(c: Client, i: nat, pid: int) {
    && i < |c.sends| && c.sends[i].published && c.sends[i].pid == pid != 0 && !c.session.networkDown
    && forall j | 0 <= j < i :: c.sends[j].acked
  }

  /** No two publishes have the same identifier. */
  lemma FoundByIdentifier(c: Client, i: nat)
    requires Tidy(c) && i < |c.sends| && c.sends[i].pid != 0
    ensures FindSend(c.sends, c.sends[i].pid) == i
  {
    var pid := c.sends[i].pid;
    var k := FindSend(c.sends, pid);
    if k < i {
      HoldersErased(c.sends, i, pid);
      var rest := Without(c.sends, i);
      assert rest[k].pid == pid;
      HoldersMember(rest, k);
    }
  }

  lemma TurnMeans(c: Client, i: nat, kind: AckKind, pid: int)
    requires Good(c) && Tidy(c) && !c.fault && ItsTurn(c, i, pid) && (kind.Pubcomp? ==> i == 0)
    ensures Step(c, Ack(kind, pid)) ==
              match kind
              case Puback => HandlePuback(c, i)
              case Pubrec => HandlePubrec(c, i)
              case Pubcomp => HandlePubcomp(c, i)
  {
    FoundByIdentifier(c, i);
    LegitExactly(c.sends, i, kind.Pubcomp?);
  }

  /** The timer of the publish is stopped first; that does not matter to what becomes of the others. */
  lemma DisarmedDeparture(c: Client, i: nat, status: Status)
    requires Good(c) && i < |c.sends| && c.sends[i].issued && MayComplete(c, i, status)
    requires status.Complete? ==> c.sends[i].published
    ensures var c1 := With(c, i, c.sends[i].(armed := false));
      Good(CompleteWithCb(c1, i, status)) && EndsWith(c, i, status, CompleteWithCb(c1, i, status))
  {
    var c1 := With(c, i, c.sends[i].(armed := false));
    DisarmedKeeps(c, i);
    EndsInTurn(c1, i, status);
    EndsAlike(c, i, status, c1, CompleteWithCb(c1, i, status));
  }

  lemma EndsInTurn(c: Client, i: nat, status: Status)
    requires Good(c) && i < |c.sends| && c.sends[i].issued && MayComplete(c, i, status)
    requires status.Complete? ==> c.sends[i].published
    ensures Good(CompleteWithCb(c, i, status)) && EndsWith(c, i, status, CompleteWithCb(c, i, status))
  {
    CompleteIsFlat(c, i, status);
    CompletionAgrees(c, i, status);
  }

  lemma EndsAlike(c: Client, i: nat, status: Status, c1: Client, r: Client)
    requires i < |c.sends| && c1 == With(c, i, c.sends[i].(armed := false)) && EndsWith(c1, i, status, r)
    ensures EndsWith(c, i, status, r)
  {
    SameDeparture(c, i, c1.sends[i]);
  }

  lemma SameDeparture(c: Client, i: nat, s: Send)
    requires i < |c.sends|
    ensures Departure(With(c, i, s), i) == Departure(c, i)
  {
    var d := With(c, i, s);
    assert d.sends[..i] == c.sends[..i] && d.sends[i + 1..] == c.sends[i + 1..];
    assert Without(d.sends, i) == Without(c.sends, i);
  }

  lemma CompletionAgrees(c: Client, i: nat, status: Status)
    requires Good(c) && i < |c.sends| && c.sends[i].issued && MayComplete(c, i, status)
    requires status.Complete? ==> c.sends[i].published
    ensures var r := CompleteWithCb(c, i, status);
      && Good(r) && r.session == c.session && r.fault == c.fault && r.locked == c.locked && r.maxOut == c.maxOut
      && c.sends[i].id !in LiveIds(r.sends)
  {
    CompleteKeeps(c, i, status);
    CalmErased(c, i);
    OpCompleteKeeps(c, i, {});
  }

  /** Entry `i` leaves with this status, after those it sets free. */
  ghost predicate EndsWith(c: Client, i: nat, status: Status, r: Client)
    requires i < |c.sends|
  {
    var s := c.sends[i];
    && Brings(c, r, Departure(c, i).0, Departure(c, i).1 + [Callback(s.id, s.qos, status)])
    && s.id !in LiveIds(r.sends)
  }

  /** PUBACK completes a QoS 1 publish whose turn it is. */
  lemma PubackCompletes(c: Client, i: nat, pid: int)
    requires Reached(c) && ItsTurn(c, i, pid) && c.sends[i].qos == 1
    ensures EndsWith(c, i, Complete, Step(c, Ack(Puback, pid)))
  {
    ReachedIsGood(c);
    TurnMeans(c, i, Puback, pid);
    LegitExactly(c.sends, i, false);
    PubackMayComplete(c, i);
    assert EntryOk(c, c.sends[i]);
    DisarmedDeparture(c, i, Complete);
  }

  /** PUBCOMP completes the oldest publish when its PUBREC has been accepted. */
  lemma PubcompCompletes(c: Client, pid: int)
    requires Reached(c) && ItsTurn(c, 0, pid) && c.sends[0].acked
    ensures c.sends[0].qos == 2 && EndsWith(c, 0, Complete, Step(c, Ack(Pubcomp, pid)))
  {
    ReachedIsGood(c);
    TurnMeans(c, 0, Pubcomp, pid);
    assert EntryOk(c, c.sends[0]);
    forall j | 0 < j < |c.sends| ensures c.sends[0].id < c.sends[j].id { LineAt(c.ordering, c.sends, 0, j); }
    DisarmedDeparture(c, 0, Complete);
  }

  /** PUBREC is answered by PUBREL, once, and the publish waits on; where not even a PUBREL fits
      the output buffer it ends with an error. */
  lemma PubrecIsAnswered(c: Client, i: nat, pid: int)
    requires Reached(c) && ItsTurn(c, i, pid) && c.sends[i].qos == 2 && !c.sends[i].acked
    ensures var s, d := c.sends[i], Step(c, Ack(Pubrec, pid));
      if PUBREL_LEN <= c.maxOut
      then d == c.(sends := c.sends[i := s.(acked := true, attempts := 1, armed := true)], log := After(c.log, Pubrel(s.id, pid)))
      else EndsWith(c, i, InternalError, d)
  {
    ReachedIsGood(c);
    TurnMeans(c, i, Pubrec, pid);
    var c1 := With(c, i, c.sends[i].(armed := false));
    assert EntryOk(c, c.sends[i]);
    if PUBREL_LEN <= c.maxOut {
      assert c1.sends[i := c.sends[i].(acked := true, attempts := 1, armed := true)]
          == c.sends[i := c.sends[i].(acked := true, attempts := 1, armed := true)];
    } else {
      UnsentPubrel(c1, i);
      DisarmedDeparture(c, i, InternalError);
    }
  }

  /** Any other acknowledgement in its turn ends the publish with a protocol error, after that
      the session. */
  lemma UnexpectedEndsBoth(c: Client, i: nat, kind: AckKind, pid: int)
    requires Reached(c) && ItsTurn(c, i, pid) && (kind.Pubcomp? ==> i == 0) && Unexpected(c.sends[i], kind)
    ensures EndsBoth(c, i, Step(c, Ack(kind, pid)))
  {
    ReachedIsGood(c);
    TurnMeans(c, i, kind, pid);
    assert EntryOk(c, c.sends[i]);
    DisarmedDeparture(c, i, ProtocolError);
    UnexpectedIs(c, i, kind, pid);
    LossAfterEnd(c, i, CompleteWithCb(With(c, i, c.sends[i].(armed := false)), i, ProtocolError));
  }

  ghost predicate EndsBoth(c: Client, i: nat, d: Client)
    requires i < |c.sends|
  {
    var s := c.sends[i];
    && d.sends == Suspended(Departure(c, i).0)
    && Events(d.log) == Events(c.log) + Departure(c, i).1
                          + [Callback(s.id, s.qos, ProtocolError)] + [Mark(Lost(true, TimedIds(Departure(c, i).0)))]
    && d.session.disconnecting && !d.session.connected && !d.fault
  }

  lemma LossAfterEnd(c: Client, i: nat, r: Client)
    requires i < |c.sends| && EndsWith(c, i, ProtocolError, r) && !c.fault
    ensures EndsBoth(c, i, BrokerDisconnected(r, true))
  {
  }

  lemma UnexpectedIs(c: Client, i: nat, kind: AckKind, pid: int)
    requires i < |c.sends| && Unexpected(c.sends[i], kind)
    requires Step(c, Ack(kind, pid)) ==
               match kind
               case Puback => HandlePuback(c, i)
               case Pubrec => HandlePubrec(c, i)
               case Pubcomp => HandlePubcomp(c, i)
    ensures Step(c, Ack(kind, pid)) == BrokerDisconnected(CompleteWithCb(With(c, i, c.sends[i].(armed := false)), i, ProtocolError), true)
  {
  }

  /** Nothing else is known of an identifier that no publish has. */
  lemma UnknownIsIgnored(c: Client, kind: AckKind, pid: int)
    requires Reached(c) && (pid == 0 || c.session.networkDown || forall j | 0 <= j < |c.sends| :: c.sends[j].pid != pid)
    ensures Step(c, Ack(kind, pid)) == c
  {
  }

  // ------------------------------------------------------------------ issuing

  /** The publish that is prepared, as the call makes it. */
  function AsIssued(c: Client, qos: int, len: int, total: int): Send
    requires c.sends != []
  {
    c.sends[|c.sends| - 1].(issued := true, qos := qos, len := len, total := total, pid := if qos > 0 then Allocated(c.ids.pool) else 0)
  }

  /** What the call shows at once, and what it leaves of the publish: held back under full
      ordering behind one that waits or is of higher QoS; otherwise sent, and complete with QoS
      0; or refused for its length. */
  function IssueShows(c: Client, s: Send): seq<Event>
    requires c.sends != []
  {
    if c.ordering.Full? && KeptBack(c.sends[..|c.sends| - 1], s) then []
    else if c.maxOut < s.len then [Silent(s.id, Refused)]
    else if s.qos == 0 then [FirstPacket(s)] + [Callback(s.id, 0, Complete)]
    else [FirstPacket(s)]
  }

  function IssueLeaves(c: Client, s: Send): seq<Send>
    requires c.sends != []
  {
    if c.ordering.Full? && KeptBack(c.sends[..|c.sends| - 1], s) then [s.(paused := true)]
    else Left(c.maxOut, s)
  }

  /** The call issues the publish with its own terms, in one of these four ways, and unlocks
      preparation. */
  lemma SendIssues(c: Client, qos: int, len: int, total: int)
    requires Reached(c) && c.sends != [] && !c.sends[|c.sends| - 1].issued && 0 <= qos <= MAX_QOS && total > 0
    ensures var s, d := AsIssued(c, qos, len, total), Step(c, SendPrepared(qos, len, total, true));
      && d.sends == c.sends[..|c.sends| - 1] + IssueLeaves(c, s)
      && Events(d.log) == Events(c.log) + [Issued(s.id, qos, len, total, len <= c.maxOut)] + IssueShows(c, s)
      && !d.locked && d.session == c.session && !d.fault
  {
    ReachedIsGood(c);
    var i := |c.sends| - 1;
    assert EntryOk(c, c.sends[i]);
    SendCallIs(c, qos, len, total);
    var d := HeldBack(c, qos, len, total);
    var s := AsIssued(c, qos, len, total);
    assert d.sends == c.sends[..i] + [s.(paused := true)];
    CanSendSaid(c, qos, len, total, d);
    if CanSend(d, i) {
      HeldBackKeeps(c, qos, len, total);
      IssuedInTurn(c, qos, len, total);
      FirstPacketIs(d, i);
      IssuedGoesOut(c, d, s, i);
    }
  }

  lemma CanSendSaid(c: Client, qos: int, len: int, total: int, d: Client)
    requires Good(c) && HasPrepared(c) && 0 <= qos <= MAX_QOS && total > 0 && d == HeldBack(c, qos, len, total)
    ensures CanSend(d, |c.sends| - 1) <==>
              !(c.ordering.Full? && KeptBack(c.sends[..|c.sends| - 1], AsIssued(c, qos, len, total)))
  {
    var i, ahead, s := |c.sends| - 1, c.sends[..|c.sends| - 1], AsIssued(c, qos, len, total);
    forall j | 0 <= j < i && ahead[j].paused ensures ahead[i - 1].paused { PausedUpToLast(c, j, i); }
    assert d.sends == ahead + [s.(paused := true)];
    KeptBackSaid(ahead, s, d.sends);
  }

  /** Looking at the one before and for higher QoS is looking for whoever keeps it back, when the
      paused ones come last. */
  lemma KeptBackSaid(ahead: seq<Send>, s: Send, sends: seq<Send>)
    requires sends == ahead + [s.(paused := true)] && forall j | 0 <= j < |ahead| && ahead[j].paused :: ahead[|ahead| - 1].paused
    ensures KeptBack(ahead, s) <==> HasPausedSendsBefore(sends, |ahead|) || HasHigherQosSendsBefore(sends, |ahead|)
  {
    assert forall j | 0 <= j < |ahead| :: sends[j] == ahead[j];
  }

  /** The paused publishes are the last before the prepared one. */
  lemma PausedUpToLast(c: Client, j: nat, i: nat)
    requires ListOk(c) && j < i == |c.sends| - 1 && c.sends[j].paused
    ensures c.sends[i - 1].paused
  {
    if j < i - 1 {
      LineAt(c.ordering, c.sends, j, i - 1);
      LineAt(c.ordering, c.sends, i - 1, i);
      assert EntryOk(c, c.sends[j]) && EntryOk(c, c.sends[i - 1]);
    }
  }

  lemma IssuedGoesOut(c: Client, d: Client, s: Send, i: nat)
    requires ListOk(d) && i == |c.sends| - 1 && d.sends == c.sends[..i] + [s.(paused := true)] && d.maxOut == c.maxOut
    requires s.issued && !s.paused && CanSend(d, i) && !(c.ordering.Full? && KeptBack(c.sends[..i], s))
    requires var t := d.sends[i]; FirstPacket(t) == Publish(t.id, t.pid, t.qos, t.dup, First(Unsent(d.sends[..i])), t.total)
    ensures GoneOutAs(c, d, s, i, if Fits(d, i) then Resume(d, i) else Emit(Erase(d, i), Silent(s.id, Refused)))
  {
    assert Without(d.sends, i) == c.sends[..i];
    if Fits(d, i) {
      if s.qos == 0 { LastGoesAndLeaves(d, i); } else { LastGoesAndStays(c, d, s, i); }
    }
  }

  ghost predicate GoneOutAs(c: Client, d: Client, s: Send, i: nat, r: Client)
    requires i == |c.sends| - 1
  {
    && r.sends == c.sends[..i] + IssueLeaves(c, s) && Events(r.log) == Events(d.log) + IssueShows(c, s)
    && r.session == d.session && r.locked == d.locked && r.fault == d.fault
  }

  lemma LastGoesAndStays(c: Client, d: Client, s: Send, i: nat)
    requires i == |c.sends| - 1 && d.sends == c.sends[..i] + [s.(paused := true)] && d.maxOut == c.maxOut
    requires !s.paused && !(c.ordering.Full? && KeptBack(c.sends[..i], s)) && Fits(d, i) && s.qos != 0
    requires var t := d.sends[i]; FirstPacket(t) == Publish(t.id, t.pid, t.qos, t.dup, First(Unsent(d.sends[..i])), t.total)
    ensures GoneOutAs(c, d, s, i, Resume(d, i))
  {
    ResumePublishes(d, i);
    assert d.sends[i := SentFirst(d.sends[i])] == c.sends[..i] + [SentFirst(s)];
  }

  /** A QoS 0 publish at the end of the list: nobody is set free. */
  lemma LastGoesAndLeaves(d: Client, i: nat)
    requires i == |d.sends| - 1 && d.sends[i].paused && d.sends[i].issued && d.sends[i].qos == 0 && Fits(d, i)
    requires var t := d.sends[i]; FirstPacket(t) == Publish(t.id, t.pid, t.qos, t.dup, First(Unsent(d.sends[..i])), t.total)
    ensures var t, r := d.sends[i], Resume(d, i);
      && r.sends == Without(d.sends, i) && r.log == After(After(d.log, FirstPacket(t)), Callback(t.id, 0, Complete))
      && r.session == d.session && r.locked == d.locked && r.fault == d.fault
  {
    ResumeQosZero(d, i);
    var e := Emit(Erase(d, i), FirstPacket(d.sends[i]));
    assert ResumeSince(e, i) == e;
  }

  /** A call with arguments that cannot be, or with nothing prepared, does nothing; one without
      configuration drops what is prepared. */
  lemma SendRefuses(c: Client, qos: int, len: int, total: int, configured: bool)
    requires Reached(c)
    requires c.sends == [] || c.sends[|c.sends| - 1].issued || !(0 <= qos <= MAX_QOS) || total <= 0
    ensures Step(c, SendPrepared(qos, len, total, configured)) == c
  {
  }

  lemma SendDrops(c: Client, qos: int, len: int, total: int)
    requires Reached(c) && c.sends != [] && !c.sends[|c.sends| - 1].issued && 0 <= qos <= MAX_QOS && total > 0
    ensures var d := Step(c, SendPrepared(qos, len, total, false));
      && d.sends == c.sends[..|c.sends| - 1] && d.log == After(c.log, Silent(c.sends[|c.sends| - 1].id, Refused))
      && !d.locked && d.session == c.session && !d.fault
  {
    ReachedIsGood(c);
    assert EntryOk(c, c.sends[|c.sends| - 1]);
    LastCompletes(c.(locked := false));
    assert Without(c.sends, |c.sends| - 1) == c.sends[..|c.sends| - 1];
  }

  /** A publish is prepared while connected and not locked, and only then: a new entry at the
      end, with an identity nobody had. */
  lemma PrepareAdds(c: Client)
    requires Reached(c)
    ensures var d := Step(c, Prepare);
      if c.session.connected && !c.session.networkDown && !c.locked
      then d.sends == c.sends + [Fresh(c.nextId)] && d.locked && d.log == c.log && d.session == c.session && !d.fault
      else d == c
    ensures MaxId(c.log) < c.nextId && forall j | 0 <= j < |c.sends| :: c.sends[j].id < c.nextId && (c.sends[j].issued || c.locked)
  {
    ReachedIsGood(c);
    forall j | 0 <= j < |c.sends| ensures c.sends[j].id < c.nextId && (c.sends[j].issued || c.locked) { assert EntryOk(c, c.sends[j]); }
  }

  // ------------------------------------------------------------------ cancelling

  /** A cancelled publish leaves without a callback, after those it sets free. */
  lemma CancelRemoves(c: Client, i: nat)
    requires Reached(c) && i < |c.sends|
    ensures var s, d := c.sends[i], Step(c, Cancel(c.sends[i].id));
      && d.sends == Departure(c, i).0 && s.id !in LiveIds(d.sends)
      && Events(d.log) == Events(c.log) + Departure(c, i).1 + [Silent(s.id, Cancelled)]
      && d.session == c.session && !d.fault && (d.locked <==> c.locked && s.issued)
  {
    ReachedIsGood(c);
    IndexIs(c, i);
    if c.sends[i].issued { IssuedIsCancelled(c, i); } else { PreparedIsCancelled(c, i); }
  }

  lemma IssuedIsCancelled(c: Client, i: nat)
    requires Good(c) && i < |c.sends|
    ensures var r := OpComplete(c, i);
      && r.sends == Departure(c, i).0 && c.sends[i].id !in LiveIds(r.sends)
      && Events(r.log) == Events(c.log) + Departure(c, i).1
      && r.session == c.session && r.fault == c.fault && r.locked == c.locked
  {
    OpCompleteIsFlat(c, i);
    CalmErased(c, i);
    OpCompleteKeeps(c, i, {});
  }

  lemma PreparedIsCancelled(c: Client, i: nat)
    requires Good(c) && i < |c.sends| && !c.sends[i].issued
    ensures var r := OpComplete(c.(locked := false), i);
      && r.sends == Departure(c, i).0 && c.sends[i].id !in LiveIds(r.sends)
      && Events(r.log) == Events(c.log) + Departure(c, i).1
      && r.session == c.session && r.fault == c.fault && !r.locked
  {
    PreparedIsLast(c, i);
    LastDeparts(c);
    LastCompletes(c.(locked := false));
    LiveIdsErased(c.ordering, c.sends, i);
  }

  lemma LastDeparts(c: Client)
    requires c.sends != []
    ensures Departure(c, |c.sends| - 1) == (Without(c.sends, |c.sends| - 1), [])
  {
    var i := |c.sends| - 1;
    assert c.sends[i + 1..] == [] && Without(c.sends, i) == c.sends[..i];
  }

  lemma CancelOfNobody(c: Client, id: int)
    requires Reached(c) && id !in LiveIds(c.sends)
    ensures Step(c, Cancel(id)) == c
  {
  }

  // ------------------------------------------------------------------ the session

  /** A disconnection loses no publish and sends nothing: the timers that are set are suspended. */
  lemma DisconnectSuspends(c: Client, x: Input)
    requires Reached(c) && (x.Disconnect? || (x.NetworkDisconnected? && !c.session.disconnecting))
    ensures var d := Step(c, x);
      && d.sends == Suspended(c.sends) && d.log == After(c.log, Mark(Lost(x.Disconnect? && x.report, TimedIds(c.sends))))
      && d.session == Session(false, true, c.session.networkDown || x.NetworkDisconnected?, false, false)
      && d.locked == c.locked && d.ops == c.ops && d.ids == c.ids && !d.fault
  {
  }

  /** What happens to the connection alone leaves publishes, books and history as they are. */
  lemma LinkLeavesAlone(c: Client, x: Input)
    requires Reached(c)
    requires x.Connect? || x.ConnectEnds? || (x.NetworkDisconnected? && c.session.disconnecting)
             || (x.Connack? && (!c.session.connecting || !x.accepted))
    ensures Step(c, x) == c.(session := Step(c, x).session)
    ensures Step(c, x).session.connected ==> c.session.connected
    ensures x.Connect? ==> !Step(c, x).session.networkDown && Step(c, x).session.initialized
    ensures x.Connect? && c.session.disconnecting ==> !Step(c, x).session.disconnecting && (Step(c, x).session.connecting <==> !c.locked)
    ensures x.ConnectEnds? ==> !Step(c, x).session.connecting
    ensures x.NetworkDisconnected? ==> Step(c, x).session.networkDown
  {
    ReachedIsGood(c);
  }

  /** A reconnection that finds the session: one packet of every publish on its way, in list
      order, and then whoever is not kept back goes out. */
  lemma SessionFoundResumes(c: Client)
    requires Reached(c) && c.session.connecting
    ensures var again := AllRepeated(c.sends, 0);
      var from := TrailingPaused(again, |again|);
      var f := Flat(c.maxOut, again[..from], again[from..]);
      var d := Step(c, Connack(true, true));
      && d.sends == f.0 && Events(d.log) == Events(c.log) + [Mark(Resumed)] + ReconnectPackets(c.sends) + f.1
      && d.session.connected && !d.session.connecting && !d.fault
  {
    ReachedIsGood(c);
    FoundResumes(c);
    FoundIs(c);
  }

  lemma FoundIs(c: Client)
    requires !c.fault && c.session.connecting
    ensures Step(c, Connack(true, true)) == BrokerConnected(c, true)
  {
  }

  lemma FoundResumes(c: Client)
    requires Good(c) && !c.fault && c.session.connecting
    ensures var again := AllRepeated(c.sends, 0);
      var from := TrailingPaused(again, |again|);
      var f := Flat(c.maxOut, again[..from], again[from..]);
      var d := BrokerConnected(c, true);
      && d.sends == f.0 && Events(d.log) == Events(c.log) + [Mark(Resumed)] + ReconnectPackets(c.sends) + f.1
      && d.session.connected && !d.session.connecting && !d.fault
  {
    AllResentKeeps(c);
    var d := AllResent(c);
    ConnectedKeeps(c, true);
    AllResentTerms(c, d);
    ResumedFlat(d, TrailingPaused(d.sends, |d.sends|));
  }

  lemma ResumedFlat(d: Client, from: nat)
    requires Good(d) && !d.session.disconnecting && from <= |d.sends|
    ensures var r, f := ResumeSince(d, from), Flat(d.maxOut, d.sends[..from], d.sends[from..]);
      r.sends == f.0 && Events(r.log) == Events(d.log) + f.1 && r.session == d.session && r.fault == d.fault
  {
    ResumeSinceKeeps(d, from, {});
    ResumeSinceIsFlat(d, from, {});
  }

  lemma AllResentTerms(c: Client, d: Client)
    requires Good(c) && c.session.connecting && d == AllResent(c)
    ensures d.maxOut == c.maxOut && d.session == c.session.(connected := true, connecting := false) && d.ordering == c.ordering
  {
    ConnectedKeeps(c, true);
    AllRepeatable(Found(c));
    ResendLoopIs(Found(c), 0);
  }

  // ------------------------------------------------------------------ the session is gone

  lemma {:induction false} WalkExtends(c: Client, k: nat)
    ensures Extends(TerminateWalk(c, k).log, c.log)
    decreases |c.sends|, |c.ops.refs| - k
  {
    if k < |c.ops.refs| {
      match c.ops.refs[k]
      case OtherRef => WalkExtends(c, k + 1);
      case Null =>
      case SendRef(id) =>
        var i := IndexOf(c.sends, id);
        if i < |c.sends| {
          CompleteCarries(c, i, Aborted, 0);
          WalkExtends(CompleteWithCb(c, i, Aborted), k + 1);
          ExtendsTransitive(TerminateWalk(c, k).log, CompleteWithCb(c, i, Aborted).log, c.log);
        }
    }
  }

  /** Publish `s` has had the callback that it was aborted. */
  predicate AbortTold(h: Log, s: Send) { Contains(h, Callback(s.id, s.qos, Aborted)) }

  lemma {:induction false} WalkAborts(c: Client, k: nat, i: nat)
    requires Walking(c, k) && !c.fault && Null !in c.ops.refs[k..] && NoneFleeting(c, 1) && i < |c.sends|
    ensures AbortTold(TerminateWalk(c, k).log, c.sends[i])
    decreases |c.sends|, |c.ops.refs| - k
  {
    WalkHasMore(c, k);
    assert c.ops.refs[k] == c.ops.refs[k..][0];
    assert c.ops.refs[k + 1..] == c.ops.refs[k..][1..];
    if c.ops.refs[k].OtherRef? {
      WalkPassesOther(c, k);
      WalkAborts(c, k + 1, i);
    } else {
      WalkMeetsFirst(c, k);
      WalkStep(c, k);
      WalkTurnRemovesOne(c, k);
      WalkUnfoldsAtSend(c, k);
      AbortGoesOn(c, k, i);
    }
  }

  lemma {:induction false} AbortGoesOn(c: Client, k: nat, i: nat)
    requires Walking(c, k) && !c.fault && NoneFleeting(c, 1) && i < |c.sends| && k < |c.ops.refs|
    requires var r := CompleteWithCb(c, 0, Aborted);
      Walking(r, k + 1) && !r.fault && Null !in r.ops.refs[k + 1..] && NoneFleeting(r, 1) && |r.ops.refs| == |c.ops.refs|
    ensures AbortTold(TerminateWalk(CompleteWithCb(c, 0, Aborted), k + 1).log, c.sends[i])
    decreases |c.sends|, |c.ops.refs| - k, 0
  {
    var r := CompleteWithCb(c, 0, Aborted);
    assert EntryOk(c, c.sends[0]);
    if i == 0 {
      WalkExtends(r, k + 1);
      assert r.log.last == Callback(c.sends[0].id, c.sends[0].qos, Aborted);
      ContainsMore(TerminateWalk(r, k + 1).log, r.log, r.log.last);
    } else {
      var j := BehindStays(c, i);
      WalkAborts(r, k + 1, j);
    }
  }

  lemma BehindStays(c: Client, i: nat) returns (j: nat)
    requires Good(c) && !c.locked && 1 <= i < |c.sends| && NoneFleeting(c, 1)
    ensures var r := CompleteWithCb(c, 0, Aborted); j < |r.sends| && r.sends[j].id == c.sends[i].id && r.sends[j].qos == c.sends[i].qos
  {
    var r, e := CompleteWithCb(c, 0, Aborted), Erase(c, 0);
    assert EntryOk(c, c.sends[0]) && EntryOk(c, c.sends[i]);
    CompleteKeeps(c, 0, Aborted);
    assert e.sends[i - 1] == c.sends[i] && Lasting(e, e.sends[i - 1]);
    j :| 0 <= j < |r.sends| && r.sends[j].id == c.sends[i].id;
    assert Kin(e.sends[i - 1], r.sends[j]);
  }

  /** A reconnection without a session, when it gets through, ends every publish there was with
      the callback that it was aborted. */
  lemma SessionGoneAborts(c: Client, i: nat)
    requires Reached(c) && c.session.connecting && i < |c.sends| && !Step(c, Connack(true, false)).fault
    ensures var d := Step(c, Connack(true, false));
      && d.sends == [] && Ends(c.log, c.sends[i].id) == 0 && AbortTold(d.log, c.sends[i])
  {
    ReachedIsGood(c);
    SessionAbsentMeetsNullExactly(c);
    var c1 := c.(session := c.session.(connected := true, connecting := false));
    ConnectedKeeps(c, true);
    TidyLike(c, c1);
    assert c1.ops.refs[0..] == c1.ops.refs;
    assert Recorded(c.ordering, c.log, c.sends[i]);
    WalkAborts(c1, 0, i);
  }

  // ------------------------------------------------------------------ ticks and the rest

  lemma {:induction false} DueExactly(sends: seq<Send>, calls: seq<Call>, x: Call)
    ensures x in Collected(sends, calls) <==> x in calls && (x.PingCall? || Expiring(sends, x.id))
    decreases |calls|
  {
    if calls != [] {
      DueExactly(sends, calls[..|calls| - 1], x);
      assert calls == calls[..|calls| - 1] + [calls[|calls| - 1]];
    }
  }

  lemma TickStarts(c: Client, calls: seq<Call>)
    requires Good(c) && !c.fault
    ensures var due := Collected(c.sends, calls);
      var c1 := c.(sends := TimersCancelled(c.sends, due));
      Good(c1) && Awaiting(c1, due) && Step(c, Tick(calls)) == OnCalls(c1, due)
  {
    var due := Collected(c.sends, calls);
    TickIs(c, calls, due);
    CancelledKeeps(c, calls, c.(sends := TimersCancelled(c.sends, due)));
  }

  lemma TickIs(c: Client, calls: seq<Call>, due: seq<Call>)
    requires !c.fault && due == Collected(c.sends, calls)
    ensures Step(c, Tick(calls)) == OnCalls(c.(sends := TimersCancelled(c.sends, due)), due)
  {
  }

  lemma CancelledKeeps(c: Client, calls: seq<Call>, d: Client)
    requires Good(c) && !c.fault && d == c.(sends := TimersCancelled(c.sends, Collected(c.sends, calls)))
    ensures Good(d) && Awaiting(d, Collected(c.sends, calls))
  {
    RetimedKeeps(c, d);
    CollectedAwaits(c, calls);
  }

  /** A tick repeats or ends just the publishes whose timers run and expire in it: one more packet
      while there are attempts left, Timeout otherwise; it loses the session when the answer
      to PINGREQ is overdue, and only then. */
  lemma TickServes(c: Client, calls: seq<Call>, j: nat)
    requires Reached(c) && j < |c.sends| && c.sends[j].published
    ensures var s, d := c.sends[j], Step(c, Tick(calls));
      if SendCall(s.id) in calls && s.armed && !s.suspended then CalledServed(c, d, s) else LeftAlone(c, d, s)
    ensures var d := Step(c, Tick(calls));
      if PingCall in calls && c.session.connected then d.session.disconnecting && !d.session.connected else d.session == c.session
  {
    ReachedIsGood(c);
    TickStarts(c, calls);
    var due := Collected(c.sends, calls);
    var c1 := c.(sends := TimersCancelled(c.sends, due));
    OnCallsServe(c1, due);
    CancelledAside(c, due, j, OnCalls(c1, due));
    OnCallsSession(c1, due);
    DueSaid(c, calls, j);
  }

  /** Between `c` and `d` the application has been told that the session is lost. */
  ghost predicate LossTold(c: Client, d: Client) {
    exists h, timed :: Extends(h, c.log) && Extends(d.log, After(h, Mark(Lost(true, timed))))
  }

  /** An answer to PINGREQ that is overdue over an open session is told as a loss. */
  lemma OverdueIsTold(c: Client, calls: seq<Call>)
    requires Reached(c) && c.session.connected && PingCall in calls
    ensures LossTold(c, Step(c, Tick(calls)))
  {
    ReachedIsGood(c);
    TickStarts(c, calls);
    DueExactly(c.sends, calls, PingCall);
    var due := Collected(c.sends, calls);
    OnCallsTell(c.(sends := TimersCancelled(c.sends, due)), due);
  }

  lemma {:induction false} OnCallsTell(c: Client, due: seq<Call>)
    requires Good(c) && !c.fault && Awaiting(c, due) && c.session.connected && PingCall in due
    ensures LossTold(c, OnCalls(c, due))
    decreases |due|
  {
    var d, rest := OnCall(c, due[0]), due[1..];
    if due[0].SendCall? {
      AwaitingOn(c, due);
      SendCallHitsNobody(c, due[0].id);
      OnCallsTell(d, rest);
      OnCallExtends(c, due[0]);
      var h, timed :| Extends(h, d.log) && Extends(OnCalls(d, rest).log, After(h, Mark(Lost(true, timed))));
      ExtendsTransitive(h, d.log, c.log);
    } else {
      OnCallsExtends(d, rest);
      assert d.log == After(c.log, Mark(Lost(true, TimedIds(c.sends)))) && Extends(c.log, c.log);
    }
  }

  lemma DueSaid(c: Client, calls: seq<Call>, j: nat)
    requires ListOk(c) && j < |c.sends|
    ensures var s := c.sends[j]; SendCall(s.id) in Collected(c.sends, calls) <==> SendCall(s.id) in calls && s.armed && !s.suspended
    ensures PingCall in Collected(c.sends, calls) <==> PingCall in calls
  {
    IndexIs(c, j);
    DueExactly(c.sends, calls, SendCall(c.sends[j].id));
    DueExactly(c.sends, calls, PingCall);
  }

  lemma CancelledAside(c: Client, due: seq<Call>, j: nat, e: Client)
    requires Good(c) && j < |c.sends| && c.sends[j].published
    requires CallsServe(c.(sends := TimersCancelled(c.sends, due)), e, due)
    ensures var s := c.sends[j]; if SendCall(s.id) in due then CalledServed(c, e, s) else LeftAlone(c, e, s)
  {
    var d := c.(sends := TimersCancelled(c.sends, due));
    assert Recorded(c.ordering, c.log, c.sends[j]);
    assert Aside(c.sends[j], d.sends[j]);
    if SendCall(c.sends[j].id) in due { CalledOn(c, d, e, c.sends[j], d.sends[j]); } else { AloneOn(c, d, e, c.sends[j], d.sends[j]); }
  }

  lemma {:induction false} OnCallsSession(c: Client, due: seq<Call>)
    requires Good(c) && !c.fault && Awaiting(c, due)
    ensures var d := OnCalls(c, due);
      if PingCall in due && c.session.connected then d.session.disconnecting && !d.session.connected else d.session == c.session
    decreases |due|
  {
    if due != [] {
      AwaitingOn(c, due);
      OnCallsSession(OnCall(c, due[0]), due[1..]);
      assert due == [due[0]] + due[1..];
      if due[0].SendCall? {
        SendCallHitsNobody(c, due[0].id);
      } else {
        PingOnce(c, due);
      }
    }
  }

  /** Dropping the nulled entries of m_ops: what is kept of two parts is what is kept of each, one
      after the other. */
  lemma {:induction false} LiveRefsJoined(a: seq<Ref>, b: seq<Ref>)
    ensures LiveRefs(a + b) == LiveRefs(a) + LiveRefs(b)
  {
    if a == [] {
      assert a + b == b;
    } else {
      LiveRefsJoined(a[1..], b);
      assert (a + b)[1..] == a[1..] + b && (a + b)[0] == a[0];
    }
  }

  lemma {:induction false} LiveRefsAre(a: seq<Ref>, r: Ref)
    ensures r in LiveRefs(a) <==> r != Null && r in a
  {
    if a != [] {
      LiveRefsAre(a[1..], r);
      assert r in a <==> r == a[0] || r in a[1..] by { assert a == [a[0]] + a[1..]; }
    }
  }

  /** All other entries stay, in their order, and nothing else changes. */
  lemma CleaningKeepsTheRest(c: Client)
    requires Reached(c)
    ensures var d := Step(c, CleanOps);
      && d == c.(ops := d.ops) && d.ops.refs == LiveRefs(c.ops.refs) && !d.ops.deleted
      && forall r :: r in d.ops.refs <==> r != Null && r in c.ops.refs
  {
    ReachedIsGood(c);
    forall r ensures r in LiveRefs(c.ops.refs) <==> r != Null && r in c.ops.refs { LiveRefsAre(c.ops.refs, r); }
    if !c.ops.deleted { NothingToClean(c.ops.refs); }
  }

  lemma {:induction false} NothingToClean(refs: seq<Ref>)
    requires Null !in refs
    ensures LiveRefs(refs) == refs
  {
    if refs != [] {
      assert refs[0] in refs && forall r | r in refs[1..] :: r in refs;
      NothingToClean(refs[1..]);
      assert refs == [refs[0]] + refs[1..];
    }
  }
}
