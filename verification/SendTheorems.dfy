/** What holds of the publishes of a client in every run, whatever is called, received or
    timed out. */
module SendTheorems {
  import opened PacketIds
  import opened History
  import opened SendModel
  import opened SendInvariant
  import opened SendSteps
  import opened SendRuns
  import opened SendSession
  import opened SendBooks
  import opened SendWakeups
  import opened SendReconnect
  import opened SendForced

  /** The state a fresh client is in after these events. */
  function StateAfter(o: Ordering, maxOut: int, idLimit: nat, xs: seq<Input>): Client {
    Run(NewClient(o, maxOut, idLimit), xs)
  }

  /** Every packet, callback and departure of every run was allowed when it happened; what
      that means for the order, the number and the marks of packets is in History. */
  lemma RunsAreOrderly(o: Ordering, maxOut: int, idLimit: nat, xs: seq<Input>)
    ensures Orderly(o, StateAfter(o, maxOut, idLimit, xs).log)
  {
    RunKeeps(o, maxOut, idLimit, xs);
  }

  /** Section 4.6 of MQTT 3.1.1: of two publishes of the same QoS above 0 that both complete,
      the one issued first completes first, whatever acknowledgements arrive. */
  lemma CompletionsKeepIssueOrder(o: Ordering, maxOut: int, idLimit: nat, xs: seq<Input>, i: nat, j: nat)
    requires var es := Events(StateAfter(o, maxOut, idLimit, xs).log);
      && i < j < |es| && es[i].Callback? && es[j].Callback?
      && es[i].status == es[j].status == Complete && es[i].qos == es[j].qos > 0
    ensures var es := Events(StateAfter(o, maxOut, idLimit, xs).log); es[i].id < es[j].id
  {
    RunsAreOrderly(o, maxOut, idLimit, xs);
    CompletionsInIssueOrder(o, StateAfter(o, maxOut, idLimit, xs).log, i, j);
  }

  /** The PUBLISH packets of a publish are no more than the attempts configured for it and the
      reconnections with a session present that found it waiting for PUBACK or PUBREC. */
  lemma CopiesAreBounded(o: Ordering, maxOut: int, idLimit: nat, xs: seq<Input>, id: int)
    requires Pubs(StateAfter(o, maxOut, idLimit, xs).log, id) > 0
    ensures var h := StateAfter(o, maxOut, idLimit, xs).log; Pubs(h, id) <= Header(h, id).2 + LivedThrough(h, id)
  {
    RunsAreOrderly(o, maxOut, idLimit, xs);
    AttemptsNeverExceeded(o, StateAfter(o, maxOut, idLimit, xs).log, id);
    CopiesWithinResumptions(o, StateAfter(o, maxOut, idLimit, xs).log, id);
  }

  /** In every run no publish is overtaken on the wire: while one that is still in the list has
      had no PUBLISH, no publish issued after it has had one, be that one gone or not. */
  lemma NobodyIsOvertaken(o: Ordering, maxOut: int, idLimit: nat, xs: seq<Input>, i: nat, k: nat)
    requires var c := StateAfter(o, maxOut, idLimit, xs);
      i < |c.sends| && Pubs(c.log, c.sends[i].id) == 0 && k < |Events(c.log)| && Events(c.log)[k].Publish?
    ensures var c := StateAfter(o, maxOut, idLimit, xs); Events(c.log)[k].id < c.sends[i].id
  {
    RunKeeps(o, maxOut, idLimit, xs);
    var c := StateAfter(o, maxOut, idLimit, xs);
    assert Recorded(c.ordering, c.log, c.sends[i]);
    MaximaCover(c.log, k);
  }

  /** The same at the very moment: with the first PUBLISH of a publish goes who is still in the
      list before it and has had none, and that is nobody, even when it goes out from within the
      completion of another. */
  lemma FirstCopiesSkipNobody(o: Ordering, maxOut: int, idLimit: nat, xs: seq<Input>, k: nat)
    requires var es := Events(StateAfter(o, maxOut, idLimit, xs).log); k < |es| && FirstCopyAt(es, k)
    ensures Events(StateAfter(o, maxOut, idLimit, xs).log)[k].cause == First({})
  {
    RunsAreOrderly(o, maxOut, idLimit, xs);
    var h := StateAfter(o, maxOut, idLimit, xs).log;
    OrderlyAt(o, h, k);
  }

  /** So at the end of every step, that of the PUBLISH included, every publish issued before one
      that has gone out has had its own PUBLISH, before that one, or has left. */
  lemma EarlierHaveGoneFirst(o: Ordering, maxOut: int, idLimit: nat, xs: seq<Input>, k: nat, id: int)
    requires var c := StateAfter(o, maxOut, idLimit, xs);
      k < |Events(c.log)| && Events(c.log)[k].Publish? && 1 <= id < Events(c.log)[k].id
    ensures var c := StateAfter(o, maxOut, idLimit, xs); Pubs(c.log, id) > 0 || Ends(c.log, id) == 1
    ensures var es := Events(StateAfter(o, maxOut, idLimit, xs).log);
      FirstCopyAt(es, k) ==> forall m | k < m < |es| && FirstCopyAt(es, m) :: es[m].id != id
  {
    var c := StateAfter(o, maxOut, idLimit, xs);
    RunKeeps(o, maxOut, idLimit, xs);
    MaximaCover(c.log, k);
    MaxIdBounds(c.log, 0);
    if id in LiveIds(c.sends) {
      var i: nat :| i < |c.sends| && c.sends[i].id == id;
      if Pubs(c.log, id) == 0 { NobodyIsOvertaken(o, maxOut, idLimit, xs, i, k); }
    }
    var es := Events(c.log);
    if FirstCopyAt(es, k) {
      forall m: nat | k < m < |es| && FirstCopyAt(es, m) ensures es[m].id != id {
        FirstCopiesInIssueOrder(o, c.log, k, m);
      }
    }
  }

  /** The list is first those on the wire, then those held back, then at most the prepared
      one; those whose PUBREC was accepted come first of all and are of QoS 2. */
  lemma ShapeOfTheList(o: Ordering, maxOut: int, idLimit: nat, xs: seq<Input>) returns (a: nat, p: nat, q: nat)
    ensures var sends := StateAfter(o, maxOut, idLimit, xs).sends;
      && a <= p <= q <= |sends| <= q + 1
      && (forall i | 0 <= i < |sends| :: sends[i].published <==> i < p)
      && (forall i | 0 <= i < |sends| :: sends[i].paused <==> p <= i < q)
      && (forall i | 0 <= i < |sends| :: sends[i].issued <==> i < q)
      && (forall i | 0 <= i < |sends| :: sends[i].acked <==> i < a)
      && (forall i | 0 <= i < a :: sends[i].qos == 2)
      && (o.Full? ==> forall i, j | 0 <= i < j < p :: sends[i].qos <= sends[j].qos)
  {
    RunKeeps(o, maxOut, idLimit, xs);
    var c := StateAfter(o, maxOut, idLimit, xs);
    a, p, q := Boundaries(c);
  }

  lemma Boundaries(c: Client) returns (a: nat, p: nat, q: nat)
    requires ListOk(c)
    ensures a <= p <= q <= |c.sends| <= q + 1
    ensures forall i | 0 <= i < |c.sends| :: c.sends[i].published <==> i < p
    ensures forall i | 0 <= i < |c.sends| :: c.sends[i].paused <==> p <= i < q
    ensures forall i | 0 <= i < |c.sends| :: c.sends[i].issued <==> i < q
    ensures forall i | 0 <= i < |c.sends| :: c.sends[i].acked <==> i < a
    ensures forall i | 0 <= i < a :: c.sends[i].qos == 2
    ensures c.ordering.Full? ==> forall i, j | 0 <= i < j < p :: c.sends[i].qos <= c.sends[j].qos
  {
    assert forall i | 0 <= i < |c.sends| :: EntryOk(c, c.sends[i]);
    a, p, q := 0, 0, 0;
    while q < |c.sends| && c.sends[q].issued
      invariant a <= p <= q <= |c.sends|
      invariant forall i | 0 <= i < q :: c.sends[i].issued
      invariant forall i | 0 <= i < q :: c.sends[i].published <==> i < p
      invariant forall i | 0 <= i < q :: c.sends[i].acked <==> i < a
    {
      if p < q { LineAt(c.ordering, c.sends, q - 1, q); }
      if a < q { LineAt(c.ordering, c.sends, a, q); }
      if c.sends[q].published { p := q + 1; }
      if c.sends[q].acked { a := q + 1; }
      q := q + 1;
    }
    if q < |c.sends| - 1 { LineAt(c.ordering, c.sends, q, q + 1); }
    forall i, j | 0 <= i < j < p ensures c.ordering.Full? ==> c.sends[i].qos <= c.sends[j].qos {
      LineAt(c.ordering, c.sends, i, j);
    }
  }

  /** So looking at the one entry before answers the question about all of them. */
  lemma OnePredecessorIsEnough(o: Ordering, maxOut: int, idLimit: nat, xs: seq<Input>, i: nat)
    requires i < |StateAfter(o, maxOut, idLimit, xs).sends|
    ensures var sends := StateAfter(o, maxOut, idLimit, xs).sends;
      HasPausedSendsBefore(sends, i) <==> exists j | 0 <= j < i :: sends[j].paused
  {
    var a, p, q := ShapeOfTheList(o, maxOut, idLimit, xs);
  }

  /** Every publish that was prepared is in the list and has not ended, or is gone and has
      ended once: with its callback, by a cancellation or by a refusal. */
  lemma EveryPublishAccounted(o: Ordering, maxOut: int, idLimit: nat, xs: seq<Input>, id: int)
    requires 1 <= id < StateAfter(o, maxOut, idLimit, xs).nextId
    ensures var c := StateAfter(o, maxOut, idLimit, xs);
      Ends(c.log, id) == if exists i | 0 <= i < |c.sends| :: c.sends[i].id == id then 0 else 1
  {
    RunKeeps(o, maxOut, idLimit, xs);
    var c := StateAfter(o, maxOut, idLimit, xs);
    assert id in LiveIds(c.sends) <==> exists i | 0 <= i < |c.sends| :: c.sends[i].id == id;
  }

  /** The publishes in m_ops are those of the list, in its order, and a null entry is noted
      in m_opsDeleted. */
  lemma OpsAgreeWithTheList(o: Ordering, maxOut: int, idLimit: nat, xs: seq<Input>)
    ensures var c := StateAfter(o, maxOut, idLimit, xs);
      SendRefs(c.ops.refs) == Ids(c.sends) && (Null in c.ops.refs ==> c.ops.deleted)
  {
    RunTidy(o, maxOut, idLimit, xs);
  }

  /** A non-zero packet identifier is in use exactly when an operation holds it, and then one
      operation does; the identifiers in use are kept in ascending order. */
  lemma OneHolderPerIdentifier(o: Ordering, maxOut: int, idLimit: nat, xs: seq<Input>, pid: int)
    requires pid != 0
    ensures var c := StateAfter(o, maxOut, idLimit, xs);
      && Ascending(c.ids.pool.ids)
      && Holders(c.sends, pid) + Count(c.ids.others, pid) == if pid in c.ids.pool.ids then 1 else 0
  {
    RunTidy(o, maxOut, idLimit, xs);
  }

  // ------------------------------------------------------------------ nobody waits in vain

  lemma ConnackWakes(c: Client, accepted: bool, sessionPresent: bool)
    requires Good(c) && Tidy(c) && Awake(c) && !c.fault
    ensures Awake(DoConnack(c, accepted, sessionPresent))
  {
    if c.session.connecting && accepted {
      if sessionPresent { SessionPresentWakes(c); } else { SessionAbsentMeetsNullExactly(c); }
    }
  }

  lemma PublishStepWakes(c: Client, x: Input)
    requires Good(c) && Awake(c) && !c.fault && (x.SendPrepared? || x.Cancel? || x.Ack? || x.Tick?)
    ensures Awake(Step(c, x))
  {
    if c.session.connected {
      match x
      case SendPrepared(qos, len, total, configured) => SendCallWakes(c, qos, len, total, configured);
      case Cancel(id) => CancelWakes(c, id);
      case Ack(kind, pid) => AckWakes(c, kind, pid);
      case Tick(calls) => TickWakes(c, calls);
    }
  }

  lemma StepWakes(c: Client, x: Input)
    requires Good(c) && Tidy(c) && Awake(c)
    ensures Awake(Step(c, x))
  {
    if !c.fault {
      match x
      case Prepare => PrepareWakes(c);
      case Connack(accepted, sp) => ConnackWakes(c, accepted, sp);
      case SendPrepared(_, _, _, _) => PublishStepWakes(c, x);
      case Cancel(_) => PublishStepWakes(c, x);
      case Ack(_, _) => PublishStepWakes(c, x);
      case Tick(_) => PublishStepWakes(c, x);
      case NetworkDisconnected =>
      case Disconnect(_) =>
      case Connect =>
      case ConnectEnds =>
      case CleanOps =>
      case OtherStarts(_) =>
      case OtherEnds(_, _) =>
    }
  }

  /** In every run: while the client is connected, whoever is held back waits for an earlier
      publish of higher QoS that is still in the list. */
  lemma {:induction false} NobodyWaitsInVain(o: Ordering, maxOut: int, idLimit: nat, xs: seq<Input>)
    ensures Awake(StateAfter(o, maxOut, idLimit, xs))
    decreases |xs|
  {
    if xs != [] {
      var before := xs[..|xs| - 1];
      NobodyWaitsInVain(o, maxOut, idLimit, before);
      RunKeeps(o, maxOut, idLimit, before);
      RunTidy(o, maxOut, idLimit, before);
      StepWakes(StateAfter(o, maxOut, idLimit, before), xs[|xs| - 1]);
    }
  }
}
