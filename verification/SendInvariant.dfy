/** What every event in the life of the client keeps true of its outgoing publishes. */
module SendInvariant {
  import opened PacketIds
  import opened History
  import opened SendModel

  // ------------------------------------------------------------------ the list

  /** The flags and counters of one entry agree. */
  predicate EntryOk(c: Client, s: Send) {
    && 1 <= s.id < c.nextId
    && 0 <= s.qos <= MAX_QOS && 0 <= s.attempts
    && (!s.issued ==> !s.published && !s.paused && s.pid == 0 && s.qos == 0)
    && (!s.issued ==> c.locked && s.id == c.nextId - 1)
    && s.total >= 1
    && (s.qos == 0 ==> s.pid == 0)
    && (s.paused ==> s.issued && !s.published)
    && (s.issued && !s.paused ==> s.published)
    && (s.published ==> s.issued && !s.paused && s.qos >= 1 && 1 <= s.attempts <= s.total && s.len <= c.maxOut)
    && (s.acked ==> s.published && s.qos == 2 && PUBREL_LEN <= c.maxOut)
    && (!s.published ==> !s.armed && !s.dup && s.attempts == 0)
  }

  /** Published entries come first, then the paused ones, then the prepared one. */
  function Rank(s: Send): int { if s.published then 0 else if s.paused then 1 else 2 }

  /** What holds of an entry `s` and a later one `t`: list order is issue order, only the
      last entry can be the prepared one, acknowledged entries form a prefix and, with full
      ordering, the QoS of published entries does not decrease. */
  predicate InLine(o: Ordering, s: Send, t: Send) {
    && s.id < t.id
    && Rank(s) <= Rank(t)
    && s.issued
    && (t.acked ==> s.acked)
    && (o.Full? && t.published ==> s.qos <= t.qos)
  }

  ghost predicate Lined(o: Ordering, sends: seq<Send>) {
    forall i, j | 0 <= i < j < |sends| :: InLine(o, sends[i], sends[j])
  }

  lemma LineAt(o: Ordering, sends: seq<Send>, i: nat, j: nat)
    requires Lined(o, sends) && i < j < |sends|
    ensures InLine(o, sends[i], sends[j])
  {
  }

  lemma OtherIds(o: Ordering, sends: seq<Send>, i: nat, j: nat)
    requires Lined(o, sends) && i < |sends| && j < |sends| && i != j
    ensures sends[i].id != sends[j].id && (i < j <==> sends[i].id < sends[j].id)
  {
    if i < j { LineAt(o, sends, i, j); } else { LineAt(o, sends, j, i); }
  }

  predicate SessionOk(s: Session) {
    && (s.connected ==> !s.disconnecting)
    && (s.disconnecting ==> !s.initialized)
    && (s.connecting ==> !s.connected && !s.disconnecting && !s.networkDown)
  }

  ghost predicate ListOk(c: Client) {
    && c.nextId >= 1
    && (forall i | 0 <= i < |c.sends| :: EntryOk(c, c.sends[i]))
    && Lined(c.ordering, c.sends)
    && SessionOk(c.session)
    && (c.session.connecting ==> !c.locked)
  }

  // ------------------------------------------------------------------ the history

  /** What the history says of a live publish. */
  predicate Recorded(o: Ordering, h: Log, s: Send) {
    && (s.published <==> Pubs(h, s.id) > 0)
    && (s.acked <==> Rels(h, s.id) > 0)
    && (s.published ==> Header(h, s.id) == (s.pid, s.qos, s.total))
    && (!s.acked ==> Charged(h, s.id) == s.attempts)
    && Ends(h, s.id) == 0
    && (!s.published ==> MaxPub(h) < s.id)
    && (!s.acked ==> MaxRel(h) < s.id)
    && (s.qos >= 1 ==> MaxDone(h, s.qos) < s.id)
    && (o.Full? ==> MaxPubBelow(h, s.qos) < s.id)
    && (!s.issued ==> MaxId(h) < s.id)
    && (s.issued ==> Told(h, s))
  }

  /** It was issued just so. */
  predicate Told(h: Log, s: Send) {
    var t := TermsOf(h, s.id);
    t.IssuedAs? && t.qos == s.qos && t.len == s.len && t.budget == s.total
  }

  ghost function LiveIds(sends: seq<Send>): set<int> {
    set i | 0 <= i < |sends| :: sends[i].id
  }

  /** Every issued publish is live, or has left exactly once; those in `pending` have left
      the list while their callback is still to run. */
  ghost predicate Accounted(h: Log, live: set<int>, pending: set<int>, nextId: int) {
    && (forall id | id in pending :: 1 <= id < nextId)
    && forall id | 1 <= id < nextId ::
         Ends(h, id) + (if id in live then 1 else 0) + (if id in pending then 1 else 0) == 1
  }

  ghost predicate HistoryOk(c: Client, pending: set<int>) {
    && Orderly(c.ordering, c.log) && FitsTold(c.maxOut, c.log)
    && MaxId(c.log) < c.nextId
    && (forall i | 0 <= i < |c.sends| :: Recorded(c.ordering, c.log, c.sends[i]))
    && Accounted(c.log, LiveIds(c.sends), pending, c.nextId)
  }

  /** List and history agree; carried as one fact. */
  ghost predicate Inv(c: Client, pending: set<int>) {
    var inv := ListOk(c) && HistoryOk(c, pending);
    inv
  }

  // ------------------------------------------------------------------ one event more

  /** Event `e` of another publish leaves the record of `s` true. */
  predicate Harmless(o: Ordering, e: Event, s: Send) {
    !e.Mark? ==>
      && e.id != s.id
      && (e.Publish? && !s.published ==> e.id < s.id)
      && (o.Full? && e.Publish? && e.qos < s.qos ==> e.id < s.id)
      && (e.Pubrel? && !s.acked ==> e.id < s.id)
      && (e.Callback? && e.status.Complete? && e.qos == s.qos && s.qos >= 1 ==> e.id < s.id)
      && (!s.issued ==> e.id < s.id)
  }

  /** Entry `i` changes to `s` and event `e` is recorded. */
  lemma HistoryTold(c: Client, pending: set<int>, i: nat, s: Send, e: Event)
    requires HistoryOk(c, pending) && i < |c.sends| && s.id == c.sends[i].id
    requires MayFollow(c.ordering, c.log, e) && !e.Callback? && !e.Silent? && FitsTold(c.maxOut, After(c.log, e))
    requires e.Mark? || e.id < c.nextId
    requires Recorded(c.ordering, After(c.log, e), s)
    requires forall j | 0 <= j < |c.sends| && j != i :: Harmless(c.ordering, e, c.sends[j])
    ensures HistoryOk(Emit(With(c, i, s), e), pending)
  {
    var d := Emit(With(c, i, s), e);
    forall j | 0 <= j < |d.sends| ensures Recorded(d.ordering, d.log, d.sends[j]) {
    }
    LiveIdsUpdated(c.sends, i, s);
    assert forall id :: Ends(d.log, id) == Ends(c.log, id);
  }

  lemma LiveIdsUpdated(sends: seq<Send>, i: nat, s: Send)
    requires i < |sends| && s.id == sends[i].id
    ensures LiveIds(sends[i := s]) == LiveIds(sends)
  {
    assert forall j | 0 <= j < |sends| :: sends[i := s][j].id == sends[j].id;
  }

  lemma LiveIdsErased(o: Ordering, sends: seq<Send>, i: nat)
    requires i < |sends| && Lined(o, sends)
    ensures LiveIds(Without(sends, i)) == LiveIds(sends) - {sends[i].id}
  {
    var r := Without(sends, i);
    forall k | 0 <= k < |r| ensures r[k].id in LiveIds(sends) && r[k].id != sends[i].id {
      var j := if k < i then k else k + 1;
      assert r[k] == sends[j];
      assert if j < i then InLine(o, sends[j], sends[i]) else InLine(o, sends[i], sends[j]);
    }
    forall j | 0 <= j < |sends| && j != i ensures sends[j].id in LiveIds(r) {
      assert r[if j < i then j else j - 1] == sends[j];
    }
  }

  /** The entry with the flags only of its timer, or of anything the history does not see, changed. */
  predicate SameRecord(s: Send, t: Send) {
    && s.id == t.id && s.qos == t.qos && s.pid == t.pid && s.total == t.total && s.attempts == t.attempts
    && s.len == t.len
    && s.issued == t.issued && s.published == t.published && s.acked == t.acked
  }

  lemma HistoryUnchanged(c: Client, d: Client, pending: set<int>)
    requires HistoryOk(c, pending)
    requires d.ordering == c.ordering && d.log == c.log && d.nextId == c.nextId && |d.sends| == |c.sends|
    requires d.maxOut == c.maxOut
    requires forall j | 0 <= j < |c.sends| :: SameRecord(c.sends[j], d.sends[j])
    ensures HistoryOk(d, pending)
  {
    assert LiveIds(d.sends) == LiveIds(c.sends);
    forall j | 0 <= j < |d.sends| ensures Recorded(d.ordering, d.log, d.sends[j]) {
      assert SameRecord(c.sends[j], d.sends[j]);
    }
  }

  // ------------------------------------------------------------------ an entry leaves

  lemma ListErased(c: Client, i: nat)
    requires ListOk(c) && i < |c.sends|
    ensures ListOk(Erase(c, i))
  {
    var d := Erase(c, i);
    forall k | 0 <= k < |d.sends| ensures EntryOk(d, d.sends[k]) {
      assert d.sends[k] == c.sends[if k < i then k else k + 1];
    }
  }

  lemma HistoryErased(c: Client, i: nat, pending: set<int>)
    requires Inv(c, pending) && i < |c.sends|
    ensures HistoryOk(Erase(c, i), pending + {c.sends[i].id})
    ensures c.sends[i].id !in pending && c.sends[i].id !in LiveIds(Erase(c, i).sends)
  {
    var d := Erase(c, i);
    assert forall k | 0 <= k < |d.sends| :: d.sends[k] == c.sends[if k < i then k else k + 1];
    LiveIdsErased(c.ordering, c.sends, i);
    var id := c.sends[i].id;
    assert id in LiveIds(c.sends);
    assert Ends(c.log, id) == 0;
  }

  lemma Erased(c: Client, i: nat, pending: set<int>)
    requires Inv(c, pending) && i < |c.sends|
    ensures Inv(Erase(c, i), pending + {c.sends[i].id})
  {
    ListErased(c, i);
    HistoryErased(c, i, pending);
  }

  /** The callback or the silent departure of a publish that has left the list. */
  lemma Settled(c: Client, id: int, e: Event, pending: set<int>)
    requires Inv(c, pending + {id}) && id !in pending
    requires (e.Callback? || e.Silent?) && e.id == id && MayFollow(c.ordering, c.log, e)
    requires e.Callback? && e.status.Complete? && e.qos >= 1 ==>
               forall j | 0 <= j < |c.sends| && c.sends[j].qos == e.qos :: id < c.sends[j].id
    ensures Inv(Emit(c, e), pending)
  {
    var d := Emit(c, e);
    assert id in pending + {id};
    assert id !in LiveIds(c.sends);
    forall j | 0 <= j < |d.sends| ensures Recorded(d.ordering, d.log, d.sends[j]) {
      assert c.sends[j].id in LiveIds(c.sends);
    }
    forall x | 1 <= x < d.nextId
      ensures Ends(d.log, x) + (if x in LiveIds(d.sends) then 1 else 0) + (if x in pending then 1 else 0) == 1
    {
      assert Ends(c.log, x) + (if x in LiveIds(c.sends) then 1 else 0) + (if x in pending + {id} then 1 else 0) == 1;
    }
  }
}
