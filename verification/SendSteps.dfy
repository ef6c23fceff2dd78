/** Each piece of the publish engine keeps the invariant. */
module SendSteps {
  import opened PacketIds
  import opened History
  import opened SendModel
  import opened SendInvariant

  // ------------------------------------------------------------------ packets on the wire

  /** A PUBLISH of entry `i` is in turn: it had one before, or it is the first that had none
      and nothing holds it back. */
  ghost predicate InTurn(c: Client, i: nat)
    requires i < |c.sends|
  {
    c.sends[i].published ||
    (c.sends[i].issued && (forall j | 0 <= j < i :: c.sends[j].published) &&
     (c.ordering.Full? ==> !HasHigherQosSendsBefore(c.sends, i)))
  }

  /** The list stays well formed when entry `i` becomes `s`, if `s` fits its neighbours. */
  lemma ListUpdated(c: Client, i: nat, s: Send)
    requires ListOk(c) && i < |c.sends| && EntryOk(c, s)
    requires forall j | 0 <= j < i :: InLine(c.ordering, c.sends[j], s)
    requires forall j | i < j < |c.sends| :: InLine(c.ordering, s, c.sends[j])
    ensures ListOk(With(c, i, s))
  {
    var d := With(c, i, s);
    forall j | 0 <= j < |d.sends| ensures EntryOk(d, d.sends[j]) {
      assert j != i ==> EntryOk(c, c.sends[j]);
    }
    forall j, k | 0 <= j < k < |d.sends| ensures InLine(d.ordering, d.sends[j], d.sends[k]) {
      assert InLine(c.ordering, c.sends[j], c.sends[k]);
    }
  }

  /** The line only depends on these. */
  predicate SamePlace(s: Send, t: Send) {
    s.id == t.id && s.pid == t.pid && s.qos == t.qos && s.issued == t.issued && s.published == t.published
    && s.paused == t.paused && s.acked == t.acked
  }

  /** First PUBLISH of a paused publish above QoS 0. */
  lemma FirstPublishKeeps(c: Client, i: nat, pending: set<int>)
    requires Inv(c, pending) && i < |c.sends| && c.sends[i].paused && InTurn(c, i)
    requires Fits(c, i) && c.sends[i].qos > 0
    ensures var s := c.sends[i].(paused := false, published := true, attempts := 1, armed := true);
      Inv(Emit(With(c, i, s), Publish(s.id, s.pid, s.qos, s.dup, First(Unsent(c.sends[..i])), s.total)), pending)
  {
    var s := c.sends[i].(paused := false, published := true, attempts := 1, armed := true);
    var e := Publish(s.id, s.pid, s.qos, s.dup, First(Unsent(c.sends[..i])), s.total);
    assert Recorded(c.ordering, c.log, c.sends[i]);
    FitsAsTold(c.maxOut, c.log, s.id);
    HistoryTold(c, pending, i, s, e);
    assert EntryOk(c, c.sends[i]);
    forall j | 0 <= j < i ensures InLine(c.ordering, c.sends[j], s) {
      assert InLine(c.ordering, c.sends[j], c.sends[i]);
    }
    forall j | i < j < |c.sends| ensures InLine(c.ordering, s, c.sends[j]) {
      assert InLine(c.ordering, c.sends[i], c.sends[j]);
      assert EntryOk(c, c.sends[j]);
    }
    ListUpdated(c, i, s);
  }

  /** How many attempts entry `s` has used after one more PUBLISH. */
  predicate CountsAs(s: Send, cause: Cause, n: int) {
    match cause
    case First(_) => false
    case Resend => n == s.attempts + 1 && n <= s.total
    case Reconnect => n == s.attempts
  }

  /** A further PUBLISH: one more attempt, or the one a reconnection gives back. */
  lemma RepeatPublishKeeps(c: Client, i: nat, cause: Cause, n: int, pending: set<int>)
    requires Inv(c, pending) && i < |c.sends| && c.sends[i].published && !c.sends[i].acked
    requires CountsAs(c.sends[i], cause, n) && (cause.Reconnect? ==> Due(c.log, c.sends[i].id))
    ensures var s := c.sends[i].(dup := true, attempts := n, armed := true);
      Inv(Emit(With(c, i, s), Publish(s.id, s.pid, s.qos, true, cause, s.total)), pending)
  {
    var s := c.sends[i].(dup := true, attempts := n, armed := true);
    var e := Publish(s.id, s.pid, s.qos, true, cause, s.total);
    assert EntryOk(c, c.sends[i]);
    RepeatAllowed(c, i, cause, n, pending);
    HistoryTold(c, pending, i, s, e);
  }

  lemma RepeatAllowed(c: Client, i: nat, cause: Cause, n: int, pending: set<int>)
    requires Inv(c, pending) && i < |c.sends| && c.sends[i].published && !c.sends[i].acked
    requires CountsAs(c.sends[i], cause, n) && (cause.Reconnect? ==> Due(c.log, c.sends[i].id))
    ensures var s := c.sends[i];
      var e := Publish(s.id, s.pid, s.qos, true, cause, s.total);
      && MayFollow(c.ordering, c.log, e) && EntryOk(c, s.(dup := true, attempts := n, armed := true))
      && Recorded(c.ordering, After(c.log, e), s.(dup := true, attempts := n, armed := true))
  {
    var s := c.sends[i];
    assert EntryOk(c, s) && Recorded(c.ordering, c.log, s);
    FitsAsTold(c.maxOut, c.log, s.id);
  }

  /** The first or a further PUBREL. */
  lemma PubrelKeeps(c: Client, i: nat, n: int, pending: set<int>)
    requires Inv(c, pending) && i < |c.sends| && c.sends[i].published && c.sends[i].qos == 2
    requires PUBREL_LEN <= c.maxOut && 1 <= n <= c.sends[i].total
    requires c.sends[i].acked || forall j | 0 <= j < i :: c.sends[j].acked
    ensures var s := c.sends[i].(acked := true, attempts := n, armed := true);
      Inv(Emit(With(c, i, s), Pubrel(s.id, s.pid)), pending)
  {
    var s := c.sends[i].(acked := true, attempts := n, armed := true);
    var e := Pubrel(s.id, s.pid);
    assert Recorded(c.ordering, c.log, c.sends[i]);
    HistoryTold(c, pending, i, s, e);
    assert EntryOk(c, c.sends[i]);
    forall j | 0 <= j < i ensures InLine(c.ordering, c.sends[j], s) {
      assert InLine(c.ordering, c.sends[j], c.sends[i]);
    }
    forall j | i < j < |c.sends| ensures InLine(c.ordering, s, c.sends[j]) {
      assert InLine(c.ordering, c.sends[i], c.sends[j]);
    }
    ListUpdated(c, i, s);
  }

  /** The PUBLISH of a publish that has just left the list. */
  lemma ToldOfAbsent(c: Client, e: Event, pending: set<int>)
    requires Inv(c, pending) && e.Publish? && e.id < c.nextId && MayFollow(c.ordering, c.log, e)
    requires forall j | 0 <= j < |c.sends| :: Harmless(c.ordering, e, c.sends[j])
    ensures Inv(Emit(c, e), pending)
  {
    var d := Emit(c, e);
    forall j | 0 <= j < |d.sends| ensures Recorded(d.ordering, d.log, d.sends[j]) {
    }
    assert forall id :: Ends(d.log, id) == Ends(c.log, id);
    assert forall j | 0 <= j < |d.sends| :: EntryOk(c, c.sends[j]) ==> EntryOk(d, d.sends[j]);
  }

  /** A QoS 0 publish goes out and is erased. */
  lemma PublishAndEraseKeeps(c: Client, i: nat, pending: set<int>)
    requires Inv(c, pending) && i < |c.sends| && c.sends[i].paused && InTurn(c, i) && Fits(c, i)
    ensures var s := c.sends[i];
      Inv(Emit(Erase(c, i), Publish(s.id, s.pid, s.qos, s.dup, First(Unsent(c.sends[..i])), s.total)), pending + {s.id})
  {
    var s := c.sends[i];
    var e := Publish(s.id, s.pid, s.qos, s.dup, First(Unsent(c.sends[..i])), s.total);
    assert EntryOk(c, s) && Recorded(c.ordering, c.log, s);
    FitsAsTold(c.maxOut, c.log, s.id);
    Erased(c, i, pending);
    var d := Erase(c, i);
    forall j | 0 <= j < |d.sends| ensures Harmless(d.ordering, e, d.sends[j]) {
      assert d.sends[j] == c.sends[if j < i then j else j + 1];
    }
    ToldOfAbsent(d, e, pending + {s.id});
  }

  // ------------------------------------------------------------------ resume and complete

  /** With same-QoS ordering nothing is ever paused. */
  ghost predicate Calm(c: Client) {
    c.ordering.SameQos? ==> forall i | 0 <= i < |c.sends| :: !c.sends[i].paused
  }

  /** It has had its first PUBLISH and nothing else since. */
  predicate FreshlySent(s: Send, t: Send) {
    t.published && t.armed && t.attempts == 1 && t.total == s.total
  }

  predicate Kin(s: Send, t: Send) {
    s.id == t.id ==>
      && s.qos == t.qos && s.len == t.len && s.suspended == t.suspended
      && (s.published ==> t == s) && (t == s || FreshlySent(s, t))
  }

  /** A resumed publish like this stays in the list until it is acknowledged. */
  predicate Lasting(c: Client, s: Send) {
    s.qos > 0 && s.len <= c.maxOut
  }

  /** Held back, it does not stay once it is resumed. */
  predicate Fleeting(maxOut: int, s: Send) {
    s.paused && (s.qos <= 0 || maxOut < s.len)
  }

  /** The publishes that have had no PUBLISH yet. */
  ghost function WaitingIds(sends: seq<Send>): set<int> {
    set i | 0 <= i < |sends| && !sends[i].published :: sends[i].id
  }

  /** `d` comes from `c` by resuming paused publishes: some may have gone out, of those some
      may have left; published ones and those already gone are as they were. */
  ghost predicate Follows(c: Client, d: Client) {
    && d.ordering == c.ordering && d.maxOut == c.maxOut && d.session == c.session
    && d.locked == c.locked && d.nextId == c.nextId && d.fault == c.fault
    && LiveIds(d.sends) <= LiveIds(c.sends)
    && (forall i | 0 <= i < |c.sends| && Lasting(c, c.sends[i]) :: c.sends[i].id in LiveIds(d.sends))
    && (forall i, j | 0 <= i < |c.sends| && 0 <= j < |d.sends| :: Kin(c.sends[i], d.sends[j]))
    && (forall q | q >= 1 :: MaxDone(d.log, q) == MaxDone(c.log, q))
    && (forall id :: Hit(d.log, id) == Hit(c.log, id)) && Repeats(d.log) == Repeats(c.log)
    && forall id | id !in WaitingIds(c.sends) :: SameMarks(c.log, d.log, id)
  }

  predicate SameMarks(h: Log, g: Log, id: int) {
    && Pubs(g, id) == Pubs(h, id) && Rels(g, id) == Rels(h, id) && Header(g, id) == Header(h, id)
    && Charged(g, id) == Charged(h, id) && TermsOf(g, id) == TermsOf(h, id)
  }

  lemma FollowsItself(c: Client)
    requires ListOk(c)
    ensures Follows(c, c)
  {
    forall i, j | 0 <= i < |c.sends| && 0 <= j < |c.sends| ensures Kin(c.sends[i], c.sends[j]) {
      if i < j {
        assert InLine(c.ordering, c.sends[i], c.sends[j]);
      } else if j < i {
        assert InLine(c.ordering, c.sends[j], c.sends[i]);
      }
    }
  }

  lemma FollowsOn(c: Client, d: Client, e: Client)
    requires Follows(c, d) && Follows(d, e)
    ensures Follows(c, e)
  {
    forall i, k | 0 <= i < |c.sends| && 0 <= k < |e.sends| ensures Kin(c.sends[i], e.sends[k]) {
      assert e.sends[k].id in LiveIds(e.sends);
      var j :| 0 <= j < |d.sends| && d.sends[j].id == e.sends[k].id;
      assert Kin(c.sends[i], d.sends[j]) && Kin(d.sends[j], e.sends[k]);
    }
    WaitingShrinks(c, d);
    forall id | id !in WaitingIds(c.sends) ensures SameMarks(c.log, e.log, id) {
      assert SameMarks(c.log, d.log, id) && SameMarks(d.log, e.log, id);
    }
  }

  lemma WaitingShrinks(c: Client, d: Client)
    requires Follows(c, d)
    ensures WaitingIds(d.sends) <= WaitingIds(c.sends)
  {
    forall j | 0 <= j < |d.sends| && !d.sends[j].published ensures d.sends[j].id in WaitingIds(c.sends) {
      assert d.sends[j].id in LiveIds(d.sends);
      var i :| 0 <= i < |c.sends| && c.sends[i].id == d.sends[j].id;
      assert Kin(c.sends[i], d.sends[j]);
    }
  }

  lemma FollowsErased(c: Client, i: nat)
    requires ListOk(c) && i < |c.sends| && !Lasting(c, c.sends[i])
    ensures Follows(c, Erase(c, i))
  {
    FollowsItself(c);
    LiveIdsErased(c.ordering, c.sends, i);
    var d := Erase(c, i);
    forall j, k | 0 <= j < |c.sends| && 0 <= k < |d.sends| ensures Kin(c.sends[j], d.sends[k]) {
      assert Kin(c.sends[j], c.sends[if k < i then k else k + 1]);
    }
  }

  /** An event about a live publish, or one that leaves no mark the chain looks at. */
  lemma FollowsTold(c: Client, d: Client, e: Event)
    requires Follows(c, d)
    requires e.Callback? || e.Silent? || (e.Publish? && e.id in WaitingIds(c.sends))
    requires (e.Callback? ==> !e.status.Complete? || e.qos < 1) && (e.Publish? ==> !e.dup)
    ensures Follows(c, Emit(d, e))
  {
    var f := Emit(d, e);
    forall id | id !in WaitingIds(c.sends) ensures SameMarks(c.log, f.log, id) {
      assert SameMarks(c.log, d.log, id);
    }
  }

  lemma FollowsUpdated(c: Client, i: nat, s: Send)
    requires ListOk(c) && i < |c.sends| && !c.sends[i].published
    requires s.id == c.sends[i].id && s.qos == c.sends[i].qos && s.len == c.sends[i].len && FreshlySent(c.sends[i], s)
    requires s.suspended == c.sends[i].suspended
    ensures Follows(c, With(c, i, s))
  {
    FollowsItself(c);
    LiveIdsUpdated(c.sends, i, s);
    var d := With(c, i, s);
    forall j, k | 0 <= j < |c.sends| && 0 <= k < |d.sends| ensures Kin(c.sends[j], d.sends[k]) {
      assert Kin(c.sends[j], c.sends[k]);
      if k == i && j != i {
        assert if j < i then InLine(c.ordering, c.sends[j], c.sends[i]) else InLine(c.ordering, c.sends[i], c.sends[j]);
      }
    }
  }

  /** What is written into an entry before it is erased does not matter. */
  lemma ErasedAnyway(c: Client, i: nat, s: Send)
    requires i < |c.sends| && s.id == c.sends[i].id && s.pid == c.sends[i].pid
    ensures Erase(With(c, i, s), i) == Erase(c, i)
    ensures forall e :: Erase(Emit(With(c, i, s), e), i) == Emit(Erase(c, i), e)
  {
    assert Without(c.sends[i := s], i) == Without(c.sends, i);
  }

  lemma ResumeRefused(c: Client, i: nat)
    requires i < |c.sends| && c.sends[i].paused && !Fits(c, i)
    ensures Resume(c, i) == CompleteWithCb(c, i, OutOfMemory)
  {
    var t := c.sends[i].(paused := false);
    ErasedAnyway(c, i, t);
    assert OpComplete(With(c, i, t), i) == OpComplete(c, i);
  }

  lemma ResumeQosZero(c: Client, i: nat)
    requires i < |c.sends| && c.sends[i].paused && Fits(c, i) && c.sends[i].qos == 0 && c.sends[i].issued
    ensures var s := c.sends[i];
      var d := Emit(Erase(c, i), Publish(s.id, s.pid, 0, s.dup, First(Unsent(c.sends[..i])), s.total));
      Resume(c, i) == Emit(if c.session.disconnecting then d else ResumeSince(d, i), Callback(s.id, 0, Complete))
  {
    var s := c.sends[i];
    var t := s.(paused := false, published := true, attempts := 1);
    var e := Publish(s.id, s.pid, 0, s.dup, First(Unsent(c.sends[..i])), s.total);
    ErasedAnyway(c, i, t);
    var c1 := With(c, i, s.(paused := false));
    assert With(c1, i, t) == With(c, i, t);
    assert DoSend(c1, i) == CompleteWithCb(Emit(With(c, i, t), e), i, Complete);
  }

  lemma ResumePublishes(c: Client, i: nat)
    requires i < |c.sends| && c.sends[i].paused && Fits(c, i) && c.sends[i].qos != 0
    ensures var s := c.sends[i].(paused := false, published := true, attempts := 1, armed := true);
      Resume(c, i) == Emit(With(c, i, s), Publish(s.id, s.pid, s.qos, s.dup, First(Unsent(c.sends[..i])), s.total))
  {
    var c1 := With(c, i, c.sends[i].(paused := false));
    assert DoSend(c1, i) == Resume(c, i);
  }

  lemma CanSendInTurn(c: Client, i: nat)
    requires ListOk(c) && Calm(c) && i < |c.sends| && c.sends[i].paused && CanSend(c, i)
    ensures InTurn(c, i)
  {
    assert EntryOk(c, c.sends[i]);
    if i > 0 {
      assert InLine(c.ordering, c.sends[i - 1], c.sends[i]);
      forall j | 0 <= j < i ensures c.sends[j].published {
        if j < i - 1 { assert InLine(c.ordering, c.sends[j], c.sends[i - 1]); }
      }
    }
  }

  lemma CalmErased(c: Client, i: nat)
    requires i < |c.sends| && Calm(c)
    ensures Calm(Erase(c, i))
  {
    var d := Erase(c, i);
    assert forall k | 0 <= k < |d.sends| :: d.sends[k] == c.sends[if k < i then k else k + 1];
  }

  lemma {:induction false} ResumeSinceKeeps(c: Client, i: nat, pending: set<int>)
    requires Inv(c, pending) && Calm(c)
    ensures var r := ResumeSince(c, i); Inv(r, pending) && Follows(c, r) && Calm(r)
    decreases PausedCount(c.sends) + |c.sends|, 3, |c.sends| - i
  {
    if i >= |c.sends| {
      FollowsItself(c);
    } else if !c.sends[i].paused {
      ResumeSinceKeeps(c, i + 1, pending);
    } else if !CanSend(c, i) {
      FollowsItself(c);
    } else {
      CanSendInTurn(c, i);
      CalmErased(c, i);
      ResumeKeeps(c, i, pending);
      var d := Resume(c, i);
      ResumeSinceKeeps(d, i, pending);
      FollowsOn(c, d, ResumeSince(d, i));
    }
  }

  lemma {:induction false} ResumeKeeps(c: Client, i: nat, pending: set<int>)
    requires Inv(c, pending) && i < |c.sends| && c.sends[i].paused && InTurn(c, i) && Calm(Erase(c, i))
    ensures var r := Resume(c, i); Inv(r, pending) && Follows(c, r) && Calm(r)
    decreases PausedCount(c.sends) + |c.sends|, 2, 0
  {
    var s := c.sends[i];
    assert EntryOk(c, s) && Recorded(c.ordering, c.log, s);
    if !Fits(c, i) {
      RefusedKeeps(c, i, pending);
    } else if s.qos == 0 {
      QosZeroKeeps(c, i, pending);
    } else {
      FirstPublishKeeps(c, i, pending);
      var t := s.(paused := false, published := true, attempts := 1, armed := true);
      FollowsUpdated(c, i, t);
      assert s.id in WaitingIds(c.sends);
      FollowsTold(c, With(c, i, t), Publish(s.id, s.pid, s.qos, s.dup, First(Unsent(c.sends[..i])), s.total));
      ResumePublishes(c, i);
      CalmRest(c, i, t);
    }
  }

  lemma CalmRest(c: Client, i: nat, t: Send)
    requires i < |c.sends| && Calm(Erase(c, i)) && !t.paused
    ensures Calm(With(c, i, t))
  {
    forall j | 0 <= j < |c.sends| && j != i ensures c.ordering.SameQos? ==> !c.sends[j].paused {
      assert Erase(c, i).sends[if j < i then j else j - 1] == c.sends[j];
    }
  }

  /** A resumed publish too long for the output buffer completes with an error. */
  lemma {:induction false} RefusedKeeps(c: Client, i: nat, pending: set<int>)
    requires Inv(c, pending) && i < |c.sends| && c.sends[i].paused && Calm(Erase(c, i)) && !Fits(c, i)
    ensures var r := Resume(c, i); Inv(r, pending) && Follows(c, r) && Calm(r)
    decreases PausedCount(c.sends) + |c.sends|, 1, 1
  {
    var s := c.sends[i];
    assert EntryOk(c, s);
    CompleteWithCbKeeps(c, i, OutOfMemory, pending);
    ResumeRefused(c, i);
    FollowsErased(c, i);
    FollowsOn(c, Erase(c, i), CompleteWithCb(c, i, OutOfMemory));
  }

  /** A resumed QoS 0 publish goes out, leaves, lets others go and then has its callback. */
  lemma {:induction false} QosZeroKeeps(c: Client, i: nat, pending: set<int>)
    requires Inv(c, pending) && i < |c.sends| && c.sends[i].paused && InTurn(c, i) && Calm(Erase(c, i))
    requires Fits(c, i) && c.sends[i].qos == 0
    ensures var r := Resume(c, i); Inv(r, pending) && Follows(c, r) && Calm(r)
    decreases PausedCount(c.sends) + |c.sends|, 1, 1
  {
    var s := c.sends[i];
    var e := Publish(s.id, s.pid, 0, s.dup, First(Unsent(c.sends[..i])), s.total);
    var d := Emit(Erase(c, i), e);
    QosZeroLeaves(c, i, pending);
    PausedCountErase(c.sends, i);
    if !c.session.disconnecting {
      ResumeSinceKeeps(d, i, pending + {s.id});
    }
    var r := if c.session.disconnecting then d else ResumeSince(d, i);
    FollowsOn(c, d, r);
    QosZeroSettles(d, r, s.id, pending);
    FollowsTold(c, r, Callback(s.id, 0, Complete));
    ResumeQosZero(c, i);
  }

  lemma QosZeroLeaves(c: Client, i: nat, pending: set<int>)
    requires Inv(c, pending) && i < |c.sends| && c.sends[i].paused && InTurn(c, i) && Calm(Erase(c, i))
    requires c.sends[i].qos == 0 && Fits(c, i)
    ensures var s := c.sends[i];
      var d := Emit(Erase(c, i), Publish(s.id, s.pid, 0, s.dup, First(Unsent(c.sends[..i])), s.total));
      && Inv(d, pending + {s.id}) && Follows(c, d) && Follows(d, d) && Calm(d)
      && s.id !in pending && s.id !in LiveIds(d.sends) && s.issued
      && Pubs(d.log, s.id) > 0 && Header(d.log, s.id).1 == 0
      && TermsOf(d.log, s.id).IssuedAs? && TermsOf(d.log, s.id).qos == 0
  {
    var s := c.sends[i];
    assert EntryOk(c, s) && Recorded(c.ordering, c.log, s);
    PublishAndEraseKeeps(c, i, pending);
    HistoryErased(c, i, pending);
    FollowsErased(c, i);
    var e := Publish(s.id, s.pid, 0, s.dup, First(Unsent(c.sends[..i])), s.total);
    assert s.id in WaitingIds(c.sends);
    FollowsTold(c, Erase(c, i), e);
    FollowsItself(Emit(Erase(c, i), e));
  }

  lemma QosZeroSettles(d: Client, r: Client, id: int, pending: set<int>)
    requires Follows(d, r) && Inv(r, pending + {id}) && id !in pending && id !in LiveIds(d.sends)
    requires Pubs(d.log, id) > 0 && Header(d.log, id).1 == 0
    requires TermsOf(d.log, id).IssuedAs? && TermsOf(d.log, id).qos == 0
    ensures Inv(Emit(r, Callback(id, 0, Complete)), pending)
  {
    assert SameMarks(d.log, r.log, id);
    assert id in pending + {id};
    Settled(r, id, Callback(id, 0, Complete), pending);
  }

  lemma {:induction false} OpCompleteKeeps(c: Client, i: nat, pending: set<int>)
    requires Inv(c, pending) && i < |c.sends| && Calm(Erase(c, i))
    ensures var r := OpComplete(c, i);
      Inv(r, pending + {c.sends[i].id}) && Follows(Erase(c, i), r) && Calm(r)
      && c.sends[i].id !in pending && c.sends[i].id !in LiveIds(Erase(c, i).sends)
    decreases PausedCount(c.sends) + |c.sends|, 0, 0
  {
    Erased(c, i, pending);
    HistoryErased(c, i, pending);
    PausedCountErase(c.sends, i);
    var d := Erase(c, i);
    if c.session.disconnecting {
      FollowsItself(d);
    } else {
      ResumeSinceKeeps(d, i, pending + {c.sends[i].id});
    }
  }

  /** When an entry may complete with this status. */
  ghost predicate MayComplete(c: Client, i: nat, status: Status)
    requires i < |c.sends|
  {
    var s := c.sends[i];
    && (status.Timeout? ==> s.published && (s.acked || s.total <= s.attempts))
    && (status.OutOfMemory? ==> !s.published && c.maxOut < s.len)
    && (status.InternalError? ==> s.published && !s.acked)
    && (status.ProtocolError? ==> s.published)
    && (status.Complete? && c.sends[i].qos > 0 ==>
      && c.sends[i].published && (c.sends[i].qos == 2 ==> c.sends[i].acked)
      && forall j | 0 <= j < |c.sends| && j != i && c.sends[j].qos == c.sends[i].qos :: c.sends[i].id < c.sends[j].id)
  }

  lemma {:induction false} CompleteWithCbKeeps(c: Client, i: nat, status: Status, pending: set<int>)
    requires Inv(c, pending) && i < |c.sends| && c.sends[i].issued && Calm(Erase(c, i))
    requires MayComplete(c, i, status) && (status.Complete? ==> c.sends[i].published)
    ensures var r := CompleteWithCb(c, i, status); Inv(r, pending) && Calm(r)
    ensures !status.Complete? ==> Follows(Erase(c, i), CompleteWithCb(c, i, status))
    decreases PausedCount(c.sends) + |c.sends|, 1, 0
  {
    var s := c.sends[i];
    assert EntryOk(c, s) && Recorded(c.ordering, c.log, s);
    OpCompleteKeeps(c, i, pending);
    var d, r := Erase(c, i), OpComplete(c, i);
    assert SameMarks(d.log, r.log, s.id);
    assert s.id in pending + {s.id};
    var e := Callback(s.id, s.qos, status);
    if status.Complete? {
      CompletionAllowed(c, i, r, pending);
    } else {
      FollowsTold(d, r, e);
      EndAllowed(c, i, r, status, pending);
    }
    Settled(r, s.id, e, pending);
  }

  lemma EndAllowed(c: Client, i: nat, r: Client, status: Status, pending: set<int>)
    requires Inv(c, pending) && i < |c.sends| && c.sends[i].issued && !status.Complete? && MayComplete(c, i, status)
    requires Inv(r, pending + {c.sends[i].id}) && SameMarks(c.log, r.log, c.sends[i].id)
    ensures MayFollow(c.ordering, r.log, Callback(c.sends[i].id, c.sends[i].qos, status))
  {
    var s := c.sends[i];
    assert EntryOk(c, s) && Recorded(c.ordering, c.log, s);
    FitsAsTold(c.maxOut, c.log, s.id);
    assert s.id in pending + {s.id};
  }

  lemma CompletionAllowed(c: Client, i: nat, r: Client, pending: set<int>)
    requires Inv(c, pending) && i < |c.sends| && c.sends[i].published && MayComplete(c, i, Complete)
    requires Inv(r, pending + {c.sends[i].id}) && Follows(Erase(c, i), r)
    requires SameMarks(c.log, r.log, c.sends[i].id)
    ensures MayFollow(c.ordering, r.log, Callback(c.sends[i].id, c.sends[i].qos, Complete))
    ensures forall j | 0 <= j < |r.sends| && r.sends[j].qos == c.sends[i].qos :: c.sends[i].id < r.sends[j].id
  {
    var s := c.sends[i];
    assert EntryOk(c, s) && Recorded(c.ordering, c.log, s);
    assert s.id in pending + {s.id};
    SameQosBehind(c, i, r);
  }

  /** Resuming does not bring forward publishes of the QoS of the one that left. */
  lemma SameQosBehind(c: Client, i: nat, r: Client)
    requires i < |c.sends| && Follows(Erase(c, i), r)
    requires forall j | 0 <= j < |c.sends| && j != i && c.sends[j].qos == c.sends[i].qos :: c.sends[i].id < c.sends[j].id
    ensures forall j | 0 <= j < |r.sends| && r.sends[j].qos == c.sends[i].qos :: c.sends[i].id < r.sends[j].id
  {
    var s, d := c.sends[i], Erase(c, i);
    forall j | 0 <= j < |r.sends| && r.sends[j].qos == s.qos ensures s.id < r.sends[j].id {
      assert r.sends[j].id in LiveIds(r.sends);
      var k :| 0 <= k < |d.sends| && d.sends[k].id == r.sends[j].id;
      assert Kin(d.sends[k], r.sends[j]);
      assert d.sends[k] == c.sends[if k < i then k else k + 1];
    }
  }
}
