/** No paused publish is forgotten: while connected, what holds the first of them back is a
    live publish of higher QoS before it. */
module SendWakeups {
  import opened PacketIds
  import opened History
  import opened SendModel
  import opened SendInvariant
  import opened SendSteps
  import opened SendRuns
  import opened SendSession

  /** The first paused publish waits for an earlier one of strictly higher QoS. */
  ghost predicate Woken(sends: seq<Send>) {
    forall j | 0 <= j < |sends| && FirstPaused(sends, j) :: HasHigherQosSendsBefore(sends, j)
  }

  /** A paused entry with none just before it. */
  predicate FirstPaused(sends: seq<Send>, j: nat)
    requires j < |sends|
  {
    sends[j].paused && (j == 0 || !sends[j - 1].paused)
  }

  ghost predicate NonePausedBefore(sends: seq<Send>, i: nat) {
    forall j | 0 <= j < i && j < |sends| :: !sends[j].paused
  }

  // ------------------------------------------------------------------ what resuming carries over

  /** Entries of m_ops only become null. */
  ghost predicate OnlyNulled(a: seq<Ref>, b: seq<Ref>) {
    |b| == |a| && forall q | 0 <= q < |a| :: b[q] == a[q] || b[q] == Null
  }

  /** The first `k` entries stay, the history goes on, entries of m_ops only become null. */
  ghost predicate Carries(c: Client, d: Client, k: nat) {
    var carried :=
      && k <= |c.sends| && k <= |d.sends| && d.sends[..k] == c.sends[..k]
      && Extends(d.log, c.log)
      && OnlyNulled(c.ops.refs, d.ops.refs);
    carried
  }

  lemma CarriesAtOnce(c: Client, d: Client, k: nat)
    requires k <= |c.sends| && k <= |d.sends| && d.sends[..k] == c.sends[..k]
    requires d.log == c.log || (d.log.After? && d.log.past == c.log)
    requires OnlyNulled(c.ops.refs, d.ops.refs)
    ensures Carries(c, d, k)
  {
  }

  lemma CarriesOn(c: Client, d: Client, e: Client, k: nat)
    requires Carries(c, d, k) && Carries(d, e, k)
    ensures Carries(c, e, k)
  {
    ExtendsTransitive(e.log, d.log, c.log);
  }

  lemma {:induction false} ResumeSinceCarries(c: Client, i: nat, k: nat)
    requires k <= i && k <= |c.sends|
    ensures Carries(c, ResumeSince(c, i), k)
    decreases PausedCount(c.sends), |c.sends|, |c.sends| - i
  {
    if i < |c.sends| {
      if !c.sends[i].paused {
        ResumeSinceCarries(c, i + 1, k);
      } else if CanSend(c, i) {
        ResumeCarries(c, i, k);
        ResumeSinceCarries(Resume(c, i), i, k);
        CarriesOn(c, Resume(c, i), ResumeSince(Resume(c, i), i), k);
      }
    }
  }

  lemma {:induction false} ResumeCarries(c: Client, i: nat, k: nat)
    requires k <= i < |c.sends| && c.sends[i].paused
    ensures Carries(c, Resume(c, i), k)
    decreases PausedCount(c.sends), 0, 0
  {
    var s := c.sends[i].(paused := false);
    var c1 := With(c, i, s);
    PausedCountUpdate(c.sends, i, s);
    CarriesAtOnce(c, c1, k);
    if Fits(c1, i) { DoSendCarries(c1, i, k); } else { CompleteCarries(c1, i, OutOfMemory, k); }
    CarriesOn(c, c1, Resume(c, i), k);
  }

  lemma {:induction false} DoSendCarries(c: Client, i: nat, k: nat)
    requires k <= i < |c.sends| && !c.sends[i].paused
    ensures Carries(c, DoSend(c, i), k)
    decreases PausedCount(c.sends), |c.sends|, 2
  {
    var s := c.sends[i].(attempts := 1, published := true);
    var c1 := Emit(With(c, i, s), Publish(s.id, s.pid, s.qos, s.dup, First(Unsent(c.sends[..i])), s.total));
    PausedCountUpdate(c.sends, i, s);
    CarriesAtOnce(c, c1, k);
    if s.qos == 0 {
      CompleteCarries(c1, i, Complete, k);
      CarriesOn(c, c1, CompleteWithCb(c1, i, Complete), k);
    }
  }

  lemma {:induction false} CompleteCarries(c: Client, i: nat, status: Status, k: nat)
    requires k <= i < |c.sends|
    ensures Carries(c, OpComplete(c, i), k) && Carries(c, CompleteWithCb(c, i, status), k)
    decreases PausedCount(c.sends), |c.sends|, 1
  {
    PausedCountErase(c.sends, i);
    var d := Erase(c, i);
    CarriesAtOnce(c, d, k);
    if !c.session.disconnecting { ResumeSinceCarries(d, i, k); }
    CarriesOn(c, d, OpComplete(c, i), k);
  }

  // ------------------------------------------------------------------ resuming wakes

  /** A paused entry that is not the first paused one has a paused one just before it. */
  lemma PausedTogether(c: Client, p: nat, i: nat)
    requires ListOk(c) && p < i < |c.sends| && c.sends[p].paused && c.sends[i].paused
    ensures c.sends[i - 1].paused
  {
    LineAt(c.ordering, c.sends, i - 1, i);
    if p < i - 1 { LineAt(c.ordering, c.sends, p, i - 1); }
    assert EntryOk(c, c.sends[p]) && EntryOk(c, c.sends[i]) && EntryOk(c, c.sends[i - 1]);
  }

  lemma {:induction false} ResumeSinceWakes(c: Client, i: nat, pending: set<int>)
    requires Inv(c, pending) && Calm(c) && NonePausedBefore(c.sends, i)
    ensures Woken(ResumeSince(c, i).sends)
    decreases PausedCount(c.sends), |c.sends| - i
  {
    if i >= |c.sends| {
    } else if !c.sends[i].paused {
      ResumeSinceWakes(c, i + 1, pending);
    } else if !CanSend(c, i) {
      StuckIsWoken(c, i);
    } else {
      ResumeLeavesNonePaused(c, i, pending);
      ResumeSinceWakes(Resume(c, i), i, pending);
    }
  }

  lemma StuckIsWoken(c: Client, i: nat)
    requires ListOk(c) && i < |c.sends| && c.sends[i].paused && NonePausedBefore(c.sends, i) && !CanSend(c, i)
    ensures Woken(c.sends)
  {
    forall j | 0 <= j < |c.sends| && FirstPaused(c.sends, j)
      ensures HasHigherQosSendsBefore(c.sends, j)
    {
      if j > i { PausedTogether(c, i, j); }
    }
  }

  lemma ResumeLeavesNonePaused(c: Client, i: nat, pending: set<int>)
    requires Inv(c, pending) && Calm(c) && i < |c.sends| && NonePausedBefore(c.sends, i)
    requires c.sends[i].paused && CanSend(c, i)
    ensures var d := Resume(c, i); Inv(d, pending) && Calm(d) && NonePausedBefore(d.sends, i)
  {
    CanSendInTurn(c, i);
    CalmErased(c, i);
    ResumeKeeps(c, i, pending);
    ResumeCarries(c, i, i);
    var d := Resume(c, i);
    KeptNonePaused(c, d, i);
  }

  lemma KeptNonePaused(c: Client, d: Client, i: nat)
    requires Carries(c, d, i) && NonePausedBefore(c.sends, i)
    ensures NonePausedBefore(d.sends, i)
  {
    assert forall j | 0 <= j < i :: d.sends[j] == d.sends[..i][j] && c.sends[j] == c.sends[..i][j];
  }

  /** With a paused entry before it, nothing is resumed from `i` on. */
  lemma {:induction false} ResumeSinceBlocked(c: Client, i: nat, p: nat)
    requires ListOk(c) && Calm(c) && p < i && p < |c.sends| && c.sends[p].paused
    ensures ResumeSince(c, i) == c
    decreases |c.sends| - i
  {
    if i < |c.sends| {
      if c.sends[i].paused { PausedTogether(c, p, i); } else { ResumeSinceBlocked(c, i + 1, p); }
    }
  }

  lemma ErasedBehindPaused(c: Client, i: nat, p: nat)
    requires Good(c) && p < i < |c.sends| && c.sends[p].paused && Woken(c.sends)
    ensures Woken(Erase(c, i).sends)
  {
    ListErased(c, i);
    var d := Erase(c, i);
    assert forall j | 0 <= j < i :: d.sends[j] == c.sends[j];
    forall j | 0 <= j < |d.sends| && FirstPaused(d.sends, j)
      ensures HasHigherQosSendsBefore(d.sends, j)
    {
      if j > p { PausedTogether(d, p, j); }
      assert FirstPaused(c.sends, j);
      var k :| 0 <= k < j && c.sends[k].qos > c.sends[j].qos;
      assert d.sends[k].qos > d.sends[j].qos;
    }
  }

  lemma ErasedInv(c: Client, i: nat)
    requires Good(c) && i < |c.sends|
    ensures Inv(Erase(c, i), {c.sends[i].id}) && Calm(Erase(c, i))
  {
    Erased(c, i, {});
    CalmErased(c, i);
    assert {} + {c.sends[i].id} == {c.sends[i].id};
  }

  /** Whatever publish leaves while the client is not disconnecting, the waiting ones it held
      back are resumed. */
  lemma OpCompleteWakes(c: Client, i: nat)
    requires Good(c) && i < |c.sends| && !c.session.disconnecting && Woken(c.sends)
    ensures Woken(OpComplete(c, i).sends)
  {
    var d := Erase(c, i);
    ErasedInv(c, i);
    if NonePausedBefore(c.sends, i) {
      assert forall j | 0 <= j < i :: d.sends[j] == c.sends[j];
      ResumeSinceWakes(d, i, {c.sends[i].id});
    } else {
      var p :| 0 <= p < i && c.sends[p].paused;
      ErasedBehindPaused(c, i, p);
      assert d.sends[p] == c.sends[p];
      ResumeSinceBlocked(d, i, p);
    }
  }

  // ------------------------------------------------------------------ every step, every run

  /** Between calls: a connected client has nobody waiting in vain. */
  ghost predicate Awake(c: Client) {
    c.session.connected && !c.fault ==> Woken(c.sends)
  }

  /** `Woken` depends on these only. */
  lemma WokenLike(s: seq<Send>, t: seq<Send>)
    requires Woken(s) && |s| == |t|
    requires forall i | 0 <= i < |s| :: s[i].paused == t[i].paused && s[i].qos == t[i].qos
    ensures Woken(t)
  {
    forall j | 0 <= j < |t| && FirstPaused(t, j) ensures HasHigherQosSendsBefore(t, j) {
      assert FirstPaused(s, j);
      var k :| 0 <= k < j && s[k].qos > s[j].qos;
      assert t[k].qos > t[j].qos;
    }
  }

  lemma CompleteWakes(c: Client, i: nat, status: Status)
    requires Good(c) && i < |c.sends| && Awake(c) && c.session.connected && !c.fault
    ensures Woken(CompleteWithCb(c, i, status).sends)
  {
    OpCompleteWakes(c, i);
  }

  lemma ResendDupWakes(c: Client, i: nat, cause: Cause)
    requires Good(c) && i < |c.sends| && Awake(c) && c.session.connected && !c.fault
    ensures Woken(ResendDup(c, i, cause).sends)
  {
    var n := c.sends[i].attempts + 1;
    if c.sends[i].total <= c.sends[i].attempts {
      assert ResendDup(c, i, cause) == CompleteWithCb(c, i, Timeout);
      CompleteWakes(c, i, Timeout);
    } else if !c.sends[i].published {
      assert ResendDup(c, i, cause).sends == c.sends;
    } else {
      assert EntryOk(c, c.sends[i]);
      assert ResendDup(c, i, cause) == Resent(c, i, cause, n);
      WokenLike(c.sends, Resent(c, i, cause, n).sends);
    }
  }

  lemma ResendDupSession(c: Client, i: nat)
    requires Good(c) && i < |c.sends| && !c.sends[i].paused
    ensures ResendDup(c, i, Resend).session == c.session
  {
    assert EntryOk(c, c.sends[i]);
    if c.sends[i].total <= c.sends[i].attempts {
      assert ResendDup(c, i, Resend) == CompleteWithCb(c, i, Timeout);
      CompleteKeeps(c, i, Timeout);
    }
  }

  lemma ForcedWakes(c: Client, i: nat, d: Client)
    requires Good(c) && Awake(c) && c.session.connected && !c.fault && i < |c.sends| && d == ForceDupResend(c, i)
    ensures Good(d) && Awake(d) && d.session.connected
  {
    if !c.sends[i].paused {
      ResendDupKeeps(c, i);
      ResendDupWakes(c, i, Resend);
      ResendDupSession(c, i);
    }
  }

  lemma {:induction false} ResendAllUntilWakes(c: Client, target: int, i: nat)
    requires Good(c) && Awake(c) && c.session.connected && !c.fault
    ensures Awake(ResendAllUntil(c, target, i))
    decreases |c.sends| - i
  {
    if i < |c.sends| {
      var c1 := ForceDupResend(c, i);
      ForcedWakes(c, i, c1);
      WalkUnfolds(c, target, i, c1);
      if c1.fault || c.sends[i].id == target || i >= |c1.sends| {
      } else if c1.sends[i].id == c.sends[i].id {
        ResendAllUntilWakes(c1, target, i + 1);
      } else {
        ResendAllUntilWakes(c1, target, i);
      }
    }
  }

  lemma AckWakes(c: Client, kind: AckKind, pid: int)
    requires Good(c) && Awake(c) && c.session.connected && !c.fault
    ensures Awake(ProcessAck(c, kind, pid))
  {
    var i := FindSend(c.sends, pid);
    if i < |c.sends| {
      ResendAllUntilWakes(c, c.sends[i].id, 0);
      DisarmedKeeps(c, i);
      var c1 := With(c, i, c.sends[i].(armed := false));
      WokenLike(c.sends, c1.sends);
      CompleteWakes(c1, i, Complete);
      if c.sends[i].published && c.sends[i].qos == 2 { AcceptPubrecWakes(c1, i); }
    }
  }

  lemma AcceptPubrecWakes(c: Client, i: nat)
    requires Good(c) && i < |c.sends| && Awake(c) && c.session.connected && !c.fault
    ensures Woken(AcceptPubrec(c, i).sends)
  {
    if c.maxOut < PUBREL_LEN {
      UnsentPubrel(c, i);
      CompleteWakes(c, i, InternalError);
    } else {
      WokenLike(c.sends, AcceptPubrec(c, i).sends);
    }
  }

  lemma OnCallWakes(c: Client, x: Call)
    requires Good(c) && Awake(c) && !c.fault
    ensures Awake(OnCall(c, x))
  {
    if c.session.connected && x.SendCall? {
      var i := IndexOf(c.sends, x.id);
      if i < |c.sends| { ResendDupWakes(c, i, Resend); }
    }
  }

  lemma {:induction false} OnCallsWakes(c: Client, due: seq<Call>)
    requires Good(c) && Awake(c)
    ensures Awake(OnCalls(c, due))
    decreases |due|
  {
    if due != [] && !c.fault {
      OnCallKeeps(c, due[0]);
      OnCallWakes(c, due[0]);
      OnCallsWakes(OnCall(c, due[0]), due[1..]);
    }
  }

  lemma TickWakes(c: Client, calls: seq<Call>)
    requires Good(c) && Awake(c) && c.session.connected && !c.fault
    ensures Awake(DoTick(c, calls))
  {
    var due := Collected(c.sends, calls);
    var d := c.(sends := TimersCancelled(c.sends, due));
    RetimedKeeps(c, d);
    WokenLike(c.sends, d.sends);
    OnCallsWakes(d, due);
  }

  /** A reconnection that finds the session wakes those whose holders left meanwhile. */
  lemma SessionPresentWakes(c: Client)
    requires Good(c) && c.session.connecting && !c.fault
    ensures Woken(BrokerConnected(c, true).sends)
  {
    AllResentKeeps(c);
    var d := AllResent(c);
    var from := TrailingPaused(d.sends, |d.sends|);
    TrailingIsFirst(d, from);
    ResumeSinceWakes(d, from, {});
  }

  /** With no publish being prepared, nothing before the paused ones at the end is paused. */
  lemma TrailingIsFirst(c: Client, from: nat)
    requires ListOk(c) && !c.locked && from == TrailingPaused(c.sends, |c.sends|)
    ensures NonePausedBefore(c.sends, from)
  {
    if from > 0 {
      assert EntryOk(c, c.sends[from - 1]);
      forall j | 0 <= j < from ensures !c.sends[j].paused {
        if j < from - 1 { LineAt(c.ordering, c.sends, j, from - 1); }
        assert EntryOk(c, c.sends[j]);
      }
    }
  }

  lemma PrepareWakes(c: Client)
    requires Good(c) && Awake(c) && !c.fault
    ensures Awake(DoPrepare(c))
  {
    var d := DoPrepare(c);
    if d != c {
      forall j | 0 <= j < |d.sends| && FirstPaused(d.sends, j)
        ensures HasHigherQosSendsBefore(d.sends, j)
      {
        assert j < |c.sends| && FirstPaused(c.sends, j);
        assert HasHigherQosSendsBefore(c.sends, j);
        var k :| 0 <= k < j && c.sends[k].qos > c.sends[j].qos;
        assert d.sends[k].qos > d.sends[j].qos;
      }
    }
  }

  /** Without its last entry the list is as it was. */
  lemma LastErasedWakes(c: Client, d: Client)
    requires Woken(c.sends) && c.sends != [] && d.sends == c.sends[..|c.sends| - 1]
    ensures Woken(d.sends)
  {
    forall j | 0 <= j < |d.sends| && FirstPaused(d.sends, j)
      ensures HasHigherQosSendsBefore(d.sends, j)
    {
      assert FirstPaused(c.sends, j);
      var k :| 0 <= k < j && c.sends[k].qos > c.sends[j].qos;
      assert d.sends[k].qos > d.sends[j].qos;
    }
  }

  lemma HeldBackWakes(c: Client, qos: int, len: int, total: int)
    requires Good(c) && HasPrepared(c) && Woken(c.sends) && 0 <= qos <= MAX_QOS && total > 0
    requires !CanSend(HeldBack(c, qos, len, total), |c.sends| - 1)
    ensures Woken(HeldBack(c, qos, len, total).sends)
  {
    var i := |c.sends| - 1;
    var d := HeldBack(c, qos, len, total);
    assert forall j | 0 <= j < i :: d.sends[j] == c.sends[j];
    forall j | 0 <= j < |d.sends| && FirstPaused(d.sends, j)
      ensures HasHigherQosSendsBefore(d.sends, j)
    {
      if j < i {
        assert FirstPaused(c.sends, j);
        var k :| 0 <= k < j && c.sends[k].qos > c.sends[j].qos;
        assert d.sends[k].qos > d.sends[j].qos;
      }
    }
  }

  lemma ReleasedAtOnceWakes(c: Client, qos: int, len: int, total: int)
    requires Good(c) && HasPrepared(c) && 0 <= qos <= MAX_QOS && total > 0
    requires var d := HeldBack(c, qos, len, total); CanSend(d, |c.sends| - 1) && Fits(d, |c.sends| - 1)
    ensures Woken(Resume(HeldBack(c, qos, len, total), |c.sends| - 1).sends)
  {
    var d := HeldBack(c, qos, len, total);
    IssuedInTurn(c, qos, len, total);
    HeldBackKeeps(c, qos, len, total);
    assert forall j | 0 <= j < |d.sends| :: EntryOk(d, d.sends[j]);
    LastResumed(d);
  }

  /** When the last entry may go out, nobody is left waiting. */
  lemma LastResumed(d: Client)
    requires d.sends != []
    requires var i := |d.sends| - 1; d.sends[i].paused && d.sends[i].issued && Fits(d, i)
    requires forall j | 0 <= j < |d.sends| - 1 :: !d.sends[j].paused
    ensures Woken(Resume(d, |d.sends| - 1).sends)
  {
    var i := |d.sends| - 1;
    ResumeCarries(d, i, i);
    var r := Resume(d, i);
    KeptNonePaused(d, r, i);
    if d.sends[i].qos != 0 {
      ResumePublishes(d, i);
    } else {
      ResumeQosZero(d, i);
    }
    assert forall j | 0 <= j < |r.sends| :: !r.sends[j].paused;
  }

  lemma SendCallWakes(c: Client, qos: int, len: int, total: int, configured: bool)
    requires Good(c) && Awake(c) && c.session.connected && !c.fault
    ensures Awake(DoSendCall(c, qos, len, total, configured))
  {
    if HasPrepared(c) && 0 <= qos <= MAX_QOS && total > 0 {
      var i := |c.sends| - 1;
      if !configured {
        LastCompletes(c.(locked := false));
        LastErasedWakes(c, DoSendCall(c, qos, len, total, configured));
      } else {
        SendCallIs(c, qos, len, total);
        var d := HeldBack(c, qos, len, total);
        if !CanSend(d, i) {
          HeldBackWakes(c, qos, len, total);
        } else if Fits(d, i) {
          ReleasedAtOnceWakes(c, qos, len, total);
        } else {
          assert Erase(d, i).sends == c.sends[..i];
          LastErasedWakes(c, Erase(d, i));
        }
      }
    }
  }

  lemma CancelWakes(c: Client, id: int)
    requires Good(c) && Awake(c) && c.session.connected && !c.fault
    ensures Awake(DoCancel(c, id))
  {
    var i := IndexOf(c.sends, id);
    if i < |c.sends| {
      if c.sends[i].issued {
        OpCompleteWakes(c, i);
      } else {
        PreparedIsLast(c, i);
        LastCompletes(c.(locked := false));
        LastErasedWakes(c, DoCancel(c, id));
      }
    }
  }
}
