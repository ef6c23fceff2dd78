/** The books kept beside the list of publishes: m_ops, and the packet identifiers in use. */
module SendBooks {
  import opened PacketIds
  import opened History
  import opened SendModel
  import opened SendInvariant
  import opened SendRuns
  import opened SendSession

  /** The publishes named in m_ops, in order. */
  function SendRefs(refs: seq<Ref>): seq<int> {
    if refs == [] then [] else (if refs[0].SendRef? then [refs[0].id] else []) + SendRefs(refs[1..])
  }

  function Ids(sends: seq<Send>): seq<int> {
    seq(|sends|, i requires 0 <= i < |sends| => sends[i].id)
  }

  /** How many publishes hold identifier `pid`. */
  function Holders(sends: seq<Send>, pid: int): nat {
    if sends == [] then 0 else (if sends[0].pid == pid then 1 else 0) + Holders(sends[1..], pid)
  }

  function Count(ids: seq<int>, pid: int): nat {
    if ids == [] then 0 else (if ids[0] == pid then 1 else 0) + Count(ids[1..], pid)
  }

  ghost predicate Rising(sends: seq<Send>) {
    forall i, j | 0 <= i < j < |sends| :: sends[i].id < sends[j].id
  }

  /** The live entries of m_ops are the publishes of m_sendOps, in the same order; a nulled
      entry is noted in m_opsDeleted. */
  ghost predicate RefsTidy(c: Client) {
    && SendRefs(c.ops.refs) == Ids(c.sends)
    && (Null in c.ops.refs ==> c.ops.deleted)
  }

  /** A non-zero identifier is in use exactly when an operation holds it, and one at most. */
  ghost predicate IdsTidy(c: Client) {
    && Ascending(c.ids.pool.ids)
    && forall pid | pid != 0 ::
         (if pid in c.ids.pool.ids then 1 else 0) == Holders(c.sends, pid) + Count(c.ids.others, pid)
  }

  /** Both books are in order; carried as one fact. */
  ghost predicate Tidy(c: Client) {
    var tidy := Rising(c.sends) && RefsTidy(c) && IdsTidy(c);
    tidy
  }

  // ------------------------------------------------------------------ erasing and writing

  function Minus(ids: seq<int>, id: int): seq<int> {
    if ids == [] then [] else (if ids[0] == id then [] else [ids[0]]) + Minus(ids[1..], id)
  }

  lemma {:induction false} NullifyRemoves(refs: seq<Ref>, id: int)
    ensures SendRefs(Nullified(refs, id)) == Minus(SendRefs(refs), id)
  {
    if refs != [] {
      assert Nullified(refs, id)[1..] == Nullified(refs[1..], id);
      NullifyRemoves(refs[1..], id);
      var rest := SendRefs(refs[1..]);
      if refs[0].SendRef? {
        assert SendRefs(refs)[1..] == rest;
      } else {
        assert SendRefs(refs) == rest;
      }
    }
  }

  lemma {:induction false} MinusAbsent(ids: seq<int>, id: int)
    requires forall j | 0 <= j < |ids| :: ids[j] != id
    ensures Minus(ids, id) == ids
  {
    if ids != [] { MinusAbsent(ids[1..], id); }
  }

  lemma {:induction false} MinusAt(ids: seq<int>, k: nat)
    requires k < |ids| && forall i, j | 0 <= i < j < |ids| :: ids[i] < ids[j]
    ensures Minus(ids, ids[k]) == ids[..k] + ids[k + 1..]
  {
    if k == 0 {
      MinusAbsent(ids[1..], ids[0]);
    } else {
      MinusAt(ids[1..], k - 1);
      assert ids[0] != ids[k];
      assert ids[..k] == [ids[0]] + ids[1..][..k - 1];
      assert ids[k + 1..] == ids[1..][k..];
    }
  }

  lemma {:induction false} HoldersErased(sends: seq<Send>, i: nat, pid: int)
    requires i < |sends|
    ensures Holders(sends, pid) == Holders(Without(sends, i), pid) + if sends[i].pid == pid then 1 else 0
  {
    if i == 0 {
      assert Without(sends, 0) == sends[1..];
    } else {
      HoldersErased(sends[1..], i - 1, pid);
      assert Without(sends, i)[1..] == Without(sends[1..], i - 1);
    }
  }

  lemma {:induction false} HoldersAppended(sends: seq<Send>, s: Send, pid: int)
    ensures Holders(sends + [s], pid) == Holders(sends, pid) + if s.pid == pid then 1 else 0
  {
    HoldersErased(sends + [s], |sends|, pid);
    assert Without(sends + [s], |sends|) == sends;
  }

  lemma {:induction false} CountErased(ids: seq<int>, k: nat, pid: int)
    requires k < |ids|
    ensures Count(ids, pid) == Count(ids[..k] + ids[k + 1..], pid) + if ids[k] == pid then 1 else 0
  {
    var rest := ids[..k] + ids[k + 1..];
    if k == 0 {
      assert rest == ids[1..];
    } else {
      CountErased(ids[1..], k - 1, pid);
      assert rest[1..] == ids[1..][..k - 1] + ids[1..][k..];
    }
  }

  lemma CountAppended(ids: seq<int>, id: int, pid: int)
    ensures Count(ids + [id], pid) == Count(ids, pid) + if id == pid then 1 else 0
  {
    CountErased(ids + [id], |ids|, pid);
    assert (ids + [id])[..|ids|] + (ids + [id])[|ids| + 1..] == ids;
  }

  lemma {:induction false} CountMember(ids: seq<int>, pid: int)
    ensures pid in ids <==> Count(ids, pid) > 0
  {
    if ids != [] {
      CountMember(ids[1..], pid);
      assert ids == [ids[0]] + ids[1..];
    }
  }

  lemma {:induction false} HoldersMember(sends: seq<Send>, i: nat)
    requires i < |sends|
    ensures Holders(sends, sends[i].pid) > 0
  {
    HoldersErased(sends, i, sends[i].pid);
  }

  lemma IdsErased(c: Client, i: nat)
    requires IdsTidy(c) && i < |c.sends|
    ensures IdsTidy(Erase(c, i))
  {
    var pid := c.sends[i].pid;
    ReleaseRemovesOne(c.ids.pool, pid);
    HoldersMember(c.sends, i);
    var d := Erase(c, i);
    forall p | p != 0
      ensures (if p in d.ids.pool.ids then 1 else 0) == Holders(d.sends, p) + Count(d.ids.others, p)
    {
      HoldersErased(c.sends, i, p);
      assert (if p in c.ids.pool.ids then 1 else 0) == Holders(c.sends, p) + Count(c.ids.others, p);
    }
  }

  lemma TidyErased(c: Client, i: nat)
    requires Tidy(c) && i < |c.sends|
    ensures Tidy(Erase(c, i))
  {
    IdsErased(c, i);
    RefsErased(c, i);
    RisingErased(c.sends, i);
  }

  lemma RefsErased(c: Client, i: nat)
    requires Rising(c.sends) && RefsTidy(c) && i < |c.sends|
    ensures RefsTidy(Erase(c, i))
  {
    MinusAt(Ids(c.sends), i);
    NullifyRemoves(c.ops.refs, c.sends[i].id);
    assert Ids(Without(c.sends, i)) == Ids(c.sends)[..i] + Ids(c.sends)[i + 1..];
  }

  lemma RisingErased(sends: seq<Send>, i: nat)
    requires Rising(sends) && i < |sends|
    ensures Rising(Without(sends, i))
  {
    var rest := Without(sends, i);
    assert forall k | 0 <= k < |rest| :: rest[k] == sends[if k < i then k else k + 1];
  }

  lemma {:induction false} NamedInRefs(refs: seq<Ref>, id: int)
    ensures SendRef(id) in refs <==> id in SendRefs(refs)
  {
    if refs != [] { NamedInRefs(refs[1..], id); }
  }

  ghost predicate Rises(ids: seq<int>) {
    forall i, j | 0 <= i < j < |ids| :: ids[i] < ids[j]
  }

  lemma RisesBehind(head: seq<int>, rest: seq<int>, all: seq<int>)
    requires all == head + rest && Rises(all)
    ensures Rises(rest) && forall x | x in head :: x !in rest
  {
    assert forall j | 0 <= j < |rest| :: rest[j] == all[|head| + j];
    assert forall j | 0 <= j < |head| :: head[j] == all[j];
  }

  lemma RestRises(refs: seq<Ref>, id: int)
    requires refs != [] && Rises(SendRefs(refs))
    ensures Rises(SendRefs(refs[1..]))
    ensures id in SendRefs(refs) <==> refs[0] == SendRef(id) || id in SendRefs(refs[1..])
    ensures refs[0] == SendRef(id) ==> id !in SendRefs(refs[1..])
  {
    var head := if refs[0].SendRef? then [refs[0].id] else [];
    RisesBehind(head, SendRefs(refs[1..]), SendRefs(refs));
    assert id in head <==> refs[0] == SendRef(id);
  }

  lemma {:induction false} NamedOnce(refs: seq<Ref>, id: int) returns (k: nat)
    requires id in SendRefs(refs) && Rises(SendRefs(refs))
    ensures k < |refs| && forall j | 0 <= j < |refs| :: refs[j] == SendRef(id) <==> j == k
  {
    RestRises(refs, id);
    if refs[0] == SendRef(id) {
      k := 0;
      NamedInRefs(refs[1..], id);
      assert forall j | 1 <= j < |refs| :: refs[j] in refs[1..];
    } else {
      k := NamedOnce(refs[1..], id);
      k := k + 1;
      assert forall j | 1 <= j < |refs| :: refs[j] == refs[1..][j - 1];
    }
  }

  /** An entry that leaves takes with it just one entry of m_ops, which named it alone, and just
      its own identifier, which was in use; identifier 0 stays as it was. */
  lemma LeavesWithItsOwn(c: Client, i: nat) returns (k: nat)
    requires Tidy(c) && i < |c.sends|
    ensures k < |c.ops.refs| && c.ops.refs[k] == SendRef(c.sends[i].id)
    ensures Erase(c, i).ops == Registry(c.ops.refs[k := Null], true)
    ensures c.sends[i].pid != 0 ==> c.sends[i].pid in c.ids.pool.ids
    ensures forall pid :: pid in Erase(c, i).ids.pool.ids <==> pid in c.ids.pool.ids && (pid == 0 || pid != c.sends[i].pid)
  {
    assert Ids(c.sends)[i] == c.sends[i].id;
    k := NamedOnce(c.ops.refs, c.sends[i].id);
    ReleaseRemovesOne(c.ids.pool, c.sends[i].pid);
    HoldersMember(c.sends, i);
  }

  /** Whatever keeps identities, identifiers and the books keeps them tidy. */
  lemma TidyLike(c: Client, d: Client)
    requires Tidy(c) && d.ops == c.ops && d.ids == c.ids && |d.sends| == |c.sends|
    requires forall i | 0 <= i < |c.sends| :: d.sends[i].id == c.sends[i].id && d.sends[i].pid == c.sends[i].pid
    ensures Tidy(d)
  {
    assert Ids(d.sends) == Ids(c.sends);
    forall p | p != 0 ensures Holders(d.sends, p) == Holders(c.sends, p) {
      HoldersLike(c.sends, d.sends, p);
    }
  }

  lemma {:induction false} HoldersLike(s: seq<Send>, t: seq<Send>, pid: int)
    requires |s| == |t| && forall i | 0 <= i < |s| :: s[i].pid == t[i].pid
    ensures Holders(s, pid) == Holders(t, pid)
  {
    if s != [] { HoldersLike(s[1..], t[1..], pid); }
  }

  // ------------------------------------------------------------------ the engine

  lemma {:induction false} ResumeSinceTidy(c: Client, i: nat)
    requires Tidy(c)
    ensures Tidy(ResumeSince(c, i))
    decreases PausedCount(c.sends), |c.sends|, |c.sends| - i
  {
    if i < |c.sends| {
      if !c.sends[i].paused {
        ResumeSinceTidy(c, i + 1);
      } else if CanSend(c, i) {
        ResumeTidy(c, i);
        ResumeSinceTidy(Resume(c, i), i);
      }
    }
  }

  lemma {:induction false} ResumeTidy(c: Client, i: nat)
    requires Tidy(c) && i < |c.sends| && c.sends[i].paused
    ensures Tidy(Resume(c, i))
    decreases PausedCount(c.sends), 0, 0
  {
    var c1 := With(c, i, c.sends[i].(paused := false));
    PausedCountUpdate(c.sends, i, c.sends[i].(paused := false));
    TidyLike(c, c1);
    if Fits(c1, i) { DoSendTidy(c1, i); } else { CompleteTidy(c1, i, OutOfMemory); }
  }

  lemma {:induction false} DoSendTidy(c: Client, i: nat)
    requires Tidy(c) && i < |c.sends| && !c.sends[i].paused
    ensures Tidy(DoSend(c, i))
    decreases PausedCount(c.sends), |c.sends|, 2
  {
    var s := c.sends[i].(attempts := 1, published := true);
    var c1 := Emit(With(c, i, s), Publish(s.id, s.pid, s.qos, s.dup, First(Unsent(c.sends[..i])), s.total));
    PausedCountUpdate(c.sends, i, s);
    TidyLike(c, c1);
    if s.qos == 0 { CompleteTidy(c1, i, Complete); } else { TidyLike(c1, With(c1, i, s.(armed := true))); }
  }

  lemma {:induction false} CompleteTidy(c: Client, i: nat, status: Status)
    requires Tidy(c) && i < |c.sends|
    ensures Tidy(CompleteWithCb(c, i, status)) && Tidy(OpComplete(c, i))
    decreases PausedCount(c.sends), |c.sends|, 1
  {
    TidyErased(c, i);
    PausedCountErase(c.sends, i);
    if !c.session.disconnecting { ResumeSinceTidy(Erase(c, i), i); }
    TidyLike(OpComplete(c, i), CompleteWithCb(c, i, status));
  }

  lemma ResendDupTidy(c: Client, i: nat, cause: Cause)
    requires Tidy(c) && i < |c.sends|
    ensures Tidy(ResendDup(c, i, cause))
  {
    var n := c.sends[i].attempts + 1;
    if c.sends[i].total <= c.sends[i].attempts {
      assert ResendDup(c, i, cause) == CompleteWithCb(c, i, Timeout);
      CompleteTidy(c, i, Timeout);
    } else if !c.sends[i].published {
      TidyLike(c, c.(fault := true));
    } else if ResendFits(c, i) {
      assert ResendDup(c, i, cause) == Resent(c, i, cause, n);
      TidyLike(c, Resent(c, i, cause, n));
    } else {
      var d := With(c, i, Marked(c.sends[i]));
      assert ResendDup(c, i, cause) == CompleteWithCb(d, i, InternalError);
      TidyLike(c, d);
      CompleteTidy(d, i, InternalError);
    }
  }

  lemma {:induction false} ResendAllUntilTidy(c: Client, target: int, i: nat)
    requires Tidy(c)
    ensures Tidy(ResendAllUntil(c, target, i))
    decreases |c.sends| - i
  {
    if i < |c.sends| {
      var c1 := ForceDupResend(c, i);
      if !c.sends[i].paused { ResendDupTidy(c, i, Resend); }
      TidyLike(c1, c1.(fault := true));
      if c1.fault || c.sends[i].id == target || i >= |c1.sends| {
      } else if c1.sends[i].id == c.sends[i].id {
        ResendAllUntilTidy(c1, target, i + 1);
      } else {
        ResendAllUntilTidy(c1, target, i);
      }
    }
  }

  lemma DisconnectedTidy(c: Client, report: bool)
    requires Tidy(c)
    ensures Tidy(BrokerDisconnected(c, report))
  {
    TidyLike(c, BrokerDisconnected(c, report));
  }

  lemma AckTidy(c: Client, kind: AckKind, pid: int)
    requires Tidy(c)
    ensures Tidy(ProcessAck(c, kind, pid))
  {
    var i := FindSend(c.sends, pid);
    if i < |c.sends| {
      ResendAllUntilTidy(c, c.sends[i].id, 0);
      var c1 := With(c, i, c.sends[i].(armed := false));
      TidyLike(c, c1);
      CompleteTidy(c1, i, Complete);
      CompleteTidy(c1, i, ProtocolError);
      DisconnectedTidy(CompleteWithCb(c1, i, ProtocolError), true);
      AcceptPubrecTidy(c1, i);
    }
  }

  lemma AcceptPubrecTidy(c: Client, i: nat)
    requires Tidy(c) && i < |c.sends|
    ensures Tidy(AcceptPubrec(c, i))
  {
    var s := c.sends[i].(acked := true, attempts := 0);
    if c.maxOut < PUBREL_LEN {
      TidyLike(c, With(c, i, s));
      CompleteTidy(With(c, i, s), i, InternalError);
    } else {
      TidyLike(c, AcceptPubrec(c, i));
    }
  }

  lemma {:induction false} ResendLoopTidy(c: Client, i: nat)
    requires Tidy(c)
    ensures Tidy(ResendLoop(c, i))
    decreases |c.sends| - i
  {
    if i < |c.sends| {
      var s := c.sends[i];
      var n := if s.attempts == 0 then MAX_UNSIGNED else s.attempts - 1;
      if !s.paused {
        TidyLike(c, With(c, i, s.(attempts := n, armed := false)));
        ResendDupTidy(With(c, i, s.(attempts := n, armed := false)), i, Reconnect);
      }
      var c1 := PostReconnectionResend(c, i);
      TidyLike(c1, c1.(fault := true));
      if |c1.sends| == |c.sends| { ResendLoopTidy(c1, i + 1); }
    }
  }

  lemma {:induction false} TerminateWalkTidy(c: Client, k: nat)
    requires Tidy(c)
    ensures Tidy(TerminateWalk(c, k))
    decreases |c.sends|, |c.ops.refs| - k
  {
    if k < |c.ops.refs| {
      TidyLike(c, c.(fault := true));
      match c.ops.refs[k]
      case OtherRef => TerminateWalkTidy(c, k + 1);
      case Null =>
      case SendRef(id) =>
        var i := IndexOf(c.sends, id);
        if i < |c.sends| {
          CompleteTidy(c, i, Aborted);
          TerminateWalkTidy(CompleteWithCb(c, i, Aborted), k + 1);
        }
    }
  }

  lemma ConnackTidy(c: Client, accepted: bool, sessionPresent: bool)
    requires Tidy(c)
    ensures Tidy(DoConnack(c, accepted, sessionPresent))
  {
    var c0 := c.(session := c.session.(connecting := false, connected := false, disconnecting := false));
    var c1 := c.(session := c.session.(connected := true, connecting := false));
    TidyLike(c, c0);
    TidyLike(c, c1);
    if c.session.connecting && accepted {
      if sessionPresent {
        TidyLike(c, Found(c));
        ResendLoopTidy(Found(c), 0);
        var c2 := AllResent(c);
        ResumeSinceTidy(c2, TrailingPaused(c2.sends, |c2.sends|));
      } else {
        TerminateWalkTidy(c1, 0);
      }
    }
  }

  // ------------------------------------------------------------------ the other calls

  lemma {:induction false} SendRefsAppended(refs: seq<Ref>, r: Ref)
    ensures SendRefs(refs + [r]) == SendRefs(refs) + if r.SendRef? then [r.id] else []
  {
    if refs == [] {
      assert refs + [r] == [r];
    } else {
      SendRefsAppended(refs[1..], r);
      assert (refs + [r])[1..] == refs[1..] + [r];
    }
  }

  lemma {:induction false} SendRefsCleaned(refs: seq<Ref>)
    ensures SendRefs(LiveRefs(refs)) == SendRefs(refs) && Null !in LiveRefs(refs)
  {
    if refs != [] {
      SendRefsCleaned(refs[1..]);
      var rest := LiveRefs(refs[1..]);
      if refs[0].Null? { assert LiveRefs(refs) == rest; } else { assert LiveRefs(refs)[1..] == rest; }
    }
  }

  lemma {:induction false} SendRefsReplaced(refs: seq<Ref>, k: nat)
    requires k < |refs| && refs[k].OtherRef?
    ensures SendRefs(refs[k := Null]) == SendRefs(refs)
  {
    if k == 0 {
      assert refs[0 := Null][1..] == refs[1..];
    } else {
      SendRefsReplaced(refs[1..], k - 1);
      assert refs[k := Null][1..] == refs[1..][k - 1 := Null];
    }
  }

  lemma PrepareTidy(c: Client)
    requires Tidy(c) && Good(c)
    ensures Tidy(DoPrepare(c))
  {
    var d := DoPrepare(c);
    if d != c {
      SendRefsAppended(c.ops.refs, SendRef(c.nextId));
      assert Ids(d.sends) == Ids(c.sends) + [c.nextId];
      forall i, j | 0 <= i < j < |d.sends| ensures d.sends[i].id < d.sends[j].id {
        assert EntryOk(c, c.sends[i]);
      }
      forall p | p != 0 ensures Holders(d.sends, p) == Holders(c.sends, p) {
        HoldersAppended(c.sends, Fresh(c.nextId), p);
      }
    }
  }

  lemma IssueTidy(c: Client, i: nat, qos: int, len: int, total: int)
    requires Tidy(c) && i < |c.sends| && c.sends[i].pid == 0
    ensures Tidy(Issue(c, i, qos, len, total))
  {
    var d := Issue(c, i, qos, len, total);
    AllocAddsOne(c.ids.pool);
    assert Ids(d.sends) == Ids(c.sends);
    forall p | p != 0
      ensures (if p in d.ids.pool.ids then 1 else 0) == Holders(d.sends, p) + Count(d.ids.others, p)
    {
      HoldersErased(c.sends, i, p);
      HoldersErased(d.sends, i, p);
      assert Without(d.sends, i) == Without(c.sends, i);
      assert (if p in c.ids.pool.ids then 1 else 0) == Holders(c.sends, p) + Count(c.ids.others, p);
    }
  }

  lemma SendCallTidy(c: Client, qos: int, len: int, total: int, configured: bool)
    requires Tidy(c) && Good(c)
    ensures Tidy(DoSendCall(c, qos, len, total, configured))
  {
    if HasPrepared(c) && 0 <= qos <= MAX_QOS && total > 0 {
      var i := |c.sends| - 1;
      var c0 := c.(locked := false);
      assert EntryOk(c, c.sends[i]);
      TidyLike(c, c0);
      if !configured {
        CompleteTidy(c0, i, Complete);
        TidyLike(OpComplete(c0, i), DoSendCall(c, qos, len, total, configured));
      } else {
        IssueTidy(c0, i, qos, len, total);
        var c1 := Issue(c0, i, qos, len, total);
        if !CanSend(c1, i) {
          TidyLike(c1, With(c1, i, c1.sends[i].(paused := true)));
        } else if Fits(c1, i) {
          DoSendTidy(c1, i);
        } else {
          CompleteTidy(c1, i, Complete);
          TidyLike(OpComplete(c1, i), DoSendCall(c, qos, len, total, configured));
        }
      }
    }
  }

  lemma CancelTidy(c: Client, id: int)
    requires Tidy(c)
    ensures Tidy(DoCancel(c, id))
  {
    var i := IndexOf(c.sends, id);
    if i < |c.sends| {
      var c1 := if c.sends[i].issued then c else c.(locked := false);
      TidyLike(c, c1);
      CompleteTidy(c1, i, Complete);
      TidyLike(OpComplete(c1, i), DoCancel(c, id));
    }
  }

  lemma {:induction false} OnCallsTidy(c: Client, due: seq<Call>)
    requires Tidy(c)
    ensures Tidy(OnCalls(c, due))
    decreases |due|
  {
    if due != [] && !c.fault {
      OnCallTidy(c, due[0]);
      OnCallsTidy(OnCall(c, due[0]), due[1..]);
    }
  }

  lemma OnCallTidy(c: Client, x: Call)
    requires Tidy(c)
    ensures Tidy(OnCall(c, x))
  {
    DisconnectedTidy(c, true);
    TidyLike(c, c.(fault := true));
    if x.SendCall? && IndexOf(c.sends, x.id) < |c.sends| { ResendDupTidy(c, IndexOf(c.sends, x.id), Resend); }
  }

  lemma TickTidy(c: Client, calls: seq<Call>)
    requires Tidy(c)
    ensures Tidy(DoTick(c, calls))
  {
    var due := Collected(c.sends, calls);
    TidyLike(c, c.(sends := TimersCancelled(c.sends, due)));
    OnCallsTidy(c.(sends := TimersCancelled(c.sends, due)), due);
  }

  lemma OtherTakesId(c: Client)
    requires IdsTidy(c)
    ensures IdsTidy(DoOtherStarts(c, true))
  {
    var d := DoOtherStarts(c, true);
    AllocAddsOne(c.ids.pool);
    forall p | p != 0
      ensures (if p in d.ids.pool.ids then 1 else 0) == Holders(d.sends, p) + Count(d.ids.others, p)
    {
      CountAppended(c.ids.others, Allocated(c.ids.pool), p);
      assert (if p in c.ids.pool.ids then 1 else 0) == Holders(c.sends, p) + Count(c.ids.others, p);
    }
  }

  lemma OtherStartsTidy(c: Client, takesId: bool)
    requires Tidy(c)
    ensures Tidy(DoOtherStarts(c, takesId))
  {
    SendRefsAppended(c.ops.refs, OtherRef);
    if takesId {
      OtherTakesId(c);
    } else {
      assert IdsTidy(DoOtherStarts(c, takesId));
    }
  }

  lemma OtherEndsTidy(c: Client, ref: nat, held: nat)
    requires Tidy(c)
    ensures Tidy(DoOtherEnds(c, ref, held))
  {
    var d := DoOtherEnds(c, ref, held);
    if ref < |c.ops.refs| && c.ops.refs[ref].OtherRef? { SendRefsReplaced(c.ops.refs, ref); }
    if held < |c.ids.others| {
      var pid := c.ids.others[held];
      ReleaseRemovesOne(c.ids.pool, pid);
      forall p | p != 0
        ensures (if p in d.ids.pool.ids then 1 else 0) == Holders(d.sends, p) + Count(d.ids.others, p)
      {
        CountErased(c.ids.others, held, p);
        assert (if p in c.ids.pool.ids then 1 else 0) == Holders(c.sends, p) + Count(c.ids.others, p);
      }
    }
  }

  lemma StepTidy(c: Client, x: Input)
    requires Tidy(c) && Good(c)
    ensures Tidy(Step(c, x))
  {
    if !c.fault {
      match x
      case Prepare => PrepareTidy(c);
      case SendPrepared(qos, len, total, configured) => SendCallTidy(c, qos, len, total, configured);
      case Cancel(id) => CancelTidy(c, id);
      case Ack(kind, pid) => AckTidy(c, kind, pid);
      case Tick(calls) => TickTidy(c, calls);
      case NetworkDisconnected => TidyLike(c, Step(c, x));
      case Disconnect(report) => DisconnectedTidy(c, report);
      case Connect => TidyLike(c, Step(c, x));
      case Connack(accepted, sp) => ConnackTidy(c, accepted, sp);
      case ConnectEnds => TidyLike(c, Step(c, x));
      case CleanOps => SendRefsCleaned(c.ops.refs);
      case OtherStarts(takesId) => OtherStartsTidy(c, takesId);
      case OtherEnds(ref, held) => OtherEndsTidy(c, ref, held);
    }
  }

  /** On every run m_ops agrees with the list and every identifier has its one holder. */
  lemma {:induction false} RunTidy(o: Ordering, maxOut: int, idLimit: nat, xs: seq<Input>)
    ensures Tidy(Run(NewClient(o, maxOut, idLimit), xs))
    decreases |xs|
  {
    if xs != [] {
      var before := xs[..|xs| - 1];
      RunTidy(o, maxOut, idLimit, before);
      RunKeeps(o, maxOut, idLimit, before);
      StepTidy(Run(NewClient(o, maxOut, idLimit), before), xs[|xs| - 1]);
    }
  }
}
