/** Reconnecting: what is re-sent when the session is present, and when the walk that ends
    the old publishes of a lost session meets an entry already nulled. */
module SendReconnect {
  import opened PacketIds
  import opened History
  import opened SendModel
  import opened SendInvariant
  import opened SendSteps
  import opened SendRuns
  import opened SendSession
  import opened SendBooks
  import opened SendWakeups

  // ------------------------------------------------------------------ the session is present

  /** All PUBRELs of the re-send loop come before all its PUBLISHes. */
  lemma {:induction false} PubrelsComeFirst(o: Ordering, sends: seq<Send>, i: nat, j: nat)
    requires Lined(o, sends) && i < j < |ReconnectPackets(sends)|
    requires forall k | 0 <= k < |sends| :: sends[k].paused || sends[k].published
    ensures ReconnectPackets(sends)[j].Pubrel? ==> ReconnectPackets(sends)[i].Pubrel?
  {
    var rest := sends[1..];
    assert forall k, l | 0 <= k < l < |rest| :: InLine(o, sends[k + 1], sends[l + 1]) ==> InLine(o, rest[k], rest[l]);
    forall k, l | 0 <= k < l < |rest| ensures InLine(o, rest[k], rest[l]) {
      LineAt(o, sends, k + 1, l + 1);
    }
    if sends[0].paused {
      PubrelsComeFirst(o, rest, i, j);
    } else if i > 0 {
      PubrelsComeFirst(o, rest, i - 1, j - 1);
    } else {
      var l := PacketOwner(rest, j - 1);
      LineAt(o, sends, 0, l + 1);
    }
  }

  lemma {:induction false} PacketOwner(sends: seq<Send>, j: nat) returns (k: nat)
    requires j < |ReconnectPackets(sends)|
    ensures k < |sends| && !sends[k].paused && ReconnectPackets(sends)[j] == ResendPacket(sends[k], Reconnect)
  {
    if !sends[0].paused && j == 0 {
      k := 0;
    } else {
      k := PacketOwner(sends[1..], if sends[0].paused then j else j - 1);
      k := k + 1;
    }
  }

  lemma {:induction false} ExtendsEvents(g: Log, h: Log)
    requires Extends(g, h)
    ensures |Events(h)| <= |Events(g)| && Events(g)[..|Events(h)|] == Events(h)
  {
    if g != h { ExtendsEvents(g.past, h); }
  }

  lemma ResumedAfterwards(c: Client)
    requires Good(c) && c.session.connecting && !c.fault
    ensures var d := AllResent(c);
      var from := TrailingPaused(d.sends, |d.sends|);
      Carries(d, BrokerConnected(c, true), from) && d.sends == AllRepeated(c.sends, 0) && !c.locked
      && Events(d.log) == Events(c.log) + [Mark(Resumed)] + ReconnectPackets(c.sends)
  {
    AllResentKeeps(c);
    ConnectedKeeps(c, true);
    var d := AllResent(c);
    var from := TrailingPaused(d.sends, |d.sends|);
    ResumeSinceCarries(d, from, from);
  }

  /** Section 4.4 of MQTT 3.1.1: a reconnection that finds the session first repeats, in the
      order they were issued and with their own identifiers, one packet of every publish that
      had one; no publish is lost doing so, and only then are waiting publishes resumed. */
  lemma SessionPresentRepeatsAll(c: Client)
    requires Good(c) && c.session.connecting && !c.fault
    ensures var r := BrokerConnected(c, true);
      var told := Events(c.log) + [Mark(Resumed)] + ReconnectPackets(c.sends);
      !r.fault && |told| <= |Events(r.log)| && Events(r.log)[..|told|] == told
    ensures forall i | 0 <= i < |c.sends| :: c.sends[i].published || c.sends[i].paused
    ensures forall i | 0 <= i < |c.sends| && c.sends[i].published :: Repeated(c.sends[i]) in BrokerConnected(c, true).sends
  {
    SessionPresentKeeps(c);
    ResumedAfterwards(c);
    var d := AllResent(c);
    ExtendsEvents(BrokerConnected(c, true).log, d.log);
    RepeatedAllThere(c, d, BrokerConnected(c, true), TrailingPaused(d.sends, |d.sends|));
  }

  lemma RepeatedAllThere(c: Client, c2: Client, r: Client, from: nat)
    requires ListOk(c) && !c.locked && c2.sends == AllRepeated(c.sends, 0)
    requires from == TrailingPaused(c2.sends, |c2.sends|) && Carries(c2, r, from)
    ensures forall i | 0 <= i < |c.sends| :: c.sends[i].published || c.sends[i].paused
    ensures forall i | 0 <= i < |c.sends| && c.sends[i].published :: Repeated(c.sends[i]) in r.sends
  {
    forall i | 0 <= i < |c.sends|
      ensures (c.sends[i].published || c.sends[i].paused) && (c.sends[i].published ==> Repeated(c.sends[i]) in r.sends)
    {
      assert EntryOk(c, c.sends[i]);
      if c.sends[i].published {
        assert c2.sends[i] == Repeated(c.sends[i]) && !c2.sends[i].paused;
        assert r.sends[i] == r.sends[..from][i] == c2.sends[..from][i] == c2.sends[i];
      }
    }
  }

  // ------------------------------------------------------------------ the session is absent

  ghost predicate NoneFleeting(c: Client, i: nat) {
    forall j | i <= j < |c.sends| :: !Fleeting(c.maxOut, c.sends[j])
  }

  /** With none fleeting, resuming removes nobody. */
  lemma {:induction false} ResumeSinceRemovesNone(c: Client, i: nat)
    requires NoneFleeting(c, 0)
    ensures var r := ResumeSince(c, i); r.ops == c.ops && |r.sends| == |c.sends| && NoneFleeting(r, 0)
    ensures ResumeSince(c, i).fault == c.fault
    decreases PausedCount(c.sends), |c.sends| - i
  {
    if i < |c.sends| {
      if !c.sends[i].paused {
        ResumeSinceRemovesNone(c, i + 1);
      } else if CanSend(c, i) {
        assert Lasting(c, c.sends[i]);
        ResumePublishes(c, i);
        var d := Resume(c, i);
        assert forall j | 0 <= j < |d.sends| && j != i :: d.sends[j] == c.sends[j];
        ResumeSinceRemovesNone(d, i);
      }
    }
  }

  /** Resuming from the start leaves the first entry not paused. */
  lemma {:induction false} FirstIsResumed(c: Client)
    ensures var r := ResumeSince(c, 0); r.sends != [] ==> !r.sends[0].paused
    decreases PausedCount(c.sends)
  {
    if c.sends != [] {
      if c.sends[0].paused {
        FirstIsResumed(Resume(c, 0));
      } else {
        ResumeSinceCarries(c, 1, 1);
        var r := ResumeSince(c, 1);
        assert r.sends[0] == r.sends[..1][0] == c.sends[..1][0];
      }
    }
  }

  /** The walk does not get past a null entry. */
  lemma {:induction false} NullStopsWalk(c: Client, k: nat, q: nat)
    requires k <= q < |c.ops.refs| && c.ops.refs[q] == Null
    ensures TerminateWalk(c, k).fault
    decreases |c.sends|, |c.ops.refs| - k
  {
    match c.ops.refs[k]
    case Null =>
    case OtherRef => NullStopsWalk(c, k + 1, q);
    case SendRef(id) =>
      var i := IndexOf(c.sends, id);
      if i < |c.sends| {
        CompleteCarries(c, i, Aborted, 0);
        NullStopsWalk(CompleteWithCb(c, i, Aborted), k + 1, q);
      }
  }

  // ------------------------------------------------------------------ one turn of the walk

  lemma {:induction false} SendRefsSplit(refs: seq<Ref>, k: nat)
    requires k <= |refs|
    ensures SendRefs(refs) == SendRefs(refs[..k]) + SendRefs(refs[k..])
  {
    if k > 0 {
      SendRefsSplit(refs[1..], k - 1);
      assert refs[..k][1..] == refs[1..][..k - 1];
      assert refs[k..] == refs[1..][k - 1..];
    }
  }

  lemma {:induction false} SendRefsMember(refs: seq<Ref>, q: nat)
    requires q < |refs| && refs[q].SendRef?
    ensures refs[q].id in SendRefs(refs)
  {
    if q > 0 { SendRefsMember(refs[1..], q - 1); }
  }

  lemma {:induction false} SendRefsWitness(refs: seq<Ref>, id: int) returns (q: nat)
    requires id in SendRefs(refs)
    ensures q < |refs| && refs[q] == SendRef(id)
  {
    if refs[0] == SendRef(id) {
      q := 0;
    } else {
      assert id in SendRefs(refs[1..]);
      q := SendRefsWitness(refs[1..], id);
      q := q + 1;
    }
  }

  /** Before each turn: the walk has left only nulls and other operations behind it. */
  ghost predicate Walking(c: Client, k: nat) {
    var walking :=
      && Good(c) && Tidy(c) && !c.locked && !c.session.disconnecting
      && k <= |c.ops.refs| && SendRefs(c.ops.refs[..k]) == [];
    walking
  }

  /** The next publish the walk meets is the first of the list. */
  lemma WalkMeetsFirst(c: Client, k: nat)
    requires Walking(c, k) && k < |c.ops.refs| && c.ops.refs[k].SendRef?
    ensures c.sends != [] && c.sends[0].id == c.ops.refs[k].id && IndexOf(c.sends, c.ops.refs[k].id) == 0
  {
    SendRefsSplit(c.ops.refs, k);
    assert c.ops.refs[k..][0] == c.ops.refs[k];
    assert Ids(c.sends)[0] == c.ops.refs[k].id;
  }

  lemma WalkTurn(c: Client, k: nat)
    requires Walking(c, k) && k < |c.ops.refs| && c.ops.refs[k].SendRef?
    requires c.sends != [] && c.sends[0].issued && c.sends[0].id == c.ops.refs[k].id
    requires Tidy(CompleteWithCb(c, 0, Aborted))
    ensures var r := CompleteWithCb(c, 0, Aborted).ops.refs; |r| == |c.ops.refs| && SendRefs(r[..k + 1]) == []
  {
    CompleteCarries(c, 0, Aborted, 0);
    NulledStayEmpty(c.ops.refs[..k], CompleteWithCb(c, 0, Aborted).ops.refs[..k]);
    FirstIsNulled(c, k);
    EmptyOneLonger(CompleteWithCb(c, 0, Aborted).ops.refs, k);
  }

  lemma FirstIsNulled(c: Client, k: nat)
    requires Good(c) && c.sends != [] && c.sends[0].issued && Tidy(CompleteWithCb(c, 0, Aborted))
    requires k < |c.ops.refs| && c.ops.refs[k] == SendRef(c.sends[0].id)
    requires OnlyNulled(c.ops.refs, CompleteWithCb(c, 0, Aborted).ops.refs)
    ensures CompleteWithCb(c, 0, Aborted).ops.refs[k] == Null
  {
    var r := CompleteWithCb(c, 0, Aborted);
    if r.ops.refs[k] != Null {
      SendRefsMember(r.ops.refs, k);
      GoneIsGone(c, 0, Aborted);
    }
  }

  lemma EmptyOneLonger(refs: seq<Ref>, k: nat)
    requires k < |refs| && refs[k] == Null && SendRefs(refs[..k]) == []
    ensures SendRefs(refs[..k + 1]) == []
  {
    assert refs[..k + 1] == refs[..k] + [Null];
    SendRefsAppended(refs[..k], Null);
  }

  lemma CompletedSession(c: Client)
    requires Good(c) && c.sends != [] && c.sends[0].issued
    ensures var r := CompleteWithCb(c, 0, Aborted); Good(r) && r.locked == c.locked && r.session == c.session
  {
    CompleteKeeps(c, 0, Aborted);
  }

  lemma WalkStep(c: Client, k: nat)
    requires Walking(c, k) && k < |c.ops.refs| && c.ops.refs[k].SendRef?
    ensures c.sends != [] && Walking(CompleteWithCb(c, 0, Aborted), k + 1)
    ensures |CompleteWithCb(c, 0, Aborted).ops.refs| == |c.ops.refs|
  {
    WalkMeetsFirst(c, k);
    assert EntryOk(c, c.sends[0]);
    CompletedSession(c);
    CompleteTidy(c, 0, Aborted);
    WalkTurn(c, k);
  }

  lemma {:induction false} NulledStayEmpty(a: seq<Ref>, b: seq<Ref>)
    requires |a| == |b| && SendRefs(a) == [] && forall q | 0 <= q < |a| :: b[q] == a[q] || b[q] == Null
    ensures SendRefs(b) == []
  {
    if a != [] { NulledStayEmpty(a[1..], b[1..]); }
  }

  /** A publish that completes is no longer in the list. */
  lemma GoneIsGone(c: Client, i: nat, status: Status)
    requires Good(c) && i < |c.sends| && c.sends[i].issued && !status.Complete? && MayComplete(c, i, status)
    ensures c.sends[i].id !in Ids(CompleteWithCb(c, i, status).sends)
  {
    var r := CompleteWithCb(c, i, status);
    CompleteKeeps(c, i, status);
    LiveIdsErased(c.ordering, c.sends, i);
    forall k | 0 <= k < |r.sends| ensures Ids(r.sends)[k] != c.sends[i].id {
      assert r.sends[k].id in LiveIds(r.sends);
    }
  }

  // ------------------------------------------------------------------ the two directions

  /** Without nulls ahead and with none fleeting behind the first, the walk ends every publish. */
  lemma {:induction false} WalkSucceeds(c: Client, k: nat)
    requires Walking(c, k) && !c.fault && Null !in c.ops.refs[k..] && NoneFleeting(c, 1)
    ensures !TerminateWalk(c, k).fault && TerminateWalk(c, k).sends == []
    decreases |c.sends|, |c.ops.refs| - k
  {
    if k == |c.ops.refs| {
      assert c.ops.refs[..k] == c.ops.refs;
    } else {
      assert c.ops.refs[k] == c.ops.refs[k..][0];
      assert c.ops.refs[k + 1..] == c.ops.refs[k..][1..];
      if c.ops.refs[k].OtherRef? {
        WalkPassesOther(c, k);
        WalkSucceeds(c, k + 1);
      } else {
        WalkMeetsFirst(c, k);
        WalkStep(c, k);
        WalkTurnRemovesOne(c, k);
        WalkSucceeds(CompleteWithCb(c, 0, Aborted), k + 1);
      }
    }
  }

  lemma WalkTurnRemovesOne(c: Client, k: nat)
    requires Walking(c, k) && k < |c.ops.refs| && c.ops.refs[k].SendRef? && NoneFleeting(c, 1)
    requires Null !in c.ops.refs[k..] && c.sends != [] && c.sends[0].id == c.ops.refs[k].id
    ensures var r := CompleteWithCb(c, 0, Aborted);
      r.fault == c.fault && NoneFleeting(r, 1) && |r.ops.refs| == |c.ops.refs| && Null !in r.ops.refs[k + 1..]
  {
    var d := Erase(c, 0);
    assert forall j | 0 <= j < |d.sends| :: d.sends[j] == c.sends[j + 1];
    assert NoneFleeting(d, 0);
    ResumeSinceRemovesNone(d, 0);
    forall q | k + 1 <= q < |c.ops.refs| ensures d.ops.refs[q] != Null {
      assert c.ops.refs[q] == c.ops.refs[k..][q - k];
      if c.ops.refs[q] == SendRef(c.sends[0].id) { RefsDiffer(c, k, q); }
    }
  }

  /** One publish, one entry. */
  lemma RefsDiffer(c: Client, k: nat, q: nat)
    requires Tidy(c) && k < q < |c.ops.refs| && c.ops.refs[k].SendRef? && c.ops.refs[q].SendRef?
    ensures c.ops.refs[k] != c.ops.refs[q]
  {
    var refs := c.ops.refs;
    SendRefsSplit(refs, k + 1);
    assert refs[..k + 1][k] == refs[k];
    SendRefsMember(refs[..k + 1], k);
    assert refs[k + 1..][q - k - 1] == refs[q];
    SendRefsMember(refs[k + 1..], q - k - 1);
    var i :| 0 <= i < |SendRefs(refs[..k + 1])| && SendRefs(refs[..k + 1])[i] == refs[k].id;
    var j :| 0 <= j < |SendRefs(refs[k + 1..])| && SendRefs(refs[k + 1..])[j] == refs[q].id;
    var m := |SendRefs(refs[..k + 1])| + j;
    assert SendRefs(refs)[i] == refs[k].id && SendRefs(refs)[m] == refs[q].id;
    assert Ids(c.sends)[i] == c.sends[i].id && Ids(c.sends)[m] == c.sends[m].id;
  }

  /** The walk is not over while there are publishes. */
  lemma WalkHasMore(c: Client, k: nat)
    requires Walking(c, k) && c.sends != []
    ensures k < |c.ops.refs|
  {
    assert c.ops.refs[..|c.ops.refs|] == c.ops.refs;
    assert Ids(c.sends)[0] == c.sends[0].id;
  }

  /** A fleeting publish behind the first one is resumed and gone before the walk comes to it. */
  lemma {:induction false} WalkFails(c: Client, k: nat, p: nat)
    requires Walking(c, k) && 1 <= p < |c.sends| && Fleeting(c.maxOut, c.sends[p])
    ensures TerminateWalk(c, k).fault
    decreases |c.sends|, |c.ops.refs| - k
  {
    WalkHasMore(c, k);
    if c.ops.refs[k].OtherRef? {
      WalkPassesOther(c, k);
      WalkFails(c, k + 1, p);
    } else if c.ops.refs[k].SendRef? {
      WalkFailsAtSend(c, k, p);
    }
  }

  lemma WalkPassesOther(c: Client, k: nat)
    requires Walking(c, k) && k < |c.ops.refs| && c.ops.refs[k].OtherRef?
    ensures Walking(c, k + 1)
  {
    assert c.ops.refs[..k + 1] == c.ops.refs[..k] + [OtherRef];
    SendRefsAppended(c.ops.refs[..k], OtherRef);
  }

  lemma {:induction false} WalkFailsAtSend(c: Client, k: nat, p: nat)
    requires Walking(c, k) && 1 <= p < |c.sends| && Fleeting(c.maxOut, c.sends[p])
    requires k < |c.ops.refs| && c.ops.refs[k].SendRef?
    ensures TerminateWalk(c, k).fault
    decreases |c.sends|, |c.ops.refs| - k, 0
  {
    WalkMeetsFirst(c, k);
    WalkStep(c, k);
    WalkUnfoldsAtSend(c, k);
    var j := StillFleeting(c, k, p);
    if j == 0 {
      var q := NulledAhead(c, k, p);
      NullStopsWalk(CompleteWithCb(c, 0, Aborted), k + 1, q);
    } else {
      WalkFails(CompleteWithCb(c, 0, Aborted), k + 1, j);
    }
  }

  lemma WalkUnfoldsAtSend(c: Client, k: nat)
    requires k < |c.ops.refs| && c.ops.refs[k].SendRef? && c.sends != [] && IndexOf(c.sends, c.ops.refs[k].id) == 0
    ensures TerminateWalk(c, k) == TerminateWalk(CompleteWithCb(c, 0, Aborted), k + 1)
  {
  }

  /** Where the fleeting publish is after the turn; 0 when it has left. */
  lemma StillFleeting(c: Client, k: nat, p: nat) returns (j: nat)
    requires Walking(c, k) && 1 <= p < |c.sends| && Fleeting(c.maxOut, c.sends[p])
    requires Walking(CompleteWithCb(c, 0, Aborted), k + 1)
    ensures var r := CompleteWithCb(c, 0, Aborted);
      if j == 0 then IndexOf(r.sends, c.sends[p].id) == |r.sends| else j < |r.sends| && Fleeting(r.maxOut, r.sends[j])
  {
    j := IndexOf(CompleteWithCb(c, 0, Aborted).sends, c.sends[p].id);
    if j < |CompleteWithCb(c, 0, Aborted).sends| { FleetingStaysBehind(c, p, j); } else { j := 0; }
  }

  lemma FleetingStaysBehind(c: Client, p: nat, j: nat)
    requires Good(c) && !c.locked && !c.session.disconnecting && 1 <= p < |c.sends| && Fleeting(c.maxOut, c.sends[p])
    requires var r := CompleteWithCb(c, 0, Aborted);
      j < |r.sends| && r.sends[j].id == c.sends[p].id && !r.locked && Good(r)
    ensures j >= 1 && Fleeting(CompleteWithCb(c, 0, Aborted).maxOut, CompleteWithCb(c, 0, Aborted).sends[j])
  {
    var r, d := CompleteWithCb(c, 0, Aborted), Erase(c, 0);
    assert EntryOk(c, c.sends[0]);
    CompleteKeeps(c, 0, Aborted);
    assert d.sends[p - 1] == c.sends[p];
    assert Kin(d.sends[p - 1], r.sends[j]);
    assert EntryOk(r, r.sends[j]);
    FirstIsResumed(d);
  }

  lemma NulledAhead(c: Client, k: nat, p: nat) returns (q: nat)
    requires Walking(c, k) && k < |c.ops.refs| && c.ops.refs[k].SendRef? && 1 <= p < |c.sends|
    requires c.ops.refs[k] == SendRef(c.sends[0].id)
    requires Walking(CompleteWithCb(c, 0, Aborted), k + 1)
    requires IndexOf(CompleteWithCb(c, 0, Aborted).sends, c.sends[p].id) == |CompleteWithCb(c, 0, Aborted).sends|
    ensures var refs := CompleteWithCb(c, 0, Aborted).ops.refs; k + 1 <= q < |refs| && refs[q] == Null
  {
    var r := CompleteWithCb(c, 0, Aborted);
    var id := c.sends[p].id;
    CompleteCarries(c, 0, Aborted, 0);
    q := RefAhead(c, k, p);
    assert forall m | 0 <= m < |r.sends| :: Ids(r.sends)[m] != id;
    if r.ops.refs[q] != Null { SendRefsMember(r.ops.refs, q); }
  }

  /** What is ahead of the walk names the publishes that are left. */
  lemma RestNamesAll(c: Client, k: nat)
    requires Walking(c, k)
    ensures SendRefs(c.ops.refs[k..]) == Ids(c.sends)
  {
    SendRefsSplit(c.ops.refs, k);
  }

  /** The entry of a publish behind the first lies behind the walk's next one. */
  lemma RefAhead(c: Client, k: nat, p: nat) returns (q: nat)
    requires Walking(c, k) && k < |c.ops.refs| && 1 <= p < |c.sends| && c.ops.refs[k] == SendRef(c.sends[0].id)
    ensures k + 1 <= q < |c.ops.refs| && c.ops.refs[q] == SendRef(c.sends[p].id)
  {
    var rest := c.ops.refs[k..];
    RestNamesAll(c, k);
    q := RefBehindFirst(rest, c.sends, p);
    q := q + k;
  }

  lemma RefBehindFirst(rest: seq<Ref>, sends: seq<Send>, p: nat) returns (m: nat)
    requires SendRefs(rest) == Ids(sends) && 1 <= p < |sends| && Rising(sends)
    requires rest != [] && rest[0] == SendRef(sends[0].id)
    ensures 1 <= m < |rest| && rest[m] == SendRef(sends[p].id)
  {
    assert Ids(sends)[p] == sends[p].id;
    m := SendRefsWitness(rest, sends[p].id);
  }

  /** A reconnection without a session ends every old publish with Aborted, unless m_ops holds
      an entry nulled before, or a waiting publish behind the first one would leave as soon as
      it is resumed (QoS 0, or too long for the output buffer): then the walk meets a null. */
  lemma SessionAbsentMeetsNullExactly(c: Client)
    requires Good(c) && Tidy(c) && c.session.connecting && !c.fault
    ensures BrokerConnected(c, false).fault <==>
              Null in c.ops.refs || exists p | 1 <= p < |c.sends| :: Fleeting(c.maxOut, c.sends[p])
    ensures !BrokerConnected(c, false).fault ==> BrokerConnected(c, false).sends == []
  {
    var c1 := c.(session := c.session.(connected := true, connecting := false));
    ConnectedKeeps(c, true);
    TidyLike(c, c1);
    assert Walking(c1, 0);
    assert c1.ops.refs[0..] == c1.ops.refs;
    if Null in c.ops.refs {
      var q :| 0 <= q < |c.ops.refs| && c.ops.refs[q] == Null;
      NullStopsWalk(c1, 0, q);
    } else if p :| 1 <= p < |c.sends| && Fleeting(c.maxOut, c.sends[p]) {
      assert Fleeting(c1.maxOut, c1.sends[p]);
      WalkFails(c1, 0, p);
    } else {
      assert NoneFleeting(c1, 1);
      WalkSucceeds(c1, 0);
    }
  }
}
