/** What an acknowledgement out of turn makes the client do: repeat everything up to the
    publish it names. */
module SendForced {
  import opened PacketIds
  import opened History
  import opened SendModel
  import opened SendInvariant
  import opened SendSteps
  import opened SendRuns
  import opened SendSession
  import opened SendWakeups

  /** With an attempt left the publish has one more packet and stays; without, it is gone, has no
      more packets, and its callback, the first that ends it, says Timeout. */
  ghost predicate Served(c: Client, d: Client, s: Send) {
    if s.attempts < s.total then
      && Marked(s).(attempts := s.attempts + 1, armed := true) in d.sends
      && Pubs(d.log, s.id) == Pubs(c.log, s.id) + (if s.acked then 0 else 1)
      && Rels(d.log, s.id) == Rels(c.log, s.id) + (if s.acked then 1 else 0)
    else
      && s.id !in LiveIds(d.sends)
      && Pubs(d.log, s.id) == Pubs(c.log, s.id) && Rels(d.log, s.id) == Rels(c.log, s.id)
      && Ends(c.log, s.id) == 0 && Contains(d.log, Callback(s.id, s.qos, Timeout))
  }

  predicate Untouched(c: Client, d: Client, s: Send) {
    s in d.sends && SameMarks(c.log, d.log, s.id)
  }

  /** One turn of the walk serves entry `i` and leaves the others on the wire alone. */
  ghost predicate OneServed(c: Client, d: Client, i: int) {
    forall j | 0 <= j < |c.sends| && c.sends[j].published ::
      if j == i then Served(c, d, c.sends[j]) else Untouched(c, d, c.sends[j])
  }

  /** The walk from entry `i` serves everybody on the wire up to `target`; it leaves alone those
      before entry `i` and, if it is `calm`, those behind the target. */
  ghost predicate ServedBetween(c: Client, d: Client, i: int, target: int, calm: bool) {
    forall j | 0 <= j < |c.sends| && c.sends[j].published ::
      if i <= j && c.sends[j].id <= target then Served(c, d, c.sends[j])
      else j < i || calm ==> Untouched(c, d, c.sends[j])
  }

  lemma ResentServes(c: Client, i: nat)
    requires Good(c) && i < |c.sends| && c.sends[i].published && c.sends[i].attempts < c.sends[i].total
    ensures var d := ResendDup(c, i, Resend);
      && OneServed(c, d, i) && d.fault == c.fault && |d.sends| == |c.sends|
      && d.sends == c.sends[i := Marked(c.sends[i]).(attempts := c.sends[i].attempts + 1, armed := true)]
  {
    RepeatFits(c, i);
    ResendDupIs(c, i, Resend);
    RepeatServes(c, i, Resent(c, i, Resend, c.sends[i].attempts + 1));
  }

  lemma RepeatServes(c: Client, i: nat, d: Client)
    requires ListOk(c) && i < |c.sends| && c.sends[i].attempts < c.sends[i].total
    requires d == Resent(c, i, Resend, c.sends[i].attempts + 1)
    ensures OneServed(c, d, i)
  {
    forall j | 0 <= j < |c.sends| && c.sends[j].published && j != i ensures Untouched(c, d, c.sends[j]) {
      OtherIds(c.ordering, c.sends, i, j);
      assert d.sends[j] == c.sends[j];
    }
    assert d.sends[i] in d.sends;
  }

  /** A publish whose attempts are used up leaves; those on the wire stay as they are. */
  lemma TimedOutServes(c: Client, i: nat)
    requires Good(c) && i < |c.sends| && c.sends[i].published && c.sends[i].attempts >= c.sends[i].total
    ensures var d := ResendDup(c, i, Resend);
      && OneServed(c, d, i) && d.fault == c.fault && |d.sends| < |c.sends|
      && i <= |d.sends| && d.sends[..i] == c.sends[..i] && Follows(Erase(c, i), d)
  {
    assert EntryOk(c, c.sends[i]);
    var e, d := Erase(c, i), ResendDup(c, i, Resend);
    assert d == CompleteWithCb(c, i, Timeout);
    CompleteKeeps(c, i, Timeout);
    CompleteCarries(c, i, Timeout, i);
    LiveIdsErased(c.ordering, c.sends, i);
    NotWaiting(c, i);
    forall j | 0 <= j < |c.sends| && c.sends[j].published
      ensures if j == i then Served(c, d, c.sends[j]) else Untouched(c, d, c.sends[j])
    {
      assert SameMarks(e.log, d.log, c.sends[j].id) by { NotWaitingOther(c, i, j); }
      if j != i { PublishedStays(c, i, d, j); }
    }
  }

  lemma NotWaiting(c: Client, i: nat)
    requires ListOk(c) && i < |c.sends|
    ensures c.sends[i].id !in WaitingIds(Erase(c, i).sends)
  {
    var e := Erase(c, i);
    forall k | 0 <= k < |e.sends| ensures e.sends[k].id != c.sends[i].id {
      var j := if k < i then k else k + 1;
      assert e.sends[k] == c.sends[j];
      OtherIds(c.ordering, c.sends, i, j);
    }
  }

  lemma NotWaitingOther(c: Client, i: nat, j: nat)
    requires ListOk(c) && i < |c.sends| && j < |c.sends| && c.sends[j].published
    ensures c.sends[j].id !in WaitingIds(Erase(c, i).sends)
  {
    var e := Erase(c, i);
    forall k | 0 <= k < |e.sends| && !e.sends[k].published ensures e.sends[k].id != c.sends[j].id {
      var l := if k < i then k else k + 1;
      assert e.sends[k] == c.sends[l];
      OtherIds(c.ordering, c.sends, l, j);
    }
  }

  lemma PublishedStays(c: Client, i: nat, d: Client, j: nat)
    requires ListOk(c) && i < |c.sends| && j < |c.sends| && j != i && c.sends[j].published
    requires Follows(Erase(c, i), d)
    ensures c.sends[j] in d.sends
  {
    var e := Erase(c, i);
    var k := if j < i then j else j - 1;
    assert e.sends[k] == c.sends[j] && EntryOk(c, c.sends[j]);
    assert Lasting(e, e.sends[k]);
    var l :| 0 <= l < |d.sends| && d.sends[l].id == c.sends[j].id;
    assert Kin(e.sends[k], d.sends[l]);
  }

  /** First entry `i`, then the rest. */
  lemma ServedOn(c: Client, d: Client, e: Client, i: nat, next: nat, target: int, calm: bool)
    requires Good(c) && ListOk(d) && i < |c.sends| && c.sends[i].published && OneServed(c, d, i) && d.ordering == c.ordering
    requires i <= next <= |d.sends| && d.sends[..i] == c.sends[..i] && (calm ==> c.sends[i].id <= target)
    requires if next == i then c.sends[i].attempts >= c.sends[i].total
             else next == i + 1 && d.sends[i].id == c.sends[i].id && c.sends[i].attempts < c.sends[i].total
    requires ServedBetween(d, e, next, target, calm)
    requires c.sends[i].attempts >= c.sends[i].total ==> Served(c, e, c.sends[i])
    ensures ServedBetween(c, e, i, target, calm)
  {
    forall j | 0 <= j < |c.sends| && c.sends[j].published
      ensures if i <= j && c.sends[j].id <= target then Served(c, e, c.sends[j])
              else j < i || calm ==> Untouched(c, e, c.sends[j])
    {
      if j == i {
        if next == i + 1 { RepeatedFirst(c, d, e, i, target, calm); }
      } else {
        var l := PlaceOf(d, c.sends[j]);
        PlaceKept(c, d, i, next, j, l);
        assert Recorded(c.ordering, c.log, c.sends[j]);
      }
    }
  }

  lemma RepeatedFirst(c: Client, d: Client, e: Client, i: nat, target: int, calm: bool)
    requires ListOk(d) && i < |c.sends| && i < |d.sends| && c.sends[i].published && OneServed(c, d, i)
    requires d.sends[i].id == c.sends[i].id && c.sends[i].attempts < c.sends[i].total
    requires ServedBetween(d, e, i + 1, target, calm)
    ensures Served(c, e, c.sends[i])
  {
    var t := Marked(c.sends[i]).(attempts := c.sends[i].attempts + 1, armed := true);
    assert Served(c, d, c.sends[i]);
    var l := PlaceOf(d, t);
    if l != i { OtherIds(d.ordering, d.sends, l, i); }
    assert Untouched(d, e, d.sends[i]);
  }

  lemma PlaceOf(d: Client, s: Send) returns (l: nat)
    requires s in d.sends
    ensures l < |d.sends| && d.sends[l] == s
  {
    l :| l < |d.sends| && d.sends[l] == s;
  }

  /** What was before entry `i` is still before `next`, what was behind it is behind. */
  lemma PlaceKept(c: Client, d: Client, i: nat, next: nat, j: nat, l: nat)
    requires ListOk(c) && ListOk(d) && i < |c.sends| && j < |c.sends| && j != i && l < |d.sends|
    requires i <= next <= |d.sends| && d.sends[..i] == c.sends[..i] && d.sends[l].id == c.sends[j].id
    requires next == i || (next == i + 1 && d.sends[i].id == c.sends[i].id)
    ensures j < i <==> l < next
  {
    OtherIds(c.ordering, c.sends, i, j);
    if j < i {
      assert d.sends[j] == d.sends[..i][j] == c.sends[..i][j];
      if l != j { OtherIds(d.ordering, d.sends, l, j); }
    } else if l < i {
      assert d.sends[l] == d.sends[..i][l] == c.sends[..i][l];
      OtherIds(c.ordering, c.sends, l, j);
    }
  }

  lemma {:induction false} ResendAllUntilExtends(c: Client, target: int, i: nat)
    ensures Extends(ResendAllUntil(c, target, i).log, c.log)
    decreases |c.sends| - i
  {
    if i < |c.sends| {
      var d := ForceDupResend(c, i);
      ForceDupResendExtends(c, i);
      if d.fault || c.sends[i].id == target || i >= |d.sends| {
      } else {
        var next := if d.sends[i].id == c.sends[i].id then i + 1 else i;
        ResendAllUntilExtends(d, target, next);
        ExtendsTransitive(ResendAllUntil(d, target, next).log, d.log, c.log);
      }
    }
  }

  lemma ForceDupResendExtends(c: Client, i: nat)
    requires i < |c.sends|
    ensures Extends(ForceDupResend(c, i).log, c.log)
  {
    CompleteCarries(c, i, Timeout, 0);
    CompleteCarries(With(c, i, Marked(c.sends[i])), i, InternalError, 0);
  }

  /** A publish gone before the rest of the walk stays gone and silent. */
  lemma GoneStaysGone(c: Client, d: Client, e: Client, s: Send)
    requires Good(c) && Good(d) && Good(e) && e.ordering == d.ordering && e.nextId == d.nextId == c.nextId
    requires Extends(e.log, d.log) && 1 <= s.id < c.nextId && Served(c, d, s) && s.attempts >= s.total
    ensures Served(c, e, s)
  {
    assert Ends(d.log, s.id) == 1;
    EndedIsSilent(d.ordering, e.log, d.log, s.id);
    ContainsMore(e.log, d.log, Callback(s.id, s.qos, Timeout));
  }

  lemma {:induction false} ContainsMore(g: Log, h: Log, e: Event)
    requires Extends(g, h) && Contains(h, e)
    ensures Contains(g, e)
  {
    if g != h { ContainsMore(g.past, h, e); }
  }

  /** The publish is in the list until it is acknowledged or times out: it is on the wire, or
      stays when it is resumed, or nothing is resumed because the session is going down. */
  predicate Stays(c: Client, s: Send) {
    s.published || Lasting(c, s) || c.session.disconnecting
  }

  /** The target is still to come, and stays if it is resumed on the way. */
  ghost predicate Awaited(c: Client, target: int, i: nat) {
    exists k :: i <= k < |c.sends| && c.sends[k].id == target && c.sends[k].issued && Stays(c, c.sends[k])
  }

  ghost predicate ServedUpTo(c: Client, target: int, i: nat, calm: bool) {
    var r := ResendAllUntil(c, target, i);
    var served := Good(r) && (calm ==> !r.fault) && ServedBetween(c, r, i, target, calm);
    served
  }

  /** The walk from entry `i`, whatever it is to stop at and whether it gets there or not: nobody
      on the wire is missed. */
  lemma {:induction false} ServesUpTo(c: Client, target: int, i: nat, calm: bool)
    requires Good(c) && !c.fault && i <= |c.sends| && (calm ==> Awaited(c, target, i))
    ensures ServedUpTo(c, target, i, calm)
    decreases |c.sends| - i, 1
  {
    if i == |c.sends| {
      NobodyMissed(c, c, i, target, calm);
    } else if c.sends[i].paused {
      ServesFromPaused(c, target, i, calm);
    } else if c.sends[i].published {
      if c.sends[i].attempts < c.sends[i].total { ServesResent(c, target, i, calm); } else { ServesTimedOut(c, target, i, calm); }
    } else {
      AtPrepared(c, target, i, calm);
    }
  }

  /** Nobody is on the wire from entry `i` on, and nothing happens. */
  lemma NobodyMissed(c: Client, r: Client, i: nat, target: int, calm: bool)
    requires r.sends == c.sends && r.log == c.log && forall j | i <= j < |c.sends| :: !c.sends[j].published
    ensures ServedBetween(c, r, i, target, calm)
  {
  }

  lemma AtPrepared(c: Client, target: int, i: nat, calm: bool)
    requires Good(c) && !c.fault && i < |c.sends| && !c.sends[i].paused && !c.sends[i].published
    requires calm ==> Awaited(c, target, i)
    ensures ServedUpTo(c, target, i, calm)
  {
    assert EntryOk(c, c.sends[i]);
    if i < |c.sends| - 1 { LineAt(c.ordering, c.sends, i, i + 1); }
    var r := ResendAllUntil(c, target, i);
    assert r == c.(fault := true);
    ResendAllUntilKeeps(c, target, i);
    NobodyMissed(c, r, i, target, calm);
  }

  /** From a paused entry on there is nobody to serve. */
  lemma {:induction false} ServesFromPaused(c: Client, target: int, i: nat, calm: bool)
    requires Good(c) && !c.fault && i < |c.sends| && c.sends[i].paused && (calm ==> Awaited(c, target, i))
    ensures ServedUpTo(c, target, i, calm)
    decreases |c.sends| - i, 0
  {
    NonePublishedFrom(c, i);
    if c.sends[i].id == target {
      assert ResendAllUntil(c, target, i) == c;
      NobodyMissed(c, c, i, target, calm);
    } else {
      ServesUpTo(c, target, i + 1, calm);
      assert ResendAllUntil(c, target, i) == ResendAllUntil(c, target, i + 1);
    }
  }

  lemma NonePublishedFrom(c: Client, i: nat)
    requires ListOk(c) && i < |c.sends| && c.sends[i].paused
    ensures forall j | i <= j < |c.sends| :: !c.sends[j].published
  {
    assert EntryOk(c, c.sends[i]);
    forall j | i < j < |c.sends| ensures !c.sends[j].published {
      LineAt(c.ordering, c.sends, i, j);
    }
  }

  /** The turn was the last one: the one named was served. */
  lemma LastServed(c: Client, d: Client, i: nat, calm: bool)
    requires ListOk(c) && i < |c.sends| && OneServed(c, d, i)
    ensures ServedBetween(c, d, i, c.sends[i].id, calm)
  {
    forall j | 0 <= j < |c.sends| && j != i ensures i < j <==> c.sends[i].id < c.sends[j].id {
      OtherIds(c.ordering, c.sends, i, j);
    }
  }

  lemma TargetBehind(c: Client, target: int, i: nat)
    requires ListOk(c) && i < |c.sends| && c.sends[i].id != target && Awaited(c, target, i)
    ensures c.sends[i].id < target && Awaited(c, target, i + 1)
  {
    var k :| i <= k < |c.sends| && c.sends[k].id == target && c.sends[k].issued && Stays(c, c.sends[k]);
    OtherIds(c.ordering, c.sends, i, k);
  }

  lemma {:induction false} ServesResent(c: Client, target: int, i: nat, calm: bool)
    requires Good(c) && !c.fault && i < |c.sends| && c.sends[i].published && !c.sends[i].paused
    requires c.sends[i].attempts < c.sends[i].total && (calm ==> Awaited(c, target, i))
    ensures ServedUpTo(c, target, i, calm)
    decreases |c.sends| - i, 0
  {
    var d := ResendDup(c, i, Resend);
    ResentServes(c, i);
    ResendDupKeeps(c, i);
    WalkUnfolds(c, target, i, d);
    if c.sends[i].id == target {
      LastServed(c, d, i, calm);
    } else {
      if calm { AwaitedResent(c, target, i, d); }
      ServesUpTo(d, target, i + 1, calm);
      ServedOn(c, d, ResendAllUntil(d, target, i + 1), i, i + 1, target, calm);
    }
  }

  lemma AwaitedResent(c: Client, target: int, i: nat, d: Client)
    requires Good(c) && i < |c.sends| && c.sends[i].published && c.sends[i].attempts < c.sends[i].total
    requires c.sends[i].id != target && Awaited(c, target, i) && d == ResendDup(c, i, Resend)
    ensures c.sends[i].id < target && Awaited(d, target, i + 1)
  {
    TargetBehind(c, target, i);
    RepeatFits(c, i);
    ResendDupIs(c, i, Resend);
    var k :| i + 1 <= k < |c.sends| && c.sends[k].id == target && c.sends[k].issued && Stays(c, c.sends[k]);
    assert d.sends[k] == c.sends[k];
  }

  lemma {:induction false} ServesTimedOut(c: Client, target: int, i: nat, calm: bool)
    requires Good(c) && !c.fault && i < |c.sends| && c.sends[i].published && !c.sends[i].paused
    requires c.sends[i].attempts >= c.sends[i].total && (calm ==> Awaited(c, target, i))
    ensures ServedUpTo(c, target, i, calm)
    decreases |c.sends| - i, 0
  {
    var d := ResendDup(c, i, Resend);
    TimedOutServes(c, i);
    ResendDupKeeps(c, i);
    if c.sends[i].id == target {
      WalkUnfolds(c, target, i, d);
      LastServed(c, d, i, calm);
    } else {
      if calm { AwaitedTimedOut(c, target, i, d); }
      if i < |d.sends| { ServesUpTo(d, target, i, calm); }
      SpentGoesOn(c, target, i, d, calm);
    }
  }

  lemma SpentGoesOn(c: Client, target: int, i: nat, d: Client, calm: bool)
    requires Good(c) && !c.fault && i < |c.sends| && c.sends[i].published && !c.sends[i].paused
    requires c.sends[i].attempts >= c.sends[i].total && c.sends[i].id != target
    requires d == ResendDup(c, i, Resend) && Good(d) && (calm ==> c.sends[i].id < target && i < |d.sends|)
    requires i < |d.sends| ==> ServedUpTo(d, target, i, calm)
    ensures ServedUpTo(c, target, i, calm)
  {
    TimedOutServes(c, i);
    WalkUnfolds(c, target, i, d);
    var r := ResendAllUntil(c, target, i);
    if i < |d.sends| {
      assert d.sends[i].id in LiveIds(d.sends);
      ResendAllUntilExtends(d, target, i);
      ServedAfterGone(c, target, i, d, r, calm);
    } else {
      NobodyMissed(d, r, i, target, calm);
      ResendAllUntilKeeps(c, target, i);
      ServedAfterGone(c, target, i, d, r, calm);
    }
  }

  lemma AwaitedTimedOut(c: Client, target: int, i: nat, d: Client)
    requires Good(c) && Good(d) && i < |c.sends| && c.sends[i].published && c.sends[i].attempts >= c.sends[i].total
    requires c.sends[i].id != target && Awaited(c, target, i) && d == ResendDup(c, i, Resend)
    requires Follows(Erase(c, i), d) && i <= |d.sends| && d.sends[..i] == c.sends[..i]
    ensures c.sends[i].id < target && Awaited(d, target, i) && i < |d.sends|
  {
    TargetBehind(c, target, i);
    var k: nat :| i + 1 <= k < |c.sends| && c.sends[k].id == target && c.sends[k].issued && Stays(c, c.sends[k]);
    var m := TargetStays(c, i, k, d);
  }

  lemma ServedAfterGone(c: Client, target: int, i: nat, d: Client, e: Client, calm: bool)
    requires Good(c) && Good(d) && Good(e) && i < |c.sends| && c.sends[i].published
    requires c.sends[i].attempts >= c.sends[i].total && OneServed(c, d, i) && (calm ==> c.sends[i].id <= target)
    requires i <= |d.sends| && d.sends[..i] == c.sends[..i] && d.ordering == c.ordering && d.nextId == c.nextId
    requires e.ordering == d.ordering && e.nextId == d.nextId && Extends(e.log, d.log) && ServedBetween(d, e, i, target, calm)
    ensures ServedBetween(c, e, i, target, calm)
  {
    assert EntryOk(c, c.sends[i]) && Served(c, d, c.sends[i]);
    GoneStaysGone(c, d, e, c.sends[i]);
    ServedOn(c, d, e, i, i, target, calm);
  }

  lemma SpentCompletes(c: Client, i: nat)
    requires i < |c.sends| && c.sends[i].total <= c.sends[i].attempts
    ensures ResendDup(c, i, Resend).sends == OpComplete(c, i).sends
    ensures OpComplete(c, i) == if c.session.disconnecting then Erase(c, i) else ResumeSince(Erase(c, i), i)
  {
    assert ResendDup(c, i, Resend) == CompleteWithCb(c, i, Timeout);
  }

  lemma TargetStays(c: Client, i: nat, k: nat, d: Client) returns (m: nat)
    requires Good(c) && Good(d) && i < k < |c.sends| && c.sends[k].issued
    requires Stays(c, c.sends[k])
    requires d == ResendDup(c, i, Resend) && c.sends[i].attempts >= c.sends[i].total
    requires Follows(Erase(c, i), d) && i <= |d.sends| && d.sends[..i] == c.sends[..i]
    ensures i <= m < |d.sends| && d.sends[m].id == c.sends[k].id && d.sends[m].issued
    ensures Stays(d, d.sends[m])
  {
    if c.session.disconnecting {
      SpentCompletes(c, i);
      m := k - 1;
      SameWhenDown(c, i, k, d);
    } else {
      m := LastingStays(c, i, k, d);
    }
  }

  lemma SameWhenDown(c: Client, i: nat, k: nat, d: Client)
    requires i < k < |c.sends| && c.session.disconnecting && d.session == c.session && d.sends == Without(c.sends, i)
    ensures k - 1 < |d.sends| && d.sends[k - 1] == c.sends[k] && Stays(d, d.sends[k - 1])
  {
  }

  lemma LastingStays(c: Client, i: nat, k: nat, d: Client) returns (m: nat)
    requires ListOk(c) && ListOk(d) && i < k < |c.sends| && c.sends[k].issued
    requires Stays(c, c.sends[k]) && !c.session.disconnecting
    requires Follows(Erase(c, i), d) && i <= |d.sends| && d.sends[..i] == c.sends[..i]
    ensures i <= m < |d.sends| && d.sends[m].id == c.sends[k].id && d.sends[m].issued
    ensures Stays(d, d.sends[m])
  {
    var e := Erase(c, i);
    assert e.sends[k - 1] == c.sends[k] && EntryOk(c, c.sends[k]);
    assert Lasting(e, e.sends[k - 1]);
    m :| 0 <= m < |d.sends| && d.sends[m].id == c.sends[k].id;
    assert Kin(e.sends[k - 1], d.sends[m]);
    PlaceKept(c, d, i, i, k, m);
    StaysOn(c, c.sends[k], d, m);
  }

  lemma StaysOn(c: Client, s: Send, d: Client, m: nat)
    requires ListOk(d) && m < |d.sends| && d.maxOut == c.maxOut && d.nextId == c.nextId && EntryOk(c, s)
    requires Stays(c, s) && s.issued && !c.session.disconnecting
    requires d.sends[m].id == s.id && Kin(s, d.sends[m]) && (d.sends[m].issued || s.id < c.nextId - 1 || !d.locked)
    ensures d.sends[m].issued && Stays(d, d.sends[m])
  {
    assert EntryOk(d, d.sends[m]);
  }

  // ------------------------------------------------------------------ those held back

  /** A publish held back is still so, or has left as soon as it was resumed, or went out on the
      way and was then served in its turn: repeated, or ended with Timeout when its first attempt
      was its only one. */
  ghost predicate HeldServed(c: Client, d: Client, s: Send) {
    || s in d.sends
    || (Fleeting(c.maxOut, s) && s.id !in LiveIds(d.sends))
    || (Lasting(c, s) && if s.total > 1 then exists t :: t in d.sends && SentTwice(s, t)
                         else s.id !in LiveIds(d.sends) && Contains(d.log, Callback(s.id, s.qos, Timeout)))
  }

  predicate SentTwice(s: Send, t: Send) {
    t.id == s.id && t.published && t.attempts == 2 && t.total == s.total
  }

  ghost predicate HeldServedUpTo(c: Client, target: int, i: nat) {
    var r := ResendAllUntil(c, target, i);
    var served := forall j | i <= j < |c.sends| && c.sends[j].paused && c.sends[j].id <= target :: HeldServed(c, r, c.sends[j]);
    served
  }

  lemma {:induction false} HeldAreServed(c: Client, target: int, i: nat)
    requires Good(c) && !c.fault && i <= |c.sends|
    ensures HeldServedUpTo(c, target, i)
    decreases |c.sends| - i, 1
  {
    if i < |c.sends| {
      if c.sends[i].published && !c.sends[i].paused {
        if c.sends[i].attempts < c.sends[i].total { HeldAfterResent(c, target, i); } else { HeldAfterSpent(c, target, i); }
      } else {
        NothingGoesOn(c, target, i);
        assert forall j | i <= j < |c.sends| :: c.sends[j] in ResendAllUntil(c, target, i).sends;
      }
    }
  }

  /** Behind the entries on the wire nothing changes any more. */
  lemma {:induction false} NothingGoesOn(c: Client, target: int, i: nat)
    requires Good(c) && i < |c.sends| && !c.sends[i].published
    ensures ResendAllUntil(c, target, i).sends == c.sends
    decreases |c.sends| - i
  {
    assert EntryOk(c, c.sends[i]);
    if i + 1 < |c.sends| {
      LineAt(c.ordering, c.sends, i, i + 1);
      assert EntryOk(c, c.sends[i + 1]);
      NothingGoesOn(c, target, i + 1);
    }
  }

  lemma {:induction false} HeldAfterResent(c: Client, target: int, i: nat)
    requires Good(c) && !c.fault && i < |c.sends| && c.sends[i].published && !c.sends[i].paused
    requires c.sends[i].attempts < c.sends[i].total
    ensures HeldServedUpTo(c, target, i)
    decreases |c.sends| - i, 0
  {
    var d := ResendDup(c, i, Resend);
    ResentTurn(c, target, i, d);
    if c.sends[i].id == target {
      assert forall j | i < j < |c.sends| :: c.sends[j] in d.sends;
    } else {
      HeldAreServed(d, target, i + 1);
      HeldOn(c, d, ResendAllUntil(d, target, i + 1), target, i);
    }
  }

  lemma ResentTurn(c: Client, target: int, i: nat, d: Client)
    requires Good(c) && !c.fault && i < |c.sends| && c.sends[i].published && !c.sends[i].paused
    requires c.sends[i].attempts < c.sends[i].total && d == ResendDup(c, i, Resend)
    ensures Good(d) && !d.fault && |d.sends| == |c.sends| && d.maxOut == c.maxOut
    ensures forall j | i < j < |c.sends| :: d.sends[j] == c.sends[j]
    ensures ResendAllUntil(c, target, i) == if c.sends[i].id == target then d else ResendAllUntil(d, target, i + 1)
  {
    ResentServes(c, i);
    ResendDupKeeps(c, i);
    WalkUnfolds(c, target, i, d);
    RepeatFits(c, i);
    ResendDupIs(c, i, Resend);
  }

  lemma HeldOn(c: Client, d: Client, r: Client, target: int, i: nat)
    requires d.maxOut == c.maxOut && i < |c.sends| == |d.sends| && !c.sends[i].paused
    requires forall j | i < j < |c.sends| :: d.sends[j] == c.sends[j]
    requires forall j | i + 1 <= j < |d.sends| && d.sends[j].paused && d.sends[j].id <= target :: HeldServed(d, r, d.sends[j])
    ensures forall j | i <= j < |c.sends| && c.sends[j].paused && c.sends[j].id <= target :: HeldServed(c, r, c.sends[j])
  {
    forall j | i < j < |c.sends| && c.sends[j].paused && c.sends[j].id <= target ensures HeldServed(c, r, c.sends[j]) {
      assert HeldServed(d, r, d.sends[j]);
    }
  }

  lemma {:induction false} HeldAfterSpent(c: Client, target: int, i: nat)
    requires Good(c) && !c.fault && i < |c.sends| && c.sends[i].published && !c.sends[i].paused
    requires c.sends[i].attempts >= c.sends[i].total
    ensures HeldServedUpTo(c, target, i)
    decreases |c.sends| - i, 0
  {
    if c.sends[i].id == target {
      forall j | i < j < |c.sends| ensures target < c.sends[j].id { LineAt(c.ordering, c.sends, i, j); }
    } else {
      var d := ResendDup(c, i, Resend);
      TimedOutServes(c, i);
      ResendDupKeeps(c, i);
      if i < |d.sends| {
        HeldAreServed(d, target, i);
        ServesUpTo(d, target, i, false);
      }
      HeldBehindSpent(c, target, i, d);
    }
  }

  lemma HeldBehindSpent(c: Client, target: int, i: nat, d: Client)
    requires Good(c) && Good(d) && !c.fault && i < |c.sends| && c.sends[i].published && !c.sends[i].paused
    requires c.sends[i].attempts >= c.sends[i].total && c.sends[i].id != target && d == ResendDup(c, i, Resend)
    requires i < |d.sends| ==> HeldServedUpTo(d, target, i) && ServedUpTo(d, target, i, false)
    ensures HeldServedUpTo(c, target, i)
  {
    TimedOutServes(c, i);
    WalkUnfolds(c, target, i, d);
    var r := ResendAllUntil(c, target, i);
    ResendAllUntilKeeps(c, target, i);
    if i < |d.sends| {
      assert d.sends[i].id in LiveIds(d.sends);
      ResendAllUntilExtends(d, target, i);
    }
    forall j: nat | i < j < |c.sends| && c.sends[j].paused && c.sends[j].id <= target ensures HeldServed(c, r, c.sends[j]) {
      HeldInTurn(c, target, i, d, r, j);
    }
  }

  /** What becomes of entry `j` once entry `i` has left. */
  lemma HeldInTurn(c: Client, target: int, i: nat, d: Client, r: Client, j: nat)
    requires ListOk(c) && Good(d) && Good(r) && i < j < |c.sends| && c.sends[j].paused && c.sends[j].id <= target
    requires Follows(Erase(c, i), d) && i <= |d.sends| && d.sends[..i] == c.sends[..i]
    requires r.ordering == d.ordering && r.nextId == d.nextId && Extends(r.log, d.log)
    requires if i < |d.sends| then r == ResendAllUntil(d, target, i) && HeldServedUpTo(d, target, i) && ServedUpTo(d, target, i, false)
             else r.sends == d.sends
    ensures HeldServed(c, r, c.sends[j])
  {
    var s, e := c.sends[j], Erase(c, i);
    assert e.sends[j - 1] == s && EntryOk(c, s);
    if s.id in LiveIds(d.sends) {
      var l: nat :| l < |d.sends| && d.sends[l].id == s.id;
      assert Kin(e.sends[j - 1], d.sends[l]);
      PlaceKept(c, d, i, i, j, l);
      assert EntryOk(d, d.sends[l]);
      assert d.sends[l] != s ==> Served(d, r, d.sends[l]);
    } else {
      assert !Lasting(e, e.sends[j - 1]);
      GoneIsSilent(d, r, s.id);
    }
  }

  lemma GoneIsSilent(d: Client, r: Client, id: int)
    requires Good(d) && Good(r) && r.ordering == d.ordering && r.nextId == d.nextId && Extends(r.log, d.log)
    requires 1 <= id < d.nextId && id !in LiveIds(d.sends)
    ensures id !in LiveIds(r.sends)
  {
    assert Ends(d.log, id) == 1;
    EndedIsSilent(d.ordering, r.log, d.log, id);
  }

  /** An acknowledgement out of turn, whoever it names: every publish on the wire up to that one
      has one more packet, or leaves with Timeout because its attempts are used up. When the one
      named is on the wire, stays once resumed, or cannot be resumed now, later ones are not
      disturbed and the walk finds its end. Those held back and resumed on the way are served too. */
  lemma AckOutOfTurnServesAll(c: Client, kind: AckKind, pid: int)
    requires Good(c) && !c.fault && pid != 0
    requires var k := FindSend(c.sends, pid); k < |c.sends| && !Expected(c.sends, k, kind.Pubcomp?)
    ensures var r, s := ProcessAck(c, kind, pid), c.sends[FindSend(c.sends, pid)];
      ServedBetween(c, r, 0, s.id, Stays(c, s)) && (Stays(c, s) ==> !r.fault)
    ensures var r, s := ProcessAck(c, kind, pid), c.sends[FindSend(c.sends, pid)];
      forall j | 0 <= j < |c.sends| && c.sends[j].paused && c.sends[j].id <= s.id :: HeldServed(c, r, c.sends[j])
  {
    var k := FindSend(c.sends, pid);
    assert EntryOk(c, c.sends[k]);
    LegitExactly(c.sends, k, kind.Pubcomp?);
    ServesUpTo(c, c.sends[k].id, 0, Stays(c, c.sends[k]));
    HeldAreServed(c, c.sends[k].id, 0);
  }

  // ------------------------------------------------------------------ in list order

  ghost predicate Ascends(ids: seq<int>, from: int) {
    && (forall j | 0 <= j < |ids| :: from <= ids[j])
    && forall j, k | 0 <= j < k < |ids| :: ids[j] < ids[k]
  }

  /** Whatever the walk repeats, publishes resumed on the way included, goes out in list order
      and at most once each; `more` are the publishes repeated. */
  lemma {:induction false} RepeatsInListOrder(c: Client, target: int, i: nat) returns (more: seq<int>)
    requires Good(c)
    ensures Repeats(ResendAllUntil(c, target, i).log) == Repeats(c.log) + more
    ensures i < |c.sends| ==> Ascends(more, c.sends[i].id)
    ensures i >= |c.sends| ==> more == []
    decreases |c.sends| - i
  {
    more := [];
    if i < |c.sends| {
      var d := ForceDupResend(c, i);
      var first := FirstRepeat(c, i);
      WalkUnfolds(c, target, i, d);
      if d.fault || c.sends[i].id == target || i >= |d.sends| {
        more := first;
      } else {
        var next := if d.sends[i].id == c.sends[i].id then i + 1 else i;
        ForcedKeeps(c, i, d);
        var rest := RepeatsInListOrder(d, target, next);
        RestIsLater(c, i, d, next);
        Joined(Repeats(c.log), Repeats(d.log), Repeats(ResendAllUntil(d, target, next).log), first, rest, c.sends[i].id,
               if next < |d.sends| then d.sends[next].id else c.sends[i].id + 1);
        more := first + rest;
      }
    }
  }

  lemma Joined(before: seq<int>, after: seq<int>, all: seq<int>, first: seq<int>, rest: seq<int>, id: int, next: int)
    requires after == before + first && all == after + rest
    requires (first == [] || first == [id]) && Ascends(rest, next) && id < next
    ensures all == before + (first + rest) && Ascends(first + rest, id)
  {
  }

  lemma ForcedKeeps(c: Client, i: nat, d: Client)
    requires Good(c) && i < |c.sends| && d == ForceDupResend(c, i)
    ensures Good(d)
  {
    if !c.sends[i].paused { ResendDupKeeps(c, i); }
  }

  /** The packet that entry `i` has, if it has one. */
  lemma FirstRepeat(c: Client, i: nat) returns (first: seq<int>)
    requires Good(c) && i < |c.sends|
    ensures Repeats(ForceDupResend(c, i).log) == Repeats(c.log) + first
    ensures first == [] || (first == [c.sends[i].id] && |ForceDupResend(c, i).sends| == |c.sends|)
  {
    first := [];
    assert EntryOk(c, c.sends[i]);
    if c.sends[i].published {
      if c.sends[i].attempts < c.sends[i].total {
        ResentServes(c, i);
        RepeatFits(c, i);
        ResendDupIs(c, i, Resend);
        first := [c.sends[i].id];
      } else {
        CompleteKeeps(c, i, Timeout);
      }
    } else if !c.sends[i].paused {
      assert ForceDupResend(c, i) == c.(fault := true);
    }
  }

  lemma RestIsLater(c: Client, i: nat, d: Client, next: nat)
    requires Good(c) && Good(d) && i < |c.sends| && d == ForceDupResend(c, i) && i < |d.sends| && !d.fault
    requires next == if d.sends[i].id == c.sends[i].id then i + 1 else i
    ensures next < |d.sends| ==> c.sends[i].id < d.sends[next].id
  {
    assert EntryOk(c, c.sends[i]);
    if next == i + 1 && next < |d.sends| {
      LineAt(d.ordering, d.sends, i, next);
    } else if next == i {
      assert c.sends[i].published && c.sends[i].attempts >= c.sends[i].total by {
        if c.sends[i].published && c.sends[i].attempts < c.sends[i].total { ResentServes(c, i); }
      }
      TimedOutServes(c, i);
      LaterBehind(c, i, d);
    }
  }

  lemma LaterBehind(c: Client, i: nat, d: Client)
    requires Good(c) && Good(d) && i < |c.sends| && i < |d.sends| && Follows(Erase(c, i), d)
    requires d.sends[..i] == c.sends[..i]
    ensures c.sends[i].id < d.sends[i].id
  {
    var e := Erase(c, i);
    assert d.sends[i].id in LiveIds(d.sends);
    var k: nat :| k < |e.sends| && e.sends[k].id == d.sends[i].id;
    var j := if k < i then k else k + 1;
    assert e.sends[k] == c.sends[j];
    PlaceKept(c, d, i, i, j, i);
    LineAt(c.ordering, c.sends, i, j);
  }

  /** One turn of the walk at an entry on the wire that is not the one named. */
  lemma TurnGoesOn(c: Client, target: int, i: nat, d: Client)
    requires i < |c.sends| && !c.sends[i].paused && c.sends[i].id != target && d == ResendDup(c, i, Resend) && !d.fault
    ensures i >= |d.sends| ==> ResendAllUntil(c, target, i).fault
    ensures i < |d.sends| ==>
              ResendAllUntil(c, target, i) == ResendAllUntil(d, target, if d.sends[i].id == c.sends[i].id then i + 1 else i)
  {
  }
}
