/** When the walk of an acknowledgement out of turn looks past the end of the list: exactly when
    the publish it is to stop at leaves before it gets there, and so does the last one of all. */
module SendOverrun {
  import opened PacketIds
  import opened History
  import opened SendModel
  import opened SendInvariant
  import opened SendSteps
  import opened SendRuns
  import opened SendSession
  import opened SendWakeups
  import opened SendForced

  // ------------------------------------------------------------------ the list as a set

  /** What decides about the walk: the publishes, whatever their order in time, for their
      identities say it; and whether nobody is resumed because the session goes down. */
  datatype View = View(all: set<Send>, maxOut: int, down: bool, last: int)

  ghost function ViewOf(c: Client): View {
    View(Members(c.sends), c.maxOut, c.session.disconnecting, c.nextId)
  }

  ghost function Members(sends: seq<Send>): set<Send> {
    if sends == [] then {} else {sends[0]} + Members(sends[1..])
  }

  lemma {:induction false} MembersAre(sends: seq<Send>)
    ensures forall s :: s in Members(sends) <==> s in sends
  {
    if sends != [] {
      MembersAre(sends[1..]);
      assert sends == [sends[0]] + sends[1..];
    }
  }

  lemma MemberAt(c: Client, k: nat)
    requires k < |c.sends|
    ensures c.sends[k] in ViewOf(c).all
  {
    MembersAre(c.sends);
  }

  lemma PlaceOf(c: Client, s: Send) returns (k: nat)
    requires s in ViewOf(c).all
    ensures k < |c.sends| && c.sends[k] == s
  {
    MembersAre(c.sends);
    k :| 0 <= k < |c.sends| && c.sends[k] == s;
  }

  /** It has used up its attempts. */
  predicate Spent(s: Send) { s.total <= s.attempts }

  /** It leaves when the walk comes by, or before: it is spent, or it is held back and leaves as
      soon as it is resumed, or its only attempt is the one it has then. */
  predicate Doomed(maxOut: int, s: Send) {
    if s.paused then Fleeting(maxOut, s) || s.total <= 1 else Spent(s)
  }

  /** From identity `from` on the walk is still to come. The publish `b` keeps `e` back for good. */
  predicate Keeps(v: View, from: int, b: Send, e: Send) {
    b.id < e.id && b.qos > e.qos && !(from <= b.id && Doomed(v.maxOut, b))
  }

  /** Nobody held back up to identity `to` is kept back for good. */
  ghost predicate Loose(v: View, from: int, to: int) {
    forall e | e in v.all && e.paused && e.id <= to :: !v.down && forall b | b in v.all :: !Keeps(v, from, b, e)
  }

  /** If anybody is held back up to identity `to`, a spent publish is there to set things going. */
  ghost predicate Starts(v: View, from: int, to: int) {
    (exists e :: e in v.all && e.paused && e.id <= to)
    ==> exists s :: s in v.all && s.published && from <= s.id && Spent(s)
  }

  /** The walk sees everybody held back up to identity `to` leave, or go out. */
  ghost predicate Frees(v: View, from: int, to: int) { Loose(v, from, to) && Starts(v, from, to) }

  /** The last publish that does not leave as soon as it is resumed leaves too, later. */
  ghost predicate LastGoes(v: View, from: int) {
    exists l :: l in v.all && from <= l.id && !Fleeting(v.maxOut, l) && Doomed(v.maxOut, l) && IsLast(v, l)
  }

  ghost predicate IsLast(v: View, l: Send) {
    forall x | x in v.all && x.id > l.id :: Fleeting(v.maxOut, x)
  }

  /** A publish is prepared and not yet issued. */
  ghost predicate Prepared(v: View) { exists s :: s in v.all && !s.issued }

  /** The walk frees the one it is to stop at, and comes to the prepared one or past the end. */
  ghost predicate Overruns(v: View, from: int, target: int) {
    Frees(v, from, target) && (Prepared(v) || (Frees(v, from, v.last) && LastGoes(v, from)))
  }

  /** The target is held back and leaves once it is resumed, or has done so in its turn. */
  ghost predicate TargetOk(v: View, target: int) {
    || (exists s :: s in v.all && s.id == target && Fleeting(v.maxOut, s))
    || forall s | s in v.all :: s.id != target && (s.paused ==> s.id > target)
  }

  /** All publishes from identity `from` on leave as soon as they are resumed. */
  ghost predicate AllFleeting(v: View, from: int) {
    forall x | x in v.all && from <= x.id :: Fleeting(v.maxOut, x)
  }

  // ------------------------------------------------------------------ resuming changes nothing of it

  ghost predicate Alike(v: View, w: View, from: int) {
    && v.maxOut == w.maxOut && v.down == w.down && v.last == w.last
    && (forall to :: Loose(v, from, to) <==> Loose(w, from, to))
    && (LastGoes(v, from) <==> LastGoes(w, from))
    && (Prepared(v) <==> Prepared(w))
    && (AllFleeting(v, from) <==> AllFleeting(w, from))
    && forall target :: TargetOk(v, target) ==> TargetOk(w, target)
  }

  /** The first one held back, with nobody to keep it. */
  ghost predicate Free(v: View, from: int, e: Send) {
    && e in v.all && e.paused && e.issued && from <= e.id && !v.down
    && (forall b | b in v.all :: !(b.id < e.id && b.qos > e.qos))
    && (forall x | x in v.all && x.paused :: e.id <= x.id)
    && forall x | x in v.all && x.id == e.id :: x == e
  }

  lemma LeavingLoose(v: View, from: int, e: Send, w: View, to: int)
    requires Free(v, from, e) && Fleeting(v.maxOut, e) && w == v.(all := v.all - {e})
    ensures Loose(v, from, to) <==> Loose(w, from, to)
  {
    if Loose(w, from, to) {
      forall x | x in v.all && x.paused && x.id <= to ensures !v.down && forall b | b in v.all :: !Keeps(v, from, b, x) {
        forall b | b in v.all ensures !Keeps(v, from, b, x) {
          if x != e && b != e { assert x in w.all && b in w.all && !Keeps(w, from, b, x); }
        }
      }
    }
    if Loose(v, from, to) {
      forall x | x in w.all && x.paused && x.id <= to ensures !w.down && forall b | b in w.all :: !Keeps(w, from, b, x) {
        assert forall b | b in w.all :: !Keeps(v, from, b, x);
      }
    }
  }

  lemma LeavingAlike(v: View, from: int, e: Send, w: View)
    requires Free(v, from, e) && Fleeting(v.maxOut, e) && w == v.(all := v.all - {e})
    ensures Alike(v, w, from)
  {
    forall to ensures Loose(v, from, to) <==> Loose(w, from, to) { LeavingLoose(v, from, e, w, to); }
    if l :| l in v.all && from <= l.id && !Fleeting(v.maxOut, l) && Doomed(v.maxOut, l) && IsLast(v, l) {
      assert l in w.all && IsLast(w, l);
    }
    if l :| l in w.all && from <= l.id && !Fleeting(w.maxOut, l) && Doomed(w.maxOut, l) && IsLast(w, l) {
      assert IsLast(v, l);
    }
    if s :| s in v.all && !s.issued { assert s in w.all; }
    forall target | TargetOk(v, target) ensures TargetOk(w, target) {
      if s :| s in v.all && s.id == target && Fleeting(v.maxOut, s) {
        if s != e { assert s in w.all; }
      }
    }
  }

  /** The same publish after its first PUBLISH. */
  predicate GoneOut(e: Send, g: Send) {
    g.id == e.id && g.qos == e.qos && g.total == e.total && g.attempts == 1 && g.published && !g.paused && g.issued
  }

  lemma GoingLoose(v: View, from: int, e: Send, g: Send, w: View, to: int)
    requires Free(v, from, e) && !Fleeting(v.maxOut, e) && GoneOut(e, g) && w == v.(all := v.all - {e} + {g})
    ensures Loose(v, from, to) <==> Loose(w, from, to)
  {
    if Loose(w, from, to) {
      forall x | x in v.all && x.paused && x.id <= to ensures !v.down && forall b | b in v.all :: !Keeps(v, from, b, x) {
        forall b | b in v.all ensures !Keeps(v, from, b, x) {
          if x != e {
            var b' := if b == e then g else b;
            assert x in w.all && b' in w.all && !Keeps(w, from, b', x);
          }
        }
      }
    }
    if Loose(v, from, to) {
      forall x | x in w.all && x.paused && x.id <= to ensures !w.down && forall b | b in w.all :: !Keeps(w, from, b, x) {
        forall b | b in w.all ensures !Keeps(w, from, b, x) {
          var b' := if b == g then e else b;
          assert x in v.all && b' in v.all && !Keeps(v, from, b', x);
        }
      }
    }
  }

  lemma GoingAlike(v: View, from: int, e: Send, g: Send, w: View)
    requires Free(v, from, e) && !Fleeting(v.maxOut, e) && GoneOut(e, g) && w == v.(all := v.all - {e} + {g})
    ensures Alike(v, w, from)
  {
    forall to ensures Loose(v, from, to) <==> Loose(w, from, to) { GoingLoose(v, from, e, g, w, to); }
    GoingLast(v, from, e, g, w);
    if s :| s in v.all && !s.issued { assert s in w.all; }
    if AllFleeting(v, from) { assert false; }
    assert g in w.all;
    forall target | TargetOk(v, target) ensures TargetOk(w, target) {
      if s :| s in v.all && s.id == target && Fleeting(v.maxOut, s) { assert s in w.all; }
    }
  }

  lemma GoingLast(v: View, from: int, e: Send, g: Send, w: View)
    requires Free(v, from, e) && !Fleeting(v.maxOut, e) && GoneOut(e, g) && w == v.(all := v.all - {e} + {g})
    ensures LastGoes(v, from) <==> LastGoes(w, from)
  {
    if l :| l in v.all && from <= l.id && !Fleeting(v.maxOut, l) && Doomed(v.maxOut, l) && IsLast(v, l) {
      var l' := if l == e then g else l;
      assert l' in w.all;
      forall x | x in w.all && x.id > l'.id ensures Fleeting(w.maxOut, x) {
        var x' := if x == g then e else x;
        assert x' in v.all;
      }
      assert IsLast(w, l');
    }
    if l :| l in w.all && from <= l.id && !Fleeting(w.maxOut, l) && Doomed(w.maxOut, l) && IsLast(w, l) {
      var l' := if l == g then e else l;
      forall x | x in v.all && x.id > l'.id ensures Fleeting(v.maxOut, x) {
        var x' := if x == e then g else x;
        assert x' in w.all;
      }
      assert l' in v.all && IsLast(v, l');
    }
  }

  // ------------------------------------------------------------------ so of the list

  lemma OthersDiffer(c: Client, i: nat)
    requires ListOk(c) && i < |c.sends|
    ensures forall k | 0 <= k < |c.sends| && k != i :: c.sends[k] != c.sends[i]
  {
    forall k | 0 <= k < |c.sends| && k != i ensures c.sends[k] != c.sends[i] { OtherIds(c.ordering, c.sends, k, i); }
  }

  lemma MembersWithout(sends: seq<Send>, i: nat)
    requires i < |sends| && forall k | 0 <= k < |sends| && k != i :: sends[k] != sends[i]
    ensures Members(Without(sends, i)) == Members(sends) - {sends[i]}
  {
    MembersAre(sends);
    MembersAre(Without(sends, i));
    forall s ensures s in Without(sends, i) <==> s in sends && s != sends[i] { InWithout(sends, i, s); }
  }

  lemma InWithout(sends: seq<Send>, i: nat, s: Send)
    requires i < |sends| && forall k | 0 <= k < |sends| && k != i :: sends[k] != sends[i]
    ensures s in Without(sends, i) <==> s in sends && s != sends[i]
  {
    var rest := Without(sends, i);
    if s in rest {
      var k :| 0 <= k < |rest| && rest[k] == s;
      assert sends[if k < i then k else k + 1] == s;
    }
    if s in sends && s != sends[i] {
      var k :| 0 <= k < |sends| && sends[k] == s;
      assert rest[if k < i then k else k - 1] == s;
    }
  }

  lemma MembersErased(c: Client, i: nat)
    requires ListOk(c) && i < |c.sends|
    ensures ViewOf(Erase(c, i)) == ViewOf(c).(all := ViewOf(c).all - {c.sends[i]})
  {
    OthersDiffer(c, i);
    MembersWithout(c.sends, i);
  }

  lemma MembersWith(sends: seq<Send>, i: nat, t: Send)
    requires i < |sends| && forall k | 0 <= k < |sends| && k != i :: sends[k] != sends[i]
    ensures Members(sends[i := t]) == Members(sends) - {sends[i]} + {t}
  {
    var all := sends[i := t];
    MembersAre(sends);
    MembersAre(all);
    assert all[i] == t;
    forall s | s in sends && s != sends[i] ensures s in all {
      var k :| 0 <= k < |sends| && sends[k] == s;
      assert all[k] == s;
    }
  }

  lemma MembersUpdated(c: Client, i: nat, t: Send)
    requires ListOk(c) && i < |c.sends|
    ensures ViewOf(With(c, i, t)) == ViewOf(c).(all := ViewOf(c).all - {c.sends[i]} + {t})
  {
    OthersDiffer(c, i);
    MembersWith(c.sends, i, t);
  }

  /** Identity `from` splits the list at place `i`. */
  ghost predicate Splits(sends: seq<Send>, i: int, from: int) {
    && (forall j | 0 <= j < |sends| && j < i :: sends[j].id < from)
    && forall j | 0 <= j < |sends| && i <= j :: from <= sends[j].id
  }

  lemma FirstIsFree(c: Client, i: nat, from: int)
    requires ListOk(c) && Calm(c) && i < |c.sends| && c.sends[i].paused && CanSend(c, i)
    requires !c.session.disconnecting && from <= c.sends[i].id
    ensures Free(ViewOf(c), from, c.sends[i])
  {
    var v, e := ViewOf(c), c.sends[i];
    CanSendInTurn(c, i);
    MemberAt(c, i);
    assert EntryOk(c, e);
    forall b | b in v.all ensures !(b.id < e.id && b.qos > e.qos) && (b.paused ==> e.id <= b.id) && (b.id == e.id ==> b == e) {
      var k := PlaceOf(c, b);
      if k != i { OtherIds(c.ordering, c.sends, k, i); }
      assert EntryOk(c, b);
    }
  }

  lemma {:induction false} ResumeSinceAlike(c: Client, i: nat, from: int, pending: set<int>)
    requires Inv(c, pending) && Calm(c) && !c.session.disconnecting
    requires forall j | i <= j < |c.sends| :: from <= c.sends[j].id
    ensures Alike(ViewOf(c), ViewOf(ResumeSince(c, i)), from)
    decreases PausedCount(c.sends), 1, |c.sends| - i
  {
    if i < |c.sends| {
      if !c.sends[i].paused {
        ResumeSinceAlike(c, i + 1, from, pending);
      } else if CanSend(c, i) {
        CanSendInTurn(c, i);
        CalmErased(c, i);
        ResumeKeeps(c, i, pending);
        ResumeAlike(c, i, from, pending);
        StillBehind(c, Resume(c, i), i, from);
        ResumeSinceAlike(Resume(c, i), i, from, pending);
        AlikeOn(ViewOf(c), ViewOf(Resume(c, i)), ViewOf(ResumeSince(c, i)), from);
      }
    }
  }

  lemma AlikeOn(u: View, v: View, w: View, from: int)
    requires Alike(u, v, from) && Alike(v, w, from)
    ensures Alike(u, w, from)
  {
    forall to ensures Loose(u, from, to) <==> Loose(w, from, to) { assert Loose(u, from, to) <==> Loose(v, from, to); }
    forall target | TargetOk(u, target) ensures TargetOk(w, target) { assert TargetOk(v, target); }
  }

  /** Who is behind place `i` after resuming was so before. */
  lemma StillBehind(c: Client, d: Client, i: nat, from: int)
    requires ListOk(c) && ListOk(d) && i < |c.sends| && c.sends[i].paused && d == Resume(c, i)
    requires Follows(c, d)
    requires forall j | i <= j < |c.sends| :: from <= c.sends[j].id
    ensures forall j | i <= j < |d.sends| :: from <= d.sends[j].id
  {
    ResumeCarries(c, i, i);
    forall j | i <= j < |d.sends| ensures from <= d.sends[j].id {
      assert d.sends[j].id in LiveIds(d.sends);
      var k :| 0 <= k < |c.sends| && c.sends[k].id == d.sends[j].id;
      if k < i {
        assert d.sends[k] == d.sends[..i][k] == c.sends[..i][k];
        OtherIds(d.ordering, d.sends, k, j);
      }
    }
  }

  lemma {:induction false} ResumeAlike(c: Client, i: nat, from: int, pending: set<int>)
    requires Inv(c, pending) && Calm(c) && !c.session.disconnecting && i < |c.sends| && c.sends[i].paused && CanSend(c, i)
    requires forall j | i <= j < |c.sends| :: from <= c.sends[j].id
    ensures Alike(ViewOf(c), ViewOf(Resume(c, i)), from)
    decreases PausedCount(c.sends), 0, 1
  {
    var s, v := c.sends[i], ViewOf(c);
    assert EntryOk(c, s);
    FirstIsFree(c, i, from);
    if Fits(c, i) && s.qos != 0 {
      var t := s.(paused := false, published := true, attempts := 1, armed := true);
      ResumePublishes(c, i);
      MembersUpdated(c, i, t);
      GoingAlike(v, from, s, t, ViewOf(Resume(c, i)));
    } else {
      var e := Erase(c, i);
      MembersErased(c, i);
      LeavingAlike(v, from, s, ViewOf(e));
      if Fits(c, i) { QosZeroAlike(c, i, from, pending); } else { RefusedAlike(c, i, from, pending); }
      AlikeOn(v, ViewOf(e), ViewOf(Resume(c, i)), from);
    }
  }

  lemma BehindErased(c: Client, i: nat, from: int)
    requires i < |c.sends| && forall j | i <= j < |c.sends| :: from <= c.sends[j].id
    ensures forall j | i <= j < |Erase(c, i).sends| :: from <= Erase(c, i).sends[j].id
  {
    assert forall j | i <= j < |Erase(c, i).sends| :: Erase(c, i).sends[j] == c.sends[j + 1];
  }

  /** A QoS 0 publish has left; others are resumed before its callback. */
  lemma {:induction false} QosZeroAlike(c: Client, i: nat, from: int, pending: set<int>)
    requires Inv(c, pending) && Calm(c) && !c.session.disconnecting && i < |c.sends| && c.sends[i].paused && CanSend(c, i)
    requires Fits(c, i) && c.sends[i].qos == 0
    requires forall j | i <= j < |c.sends| :: from <= c.sends[j].id
    ensures Alike(ViewOf(Erase(c, i)), ViewOf(Resume(c, i)), from)
    decreases PausedCount(c.sends), 0, 0
  {
    var s := c.sends[i];
    var d := Emit(Erase(c, i), Publish(s.id, s.pid, 0, s.dup, First(Unsent(c.sends[..i])), s.total));
    CanSendInTurn(c, i);
    CalmErased(c, i);
    PausedCountErase(c.sends, i);
    BehindErased(c, i, from);
    QosZeroLeaves(c, i, pending);
    ResumeQosZero(c, i);
    ResumeSinceAlike(d, i, from, pending + {s.id});
    assert ViewOf(Resume(c, i)) == ViewOf(ResumeSince(d, i));
  }

  /** The same after a publish too long for the output buffer. */
  lemma {:induction false} RefusedAlike(c: Client, i: nat, from: int, pending: set<int>)
    requires Inv(c, pending) && Calm(c) && !c.session.disconnecting && i < |c.sends| && c.sends[i].paused && !Fits(c, i)
    requires forall j | i <= j < |c.sends| :: from <= c.sends[j].id
    ensures Alike(ViewOf(Erase(c, i)), ViewOf(Resume(c, i)), from)
    decreases PausedCount(c.sends), 0, 0
  {
    var e := Erase(c, i);
    CalmErased(c, i);
    PausedCountErase(c.sends, i);
    BehindErased(c, i, from);
    Erased(c, i, pending);
    ResumeRefused(c, i);
    ResumeSinceAlike(e, i, from, pending + {c.sends[i].id});
    assert ViewOf(Resume(c, i)) == ViewOf(ResumeSince(e, i));
  }

  // ------------------------------------------------------------------ one turn: nobody on the wire

  lemma HeldTurn(v: View, from: int, next: int, target: int, e: Send)
    requires e in v.all && e.paused && e.id <= v.last && from <= next && TargetOk(v, target)
    requires forall s | s in v.all && from <= s.id :: !s.published
    ensures Overruns(v, from, target) <==> Overruns(v, next, target)
    ensures Overruns(v, from, target) ==> Prepared(v)
    ensures e.id == target ==> !Overruns(v, from, target)
  {
    assert !Starts(v, from, v.last) && !Starts(v, next, v.last);
    if s :| s in v.all && s.id == target && Fleeting(v.maxOut, s) {
      assert !Starts(v, from, target) && !Starts(v, next, target);
    } else {
      assert Frees(v, from, target) && Frees(v, next, target);
    }
  }

  lemma NobodyOnWire(c: Client, i: nat, from: int)
    requires ListOk(c) && i < |c.sends| && !c.sends[i].published && Splits(c.sends, i, from)
    ensures forall s | s in ViewOf(c).all && from <= s.id :: !s.published
    ensures c.sends[i].issued && i == |c.sends| - 1 ==> !Prepared(ViewOf(c))
  {
    forall s | s in ViewOf(c).all && from <= s.id ensures !s.published {
      var k := PlaceOf(c, s);
      if k > i { LineAt(c.ordering, c.sends, i, k); }
      assert EntryOk(c, c.sends[i]) && EntryOk(c, s);
    }
    if c.sends[i].issued && i == |c.sends| - 1 { AllIssued(c); }
  }

  lemma AllIssued(c: Client)
    requires ListOk(c) && c.sends != [] && c.sends[|c.sends| - 1].issued
    ensures !Prepared(ViewOf(c))
  {
    forall s | s in ViewOf(c).all ensures s.issued {
      var k := PlaceOf(c, s);
      if k < |c.sends| - 1 { LineAt(c.ordering, c.sends, k, |c.sends| - 1); }
    }
  }

  lemma NextSplits(c: Client, i: nat, from: int)
    requires ListOk(c) && i < |c.sends| && Splits(c.sends, i, from)
    ensures Splits(c.sends, i + 1, c.sends[i].id + 1)
  {
    forall j | 0 <= j < |c.sends| ensures if j < i + 1 then c.sends[j].id < c.sends[i].id + 1 else c.sends[i].id + 1 <= c.sends[j].id {
      if j != i { OtherIds(c.ordering, c.sends, j, i); }
    }
  }

  // ------------------------------------------------------------------ one turn: one more packet

  /** The next one to come, on the wire. */
  ghost predicate Next(v: View, from: int, s: Send) {
    && s in v.all && s.published && !s.paused && s.issued && from <= s.id
    && forall x | x in v.all && from <= x.id && x != s :: s.id < x.id
  }

  /** The same publish after one more packet. */
  predicate Repeated(s: Send, g: Send) {
    g.id == s.id && g.qos == s.qos && g.published && !g.paused && g.issued
  }

  lemma RepeatedKept(v: View, from: int, s: Send, g: Send, w: View, e: Send)
    requires Next(v, from, s) && !Spent(s) && Repeated(s, g) && w == v.(all := v.all - {s} + {g})
    ensures (forall b | b in v.all :: !Keeps(v, from, b, e)) <==> (forall b | b in w.all :: !Keeps(w, s.id + 1, b, e))
  {
    if forall b | b in v.all :: !Keeps(v, from, b, e) {
      forall b | b in w.all ensures !Keeps(w, s.id + 1, b, e) { assert !Keeps(v, from, if b == g then s else b, e); }
    }
    if forall b | b in w.all :: !Keeps(w, s.id + 1, b, e) {
      forall b | b in v.all ensures !Keeps(v, from, b, e) {
        var b' := if b == s then g else b;
        assert b' in w.all && !Keeps(w, s.id + 1, b', e);
      }
    }
  }

  lemma RepeatedFrees(v: View, from: int, s: Send, g: Send, w: View, to: int)
    requires Next(v, from, s) && !Spent(s) && Repeated(s, g) && w == v.(all := v.all - {s} + {g})
    ensures Frees(v, from, to) <==> Frees(w, s.id + 1, to)
  {
    forall e | e in v.all && e.paused && e.id <= to
      ensures (forall b | b in v.all :: !Keeps(v, from, b, e)) <==> (forall b | b in w.all :: !Keeps(w, s.id + 1, b, e))
    {
      RepeatedKept(v, from, s, g, w, e);
    }
    assert forall e :: e in v.all && e.paused <==> e in w.all && e.paused;
    if x :| x in v.all && x.published && from <= x.id && Spent(x) { assert x in w.all; }
    if x :| x in w.all && x.published && s.id + 1 <= x.id && Spent(x) { assert x in v.all; }
  }

  lemma RepeatedOverruns(v: View, from: int, s: Send, g: Send, w: View, target: int)
    requires Next(v, from, s) && !Spent(s) && Repeated(s, g) && w == v.(all := v.all - {s} + {g})
    ensures Overruns(v, from, target) <==> Overruns(w, s.id + 1, target)
    ensures Prepared(v) <==> Prepared(w)
  {
    RepeatedFrees(v, from, s, g, w, target);
    RepeatedFrees(v, from, s, g, w, v.last);
    RepeatedLast(v, from, s, g, w);
    if x :| x in v.all && !x.issued { assert x in w.all; }
  }

  lemma RepeatedTarget(v: View, from: int, s: Send, g: Send, w: View, target: int)
    requires Next(v, from, s) && Repeated(s, g) && w == v.(all := v.all - {s} + {g})
    requires TargetOk(v, target)
    ensures TargetOk(w, target)
  {
    if x :| x in v.all && x.id == target && Fleeting(v.maxOut, x) { assert x in w.all; }
  }

  lemma RepeatedLast(v: View, from: int, s: Send, g: Send, w: View)
    requires Next(v, from, s) && !Spent(s) && Repeated(s, g) && w == v.(all := v.all - {s} + {g})
    ensures LastGoes(v, from) <==> LastGoes(w, s.id + 1)
  {
    if l :| l in v.all && from <= l.id && !Fleeting(v.maxOut, l) && Doomed(v.maxOut, l) && IsLast(v, l) {
      assert l in w.all && IsLast(w, l);
    }
    if l :| l in w.all && s.id + 1 <= l.id && !Fleeting(w.maxOut, l) && Doomed(w.maxOut, l) && IsLast(w, l) {
      assert l in v.all && IsLast(v, l);
    }
  }

  // ------------------------------------------------------------------ one turn: a spent one leaves

  lemma SpentLoose(v: View, from: int, s: Send, w: View, to: int)
    requires Next(v, from, s) && Spent(s) && w == v.(all := v.all - {s})
    ensures Loose(v, from, to) <==> Loose(w, from, to)
    ensures Starts(v, from, to)
  {
    if Loose(w, from, to) {
      forall e | e in v.all && e.paused && e.id <= to ensures !v.down && forall b | b in v.all :: !Keeps(v, from, b, e) {
        forall b | b in v.all ensures !Keeps(v, from, b, e) {
          if b != s { assert e in w.all && b in w.all && !Keeps(w, from, b, e); }
        }
      }
    }
    if Loose(v, from, to) {
      forall e | e in w.all && e.paused && e.id <= to ensures !w.down && forall b | b in w.all :: !Keeps(w, from, b, e) {
        assert forall b | b in w.all :: !Keeps(v, from, b, e);
      }
    }
  }

  lemma SpentLast(v: View, from: int, s: Send, w: View)
    requires Next(v, from, s) && Spent(s) && w == v.(all := v.all - {s})
    ensures LastGoes(v, from) <==> LastGoes(w, from) || AllFleeting(w, from)
    ensures Prepared(v) <==> Prepared(w)
    ensures forall target :: TargetOk(v, target) ==> TargetOk(w, target)
  {
    if l :| l in v.all && from <= l.id && !Fleeting(v.maxOut, l) && Doomed(v.maxOut, l) && IsLast(v, l) {
      if l != s { assert l in w.all && IsLast(w, l); }
    }
    if l :| l in w.all && from <= l.id && !Fleeting(w.maxOut, l) && Doomed(w.maxOut, l) && IsLast(w, l) {
      assert IsLast(v, l);
    }
    if AllFleeting(w, from) { assert IsLast(v, s); }
    if x :| x in v.all && !x.issued { assert x in w.all; }
    forall target | TargetOk(v, target) ensures TargetOk(w, target) {
      if x :| x in v.all && x.id == target && Fleeting(v.maxOut, x) { assert x in w.all; }
    }
  }

  /** A spent publish leaves `v`, which makes it `w`, and resuming makes that `x`. */
  ghost predicate Turned(v: View, from: int, x: View) {
    && v.last == x.last && (Prepared(v) <==> Prepared(x))
    && (forall to :: (Loose(v, from, to) <==> Loose(x, from, to)) && Starts(v, from, to))
    && (LastGoes(v, from) <==> LastGoes(x, from) || AllFleeting(x, from))
    && forall target :: TargetOk(v, target) ==> TargetOk(x, target)
  }

  lemma TurnOver(v: View, from: int, s: Send, w: View, x: View)
    requires Next(v, from, s) && Spent(s) && w == v.(all := v.all - {s}) && Alike(w, x, from)
    ensures Turned(v, from, x)
  {
    SpentLast(v, from, s, w);
    forall to ensures (Loose(v, from, to) <==> Loose(x, from, to)) && Starts(v, from, to) {
      SpentLoose(v, from, s, w, to);
      assert Loose(w, from, to) <==> Loose(x, from, to);
    }
    forall target | TargetOk(v, target) ensures TargetOk(x, target) { assert TargetOk(w, target); }
  }

  /** Somebody is left to come: the same is to be decided again. */
  lemma SameAgain(v: View, from: int, x: View, target: int)
    requires Turned(v, from, x) && forall to :: Loose(x, from, to) ==> Starts(x, from, to)
    requires AllFleeting(x, from) ==> !Loose(x, from, x.last)
    ensures Overruns(v, from, target) <==> Overruns(x, from, target)
  {
    assert Loose(v, from, target) <==> Loose(x, from, target);
    assert Loose(v, from, v.last) <==> Loose(x, from, x.last);
    assert Starts(v, from, target) && Starts(v, from, v.last);
  }

  /** Nobody is. */
  lemma NobodyLeft(v: View, from: int, x: View, target: int)
    requires Turned(v, from, x) && forall y | y in x.all :: y.id < from && !y.paused
    ensures Overruns(v, from, target)
  {
    assert Loose(x, from, target) && Loose(x, from, x.last);
    assert Loose(v, from, target) && Loose(v, from, v.last);
    assert Starts(v, from, target) && Starts(v, from, v.last);
    assert AllFleeting(x, from);
  }

  // ------------------------------------------------------------------ who waits, waits for somebody

  lemma {:induction false} FirstHeld(sends: seq<Send>, k: nat) returns (j: nat)
    requires k < |sends| && sends[k].paused
    ensures j <= k && FirstPaused(sends, j)
  {
    if k == 0 || !sends[k - 1].paused { j := k; } else { j := FirstHeld(sends, k - 1); }
  }

  lemma WokenStarts(d: Client, from: int, to: int)
    requires ListOk(d) && (d.session.disconnecting || Woken(d.sends)) && Loose(ViewOf(d), from, to)
    ensures Starts(ViewOf(d), from, to)
  {
    var x := ViewOf(d);
    if e :| e in x.all && e.paused && e.id <= to {
      assert !x.down;
      var k := PlaceOf(d, e);
      var j := FirstHeld(d.sends, k);
      var m := HolderOnWire(d, j);
      if j < k { LineAt(d.ordering, d.sends, j, k); }
      MemberAt(d, j);
      MemberAt(d, m);
      assert !Keeps(x, from, d.sends[m], d.sends[j]);
    }
  }

  lemma HolderOnWire(d: Client, j: nat) returns (m: nat)
    requires ListOk(d) && Woken(d.sends) && j < |d.sends| && FirstPaused(d.sends, j)
    ensures m < j && d.sends[m].qos > d.sends[j].qos && d.sends[m].id < d.sends[j].id && d.sends[m].published
  {
    m :| 0 <= m < j && d.sends[m].qos > d.sends[j].qos;
    LineAt(d.ordering, d.sends, m, j);
    LineAt(d.ordering, d.sends, j - 1, j);
    if m < j - 1 { LineAt(d.ordering, d.sends, m, j - 1); }
    assert EntryOk(d, d.sends[m]) && EntryOk(d, d.sends[j - 1]) && EntryOk(d, d.sends[j]);
  }

  /** Only fleeting ones are left behind place `i`: the first of them waits for one before it. */
  lemma FleetingWait(d: Client, i: nat, from: int)
    requires ListOk(d) && (d.session.disconnecting || Woken(d.sends)) && i < |d.sends| && Splits(d.sends, i, from)
    requires NonePausedBefore(d.sends, i) && AllFleeting(ViewOf(d), from)
    ensures !Loose(ViewOf(d), from, ViewOf(d).last)
  {
    var x := ViewOf(d);
    MemberAt(d, i);
    assert EntryOk(d, d.sends[i]);
    if !d.session.disconnecting {
      var m := HolderOnWire(d, i);
      MemberAt(d, m);
      assert Keeps(x, from, d.sends[m], d.sends[i]);
    }
  }

  // ------------------------------------------------------------------ the walk

  /** Where the walk stands, and for whom it looks. */
  ghost predicate Heading(c: Client, target: int, i: int, from: int) {
    var walking :=
      && Good(c) && !c.fault && Splits(c.sends, i, from) && TargetOk(ViewOf(c), target)
      && forall j | 0 <= j < i && j < |c.sends| :: c.sends[j].id != target;
    walking
  }

  ghost predicate Decided(c: Client, target: int, i: nat, from: int) {
    var decided := ResendAllUntil(c, target, i).fault <==> Overruns(ViewOf(c), from, target);
    decided
  }

  lemma {:induction false} WalkExactly(c: Client, target: int, i: nat, from: int)
    requires Heading(c, target, i, from) && i < |c.sends|
    ensures Decided(c, target, i, from)
    decreases |c.sends| - i, 2
  {
    if c.sends[i].paused {
      AtHeld(c, target, i, from);
    } else if !c.sends[i].issued {
      AtPrepared(c, target, i, from);
    } else {
      assert EntryOk(c, c.sends[i]);
      if Spent(c.sends[i]) { AtSpent(c, target, i, from); } else { AtOther(c, target, i, from); }
    }
  }

  lemma {:induction false} AtHeld(c: Client, target: int, i: nat, from: int)
    requires Heading(c, target, i, from) && i < |c.sends| && c.sends[i].paused
    ensures Decided(c, target, i, from)
    decreases |c.sends| - i, 1
  {
    var s := c.sends[i];
    assert EntryOk(c, s);
    MemberAt(c, i);
    NobodyOnWire(c, i, from);
    HeldTurn(ViewOf(c), from, s.id + 1, target, s);
    if s.id != target && i + 1 < |c.sends| {
      var next := s.id + 1;
      NextSplits(c, i, from);
      WalkExactly(c, target, i + 1, next);
    }
  }

  lemma AtPrepared(c: Client, target: int, i: nat, from: int)
    requires Heading(c, target, i, from) && i < |c.sends| && !c.sends[i].issued
    ensures Decided(c, target, i, from)
  {
    var v := ViewOf(c);
    MemberAt(c, i);
    assert EntryOk(c, c.sends[i]);
    if i < |c.sends| - 1 { LineAt(c.ordering, c.sends, i, i + 1); }
    if s :| s in v.all && s.id == target && Fleeting(v.maxOut, s) {
      var k := PlaceOf(c, s);
    }
    assert Frees(v, from, target);
  }

  lemma NotTheTarget(c: Client, target: int, i: nat, from: int)
    requires Heading(c, target, i, from) && i < |c.sends| && c.sends[i].published && !c.sends[i].paused
    ensures c.sends[i].id != target && Next(ViewOf(c), from, c.sends[i])
  {
    var v, s := ViewOf(c), c.sends[i];
    MemberAt(c, i);
    assert EntryOk(c, s);
    forall x | x in v.all && from <= x.id && x != s ensures s.id < x.id {
      var k := PlaceOf(c, x);
      OtherIds(c.ordering, c.sends, i, k);
    }
    if x :| x in v.all && x.id == target && Fleeting(v.maxOut, x) {
      var k := PlaceOf(c, x);
      OtherIds(c.ordering, c.sends, i, k);
    }
  }

  predicate OtherAt(c: Client, i: nat)
    requires i < |c.sends|
  {
    c.sends[i].published && !c.sends[i].paused && !Spent(c.sends[i])
  }

  function OneMore(s: Send): Send { Marked(s).(attempts := s.attempts + 1, armed := true) }

  ghost function RepeatedView(v: View, s: Send): View { v.(all := v.all - {s} + {OneMore(s)}) }

  lemma OtherRepeats(c: Client, i: nat, d: Client)
    requires Good(c) && i < |c.sends| && OtherAt(c, i) && d == ResendDup(c, i, Resend)
    ensures d.sends == c.sends[i := OneMore(c.sends[i])] && d.fault == c.fault && Good(d)
    ensures ViewOf(d) == RepeatedView(ViewOf(c), c.sends[i])
  {
    var s := c.sends[i];
    var g := OneMore(s);
    RepeatFits(c, i);
    ResendDupIs(c, i, Resend);
    ResendDupKeeps(c, i);
    MembersUpdated(c, i, g);
    assert ViewOf(d) == ViewOf(With(c, i, g));
  }

  lemma OtherWalks(c: Client, target: int, i: nat, from: int, d: Client)
    requires Heading(c, target, i, from) && i < |c.sends| && OtherAt(c, i) && d == ResendDup(c, i, Resend)
    ensures |d.sends| == |c.sends| && Heading(d, target, i + 1, c.sends[i].id + 1)
  {
    var s := c.sends[i];
    var g := OneMore(s);
    NotTheTarget(c, target, i, from);
    OtherRepeats(c, i, d);
    RepeatedTarget(ViewOf(c), from, s, g, ViewOf(d), target);
    NextSplits(c, i, from);
    assert Splits(d.sends, i + 1, s.id + 1);
  }

  lemma OtherOverruns(c: Client, target: int, i: nat, from: int, d: Client)
    requires i < |c.sends| && OtherAt(c, i) && c.sends[i].issued && Next(ViewOf(c), from, c.sends[i])
    requires ViewOf(d) == RepeatedView(ViewOf(c), c.sends[i])
    ensures SameFate(ViewOf(c), from, ViewOf(d), c.sends[i].id + 1, target)
  {
    RepeatedOverruns(ViewOf(c), from, c.sends[i], OneMore(c.sends[i]), ViewOf(d), target);
  }

  ghost predicate SameFate(v: View, from: int, w: View, next: int, target: int) {
    var same := (Overruns(v, from, target) <==> Overruns(w, next, target)) && (Prepared(v) <==> Prepared(w));
    same
  }

  lemma OtherGoesOn(c: Client, target: int, i: nat, from: int, d: Client)
    requires Heading(c, target, i, from) && i < |c.sends| && OtherAt(c, i) && d == ResendDup(c, i, Resend)
    ensures ResendAllUntil(c, target, i) == ResendAllUntil(d, target, i + 1)
  {
    NotTheTarget(c, target, i, from);
    OtherRepeats(c, i, d);
    TurnGoesOn(c, target, i, d);
  }

  lemma OtherTurn(c: Client, target: int, i: nat, from: int, d: Client)
    requires Heading(c, target, i, from) && i < |c.sends| && OtherAt(c, i) && d == ResendDup(c, i, Resend)
    ensures SameFate(ViewOf(c), from, ViewOf(d), c.sends[i].id + 1, target)
  {
    NotTheTarget(c, target, i, from);
    OtherRepeats(c, i, d);
    OtherOverruns(c, target, i, from, d);
  }

  lemma {:induction false} AtOther(c: Client, target: int, i: nat, from: int)
    requires Heading(c, target, i, from) && i < |c.sends| && OtherAt(c, i)
    ensures Decided(c, target, i, from)
    decreases |c.sends| - i, 1
  {
    var d := ResendDup(c, i, Resend);
    OtherTurn(c, target, i, from, d);
    OtherWalks(c, target, i, from, d);
    OtherGoesOn(c, target, i, from, d);
    OtherRest(c, target, i, from, d);
    DecidedFrom(c, target, i, from, d);
  }

  lemma {:induction false} OtherRest(c: Client, target: int, i: nat, from: int, d: Client)
    requires ListOk(c) && i < |c.sends| == |d.sends| && c.sends[i].published
    requires SameFate(ViewOf(c), from, ViewOf(d), c.sends[i].id + 1, target)
    requires Heading(d, target, i + 1, c.sends[i].id + 1)
    ensures Decided(d, target, i + 1, c.sends[i].id + 1)
    decreases |d.sends| - i, 0
  {
    var next := c.sends[i].id + 1;
    if i + 1 < |c.sends| {
      WalkExactly(d, target, i + 1, next);
    } else {
      NobodyAhead(c, d, i, from, target);
    }
  }

  lemma DecidedFrom(c: Client, target: int, i: nat, from: int, d: Client)
    requires i < |c.sends| && SameFate(ViewOf(c), from, ViewOf(d), c.sends[i].id + 1, target)
    requires ResendAllUntil(c, target, i) == ResendAllUntil(d, target, i + 1)
    requires Decided(d, target, i + 1, c.sends[i].id + 1)
    ensures Decided(c, target, i, from)
  {
  }

  lemma NobodyAhead(c: Client, d: Client, i: nat, from: int, target: int)
    requires ListOk(c) && i == |c.sends| - 1 && c.sends[i].published
    requires SameFate(ViewOf(c), from, ViewOf(d), c.sends[i].id + 1, target)
    requires |d.sends| == |c.sends| && Heading(d, target, i + 1, c.sends[i].id + 1)
    ensures Decided(d, target, i + 1, c.sends[i].id + 1)
  {
    assert EntryOk(c, c.sends[i]);
    AllIssued(c);
    forall x | x in ViewOf(d).all ensures x.id < c.sends[i].id + 1 { var k := PlaceOf(d, x); }
  }

  predicate SpentAt(c: Client, i: nat)
    requires i < |c.sends|
  {
    c.sends[i].published && !c.sends[i].paused && Spent(c.sends[i])
  }

  lemma SpentIs(c: Client, i: nat, d: Client)
    requires Good(c) && i < |c.sends| && SpentAt(c, i) && d == ResendDup(c, i, Resend)
    ensures d.session.disconnecting == c.session.disconnecting
    ensures d.sends == if c.session.disconnecting then Erase(c, i).sends else ResumeSince(Erase(c, i), i).sends
    ensures ViewOf(d) == if c.session.disconnecting then ViewOf(Erase(c, i)) else ViewOf(ResumeSince(Erase(c, i), i))
  {
    SpentCompletes(c, i);
    assert d == CompleteWithCb(c, i, Timeout);
    ResendDupSession(c, i);
    SpentTerms(c, i, d);
  }

  lemma SpentTerms(c: Client, i: nat, d: Client)
    requires Good(c) && i < |c.sends| && SpentAt(c, i) && d == CompleteWithCb(c, i, Timeout)
    ensures d.maxOut == OpComplete(c, i).maxOut && d.nextId == OpComplete(c, i).nextId && d.session == OpComplete(c, i).session
  {
  }

  lemma SpentErased(c: Client, i: nat, from: int)
    requires Good(c) && i < |c.sends| && Splits(c.sends, i, from)
    ensures var e := Erase(c, i); Inv(e, {c.sends[i].id}) && Calm(e) && forall j | i <= j < |e.sends| :: from <= e.sends[j].id
  {
    ErasedInv(c, i);
    BehindErased(c, i, from);
  }

  lemma SpentLeaves(c: Client, i: nat, from: int, d: Client)
    requires Good(c) && i < |c.sends| && SpentAt(c, i) && Splits(c.sends, i, from) && d == ResendDup(c, i, Resend)
    ensures Alike(ViewOf(Erase(c, i)), ViewOf(d), from)
  {
    SpentIs(c, i, d);
    SpentErased(c, i, from);
    if !c.session.disconnecting { ResumeSinceAlike(Erase(c, i), i, from, {c.sends[i].id}); }
  }

  lemma SpentWakes(c: Client, i: nat, from: int, d: Client)
    requires Good(c) && i < |c.sends| && SpentAt(c, i) && Splits(c.sends, i, from) && d == ResendDup(c, i, Resend)
    ensures d.session.disconnecting || Woken(d.sends)
  {
    SpentIs(c, i, d);
    SpentErased(c, i, from);
    if !c.session.disconnecting {
      NoneBeforePublished(c, i);
      assert forall j | 0 <= j < i :: Erase(c, i).sends[j] == c.sends[j];
      ResumeSinceWakes(Erase(c, i), i, {c.sends[i].id});
    }
  }

  lemma NoneBeforePublished(c: Client, i: nat)
    requires ListOk(c) && i < |c.sends| && c.sends[i].published
    ensures NonePausedBefore(c.sends, i)
  {
    assert EntryOk(c, c.sends[i]);
    forall j | 0 <= j < i ensures !c.sends[j].paused {
      LineAt(c.ordering, c.sends, j, i);
      assert EntryOk(c, c.sends[j]);
    }
  }

  lemma SpentPrefix(c: Client, i: nat, d: Client)
    requires Good(c) && !c.fault && i < |c.sends| && SpentAt(c, i) && d == ResendDup(c, i, Resend)
    ensures Good(d) && !d.fault && i <= |d.sends| < |c.sends| && NonePausedBefore(d.sends, i)
    ensures LiveIds(d.sends) <= LiveIds(c.sends) - {c.sends[i].id}
    ensures forall j | 0 <= j < i :: d.sends[j] == c.sends[j]
  {
    ResendDupKeeps(c, i);
    TimedOutServes(c, i);
    NoneBeforePublished(c, i);
    LiveIdsErased(c.ordering, c.sends, i);
    assert forall j | 0 <= j < i :: d.sends[j] == d.sends[..i][j] == c.sends[..i][j] == c.sends[j];
  }

  /** Those before place `i` are where they were, those behind it were so before. */
  lemma SpentPlaces(c: Client, i: nat, from: int, d: Client)
    requires ListOk(c) && ListOk(d) && i < |c.sends| && i <= |d.sends| && Splits(c.sends, i, from)
    requires LiveIds(d.sends) <= LiveIds(c.sends) - {c.sends[i].id} && forall j | 0 <= j < i :: d.sends[j] == c.sends[j]
    ensures Splits(d.sends, i, from) && (i < |d.sends| ==> d.sends[i].id != c.sends[i].id)
  {
    forall j | i <= j < |d.sends| ensures from <= d.sends[j].id && d.sends[j].id != c.sends[i].id {
      assert d.sends[j].id in LiveIds(d.sends);
      var k :| 0 <= k < |c.sends| && c.sends[k].id == d.sends[j].id;
      if i > 0 {
        LineAt(d.ordering, d.sends, i - 1, j);
        if k != i - 1 { OtherIds(c.ordering, c.sends, k, i - 1); }
      }
    }
  }

  lemma SpentTurned(c: Client, target: int, i: nat, from: int, d: Client)
    requires Heading(c, target, i, from) && i < |c.sends| && SpentAt(c, i) && d == ResendDup(c, i, Resend)
    ensures Turned(ViewOf(c), from, ViewOf(d))
  {
    NotTheTarget(c, target, i, from);
    SpentLeaves(c, i, from, d);
    MembersErased(c, i);
    TurnOver(ViewOf(c), from, c.sends[i], ViewOf(Erase(c, i)), ViewOf(d));
  }

  lemma SpentDecides(c: Client, target: int, i: nat, from: int, d: Client)
    requires ListOk(d) && (d.session.disconnecting || Woken(d.sends)) && Turned(ViewOf(c), from, ViewOf(d))
    requires i <= |d.sends| && Splits(d.sends, i, from) && NonePausedBefore(d.sends, i)
    ensures Overruns(ViewOf(c), from, target) <==> i >= |d.sends| || Overruns(ViewOf(d), from, target)
  {
    var v, x := ViewOf(c), ViewOf(d);
    if i < |d.sends| {
      forall to | Loose(x, from, to) ensures Starts(x, from, to) { WokenStarts(d, from, to); }
      if AllFleeting(x, from) { FleetingWait(d, i, from); }
      SameAgain(v, from, x, target);
    } else {
      forall y | y in x.all ensures y.id < from && !y.paused {
        var k := PlaceOf(d, y);
      }
      NobodyLeft(v, from, x, target);
    }
  }

  lemma SpentTurn(c: Client, target: int, i: nat, from: int, d: Client)
    requires Heading(c, target, i, from) && i < |c.sends| && SpentAt(c, i) && d == ResendDup(c, i, Resend)
    ensures |d.sends| < |c.sends| && (i < |d.sends| ==> Heading(d, target, i, from))
    ensures Overruns(ViewOf(c), from, target) <==> i >= |d.sends| || Overruns(ViewOf(d), from, target)
    ensures ResendAllUntil(c, target, i).fault <==> i >= |d.sends| || ResendAllUntil(d, target, i).fault
  {
    NotTheTarget(c, target, i, from);
    SpentWakes(c, i, from, d);
    SpentPrefix(c, i, d);
    SpentPlaces(c, i, from, d);
    SpentTurned(c, target, i, from, d);
    SpentDecides(c, target, i, from, d);
    TurnGoesOn(c, target, i, d);
  }

  lemma {:induction false} AtSpent(c: Client, target: int, i: nat, from: int)
    requires Heading(c, target, i, from) && i < |c.sends| && SpentAt(c, i)
    ensures Decided(c, target, i, from)
    decreases |c.sends| - i, 1
  {
    var d := ResendDup(c, i, Resend);
    SpentTurn(c, target, i, from, d);
    if i < |d.sends| { WalkExactly(d, target, i, from); }
  }

  // ------------------------------------------------------------------ the acknowledgement

  /** An acknowledgement out of turn faults if and only if it names a publish held back that
      leaves once resumed, the walk frees it, and then comes to the prepared publish or sees all
      that is left behind it leave. */
  lemma OutOfTurnOverrunsExactly(c: Client, kind: AckKind, pid: int)
    requires Good(c) && !c.fault && pid != 0
    requires var k := FindSend(c.sends, pid); k < |c.sends| && !Expected(c.sends, k, kind.Pubcomp?)
    ensures var s := c.sends[FindSend(c.sends, pid)];
      ProcessAck(c, kind, pid).fault <==> Fleeting(c.maxOut, s) && Overruns(ViewOf(c), 0, s.id)
  {
    var k := FindSend(c.sends, pid);
    var s := c.sends[k];
    assert EntryOk(c, s);
    LegitExactly(c.sends, k, kind.Pubcomp?);
    if Fleeting(c.maxOut, s) {
      assert forall j | 0 <= j < |c.sends| :: EntryOk(c, c.sends[j]);
      MemberAt(c, k);
      WalkExactly(c, s.id, 0, 0);
      assert Decided(c, s.id, 0, 0);
    } else {
      AckOutOfTurnServesAll(c, kind, pid);
    }
  }

  // ------------------------------------------------------------------ the last one named

  /** The last publish is the only one held back, and too long for the output buffer. */
  ghost predicate HeldLast(c: Client) {
    && c.sends != [] && c.sends[|c.sends| - 1].paused && c.maxOut < c.sends[|c.sends| - 1].len
    && forall j | 0 <= j < |c.sends| - 1 :: c.sends[j].published
  }

  predicate Holds(c: Client, j: nat)
    requires j < |c.sends|
  {
    c.sends[j].qos > c.sends[|c.sends| - 1].qos
  }

  /** All that hold the last publish back have no attempts left, nor has the one before it. */
  ghost predicate AllSpent(c: Client) {
    && !c.session.disconnecting && 2 <= |c.sends| && Spent(c.sends[|c.sends| - 2])
    && forall j | 0 <= j < |c.sends| - 1 && Holds(c, j) :: Spent(c.sends[j])
  }

  lemma SpentOverruns(c: Client)
    requires ListOk(c) && HeldLast(c) && AllSpent(c)
    ensures Overruns(ViewOf(c), 0, c.sends[|c.sends| - 1].id)
  {
    var v, m := ViewOf(c), |c.sends| - 1;
    assert forall j | 0 <= j <= m :: EntryOk(c, c.sends[j]);
    MemberAt(c, m - 1);
    forall e, b | e in v.all && e.paused && b in v.all ensures !Keeps(v, 0, b, e) {
      var k := PlaceOf(c, e);
      var l := PlaceOf(c, b);
      if l < m && b.qos > e.qos { assert Holds(c, l); }
    }
    forall x | x in v.all && x.id > c.sends[m - 1].id ensures Fleeting(v.maxOut, x) {
      var k := PlaceOf(c, x);
      if k != m - 1 { OtherIds(c.ordering, c.sends, k, m - 1); }
    }
    assert IsLast(v, c.sends[m - 1]);
    assert Frees(v, 0, c.sends[m].id) && Frees(v, 0, v.last);
  }

  lemma OverrunsSpent(c: Client)
    requires ListOk(c) && HeldLast(c) && Overruns(ViewOf(c), 0, c.sends[|c.sends| - 1].id)
    ensures AllSpent(c)
  {
    var v, m := ViewOf(c), |c.sends| - 1;
    assert forall j | 0 <= j <= m :: EntryOk(c, c.sends[j]);
    MemberAt(c, m);
    AllIssued(c);
    forall j: nat | j < m && Holds(c, j) ensures Spent(c.sends[j]) {
      MemberAt(c, j);
      LineAt(c.ordering, c.sends, j, m);
      assert !Keeps(v, 0, c.sends[j], c.sends[m]);
    }
    var l :| l in v.all && 0 <= l.id && !Fleeting(v.maxOut, l) && Doomed(v.maxOut, l) && IsLast(v, l);
    var k := PlaceOf(c, l);
    assert k < m;
    MemberAt(c, m - 1);
    assert k == m - 1;
  }

  lemma OverrunsWhenSpent(c: Client)
    requires ListOk(c) && HeldLast(c)
    ensures Overruns(ViewOf(c), 0, c.sends[|c.sends| - 1].id) <==> AllSpent(c)
  {
    if AllSpent(c) { SpentOverruns(c); }
    if Overruns(ViewOf(c), 0, c.sends[|c.sends| - 1].id) { OverrunsSpent(c); }
  }

  /** An acknowledgement that names a publish held back as the first and last one, too long for
      the output buffer, makes the walk look past the end of the list if and only if the session
      is not going down, all publishes that hold it back have used up their attempts, and so has
      the one just before it (which is one of them unless nobody holds it back). */
  lemma LastHeldVanishesExactly(c: Client, kind: AckKind)
    requires Good(c) && !c.fault && HeldLast(c)
    requires forall j | 0 <= j < |c.sends| - 1 :: c.sends[j].pid != c.sends[|c.sends| - 1].pid
    requires c.sends[|c.sends| - 1].pid != 0
    ensures ProcessAck(c, kind, c.sends[|c.sends| - 1].pid).fault <==> AllSpent(c)
  {
    var m := |c.sends| - 1;
    var k := FindSend(c.sends, c.sends[m].pid);
    assert c.sends[k].pid == c.sends[m].pid && EntryOk(c, c.sends[m]);
    OutOfTurnOverrunsExactly(c, kind, c.sends[m].pid);
    OverrunsWhenSpent(c);
  }

  /** With somebody who holds it back that is the one before it: list order is QoS order. */
  lemma HolderIsJustBefore(c: Client, j: nat)
    requires Good(c) && HeldLast(c) && j < |c.sends| - 1 && Holds(c, j)
    ensures Holds(c, |c.sends| - 2)
  {
    assert c.ordering.Full?;
    if j < |c.sends| - 2 { LineAt(c.ordering, c.sends, j, |c.sends| - 2); }
  }
}
