/** A publish keeps the terms on which it was issued: whatever happens afterwards, its packets and
    callbacks are those the call asked for. */
module SendTerms {
  import opened PacketIds
  import opened History
  import opened SendModel
  import opened SendInvariant
  import opened SendSteps
  import opened SendRuns
  import opened SendSession
  import opened SendWakeups
  import opened SendForced
  import opened SendTicks
  import opened SendEffects

  // ------------------------------------------------------------------ the history only grows

  lemma {:induction false} ResendLoopExtends(c: Client, i: nat)
    ensures Extends(ResendLoop(c, i).log, c.log)
    decreases |c.sends| - i
  {
    if i < |c.sends| {
      var d := PostReconnectionResend(c, i);
      PostReconnectionExtends(c, i);
      if |d.sends| == |c.sends| {
        ResendLoopExtends(d, i + 1);
        ExtendsTransitive(ResendLoop(c, i).log, d.log, c.log);
      }
    }
  }

  lemma PostReconnectionExtends(c: Client, i: nat)
    requires i < |c.sends|
    ensures Extends(PostReconnectionResend(c, i).log, c.log)
  {
    var s := c.sends[i];
    var n := if s.attempts == 0 then MAX_UNSIGNED else s.attempts - 1;
    ResendDupExtends(With(c, i, s.(attempts := n, armed := false)), i, Reconnect);
  }

  lemma ResendDupExtends(c: Client, i: nat, cause: Cause)
    requires i < |c.sends|
    ensures Extends(ResendDup(c, i, cause).log, c.log)
  {
    CompleteCarries(c, i, Timeout, 0);
    CompleteCarries(With(c, i, Marked(c.sends[i])), i, InternalError, 0);
  }

  lemma ConnackExtends(c: Client, accepted: bool, sessionPresent: bool)
    ensures Extends(DoConnack(c, accepted, sessionPresent).log, c.log)
  {
    if c.session.connecting && accepted {
      var c1 := c.(session := c.session.(connected := true, connecting := false));
      if !sessionPresent {
        WalkExtends(c1, 0);
      } else {
        var d := ResendLoop(Found(c), 0);
        ResendLoopExtends(Found(c), 0);
        ExtendsTransitive(d.log, Found(c).log, c.log);
        var from := TrailingPaused(d.sends, |d.sends|);
        ResumeSinceCarries(d, from, from);
        ExtendsTransitive(ResumeSince(d, from).log, d.log, c.log);
      }
    }
  }

  lemma SendCallExtends(c: Client, qos: int, len: int, total: int, configured: bool)
    ensures Extends(DoSendCall(c, qos, len, total, configured).log, c.log)
  {
    if HasPrepared(c) && 0 <= qos <= MAX_QOS && total > 0 {
      var i, c0 := |c.sends| - 1, c.(locked := false);
      if configured { IssueExtends(c0, Issue(c0, i, qos, len, total), i); } else { CompleteCarries(c0, i, Complete, 0); }
    }
  }

  lemma IssueExtends(c: Client, d: Client, i: nat)
    requires i < |d.sends| && !d.sends[i].paused && Extends(d.log, c.log)
    ensures Extends(DoSend(d, i).log, c.log) && Extends(OpComplete(d, i).log, c.log)
  {
    CompleteCarries(d, i, Complete, 0);
    DoSendCarries(d, i, 0);
    ExtendsTransitive(OpComplete(d, i).log, d.log, c.log);
    ExtendsTransitive(DoSend(d, i).log, d.log, c.log);
  }

  lemma AckExtends(c: Client, kind: AckKind, pid: int)
    ensures Extends(ProcessAck(c, kind, pid).log, c.log)
  {
    var i := FindSend(c.sends, pid);
    if i < |c.sends| {
      var c1 := With(c, i, c.sends[i].(armed := false));
      ResendAllUntilExtends(c, c.sends[i].id, 0);
      CompleteCarries(c1, i, Complete, 0);
      CompleteCarries(c1, i, ProtocolError, 0);
      PubrecExtends(c1, i);
    }
  }

  lemma PubrecExtends(c: Client, i: nat)
    requires i < |c.sends|
    ensures Extends(AcceptPubrec(c, i).log, c.log)
  {
    CompleteCarries(With(c, i, c.sends[i].(acked := true, attempts := 0)), i, InternalError, 0);
  }

  lemma StepExtends(c: Client, x: Input)
    ensures Extends(Step(c, x).log, c.log)
  {
    if !c.fault {
      match x
      case SendPrepared(qos, len, total, configured) => SendCallExtends(c, qos, len, total, configured);
      case Cancel(id) =>
        var i := IndexOf(c.sends, id);
        if i < |c.sends| {
          CompleteCarries(c, i, Complete, 0);
          CompleteCarries(c.(locked := false), i, Complete, 0);
        }
      case Ack(kind, pid) => AckExtends(c, kind, pid);
      case Tick(calls) => OnCallsExtends(c.(sends := TimersCancelled(c.sends, Collected(c.sends, calls))), Collected(c.sends, calls));
      case Connack(accepted, sessionPresent) => ConnackExtends(c, accepted, sessionPresent);
      case _ =>
    }
  }

  lemma {:induction false} RunExtends(c: Client, xs: seq<Input>)
    ensures Extends(Run(c, xs).log, c.log)
    decreases |xs|
  {
    if xs != [] {
      var before := Run(c, xs[..|xs| - 1]);
      RunExtends(c, xs[..|xs| - 1]);
      StepExtends(before, xs[|xs| - 1]);
      ExtendsTransitive(Run(c, xs).log, before.log, c.log);
    }
  }

  lemma {:induction false} RunInTwo(c: Client, xs: seq<Input>, ys: seq<Input>)
    ensures Run(c, xs + ys) == Run(Run(c, xs), ys)
    decreases |ys|
  {
    if ys == [] {
      assert xs + ys == xs;
    } else {
      RunInTwo(c, xs, ys[..|ys| - 1]);
      assert (xs + ys)[..|xs + ys| - 1] == xs + ys[..|ys| - 1];
    }
  }

  // ------------------------------------------------------------------ what the terms say

  /** Once issued, always on the same terms. */
  lemma {:induction false} TermsKept(o: Ordering, g: Log, h: Log, id: int)
    requires Orderly(o, g) && Extends(g, h) && TermsOf(h, id).IssuedAs?
    ensures TermsOf(g, id) == TermsOf(h, id)
  {
    if g != h { TermsKept(o, g.past, h, id); }
  }

  /** What may be heard of a publish issued on these terms. */
  predicate OnTerms(e: Event, id: int, qos: int, budget: int, fits: bool) {
    && (e.Publish? && e.id == id ==> e.qos == qos && e.budget == budget && fits)
    && (e.Callback? && e.id == id ==>
          e.qos == qos && (e.status.OutOfMemory? ==> !fits) && (!fits ==> e.status.OutOfMemory? || e.status.Aborted?))
    && (e.Silent? && e.id == id && e.why.Refused? ==> !fits)
    && (e.Pubrel? && e.id == id ==> qos == 2)
  }

  lemma {:induction false} TermsObserved(o: Ordering, h: Log, id: int, k: nat)
    requires Orderly(o, h) && TermsOf(h, id).IssuedAs? && k < |Events(h)|
    ensures var t := TermsOf(h, id); OnTerms(Events(h)[k], id, t.qos, t.budget, t.fits)
    decreases h
  {
    var p, e := h.past, h.last;
    if e.Issued? && e.id == id {
      NothingBefore(o, p, id, k);
    } else {
      if k < |Events(p)| { TermsObserved(o, p, id, k); }
      if !TermsOf(p, id).fits { TooLongIsNeverSent(o, p, id); }
      if Pubs(p, id) > 0 { HeaderAsIssued(o, p, id); }
    }
  }

  lemma {:induction false} TooLongIsNeverSent(o: Ordering, h: Log, id: int)
    requires Orderly(o, h) && TermsOf(h, id).IssuedAs? && !TermsOf(h, id).fits
    ensures Pubs(h, id) == 0
  {
    if !(h.last.Issued? && h.last.id == id) { TooLongIsNeverSent(o, h.past, id); }
  }

  lemma {:induction false} NoPubsNoRels(o: Ordering, h: Log, id: int)
    requires Orderly(o, h) && Pubs(h, id) == 0
    ensures Rels(h, id) == 0
  {
    if h.After? { NoPubsNoRels(o, h.past, id); }
  }

  /** Before it is issued nothing is heard of a publish. */
  lemma NothingBefore(o: Ordering, p: Log, id: int, k: nat)
    requires Orderly(o, p) && Pubs(p, id) == 0 && Ends(p, id) == 0 && k <= |Events(p)|
    ensures k < |Events(p)| && !Events(p)[k].Issued? && !Events(p)[k].Mark? ==> Events(p)[k].id != id
  {
    NoPubsNoRels(o, p, id);
    if k < |Events(p)| { CountsCover(p, k); }
  }

  // ------------------------------------------------------------------ in every run

  /** A fresh client after `xs` has a prepared publish; then it is issued with these arguments,
      and things go on. */
  function AfterIssue(o: Ordering, maxOut: int, idLimit: nat, xs: seq<Input>, x: Input, ys: seq<Input>): Client {
    Run(NewClient(o, maxOut, idLimit), xs + [x] + ys)
  }

  ghost predicate Issues(c: Client, qos: int, total: int, id: int) {
    && !c.fault && c.sends != [] && !c.sends[|c.sends| - 1].issued && c.sends[|c.sends| - 1].id == id
    && 0 <= qos <= MAX_QOS && total > 0
  }

  lemma IssuedStays(o: Ordering, maxOut: int, idLimit: nat, xs: seq<Input>, qos: int, len: int, total: int, ys: seq<Input>, id: int)
    requires Issues(Run(NewClient(o, maxOut, idLimit), xs), qos, total, id)
    ensures var h := AfterIssue(o, maxOut, idLimit, xs, SendPrepared(qos, len, total, true), ys).log;
      Orderly(o, h) && TermsOf(h, id) == IssuedAs(qos, len, total, len <= maxOut)
  {
    var n, x := NewClient(o, maxOut, idLimit), SendPrepared(qos, len, total, true);
    var c := Run(n, xs);
    var d := Step(c, x);
    assert (xs + [x])[..|xs|] == xs;
    assert Run(n, xs + [x]) == d;
    assert Reached(c);
    SendIssues(c, qos, len, total);
    RunKeeps(o, maxOut, idLimit, xs + [x]);
    IssuedFound(o, d.log, |Events(c.log)|);
    RunInTwo(n, xs + [x], ys);
    RunExtends(d, ys);
    RunKeeps(o, maxOut, idLimit, xs + [x] + ys);
    TermsKept(o, Run(d, ys).log, d.log, id);
  }

  lemma {:induction false} IssuedFound(o: Ordering, h: Log, k: nat)
    requires Orderly(o, h) && k < |Events(h)| && Events(h)[k].Issued?
    ensures var e := Events(h)[k]; TermsOf(h, e.id) == IssuedAs(e.qos, e.len, e.budget, e.fits)
    decreases h
  {
    if k < |Events(h.past)| { IssuedFound(o, h.past, k); }
  }

  /** Every PUBLISH of a publish, in every continuation, has the QoS and belongs to the attempts
      that the call asked for, and goes out only if its length fits; every callback has that QoS;
      refused, or out of memory, it is only when it is too long, and then nothing else can become
      of it but to be aborted or cancelled. */
  lemma CallsAreKept(o: Ordering, maxOut: int, idLimit: nat, xs: seq<Input>, qos: int, len: int, total: int, ys: seq<Input>, id: int, k: nat)
    requires Issues(Run(NewClient(o, maxOut, idLimit), xs), qos, total, id)
    requires k < |Events(AfterIssue(o, maxOut, idLimit, xs, SendPrepared(qos, len, total, true), ys).log)|
    ensures OnTerms(Events(AfterIssue(o, maxOut, idLimit, xs, SendPrepared(qos, len, total, true), ys).log)[k], id, qos, total, len <= maxOut)
  {
    IssuedStays(o, maxOut, idLimit, xs, qos, len, total, ys, id);
    TermsObserved(o, AfterIssue(o, maxOut, idLimit, xs, SendPrepared(qos, len, total, true), ys).log, id, k);
  }

  /** Its PUBLISH packets are at most the attempts asked for, and the reconnections with a session
      present that found it on its way. */
  lemma CopiesAsAsked(o: Ordering, maxOut: int, idLimit: nat, xs: seq<Input>, qos: int, len: int, total: int, ys: seq<Input>, id: int)
    requires Issues(Run(NewClient(o, maxOut, idLimit), xs), qos, total, id)
    ensures var h := AfterIssue(o, maxOut, idLimit, xs, SendPrepared(qos, len, total, true), ys).log;
      Pubs(h, id) <= total + LivedThrough(h, id) && (maxOut < len ==> Pubs(h, id) == 0)
  {
    IssuedStays(o, maxOut, idLimit, xs, qos, len, total, ys, id);
    var h := AfterIssue(o, maxOut, idLimit, xs, SendPrepared(qos, len, total, true), ys).log;
    if maxOut < len { TooLongIsNeverSent(o, h, id); }
    if Pubs(h, id) > 0 {
      HeaderAsIssued(o, h, id);
      AttemptsNeverExceeded(o, h, id);
      CopiesWithinResumptions(o, h, id);
    }
  }
}
