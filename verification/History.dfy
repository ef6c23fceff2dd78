/** What has happened between the client and the outside about its publishes, oldest first: the
    calls that issue them, packets handed to the output callback, completion callbacks, and
    silent departures. */
module History {

  /** CC_Mqtt311PublishOrdering */
  datatype Ordering = SameQos | Full

  /** The statuses a publish completion callback can carry. */
  datatype Status = Complete | Timeout | ProtocolError | InternalError | OutOfMemory | Aborted

  /** Why a PUBLISH went out. With the first one of a publish goes who was still in the list
      before it then and had had none. */
  datatype Cause = First(ahead: set<int>) | Resend | Reconnect

  /** Why a publish left without its callback. */
  datatype Silence = Cancelled | Refused

  /** The session is lost, with the publishes whose response timers were set just then, or it
      is found again by a reconnection. */
  datatype Turn = Lost(reported: bool, timed: set<int>) | Resumed

  datatype Event =
    | Issued(id: int, qos: int, len: int, budget: int, fits: bool)
    | Publish(id: int, pid: int, qos: int, dup: bool, cause: Cause, budget: int)
    | Pubrel(id: int, pid: int)
    | Callback(id: int, qos: int, status: Status)
    | Silent(id: int, why: Silence)
    | Mark(what: Turn)

  /** What the call that issued a publish has said of it: the QoS, the length of its PUBLISH, the
      attempts, and whether that length fits the output buffer. */
  datatype Terms = NotIssued | IssuedAs(qos: int, len: int, budget: int, fits: bool)

  datatype Log = Empty | After(past: Log, last: Event)

  function Max(a: int, b: int): int { if a < b then b else a }

  /** How many PUBLISH packets publish `id` has had. */
  function Pubs(h: Log, id: int): nat {
    match h
    case Empty => 0
    case After(p, e) => Pubs(p, id) + if e.Publish? && e.id == id then 1 else 0
  }

  /** The PUBLISH packets that use up an attempt: all but those caused by a reconnection. */
  function Charged(h: Log, id: int): nat {
    match h
    case Empty => 0
    case After(p, e) => Charged(p, id) + if e.Publish? && e.id == id && !e.cause.Reconnect? then 1 else 0
  }

  function Rels(h: Log, id: int): nat {
    match h
    case Empty => 0
    case After(p, e) => Rels(p, id) + if e.Pubrel? && e.id == id then 1 else 0
  }

  /** How many times `id` has left: callbacks and silent departures. */
  function Ends(h: Log, id: int): nat {
    match h
    case Empty => 0
    case After(p, e) => Ends(p, id) + if (e.Callback? || e.Silent?) && e.id == id then 1 else 0
  }

  /** The identity, QoS and attempts limit of the latest PUBLISH of `id`: (pid, qos, budget). */
  function Header(h: Log, id: int): (int, int, int) {
    match h
    case Empty => (0, 0, 0)
    case After(p, e) => if e.Publish? && e.id == id then (e.pid, e.qos, e.budget) else Header(p, id)
  }

  function TermsOf(h: Log, id: int): Terms {
    match h
    case Empty => NotIssued
    case After(p, e) => if e.Issued? && e.id == id then IssuedAs(e.qos, e.len, e.budget, e.fits) else TermsOf(p, id)
  }

  /** Whether a publish fits was told right, for an output buffer of this size. */
  predicate FitsTold(maxOut: int, h: Log) {
    match h
    case Empty => true
    case After(p, e) => FitsTold(maxOut, p) && (e.Issued? ==> e.fits == (e.len <= maxOut))
  }

  lemma {:induction false} FitsAsTold(maxOut: int, h: Log, id: int)
    requires FitsTold(maxOut, h) && TermsOf(h, id).IssuedAs?
    ensures TermsOf(h, id).fits <==> TermsOf(h, id).len <= maxOut
  {
    if !(h.last.Issued? && h.last.id == id) { FitsAsTold(maxOut, h.past, id); }
  }

  /** The greatest publish with a PUBLISH packet so far. */
  function MaxPub(h: Log): int {
    match h
    case Empty => 0
    case After(p, e) => if e.Publish? then Max(MaxPub(p), e.id) else MaxPub(p)
  }

  /** The greatest publish of QoS below `qos` with a PUBLISH packet so far. */
  function MaxPubBelow(h: Log, qos: int): int {
    match h
    case Empty => 0
    case After(p, e) => if e.Publish? && e.qos < qos then Max(MaxPubBelow(p, qos), e.id) else MaxPubBelow(p, qos)
  }

  function MaxRel(h: Log): int {
    match h
    case Empty => 0
    case After(p, e) => if e.Pubrel? then Max(MaxRel(p), e.id) else MaxRel(p)
  }

  /** The greatest publish of this QoS whose callback said Complete. */
  function MaxDone(h: Log, qos: int): int {
    match h
    case Empty => 0
    case After(p, e) =>
      if e.Callback? && e.qos == qos && e.status.Complete? then Max(MaxDone(p, qos), e.id) else MaxDone(p, qos)
  }

  /** The greatest publish mentioned. */
  function MaxId(h: Log): int {
    match h
    case Empty => 0
    case After(p, e) => if e.Mark? then MaxId(p) else Max(MaxId(p), e.id)
  }

  lemma {:induction false} MaxIdBounds(h: Log, qos: int)
    ensures MaxPub(h) <= MaxId(h) && MaxPubBelow(h, qos) <= MaxId(h)
    ensures MaxRel(h) <= MaxId(h) && MaxDone(h, qos) <= MaxId(h)
  {
    match h
    case Empty =>
    case After(p, e) => MaxIdBounds(p, qos);
  }

  /** Nothing is recorded about a publish beyond the greatest one mentioned. */
  lemma {:induction false} UnmentionedIsBlank(h: Log, id: int)
    requires MaxId(h) < id
    ensures Pubs(h, id) == Charged(h, id) == Rels(h, id) == Ends(h, id) == 0 && TermsOf(h, id) == NotIssued
  {
    match h
    case Empty =>
    case After(p, e) => UnmentionedIsBlank(p, id);
  }

  /** The broker has `id` only in part: a PUBLISH went out and no PUBREL, and it has not ended. */
  predicate OnTheWay(h: Log, id: int) {
    Pubs(h, id) > 0 && Rels(h, id) == 0 && Ends(h, id) == 0
  }

  /** Publish `id` was on its way at the latest resumption of the session, and has had no copy
      caused by it. */
  predicate Due(h: Log, id: int) {
    match h
    case Empty => false
    case After(p, e) =>
      if e == Mark(Resumed) then OnTheWay(p, id)
      else if e.Publish? && e.id == id && e.cause.Reconnect? then false
      else Due(p, id)
  }

  /** How many resumptions of the session `id` was on its way at. */
  function LivedThrough(h: Log, id: int): nat {
    match h
    case Empty => 0
    case After(p, e) => LivedThrough(p, id) + if e == Mark(Resumed) && OnTheWay(p, id) then 1 else 0
  }

  /** The publishes whose PUBLISH was repeated, or that had a PUBREL, one entry for each packet. */
  function Repeats(h: Log): seq<int> {
    match h
    case Empty => []
    case After(p, e) => Repeats(p) + if e.Pubrel? || (e.Publish? && e.dup) then [e.id] else []
  }

  predicate Contains(h: Log, e: Event) {
    match h
    case Empty => false
    case After(p, f) => f == e || Contains(p, e)
  }

  /** The timer of publish `id` was set at some loss of the session. */
  predicate Hit(h: Log, id: int) {
    match h
    case Empty => false
    case After(p, e) => (e.Mark? && e.what.Lost? && id in e.what.timed) || Hit(p, id)
  }

  // ------------------------------------------------------------------ what may happen next

  /** `e` may follow history `h` of a client with this ordering. */
  predicate MayFollow(o: Ordering, h: Log, e: Event) {
    match e
    case Issued(id, qos, len, budget, fits) =>
      && TermsOf(h, id) == NotIssued && Pubs(h, id) == 0 && Ends(h, id) == 0
      && 0 <= qos <= 2 && budget > 0
    case Publish(id, pid, qos, dup, cause, budget) =>
      // as it was issued, and only if it fits
      && TermsOf(h, id).IssuedAs? && TermsOf(h, id).qos == qos && TermsOf(h, id).budget == budget && TermsOf(h, id).fits
      // the first copy has DUP clear, all others have it set
      && (dup <==> Pubs(h, id) > 0)
      && (cause.First? <==> Pubs(h, id) == 0)
      // everybody issued before has had a first copy or has left the list
      && (cause.First? ==> cause.ahead == {})
      // nothing goes out again after PUBREC was accepted, nor after the publish ended
      && Rels(h, id) == 0 && Ends(h, id) == 0
      // first copies go out in issue order
      && (Pubs(h, id) == 0 ==> MaxPub(h) < id)
      // a copy that is not part of a reconnection uses up one of the attempts
      && (!cause.Reconnect? ==> Charged(h, id) < budget)
      // one that is, is the only one of its publish in that reconnection
      && (cause.Reconnect? ==> Due(h, id))
      // a copy keeps its packet identifier
      && (Pubs(h, id) > 0 ==> Header(h, id) == (pid, qos, budget))
      // full ordering: no packet of a publish after a later one of lower QoS
      && (o.Full? ==> MaxPubBelow(h, qos) < id)
    case Pubrel(id, pid) =>
      && Pubs(h, id) > 0 && Ends(h, id) == 0
      && Header(h, id).0 == pid && Header(h, id).1 == 2
      && (Rels(h, id) == 0 ==> MaxRel(h) < id)
      && (o.Full? ==> MaxPubBelow(h, 2) < id)
    case Callback(id, qos, status) =>
      && Ends(h, id) == 0 && TermsOf(h, id).IssuedAs? && TermsOf(h, id).qos == qos
      // the broker has answered all but QoS 0
      && (status.Complete? ==> Pubs(h, id) > 0 && Header(h, id).1 == qos)
      && (status.Complete? && qos == 2 ==> Rels(h, id) > 0)
      && (status.Complete? && qos > 0 ==> MaxDone(h, qos) < id)
      // attempts are used up; before PUBREC those are PUBLISH packets
      && (status.Timeout? ==> Pubs(h, id) > 0 && (Rels(h, id) == 0 ==> Charged(h, id) >= TermsOf(h, id).budget))
      // too long, and never sent
      && (status.OutOfMemory? ==> !TermsOf(h, id).fits && Pubs(h, id) == 0)
      // a PUBREL does not fit
      && (status.InternalError? ==> Pubs(h, id) > 0 && Rels(h, id) == 0)
      && (status.ProtocolError? ==> Pubs(h, id) > 0)
    case Silent(id, why) =>
      && Ends(h, id) == 0
      && (why.Refused? && TermsOf(h, id).IssuedAs? ==> !TermsOf(h, id).fits && Pubs(h, id) == 0)
    case Mark(_) => true
  }

  /** Every event was allowed when it happened. */
  predicate Orderly(o: Ordering, h: Log) {
    match h
    case Empty => true
    case After(p, e) => Orderly(o, p) && MayFollow(o, p, e)
  }

  /** `g` is `h` with more events after it. */
  predicate Extends(g: Log, h: Log) {
    g == h || (g.After? && Extends(g.past, h))
  }

  lemma {:induction false} ExtendsTransitive(f: Log, g: Log, h: Log)
    requires Extends(f, g) && Extends(g, h)
    ensures Extends(f, h)
  {
    if f != g { ExtendsTransitive(f.past, g, h); }
  }

  /** A publish that has left has no more packets and does not leave again. */
  lemma {:induction false} EndedIsSilent(o: Ordering, g: Log, h: Log, id: int)
    requires Orderly(o, g) && Extends(g, h) && Ends(h, id) > 0
    ensures Pubs(g, id) == Pubs(h, id) && Rels(g, id) == Rels(h, id) && Header(g, id) == Header(h, id)
    ensures Ends(g, id) == Ends(h, id) && TermsOf(g, id) == TermsOf(h, id) && Charged(g, id) == Charged(h, id)
  {
    if g != h { EndedIsSilent(o, g.past, h, id); }
  }

  // ------------------------------------------------------------------ reading an orderly history

  /** The events as a list, oldest first. */
  function Events(h: Log): seq<Event> {
    match h
    case Empty => []
    case After(p, e) => Events(p) + [e]
  }

  lemma {:induction false} MaximaCover(h: Log, i: nat)
    requires i < |Events(h)|
    ensures Events(h)[i].Publish? ==> Events(h)[i].id <= MaxPub(h)
    ensures Events(h)[i].Pubrel? ==> Events(h)[i].id <= MaxRel(h)
    ensures forall q | Events(h)[i].Publish? && Events(h)[i].qos < q :: Events(h)[i].id <= MaxPubBelow(h, q)
    ensures forall q | Events(h)[i].Callback? && Events(h)[i].qos == q && Events(h)[i].status.Complete? ::
              Events(h)[i].id <= MaxDone(h, q)
  {
    if i < |Events(h.past)| { MaximaCover(h.past, i); }
  }

  lemma {:induction false} CountsCover(h: Log, i: nat)
    requires i < |Events(h)|
    ensures Events(h)[i].Publish? ==> Pubs(h, Events(h)[i].id) > 0
    ensures Events(h)[i].Pubrel? ==> Rels(h, Events(h)[i].id) > 0
    ensures Events(h)[i].Callback? || Events(h)[i].Silent? ==> Ends(h, Events(h)[i].id) > 0
  {
    if i < |Events(h.past)| { CountsCover(h.past, i); }
  }

  /** The history just before event `j`. */
  function Before(h: Log, j: nat): (g: Log)
    requires j < |Events(h)|
    ensures Events(g) == Events(h)[..j]
  {
    if j == |Events(h.past)| then h.past else Before(h.past, j)
  }

  lemma {:induction false} OrderlyAt(o: Ordering, h: Log, j: nat)
    requires Orderly(o, h) && j < |Events(h)|
    ensures Orderly(o, Before(h, j)) && MayFollow(o, Before(h, j), Events(h)[j])
  {
    if j < |Events(h.past)| { OrderlyAt(o, h.past, j); }
  }

  /** The issue order of section 4.6 of MQTT 3.1.1, for acknowledgements: two publishes of
      the same QoS above 0 that both complete do so in the order they were issued. */
  lemma CompletionsInIssueOrder(o: Ordering, h: Log, i: nat, j: nat)
    requires Orderly(o, h) && i < j < |Events(h)|
    requires Events(h)[i].Callback? && Events(h)[j].Callback?
    requires Events(h)[i].status == Events(h)[j].status == Complete
    requires Events(h)[i].qos == Events(h)[j].qos > 0
    ensures Events(h)[i].id < Events(h)[j].id
  {
    OrderlyAt(o, h, j);
    MaximaCover(Before(h, j), i);
  }

  /** A PUBLISH at `j` with DUP clear: by `DupMarksRepeats` the first copy of its publish. */
  predicate FirstCopyAt(es: seq<Event>, j: nat) {
    j < |es| && es[j].Publish? && !es[j].dup
  }

  /** First copies go on the wire in issue order. */
  lemma FirstCopiesInIssueOrder(o: Ordering, h: Log, i: nat, j: nat)
    requires Orderly(o, h) && i < j && FirstCopyAt(Events(h), i) && FirstCopyAt(Events(h), j)
    ensures Events(h)[i].id < Events(h)[j].id
  {
    OrderlyAt(o, h, j);
    MaximaCover(Before(h, j), i);
  }

  /** A copy without DUP is the only such copy of its publish and precedes all with DUP. */
  lemma DupMarksRepeats(o: Ordering, h: Log, i: nat, j: nat)
    requires Orderly(o, h) && i < j < |Events(h)|
    requires Events(h)[i].Publish? && Events(h)[j].Publish? && Events(h)[i].id == Events(h)[j].id
    ensures Events(h)[j].dup && Events(h)[i].pid == Events(h)[j].pid
  {
    OrderlyAt(o, h, j);
    CountsCover(Before(h, j), i);
    HeaderKept(o, Before(h, j), i);
  }

  lemma {:induction false} HeaderKept(o: Ordering, h: Log, i: nat)
    requires Orderly(o, h) && i < |Events(h)| && Events(h)[i].Publish?
    ensures var e := Events(h)[i]; Header(h, e.id) == (e.pid, e.qos, e.budget)
  {
    if i < |Events(h.past)| {
      HeaderKept(o, h.past, i);
      CountsCover(h.past, i);
    }
  }

  /** After the first PUBREL of a publish no PUBLISH of it follows, and first PUBRELs go out
      in issue order. */
  lemma PubrelDiscipline(o: Ordering, h: Log, i: nat, j: nat)
    requires Orderly(o, h) && i < j < |Events(h)| && Events(h)[i].Pubrel?
    ensures Events(h)[j].Publish? ==> Events(h)[j].id != Events(h)[i].id
    ensures Events(h)[j].Pubrel? && Rels(Before(h, j), Events(h)[j].id) == 0 ==>
              Events(h)[i].id < Events(h)[j].id
  {
    OrderlyAt(o, h, j);
    CountsCover(Before(h, j), i);
    MaximaCover(Before(h, j), i);
  }

  /** What full ordering promises: once a later publish has had a PUBLISH, no packet of an
      earlier one of higher QoS goes out any more - it had been delivered or had left. */
  lemma FullOrderingHolds(h: Log, i: nat, j: nat)
    requires Orderly(Full, h) && i < j < |Events(h)|
    requires Events(h)[i].Publish? && (Events(h)[j].Publish? || Events(h)[j].Pubrel?)
    requires Events(h)[j].id < Events(h)[i].id
    ensures (if Events(h)[j].Publish? then Events(h)[j].qos else 2) <= Events(h)[i].qos
  {
    OrderlyAt(Full, h, j);
    var q := if Events(h)[j].Publish? then Events(h)[j].qos else 2;
    MaximaCover(Before(h, j), i);
    if Events(h)[i].qos < q { assert false; }
  }

  /** A publish ends with Timeout only when it has been sent, and before its PUBREC only when just
      as many PUBLISH packets as the call allowed have gone out of the client's own accord. */
  lemma TimeoutMeansSpent(o: Ordering, h: Log, j: nat)
    requires Orderly(o, h) && j < |Events(h)| && Events(h)[j].Callback? && Events(h)[j].status == Timeout
    ensures var g, id := Before(h, j), Events(h)[j].id;
      && Pubs(g, id) > 0 && TermsOf(g, id).IssuedAs?
      && (Rels(g, id) == 0 ==> Charged(g, id) == TermsOf(g, id).budget)
  {
    OrderlyAt(o, h, j);
    var g, id := Before(h, j), Events(h)[j].id;
    AttemptsNeverExceeded(o, g, id);
    HeaderAsIssued(o, g, id);
  }

  lemma {:induction false} HeaderAsIssued(o: Ordering, h: Log, id: int)
    requires Orderly(o, h) && Pubs(h, id) > 0
    ensures TermsOf(h, id).IssuedAs? && Header(h, id).1 == TermsOf(h, id).qos && Header(h, id).2 == TermsOf(h, id).budget
  {
    var p, e := h.past, h.last;
    if !(e.Publish? && e.id == id) { HeaderAsIssued(o, p, id); }
  }

  /** Retry accounting: apart from reconnections, a publish has at most as many PUBLISH
      packets as the attempts configured for it. */
  lemma {:induction false} AttemptsNeverExceeded(o: Ordering, h: Log, id: int)
    requires Orderly(o, h) && Pubs(h, id) > 0
    ensures Charged(h, id) <= Header(h, id).2
  {
    var p, e := h.past, h.last;
    if Pubs(p, id) > 0 { AttemptsNeverExceeded(o, p, id); } else { NoPubsNoCharge(p, id); }
  }

  /** The other copies are at most one for each resumption of the session it was on its way at. */
  lemma {:induction false} CopiesWithinResumptions(o: Ordering, h: Log, id: int)
    requires Orderly(o, h)
    ensures Charged(h, id) + LivedThrough(h, id) >= Pubs(h, id) + if Due(h, id) then 1 else 0
  {
    if h.After? { CopiesWithinResumptions(o, h.past, id); }
  }

  lemma {:induction false} NoPubsNoCharge(h: Log, id: int)
    requires Pubs(h, id) == 0
    ensures Charged(h, id) == 0
  {
    if h.After? { NoPubsNoCharge(h.past, id); }
  }

  /** A publish ends at most once, and is not heard of afterwards. */
  lemma EndsOnce(o: Ordering, h: Log, i: nat, j: nat)
    requires Orderly(o, h) && i < j < |Events(h)|
    requires Events(h)[i].Callback? || Events(h)[i].Silent?
    ensures Events(h)[j].Mark? || Events(h)[j].id != Events(h)[i].id
  {
    OrderlyAt(o, h, j);
    CountsCover(Before(h, j), i);
  }
}
