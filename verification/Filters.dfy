/** The vector of subscription filters kept sorted by client/lib/src/op/SubscribeOp.cpp and
    client/lib/src/op/UnsubscribeOp.cpp, as the set of filters granted by the broker. */
module Filters {

  /** operator< of strings */
  predicate Less(a: string, b: string) {
    b != "" && (a == "" || a[0] < b[0] || (a[0] == b[0] && Less(a[1..], b[1..])))
  }

  lemma {:induction false} LessIsStrict(a: string, b: string)
    ensures Less(a, b) ==> a != b && !Less(b, a)
    ensures a != b ==> Less(a, b) || Less(b, a)
  {
    if a != "" && b != "" && a[0] == b[0] {
      LessIsStrict(a[1..], b[1..]);
      assert a == [a[0]] + a[1..] && b == [b[0]] + b[1..];
    }
  }

  lemma {:induction false} LessIsTransitive(a: string, b: string, c: string)
    requires Less(a, b) && Less(b, c)
    ensures Less(a, c)
  {
    if a != "" && a[0] == b[0] == c[0] { LessIsTransitive(a[1..], b[1..], c[1..]); }
  }

  ghost predicate Sorted(fs: seq<string>) {
    forall i, j | 0 <= i < j < |fs| :: Less(fs[i], fs[j])
  }

  /** The filters below `t` come first; `t` itself can only be right behind them. */
  ghost predicate Splits(fs: seq<string>, t: string, k: nat) {
    && k <= |fs|
    && (forall i | 0 <= i < k :: Less(fs[i], t))
    && (forall i | k <= i < |fs| :: !Less(fs[i], t))
  }

  /** How many filters are below `t`. */
  function Place(fs: seq<string>, t: string): (k: nat)
    ensures k <= |fs|
  {
    if fs == [] || !Less(fs[0], t) then 0 else 1 + Place(fs[1..], t)
  }

  function Found(fs: seq<string>, t: string): bool {
    var k := Place(fs, t);
    k < |fs| && fs[k] == t
  }

  lemma {:induction false} PlaceSplits(fs: seq<string>, t: string)
    requires Sorted(fs)
    ensures Splits(fs, t, Place(fs, t))
  {
    if fs != [] {
      if Less(fs[0], t) {
        PlaceSplits(fs[1..], t);
      } else {
        forall i | 0 < i < |fs| ensures !Less(fs[i], t) {
          if Less(fs[i], t) { LessIsTransitive(fs[0], fs[i], t); }
        }
      }
    }
  }

  lemma SplitIsUnique(fs: seq<string>, t: string, k: nat, l: nat)
    requires Splits(fs, t, k) && Splits(fs, t, l)
    ensures k == l
  {
    if k < l { BelowAt(fs, t, l, k); }
    if l < k { BelowAt(fs, t, k, l); }
  }

  lemma BelowAt(fs: seq<string>, t: string, k: nat, i: nat)
    requires Splits(fs, t, k) && i < k
    ensures Less(fs[i], t)
  {
  }

  lemma MemberIsAtPlace(fs: seq<string>, t: string, k: nat, i: nat)
    requires Sorted(fs) && Splits(fs, t, k) && i < |fs| && fs[i] == t
    ensures k < |fs| && fs[k] == t
  {
    LessIsStrict(t, t);
  }

  /** The lookup agrees with membership. */
  lemma FoundIsMembership(fs: seq<string>, t: string)
    requires Sorted(fs)
    ensures Found(fs, t) <==> t in fs
  {
    PlaceSplits(fs, t);
    if t in fs {
      var i: nat :| i < |fs| && fs[i] == t;
      var k := Place(fs, t);
      MemberIsAtPlace(fs, t, k, i);
    }
  }

  /** std::lower_bound */
  method LowerBound(fs: seq<string>, t: string) returns (k: nat)
    requires Sorted(fs)
    ensures k == Place(fs, t)
  {
    var lo, hi := 0, |fs|;
    while lo < hi
      invariant 0 <= lo <= hi <= |fs|
      invariant forall i | 0 <= i < lo :: Less(fs[i], t)
      invariant forall i | hi <= i < |fs| :: !Less(fs[i], t)
    {
      var mid := lo + (hi - lo) / 2;
      if Less(fs[mid], t) {
        forall i | 0 <= i <= mid ensures Less(fs[i], t) {
          if i < mid { LessIsTransitive(fs[i], fs[mid], t); }
        }
        lo := mid + 1;
      } else {
        forall i | mid <= i < |fs| ensures !Less(fs[i], t) {
          if mid < i && Less(fs[i], t) { LessIsTransitive(fs[mid], fs[i], t); }
        }
        hi := mid;
      }
    }
    k := lo;
    PlaceSplits(fs, t);
    SplitIsUnique(fs, t, k, Place(fs, t));
  }

  function Inserted(fs: seq<string>, t: string): seq<string> {
    var k := Place(fs, t);
    fs[..k] + [t] + fs[k..]
  }

  function Removed(fs: seq<string>, t: string): seq<string> {
    var k := Place(fs, t);
    if Found(fs, t) then fs[..k] + fs[k + 1..] else fs
  }

  function AsSet(fs: seq<string>): set<string> {
    set t | t in fs
  }

  lemma InsertAddsOne(fs: seq<string>, t: string)
    requires Sorted(fs) && t !in fs
    ensures Sorted(Inserted(fs, t)) && AsSet(Inserted(fs, t)) == AsSet(fs) + {t}
  {
    var k, r := Place(fs, t), Inserted(fs, t);
    PlaceSplits(fs, t);
    forall i, j | 0 <= i < j < |r| ensures Less(r[i], r[j]) {
      if i == k {
        LessIsStrict(t, fs[j - 1]);
      } else if j == k {
        assert r[i] == fs[i];
      } else {
        assert r[i] == fs[if i < k then i else i - 1] && r[j] == fs[if j < k then j else j - 1];
      }
    }
    assert forall x | x in fs :: x in fs[..k] || x in fs[k..];
  }

  lemma RemoveTakesOne(fs: seq<string>, t: string)
    requires Sorted(fs)
    ensures Sorted(Removed(fs, t)) && AsSet(Removed(fs, t)) == AsSet(fs) - {t}
  {
    var k, r := Place(fs, t), Removed(fs, t);
    FoundIsMembership(fs, t);
    if Found(fs, t) {
      forall i, j | 0 <= i < j < |r| ensures Less(r[i], r[j]) {
        assert r[i] == fs[if i < k then i else i + 1] && r[j] == fs[if j < k then j else j + 1];
      }
      forall x | x in r ensures x in fs && x != t {
        var i :| 0 <= i < |r| && r[i] == x;
        assert x == fs[if i < k then i else i + 1];
        if i < k { LessIsStrict(fs[i], fs[k]); } else { LessIsStrict(fs[k], fs[i + 1]); }
      }
      forall x | x in fs && x != t ensures x in r {
        var i :| 0 <= i < |fs| && fs[i] == x;
        assert x == r[if i < k then i else i - 1];
      }
    }
  }

  lemma {:induction false} SizeOfSorted(fs: seq<string>)
    requires Sorted(fs)
    ensures |AsSet(fs)| == |fs|
  {
    if fs != [] {
      SizeOfSorted(fs[1..]);
      assert fs[0] !in fs[1..] by {
        forall i | 1 <= i < |fs| ensures fs[i] != fs[0] { LessIsStrict(fs[0], fs[i]); }
      }
      assert AsSet(fs) == AsSet(fs[1..]) + {fs[0]};
    } else {
      assert AsSet(fs) == {};
    }
  }

  // ------------------------------------------------------------------ SUBACK and UNSUBACK

  /** A topic of a SUBSCRIBE with the QoS requested. */
  datatype Request = Request(topic: string, qos: int)

  datatype Verdict = Completed | ProtocolError | InternalError

  const GRANTED_QOS_2 := 2
  const FAILURE := 0x80

  /** The settings: is the gate on, and how many filters fit (0 when there is no bound). */
  datatype Gate = Gate(verify: bool, limit: nat)

  predicate Acceptable(r: Request, code: int) {
    if 0 <= code <= GRANTED_QOS_2 then code <= r.qos else code == FAILURE
  }

  predicate Full(g: Gate, n: nat) {
    g.limit != 0 && g.limit <= n
  }

  /** The loop over the return codes from entry `i` on: what becomes of the filters, and the
      verdict. What was stored before an error stays stored. */
  function Granting(g: Gate, reqs: seq<Request>, codes: seq<int>, i: nat, fs: seq<string>): (seq<string>, Verdict)
    requires |reqs| == |codes|
    decreases |reqs| - i
  {
    if i >= |reqs| then (fs, Completed)
    else if !Acceptable(reqs[i], codes[i]) then (fs, ProtocolError)
    else if !g.verify || codes[i] > GRANTED_QOS_2 || Found(fs, reqs[i].topic) then Granting(g, reqs, codes, i + 1, fs)
    else if Full(g, |fs|) then (fs, InternalError)
    else Granting(g, reqs, codes, i + 1, Inserted(fs, reqs[i].topic))
  }

  function OnSuback(g: Gate, reqs: seq<Request>, codes: seq<int>, fs: seq<string>): (seq<string>, Verdict) {
    if |reqs| != |codes| then (fs, ProtocolError) else Granting(g, reqs, codes, 0, fs)
  }

  function Removing(topics: seq<string>, i: nat, fs: seq<string>): seq<string>
    decreases |topics| - i
  {
    if i >= |topics| then fs else Removing(topics, i + 1, Removed(fs, topics[i]))
  }

  // The same on sets: what the broker has granted.

  function SetGranting(g: Gate, reqs: seq<Request>, codes: seq<int>, i: nat, s: set<string>): (set<string>, Verdict)
    requires |reqs| == |codes|
    decreases |reqs| - i
  {
    if i >= |reqs| then (s, Completed)
    else if !Acceptable(reqs[i], codes[i]) then (s, ProtocolError)
    else if !g.verify || codes[i] == FAILURE || reqs[i].topic in s then SetGranting(g, reqs, codes, i + 1, s)
    else if Full(g, |s|) then (s, InternalError)
    else SetGranting(g, reqs, codes, i + 1, s + {reqs[i].topic})
  }

  function GrantedBy(g: Gate, reqs: seq<Request>, codes: seq<int>, s: set<string>): (set<string>, Verdict) {
    if |reqs| != |codes| then (s, ProtocolError) else SetGranting(g, reqs, codes, 0, s)
  }

  /** The sorted vector does to the filters what the set would. */
  lemma {:induction false} GrantingIsOnSets(g: Gate, reqs: seq<Request>, codes: seq<int>, i: nat, fs: seq<string>)
    requires |reqs| == |codes| && Sorted(fs)
    ensures var r, s := Granting(g, reqs, codes, i, fs), SetGranting(g, reqs, codes, i, AsSet(fs));
      Sorted(r.0) && AsSet(r.0) == s.0 && r.1 == s.1
    decreases |reqs| - i
  {
    if i < |reqs| && Acceptable(reqs[i], codes[i]) {
      FoundIsMembership(fs, reqs[i].topic);
      SizeOfSorted(fs);
      if !g.verify || codes[i] > GRANTED_QOS_2 || Found(fs, reqs[i].topic) {
        GrantingIsOnSets(g, reqs, codes, i + 1, fs);
      } else if !Full(g, |fs|) {
        InsertAddsOne(fs, reqs[i].topic);
        GrantingIsOnSets(g, reqs, codes, i + 1, Inserted(fs, reqs[i].topic));
      }
    }
  }

  lemma SubackIsOnSets(g: Gate, reqs: seq<Request>, codes: seq<int>, fs: seq<string>)
    requires Sorted(fs)
    ensures var r := OnSuback(g, reqs, codes, fs).0; Sorted(r) && AsSet(r) == GrantedBy(g, reqs, codes, AsSet(fs)).0
  {
    if |reqs| == |codes| { GrantingIsOnSets(g, reqs, codes, 0, fs); }
  }

  lemma {:induction false} RemovingIsOnSets(topics: seq<string>, i: nat, fs: seq<string>)
    requires Sorted(fs) && i <= |topics|
    ensures Sorted(Removing(topics, i, fs))
    ensures AsSet(Removing(topics, i, fs)) == AsSet(fs) - AsSet(topics[i..])
    decreases |topics| - i
  {
    if i < |topics| {
      RemoveTakesOne(fs, topics[i]);
      RemovingIsOnSets(topics, i + 1, Removed(fs, topics[i]));
      assert topics[i..] == [topics[i]] + topics[i + 1..];
    }
  }

  /** A SUBACK in which every topic is answered leaves exactly the topics with a granted QoS in
      addition to those before, unless the storage is full. */
  lemma {:induction false} CompletedGrantsAll(g: Gate, reqs: seq<Request>, codes: seq<int>, i: nat, s: set<string>)
    requires |reqs| == |codes| && i <= |reqs| && g.verify && SetGranting(g, reqs, codes, i, s).1 == Completed
    ensures SetGranting(g, reqs, codes, i, s).0 == s + set j | i <= j < |reqs| && codes[j] != FAILURE :: reqs[j].topic
    decreases |reqs| - i
  {
    if i < |reqs| {
      var t := if codes[i] == FAILURE then s else s + {reqs[i].topic};
      assert t == s || reqs[i].topic in t;
      CompletedGrantsAll(g, reqs, codes, i + 1, t);
    }
  }

  // ------------------------------------------------------------------ the verdict

  /** The filters granted by entries `i` to `j`. */
  function GrantedTo(g: Gate, reqs: seq<Request>, codes: seq<int>, i: nat, j: nat, s: set<string>): set<string>
    requires |reqs| == |codes| && j <= |reqs|
  {
    if g.verify then s + set k | i <= k < j && codes[k] != 0x80 :: reqs[k].topic else s
  }

  /** They are stored already, or there is room for all of them. */
  predicate Room(g: Gate, s: set<string>, t: set<string>) { t <= s || g.limit == 0 || |t| <= g.limit }

  /** The return code is failure, or a QoS not above the one asked for. */
  predicate FitsRequest(r: Request, code: int) { code == 0x80 || (0 <= code <= 2 && code <= r.qos) }

  /** A SUBACK completes if and only if all its codes fit what was asked for and all that it
      grants can be stored; then that is stored, and nothing else. */
  lemma {:induction false} CompletesExactly(g: Gate, reqs: seq<Request>, codes: seq<int>, i: nat, s: set<string>)
    requires |reqs| == |codes| && i <= |reqs|
    ensures SetGranting(g, reqs, codes, i, s).1.Completed? <==>
              && (forall k | i <= k < |reqs| :: FitsRequest(reqs[k], codes[k]))
              && Room(g, s, GrantedTo(g, reqs, codes, i, |reqs|, s))
    ensures SetGranting(g, reqs, codes, i, s).1.Completed? ==>
              SetGranting(g, reqs, codes, i, s).0 == GrantedTo(g, reqs, codes, i, |reqs|, s)
    decreases |reqs| - i
  {
    if i < |reqs| && FitsRequest(reqs[i], codes[i]) {
      var n := |reqs|;
      if !g.verify || codes[i] == FAILURE || reqs[i].topic in s {
        CompletesExactly(g, reqs, codes, i + 1, s);
        assert GrantedTo(g, reqs, codes, i, n, s) == GrantedTo(g, reqs, codes, i + 1, n, s);
      } else {
        var t := s + {reqs[i].topic};
        CompletesExactly(g, reqs, codes, i + 1, t);
        assert GrantedTo(g, reqs, codes, i, n, s) == GrantedTo(g, reqs, codes, i + 1, n, t);
        OneMoreFits(g, s, t, reqs[i].topic, GrantedTo(g, reqs, codes, i, n, s));
      }
    }
  }

  /** Entry `j` is the first that does not fit, a protocol error, or for which there is no room,
      an internal one; what was granted before it stays stored. */
  ghost predicate FailsThere(g: Gate, reqs: seq<Request>, codes: seq<int>, i: nat, s: set<string>, j: nat, r: (set<string>, Verdict))
    requires |reqs| == |codes|
  {
    && i <= j < |reqs| && (forall k | i <= k < j :: FitsRequest(reqs[k], codes[k]))
    && r.0 == GrantedTo(g, reqs, codes, i, j, s) && Room(g, s, r.0)
    && if FitsRequest(reqs[j], codes[j])
       then r.1 == InternalError && !Room(g, s, GrantedTo(g, reqs, codes, i, j + 1, s))
       else r.1 == ProtocolError
  }

  lemma {:induction false} FailsAt(g: Gate, reqs: seq<Request>, codes: seq<int>, i: nat, s: set<string>) returns (j: nat)
    requires |reqs| == |codes| && i <= |reqs| && !SetGranting(g, reqs, codes, i, s).1.Completed?
    ensures FailsThere(g, reqs, codes, i, s, j, SetGranting(g, reqs, codes, i, s))
    decreases |reqs| - i
  {
    j := i;
    assert GrantedTo(g, reqs, codes, i, i, s) == s;
    if FitsRequest(reqs[i], codes[i]) {
      var t := if !g.verify || codes[i] == FAILURE then s else s + {reqs[i].topic};
      GrantedOn(g, reqs, codes, i, s, t);
      if t == s || !Full(g, |s|) {
        assert t == s ==> !g.verify || codes[i] == FAILURE || reqs[i].topic in s;
        j := FailsAt(g, reqs, codes, i + 1, t);
      } else {
        assert GrantedTo(g, reqs, codes, i, i + 1, s) == t;
      }
    }
  }

  /** Entry `i` adds what it grants, the others theirs. */
  lemma GrantedOn(g: Gate, reqs: seq<Request>, codes: seq<int>, i: nat, s: set<string>, t: set<string>)
    requires |reqs| == |codes| && i < |reqs| && t == if !g.verify || codes[i] == FAILURE then s else s + {reqs[i].topic}
    ensures forall n | i < n <= |reqs| :: GrantedTo(g, reqs, codes, i, n, s) == GrantedTo(g, reqs, codes, i + 1, n, t)
    ensures forall n | i < n <= |reqs| && (t == s || !Full(g, |s|)) ::
              Room(g, s, GrantedTo(g, reqs, codes, i, n, s)) <==> Room(g, t, GrantedTo(g, reqs, codes, i, n, s))
    ensures t == s || Full(g, |s|) ==> (Room(g, s, t) <==> t == s)
  {
    forall n | i < n <= |reqs|
      ensures GrantedTo(g, reqs, codes, i, n, s) == GrantedTo(g, reqs, codes, i + 1, n, t)
    {
      assert GrantedTo(g, reqs, codes, i, n, s) == GrantedTo(g, reqs, codes, i + 1, n, t);
    }
    if t != s {
      OneMoreFits(g, s, t, reqs[i].topic, t);
      forall n | i < n <= |reqs| && !Full(g, |s|)
        ensures Room(g, s, GrantedTo(g, reqs, codes, i, n, s)) <==> Room(g, t, GrantedTo(g, reqs, codes, i, n, s))
      {
        OneMoreFits(g, s, t, reqs[i].topic, GrantedTo(g, reqs, codes, i, n, s));
      }
    }
  }

  lemma OneMoreFits(g: Gate, s: set<string>, t: set<string>, topic: string, all: set<string>)
    requires topic !in s && t == s + {topic} && t <= all
    ensures Room(g, s, all) <==> !Full(g, |s|) && Room(g, t, all)
  {
    SmallerSet(t, all);
    if all <= t { assert all == t; }
  }

  lemma SmallerSet(a: set<string>, b: set<string>)
    requires a <= b
    ensures |a| <= |b|
  {
    assert b == a + (b - a);
  }
}
