/** Topic filters and topics: the matching of client/lib/src/op/RecvOp.cpp, the validators of
    client/lib/src/op/Op.cpp and the topic generator of client/afl_fuzz/Generator.cpp, against
    the level-wise rules of section 4.7.1 of MQTT 3.1.1. */
module Topics {

  const SEPARATOR := '/'
  const MULTI_LEVEL := '#'
  const SINGLE_LEVEL := '+'
  const NUL := '\0'

  // ------------------------------------------------------------------ levels

  /** The place of the first separator, or the length when there is none. */
  function FindSep(s: string): (p: nat)
    ensures p <= |s|
    ensures p < |s| ==> s[p] == SEPARATOR
    ensures forall j | 0 <= j < p :: s[j] != SEPARATOR
  {
    if s == "" || s[0] == SEPARATOR then 0 else
    var p := 1 + FindSep(s[1..]);
    assert forall j | 1 <= j < p :: s[j] == s[1..][j - 1];
    p
  }

  /** The levels of a topic or a filter, the empty ones included. */
  function Levels(s: string): (ls: seq<string>)
    ensures ls != []
    decreases |s|
  {
    var p := FindSep(s);
    if p == |s| then [s] else [s[..p]] + Levels(s[p + 1..])
  }

  /** The rules of section 4.7.1: `+` stands for one level, `#` for the level above it and
      everything below. */
  predicate LevelMatch(filter: seq<string>, topic: seq<string>)
    decreases |filter|
  {
    if filter == [] then topic == []
    else if filter == ["#"] then true
    else topic != [] && (filter[0] == "+" || filter[0] == topic[0]) && LevelMatch(filter[1..], topic[1..])
  }

  /** A wildcard fills its level, and `#` only the last one. */
  predicate ValidLevels(filter: seq<string>) {
    filter != [] ==>
      && (MULTI_LEVEL in filter[0] ==> filter[0] == "#" && |filter| == 1)
      && (SINGLE_LEVEL in filter[0] ==> filter[0] == "+")
      && ValidLevels(filter[1..])
  }

  // ------------------------------------------------------------------ matching

  /** isTopicMatch */
  function IsTopicMatch(filter: string, topic: string): bool
    decreases |topic|
  {
    if |filter| == 1 && filter[0] == MULTI_LEVEL then true
    else if topic == "" then filter == ""
    else
      var fs, ts := FindSep(filter), FindSep(topic);
      if fs == |filter| && ts != |topic| then false
      else if ts != |topic| then
        ((filter[0] == SINGLE_LEVEL && fs == 1) || filter[..fs] == topic[..ts])
        && IsTopicMatch(filter[fs + 1..], topic[ts + 1..])
      else if fs != |filter| then
        |filter| > fs + 1
        && ((filter[0] == SINGLE_LEVEL && fs == 1) || filter[..fs] == topic)
        && IsTopicMatch(filter[fs + 1..], "")
      else
        (|filter| == 1 && filter[0] == SINGLE_LEVEL) || filter == topic
  }

  /** The one family of topics and filters on which the code is stricter than the rules: a
      topic that ends with a separator, whose empty last level is asked to match `+` or to be
      the parent of `#`. */
  predicate TrailingLevelRefused(filter: seq<string>, topic: seq<string>) {
    filter != [] && topic != [] && topic[|topic| - 1] == ""
    && ((|filter| == |topic| && filter[|filter| - 1] == "+") || |filter| == |topic| + 1)
  }

  lemma LevelsOfRest(s: string, p: nat)
    requires p == FindSep(s) && p != |s|
    ensures Levels(s)[0] == s[..p] && Levels(s)[1..] == Levels(s[p + 1..])
  {
    SplitAtFirst(s, p);
    HeadAndTail(s[..p], Levels(s[p + 1..]), Levels(s));
  }

  lemma SplitAtFirst(s: string, p: nat)
    requires p == FindSep(s) && p != |s|
    ensures Levels(s) == [s[..p]] + Levels(s[p + 1..])
  {
  }

  lemma HeadAndTail(head: string, tail: seq<string>, all: seq<string>)
    requires all == [head] + tail
    ensures all[0] == head && all[1..] == tail
  {
  }

  lemma LevelsEmptyTail(s: string)
    ensures Levels(s) == ["#"] <==> s == "#"
    ensures Levels(s) == [""] <==> s == ""
    ensures |Levels(s)| == 1 <==> FindSep(s) == |s|
    ensures forall l | l in Levels(s) :: SEPARATOR !in l
    decreases |s|
  {
    var p := FindSep(s);
    if p < |s| { LevelsEmptyTail(s[p + 1..]); }
  }

  /** Against an empty topic, which is an empty last level or none at all. */
  lemma EmptyTopicMatch(filter: string)
    ensures IsTopicMatch(filter, "") <==> filter == "" || filter == "#"
  {
  }

  lemma {:induction false} NoMatchAgainstNone(filter: seq<string>)
    ensures LevelMatch(filter, []) <==> filter == [] || filter == ["#"]
  {
  }

  /** Matching is exactly the rules of section 4.7.1, but for the trailing level. */
  lemma {:induction false} MatchIsLevelMatch(filter: string, topic: string)
    requires topic != ""
    ensures IsTopicMatch(filter, topic) <==>
              LevelMatch(Levels(filter), Levels(topic)) && !TrailingLevelRefused(Levels(filter), Levels(topic))
    decreases |topic|
  {
    var fs, ts := FindSep(filter), FindSep(topic);
    var F, T := Levels(filter), Levels(topic);
    LevelsEmptyTail(filter);
    LevelsEmptyTail(topic);
    if filter == "#" {
    } else if ts != |topic| {
      LevelsOfRest(topic, FindSep(topic));
      if fs != |filter| {
        LevelsOfRest(filter, FindSep(filter));
        HeadMatches(filter, fs);
        var f, t := filter[fs + 1..], topic[ts + 1..];
        if t == "" {
          EmptyTopicMatch(f);
          LastLevelEmpty(f);
        } else {
          MatchIsLevelMatch(f, t);
        }
        RefusedFurtherOn(F, T);
      }
    } else if fs != |filter| {
      LevelsOfRest(filter, FindSep(filter));
      HeadMatches(filter, fs);
      EmptyTopicMatch(filter[fs + 1..]);
      LevelsEmptyTail(filter[fs + 1..]);
    }
  }

  lemma HeadMatches(filter: string, fs: nat)
    requires fs < |filter|
    ensures filter[..fs] == "+" <==> filter[0] == SINGLE_LEVEL && fs == 1
  {
  }

  lemma RefusedFurtherOn(filter: seq<string>, topic: seq<string>)
    requires |filter| > 1 && |topic| > 1
    ensures TrailingLevelRefused(filter, topic) <==> TrailingLevelRefused(filter[1..], topic[1..])
  {
  }

  /** The empty last level of a topic: the rules let more through than `filter == "" || "#"`. */
  lemma LastLevelEmpty(filter: string)
    ensures Levels("") == [""]
    ensures filter == "" || filter == "#" <==>
              LevelMatch(Levels(filter), [""]) && !TrailingLevelRefused(Levels(filter), [""])
  {
    LevelsEmptyTail(filter);
    var F := Levels(filter);
    if |F| > 1 {
      NoMatchAgainstNone(F[1..]);
    }
  }

  /** In particular whatever the code lets through matches by the rules, and for topics that do
      not end with a separator the code and the rules agree. */
  lemma MatchIsSoundAndAlmostComplete(filter: string, topic: string)
    requires topic != ""
    ensures IsTopicMatch(filter, topic) ==> LevelMatch(Levels(filter), Levels(topic))
    ensures topic[|topic| - 1] != SEPARATOR ==> (IsTopicMatch(filter, topic) <==> LevelMatch(Levels(filter), Levels(topic)))
  {
    MatchIsLevelMatch(filter, topic);
    LastLevelIsTail(topic);
  }

  lemma {:induction false} LastLevelIsTail(s: string)
    ensures Levels(s)[|Levels(s)| - 1] == "" <==> s == "" || s[|s| - 1] == SEPARATOR
    decreases |s|
  {
    var p := FindSep(s);
    if p < |s| {
      var rest := s[p + 1..];
      LastLevelIsTail(rest);
      LastOfRest(s, p);
      assert s[|s| - 1] == if rest == "" then SEPARATOR else rest[|rest| - 1];
    } else {
      assert Levels(s) == [s];
      assert s != "" ==> s[|s| - 1] != SEPARATOR;
    }
  }

  lemma LastOfRest(s: string, p: nat)
    requires p == FindSep(s) && p != |s|
    ensures Levels(s)[|Levels(s)| - 1] == Levels(s[p + 1..])[|Levels(s[p + 1..])| - 1]
  {
    SplitAtFirst(s, p);
  }

  // ------------------------------------------------------------------ validators

  /** Every wildcard has its neighbours right: what a look at each character and the ones next
      to it can tell. */
  ghost predicate WildcardsInPlace(s: string) {
    forall i | 0 <= i < |s| :: WildcardInPlace(s, i)
  }

  predicate WildcardInPlace(s: string, i: nat)
    requires i < |s|
  {
    && (s[i] == MULTI_LEVEL || s[i] == SINGLE_LEVEL ==> i == 0 || s[i - 1] == SEPARATOR)
    && (s[i] == MULTI_LEVEL ==> i == |s| - 1)
    && (s[i] == SINGLE_LEVEL ==> i == |s| - 1 || s[i + 1] == SEPARATOR)
  }

  /** The character at `pos` of a string that ends with a zero character. */
  function CharAt(s: string, pos: nat): char
    requires pos <= |s|
  {
    if pos < |s| then s[pos] else NUL
  }

  /** verifySubFilterInternal */
  method VerifySubFilter(filter: string, verifyOutgoing: bool) returns (r: bool)
    requires NUL !in filter
    ensures r <==> !verifyOutgoing || (filter != "" && ValidLevels(Levels(filter)))
  {
    if !verifyOutgoing { return true; }
    WildcardsByLevel(filter);
    if CharAt(filter, 0) == NUL { return false; }
    var pos := 0;
    var lastSep := -1;
    while CharAt(filter, pos) != NUL
      invariant pos <= |filter|
      invariant forall i | 0 <= i < pos :: WildcardInPlace(filter, i)
      invariant -1 <= lastSep < pos && (lastSep >= 0 ==> filter[lastSep] == SEPARATOR)
      invariant forall i | lastSep < i < pos :: filter[i] != SEPARATOR
      decreases |filter| - pos
    {
      var ch := filter[pos];
      if ch == SEPARATOR {
        lastSep := pos;
      } else if ch == MULTI_LEVEL {
        if CharAt(filter, pos + 1) != NUL {
          assert !WildcardInPlace(filter, pos);
          return false;
        }
        if pos == 0 { return true; }
        if lastSep < 0 || pos - 1 != lastSep {
          assert !WildcardInPlace(filter, pos);
          return false;
        }
        return true;
      } else if ch == SINGLE_LEVEL {
        var next := CharAt(filter, pos + 1);
        if next != NUL && next != SEPARATOR {
          assert !WildcardInPlace(filter, pos);
          return false;
        }
        if pos != 0 && (lastSep < 0 || pos - 1 != lastSep) {
          assert !WildcardInPlace(filter, pos);
          return false;
        }
      }
      pos := pos + 1;
    }
    return true;
  }

  /** Looking at the neighbours of each wildcard is looking at the levels. */
  lemma {:induction false} WildcardsByLevel(s: string)
    ensures WildcardsInPlace(s) <==> ValidLevels(Levels(s))
    decreases |s|
  {
    var p := FindSep(s);
    if p == |s| {
      OneLevel(s);
    } else {
      WildcardsByLevel(s[p + 1..]);
      FirstLevel(s);
      RestInPlace(s, p);
      LevelsOfRest(s, p);
      FirstOfSeveral(Levels(s));
    }
  }

  lemma FirstOfSeveral(ls: seq<string>)
    requires |ls| > 1
    ensures ValidLevels(ls) <==> PlainOrPlus(ls[0]) && ValidLevels(ls[1..])
  {
  }

  /** The neighbours of a character behind a separator are those it has in the rest. */
  lemma RestInPlace(s: string, p: nat)
    requires p < |s| && s[p] == SEPARATOR
    ensures WildcardsInPlace(s) <==> WildcardsInPlace(s[p + 1..]) && forall i | 0 <= i <= p :: WildcardInPlace(s, i)
  {
    var rest := s[p + 1..];
    forall i | 0 <= i < |rest| ensures WildcardInPlace(rest, i) <==> WildcardInPlace(s, p + 1 + i) {
      assert i > 0 ==> s[p + i] == rest[i - 1];
    }
    if WildcardsInPlace(rest) && forall i | 0 <= i <= p :: WildcardInPlace(s, i) {
      forall i | p < i < |s| ensures WildcardInPlace(s, i) {
        assert WildcardInPlace(rest, i - p - 1);
      }
    }
  }

  lemma OneLevel(s: string)
    requires SEPARATOR !in s
    ensures WildcardsInPlace(s) <==> (MULTI_LEVEL in s ==> s == "#") && (SINGLE_LEVEL in s ==> s == "+")
  {
    if WildcardsInPlace(s) {
      if i :| 0 <= i < |s| && (s[i] == MULTI_LEVEL || s[i] == SINGLE_LEVEL) {
        assert WildcardInPlace(s, i);
      }
    }
  }

  predicate PlainOrPlus(level: string) {
    MULTI_LEVEL !in level && (SINGLE_LEVEL in level ==> level == "+")
  }

  lemma FirstLevel(s: string)
    requires FindSep(s) < |s|
    ensures var p := FindSep(s); (forall i | 0 <= i <= p :: WildcardInPlace(s, i)) <==> PlainOrPlus(s[..p])
  {
    var p := FindSep(s);
    if forall i | 0 <= i <= p :: WildcardInPlace(s, i) { FirstLevelIsPlain(s, p); }
    if PlainOrPlus(s[..p]) {
      forall i | 0 <= i <= p ensures WildcardInPlace(s, i) { PlainIsInPlace(s, p, i); }
    }
  }

  lemma FirstLevelIsPlain(s: string, p: nat)
    requires p == FindSep(s) < |s| && forall i | 0 <= i <= p :: WildcardInPlace(s, i)
    ensures PlainOrPlus(s[..p])
  {
    forall i | 0 <= i < p ensures s[i] != MULTI_LEVEL && (s[i] == SINGLE_LEVEL ==> i == 0 && p == 1) {
      assert WildcardInPlace(s, i);
    }
    assert p == 1 ==> s[..p] == [s[0]];
  }

  lemma PlainIsInPlace(s: string, p: nat, i: nat)
    requires i <= p == FindSep(s) < |s| && PlainOrPlus(s[..p])
    ensures WildcardInPlace(s, i)
  {
    if i < p { assert s[i] == s[..p][i]; }
  }

  /** verifyPubTopicInternal: `verify` is the setting for the direction of the message. */
  method VerifyPubTopic(topic: string, outgoing: bool, verify: bool) returns (r: bool)
    requires NUL !in topic
    ensures r <==> !verify || (topic != "" && MULTI_LEVEL !in topic && SINGLE_LEVEL !in topic
                               && (outgoing ==> topic[0] != '$'))
  {
    if !verify { return true; }
    if CharAt(topic, 0) == NUL { return false; }
    if outgoing && topic[0] == '$' { return false; }
    var pos := 0;
    while CharAt(topic, pos) != NUL
      invariant pos <= |topic|
      invariant forall i | 0 <= i < pos :: topic[i] != MULTI_LEVEL && topic[i] != SINGLE_LEVEL
      decreases |topic| - pos
    {
      if topic[pos] == MULTI_LEVEL || topic[pos] == SINGLE_LEVEL { return false; }
      pos := pos + 1;
    }
    return true;
  }

  // ------------------------------------------------------------------ a topic for a filter

  /** The filter up to its `#`, with words in place of the wildcards. */
  function Spelled(filter: string): string {
    if filter == "" then ""
    else if filter[0] == MULTI_LEVEL then "hash"
    else (if filter[0] == SINGLE_LEVEL then "plus" else [filter[0]]) + Spelled(filter[1..])
  }

  /** find_first_of("#+", from) */
  function FindWildcard(s: string, from: nat): (p: nat)
    requires from <= |s|
    ensures from <= p <= |s|
    ensures p < |s| ==> s[p] == MULTI_LEVEL || s[p] == SINGLE_LEVEL
    ensures forall j | from <= j < p :: s[j] != MULTI_LEVEL && s[j] != SINGLE_LEVEL
    decreases |s| - from
  {
    if from == |s| || s[from] == MULTI_LEVEL || s[from] == SINGLE_LEVEL then from else FindWildcard(s, from + 1)
  }

  lemma SpelledPlain(plain: string, rest: string)
    requires MULTI_LEVEL !in plain && SINGLE_LEVEL !in plain
    ensures Spelled(plain + rest) == plain + Spelled(rest)
  {
    SpelledSplits(plain, rest);
    SpelledKeepsPlain(plain);
  }

  // The turns of the loop, behind what it has collected.

  lemma PlainTurn(done: string, s: string, from: nat, to: nat)
    requires from <= to <= |s| && forall j | from <= j < to :: s[j] != MULTI_LEVEL && s[j] != SINGLE_LEVEL
    ensures done + Spelled(s[from..]) == done + s[from..to] + Spelled(s[to..])
  {
    assert s[from..] == s[from..to] + s[to..];
    SpelledPlain(s[from..to], s[to..]);
    Associates(done, s[from..to], Spelled(s[to..]));
  }

  lemma WildcardTurn(done: string, s: string, w: nat)
    requires w < |s|
    ensures s[w] == MULTI_LEVEL ==> done + Spelled(s[w..]) == done + "hash"
    ensures s[w] == SINGLE_LEVEL ==> done + Spelled(s[w..]) == done + "plus" + Spelled(s[w + 1..])
  {
    assert s[w..][1..] == s[w + 1..];
  }

  /** pubTopicFromFilter */
  method PubTopicFromFilter(filter: string) returns (result: string)
    ensures result == Spelled(filter)
  {
    result := "";
    var pos := 0;
    assert filter[0..] == filter;
    while pos < |filter|
      invariant pos <= |filter| && result + Spelled(filter[pos..]) == Spelled(filter)
    {
      var wildcardPos := FindWildcard(filter, pos);
      PlainTurn(result, filter, pos, wildcardPos);
      if wildcardPos == |filter| { break; }
      result := result + filter[pos..wildcardPos];
      WildcardTurn(result, filter, wildcardPos);
      pos := wildcardPos + 1;
      if filter[wildcardPos] == MULTI_LEVEL {
        result := result + "hash";
        pos := |filter|;
        break;
      }
      result := result + "plus";
    }
    if pos < |filter| {
      result := result + filter[pos..];
    }
  }

  lemma {:induction false} SpelledHasNoWildcards(filter: string)
    ensures MULTI_LEVEL !in Spelled(filter) && SINGLE_LEVEL !in Spelled(filter)
    ensures filter != "" ==> Spelled(filter) != ""
  {
    if filter != "" { SpelledHasNoWildcards(filter[1..]); }
  }

  lemma {:induction false} SpelledSplits(head: string, tail: string)
    requires MULTI_LEVEL !in head
    ensures Spelled(head + tail) == Spelled(head) + Spelled(tail)
  {
    if head == "" {
      assert head + tail == tail;
    } else {
      assert (head + tail)[1..] == head[1..] + tail;
      SpelledSplits(head[1..], tail);
    }
  }

  lemma {:induction false} SpelledKeepsPlain(s: string)
    requires MULTI_LEVEL !in s && SINGLE_LEVEL !in s
    ensures Spelled(s) == s
  {
    if s != "" { SpelledKeepsPlain(s[1..]); }
  }

  lemma LevelsOfJoined(head: string, tail: string)
    requires SEPARATOR !in head
    ensures Levels(head + [SEPARATOR] + tail) == [head] + Levels(tail)
  {
    var s := head + [SEPARATOR] + tail;
    assert s[|head|] == SEPARATOR;
    assert s[|head| + 1..] == tail && s[..|head|] == head;
  }

  lemma SpelledJoined(head: string, tail: string)
    requires MULTI_LEVEL !in head
    ensures Spelled(head + [SEPARATOR] + tail) == Spelled(head) + [SEPARATOR] + Spelled(tail)
  {
    var rest := [SEPARATOR] + tail;
    calc {
      Spelled(head + [SEPARATOR] + tail);
    == { Associates(head, [SEPARATOR], tail); }
      Spelled(head + rest);
    == { SpelledSplits(head, rest); }
      Spelled(head) + Spelled(rest);
    == { SpelledSeparator(tail); }
      Spelled(head) + ([SEPARATOR] + Spelled(tail));
    == { Associates(Spelled(head), [SEPARATOR], Spelled(tail)); }
      Spelled(head) + [SEPARATOR] + Spelled(tail);
    }
  }

  lemma SpelledSeparator(tail: string)
    ensures Spelled([SEPARATOR] + tail) == [SEPARATOR] + Spelled(tail)
  {
    assert ([SEPARATOR] + tail)[1..] == tail;
  }

  lemma Associates(a: string, b: string, c: string)
    ensures a + (b + c) == a + b + c
  {
  }

  /** Level by level the spelled topic matches; it has as many levels, and an empty last level
      only where the filter has one. */
  lemma {:induction false} SpelledLevels(filter: string)
    requires ValidLevels(Levels(filter))
    ensures SpelledMatches(Levels(filter), Levels(Spelled(filter)))
    decreases |filter|
  {
    var p := FindSep(filter);
    if p == |filter| {
      SpelledOnlyLevel(filter);
    } else {
      LevelsOfRest(filter, p);
      FirstOfSeveral(Levels(filter));
      SpelledLevels(filter[p + 1..]);
      SpelledOneMore(filter, p);
    }
  }

  predicate SpelledMatches(filter: seq<string>, topic: seq<string>) {
    && LevelMatch(filter, topic) && |topic| == |filter| > 0
    && (topic[|topic| - 1] == "" ==> filter[|filter| - 1] == "")
  }

  lemma SpelledOneMore(filter: string, p: nat)
    requires p == FindSep(filter) && p != |filter| && PlainOrPlus(filter[..p])
    requires SpelledMatches(Levels(filter[p + 1..]), Levels(Spelled(filter[p + 1..])))
    ensures SpelledMatches(Levels(filter), Levels(Spelled(filter)))
  {
    var head, tail := filter[..p], filter[p + 1..];
    assert filter == head + [SEPARATOR] + tail;
    SplitAtFirst(filter, p);
    SpelledJoined(head, tail);
    SpelledHead(head);
    LevelsOfJoined(Spelled(head), Spelled(tail));
    OneLevelMore(head, Levels(tail), Spelled(head), Levels(Spelled(tail)));
  }

  lemma OneLevelMore(level: string, filter: seq<string>, shown: string, topic: seq<string>)
    requires level != "#" && (level == "+" || level == shown) && SpelledMatches(filter, topic)
    ensures SpelledMatches([level] + filter, [shown] + topic)
  {
    assert ([level] + filter)[1..] == filter && ([shown] + topic)[1..] == topic;
  }

  lemma SpelledOnlyLevel(filter: string)
    requires FindSep(filter) == |filter| && ValidLevels(Levels(filter))
    ensures Levels(Spelled(filter)) == [Spelled(filter)] && Levels(filter) == [filter]
    ensures filter == "#" || filter == "+" || Spelled(filter) == filter
    ensures Spelled(filter) == "" ==> filter == ""
  {
    NoSeparator(filter);
    if filter == "#" || filter == "+" {
      SpelledWildcard(filter);
    } else {
      SpelledKeepsPlain(filter);
    }
    NoSeparator(Spelled(filter));
  }

  lemma SpelledWildcard(filter: string)
    requires filter == "#" || filter == "+"
    ensures Spelled(filter) != "" && SEPARATOR !in Spelled(filter)
  {
    assert filter[1..] == "";
    assert Spelled(filter) == if filter == "#" then "hash" else "plus";
  }

  lemma NoSeparator(s: string)
    requires SEPARATOR !in s
    ensures Levels(s) == [s]
  {
  }

  lemma SpelledHead(head: string)
    requires MULTI_LEVEL !in head && SEPARATOR !in head && (SINGLE_LEVEL in head ==> head == "+")
    ensures SEPARATOR !in Spelled(head) && (head == "+" || Spelled(head) == head)
  {
    if SINGLE_LEVEL in head {
      assert head[1..] == "";
    } else {
      SpelledKeepsPlain(head);
    }
  }

  /** For every filter the validator accepts, the generated topic is not empty, has no wildcards
      and is matched by the filter. */
  lemma GeneratedTopicMatches(filter: string)
    requires filter != "" && ValidLevels(Levels(filter))
    ensures var topic := Spelled(filter);
      topic != "" && MULTI_LEVEL !in topic && SINGLE_LEVEL !in topic && IsTopicMatch(filter, topic)
  {
    SpelledHasNoWildcards(filter);
    SpelledLevels(filter);
    MatchIsLevelMatch(filter, Spelled(filter));
  }
}
