/**
 * The regular expressions of the parsers, each as the specific scanner it
 * denotes. `MatchAt` tries one pattern at one position (with Go's
 * leftmost-first preference: greedy runs take as much as they can, lazy
 * `.*?` as little); `FindFrom` is the leftmost match (`FindStringSubmatch`,
 * `FindString`) and `FindAllFrom` the successive non-overlapping matches
 * (`FindAllStringSubmatch(s, -1)`).
 */
module Scan {
  import opened Wrappers
  import opened Text

  /** The patterns the parsers use, by shape. */
  datatype Pattern =
    | Number                                  // [0-9]+
    | Keyed(key: string, cls: CharClass)      // key([cls]+)
    | SpaceKeyed(key: string, cls: CharClass) // \skey([cls]+)
    | KeyedWithUnit(key: string)              // key([0-9]+[A-Z])
    | KeyedBeforeParen(key: string)           // key([\w]+)\(
    | KeyedRange(key: string)                 // key([0-9]+)-([0-9]+)
    | Allocation                              // \sNodes.*?GRES.*?\s

  /** A match: the span `[start, end)` of the text and the capture groups. */
  datatype Match = Match(start: nat, end: nat, groups: seq<string>)

  function GroupCount(p: Pattern): nat {
    match p
    case Number => 0
    case Allocation => 0
    case KeyedRange(_) => 2
    case _ => 1
  }

  /** The first index at or after `from` where `t` occurs. */
  function IndexOf(s: string, t: string, from: nat): (r: Option<nat>)
    requires from <= |s|
    ensures r.Some? ==> from <= r.value && HasAt(s, r.value, t)
    ensures r.Some? ==> forall j :: from <= j < r.value ==> !HasAt(s, j, t)
    ensures r.None? ==> forall j :: from <= j <= |s| ==> !HasAt(s, j, t)
    decreases |s| - from
  {
    if HasAt(s, from, t) then Some(from)
    else if from == |s| then None
    else IndexOf(s, t, from + 1)
  }

  /** The match of `p` that starts exactly at index `i`, if there is one. */
  function MatchAt(s: string, i: nat, p: Pattern): (r: Option<Match>)
    requires i <= |s|
    ensures r.Some? ==> r.value.start == i && i < r.value.end <= |s|
    ensures r.Some? ==> |r.value.groups| == GroupCount(p)
  {
    match p
    case Number => MatchNumber(s, i)
    case Keyed(key, cls) => MatchKeyed(s, i, key, cls)
    case SpaceKeyed(key, cls) => MatchSpaceKeyed(s, i, key, cls)
    case KeyedWithUnit(key) => MatchWithUnit(s, i, key)
    case KeyedBeforeParen(key) => MatchBeforeParen(s, i, key)
    case KeyedRange(key) => MatchRange(s, i, key)
    case Allocation => MatchAllocation(s, i)
  }
  /** `[0-9]+` at `i`. */
  function MatchNumber(s: string, i: nat): (r: Option<Match>)
    requires i <= |s|
    ensures r.Some? ==> r.value.start == i && i < r.value.end <= |s| && |r.value.groups| == 0
    ensures r.Some? ==> forall k :: i <= k < r.value.end ==> IsDigit(s[k])
  {
    RunLenSpan(s, i, Digit);
    var n := RunLen(s, i, Digit);
    if n > 0 then Some(Match(i, i + n, [])) else None
  }

  /** `key([cls]+)` at `i`. */
  function MatchKeyed(s: string, i: nat, key: string, cls: CharClass): (r: Option<Match>)
    requires i <= |s|
    ensures r.Some? ==> r.value.start == i && i < r.value.end <= |s| && |r.value.groups| == 1
  {
    if HasAt(s, i, key) then
      var k := i + |key|;
      var n := RunLen(s, k, cls);
      if n > 0 then Some(Match(i, k + n, [s[k..k + n]])) else None
    else None
  }

  /** `\skey([cls]+)` at `i`. */
  function MatchSpaceKeyed(s: string, i: nat, key: string, cls: CharClass): (r: Option<Match>)
    requires i <= |s|
    ensures r.Some? ==> r.value.start == i && i < r.value.end <= |s| && |r.value.groups| == 1
  {
    if i < |s| && IsRegexSpace(s[i]) && HasAt(s, i + 1, key) then
      var k := i + 1 + |key|;
      var n := RunLen(s, k, cls);
      if n > 0 then Some(Match(i, k + n, [s[k..k + n]])) else None
    else None
  }

  /** `key([0-9]+[A-Z])` at `i`. */
  function MatchWithUnit(s: string, i: nat, key: string): (r: Option<Match>)
    requires i <= |s|
    ensures r.Some? ==> r.value.start == i && i < r.value.end <= |s| && |r.value.groups| == 1
  {
    if HasAt(s, i, key) then
      var k := i + |key|;
      var n := RunLen(s, k, Digit);
      if n > 0 && k + n < |s| && IsUpper(s[k + n]) then Some(Match(i, k + n + 1, [s[k..k + n + 1]]))
      else None
    else None
  }

  /** `key([\w]+)\(` at `i`. */
  function MatchBeforeParen(s: string, i: nat, key: string): (r: Option<Match>)
    requires i <= |s|
    ensures r.Some? ==> r.value.start == i && i < r.value.end <= |s| && |r.value.groups| == 1
  {
    if HasAt(s, i, key) then
      var k := i + |key|;
      var n := RunLen(s, k, Word);
      if n > 0 && k + n < |s| && s[k + n] == '(' then Some(Match(i, k + n + 1, [s[k..k + n]]))
      else None
    else None
  }

  /** `key([0-9]+)-([0-9]+)` at `i`. */
  function MatchRange(s: string, i: nat, key: string): (r: Option<Match>)
    requires i <= |s|
    ensures r.Some? ==> r.value.start == i && i < r.value.end <= |s| && |r.value.groups| == 2
  {
    if HasAt(s, i, key) then
      var k := i + |key|;
      var n := RunLen(s, k, Digit);
      if n > 0 && k + n < |s| && s[k + n] == '-' then
        var k2 := k + n + 1;
        var n2 := RunLen(s, k2, Digit);
        if n2 > 0 then Some(Match(i, k2 + n2, [s[k..k + n], s[k2..k2 + n2]])) else None
      else None
    else None
  }

  /**
   * `\sNodes.*?GRES.*?\s` at `i`: a separator, "Nodes", then up to the first
   * "GRES", then up to and including the first separator after it. Go's `.`
   * does not match a newline while `IndexOf` looks past one; the two agree on
   * the newline-free lines the job parser scans (`Text.LinesJoin`).
   */
  function MatchAllocation(s: string, i: nat): (r: Option<Match>)
    requires i <= |s|
    ensures r.Some? ==> r.value.start == i && i < r.value.end <= |s| && |r.value.groups| == 0
  {
    if i < |s| && IsRegexSpace(s[i]) && HasAt(s, i + 1, "Nodes") then
      match IndexOf(s, "GRES", i + 6)
      case None => None
      case Some(j) =>
        var k := j + 4 + RunLen(s, j + 4, NotRegexSpace);
        if k < |s| then Some(Match(i, k + 1, [])) else None
    else None
  }

  /** The leftmost match of `p` starting at or after `from`. */
  function FindFrom(s: string, p: Pattern, from: nat): (r: Option<Match>)
    requires from <= |s|
    ensures r.Some? ==> from <= r.value.start <= |s| && MatchAt(s, r.value.start, p) == r
    ensures r.Some? ==> forall j :: from <= j < r.value.start ==> MatchAt(s, j, p).None?
    ensures r.None? ==> forall j :: from <= j <= |s| ==> MatchAt(s, j, p).None?
    decreases |s| - from
  {
    match MatchAt(s, from, p)
    case Some(m) => Some(m)
    case None => if from == |s| then None else FindFrom(s, p, from + 1)
  }

  /** A match with no match before it is the one `FindFrom` returns. */
  lemma FindFromFirst(s: string, p: Pattern, from: nat, i: nat)
    requires from <= i <= |s| && MatchAt(s, i, p).Some?
    requires forall j :: from <= j < i ==> MatchAt(s, j, p).None?
    ensures FindFrom(s, p, from) == MatchAt(s, i, p)
  {
  }

  /**
   * `key<v>` written at `i`, `v` a maximal run of `cls` characters, with no
   * earlier match, is the leftmost match of `key([cls]+)` and captures `v`.
   */
  lemma FoundKeyedRun(s: string, key: string, cls: CharClass, i: nat, v: string)
    requires HasAt(s, i, key + v) && |v| > 0 && (forall x :: 0 <= x < |v| ==> InClass(v[x], cls))
    requires i + |key| + |v| == |s| || !InClass(s[i + |key| + |v|], cls)
    requires forall j :: 0 <= j < i ==> MatchAt(s, j, Keyed(key, cls)).None?
    ensures Find(s, Keyed(key, cls)) == Some(Match(i, i + |key| + |v|, [v]))
  {
    HasAtSplit(s, i, key, v);
    RunAt(s, i + |key|, v, cls);
    assert MatchAt(s, i, Keyed(key, cls)) == Some(Match(i, i + |key| + |v|, [v]));
    FindFromFirst(s, Keyed(key, cls), 0, i);
  }

  /**
   * `key<v>(` written at `i`, `v` a run of word characters, with no earlier
   * match, is the leftmost match of `key([\w]+)\(` and captures `v`.
   */
  lemma FoundBeforeParen(s: string, key: string, i: nat, v: string)
    requires HasAt(s, i, key + v + "(") && |v| > 0 && (forall x :: 0 <= x < |v| ==> IsWord(v[x]))
    requires forall j :: 0 <= j < i ==> MatchAt(s, j, KeyedBeforeParen(key)).None?
    ensures Find(s, KeyedBeforeParen(key)) == Some(Match(i, i + |key| + |v| + 1, [v]))
  {
    HasAtSplit(s, i, key + v, "(");
    HasAtSplit(s, i, key, v);
    assert s[i + |key| + |v|] == s[i + |key| + |v|..i + |key| + |v| + 1][0];
    RunAt(s, i + |key|, v, Word);
    assert MatchAt(s, i, KeyedBeforeParen(key)) == Some(Match(i, i + |key| + |v| + 1, [v]));
    FindFromFirst(s, KeyedBeforeParen(key), 0, i);
  }

  /**
   * A separator at `i` followed by `key<v>`, `v` a maximal non-empty run of
   * the class, with no earlier match, is the leftmost match of `\skey([cls]+)`
   * and captures `v`.
   */
  lemma FoundSpaceKeyedRun(s: string, key: string, cls: CharClass, i: nat, v: string)
    requires i < |s| && IsRegexSpace(s[i])
    requires HasAt(s, i + 1, key + v) && |v| > 0 && (forall x :: 0 <= x < |v| ==> InClass(v[x], cls))
    requires i + 1 + |key| + |v| == |s| || !InClass(s[i + 1 + |key| + |v|], cls)
    requires forall j :: 0 <= j < i ==> MatchAt(s, j, SpaceKeyed(key, cls)).None?
    ensures Find(s, SpaceKeyed(key, cls)) == Some(Match(i, i + 1 + |key| + |v|, [v]))
  {
    HasAtSplit(s, i + 1, key, v);
    RunAt(s, i + 1 + |key|, v, cls);
    assert MatchAt(s, i, SpaceKeyed(key, cls)) == Some(Match(i, i + 1 + |key| + |v|, [v]));
    FindFromFirst(s, SpaceKeyed(key, cls), 0, i);
  }

  /** `key<first>-<last>` written at `i`, with no earlier match, is the leftmost match of `key([0-9]+)-([0-9]+)`. */
  lemma FoundRange(s: string, key: string, i: nat, first: string, last: string)
    requires HasAt(s, i, key + first + "-" + last)
    requires |first| > 0 && AllDigits(first) && |last| > 0 && AllDigits(last)
    requires i + |key| + |first| + 1 + |last| == |s| || !IsDigit(s[i + |key| + |first| + 1 + |last|])
    requires forall j :: 0 <= j < i ==> MatchAt(s, j, KeyedRange(key)).None?
    ensures Find(s, KeyedRange(key)) == Some(Match(i, i + |key| + |first| + 1 + |last|, [first, last]))
  {
    MatchRangeAt(s, key, i, first, last);
    FindFromFirst(s, KeyedRange(key), 0, i);
  }

  lemma MatchRangeAt(s: string, key: string, i: nat, first: string, last: string)
    requires HasAt(s, i, key + first + "-" + last)
    requires |first| > 0 && AllDigits(first) && |last| > 0 && AllDigits(last)
    requires i + |key| + |first| + 1 + |last| == |s| || !IsDigit(s[i + |key| + |first| + 1 + |last|])
    ensures MatchAt(s, i, KeyedRange(key)) == Some(Match(i, i + |key| + |first| + 1 + |last|, [first, last]))
  {
    RangeAt(s, key, i, first, last);
    var k := i + |key|;
    var k2 := k + |first| + 1;
    assert [s[k..k + |first|], s[k2..k2 + |last|]] == [first, last];
    assert MatchRange(s, i, key) == Some(Match(i, k2 + |last|, [first, last]));
  }

  /** The pieces of `key<first>-<last>` written at `i`, as `MatchAt` reads them. */
  lemma RangeAt(s: string, key: string, i: nat, first: string, last: string)
    requires HasAt(s, i, key + first + "-" + last)
    requires |first| > 0 && AllDigits(first) && |last| > 0 && AllDigits(last)
    requires i + |key| + |first| + 1 + |last| == |s| || !IsDigit(s[i + |key| + |first| + 1 + |last|])
    ensures HasAt(s, i, key) && i + |key| + |first| < |s| && s[i + |key| + |first|] == '-'
    ensures RunLen(s, i + |key|, Digit) == |first| && s[i + |key|..i + |key| + |first|] == first
    ensures RunLen(s, i + |key| + |first| + 1, Digit) == |last|
    ensures s[i + |key| + |first| + 1..i + |key| + |first| + 1 + |last|] == last
  {
    HasAtSplit(s, i, key + first + "-", last);
    HasAtSplit(s, i, key + first, "-");
    HasAtSplit(s, i, key, first);
    assert s[i + |key| + |first|] == s[i + |key| + |first|..i + |key| + |first| + 1][0];
    DigitRunAt(s, i + |key|, first);
    DigitRunAt(s, i + |key| + |first| + 1, last);
  }

  function Find(s: string, p: Pattern): Option<Match> {
    FindFrom(s, p, 0)
  }

  /** `FindString`: the text of the leftmost match, or "" when there is none. */
  function FindString(s: string, p: Pattern): (r: string)
    ensures Find(s, p).None? ==> r == ""
  {
    match Find(s, p)
    case None => ""
    case Some(m) => s[m.start..m.end]
  }

  /**
   * The successive leftmost matches of `p` from `from` on: they come left to
   * right without overlapping (and each is a match at its own start, which
   * `FindAllFromMatches` states).
   */
  function FindAllFrom(s: string, p: Pattern, from: nat): (r: seq<Match>)
    requires from <= |s|
    ensures forall k :: 0 <= k < |r| ==> from <= r[k].start < r[k].end <= |s|
    ensures forall k1, k2 :: 0 <= k1 < k2 < |r| ==> r[k1].end <= r[k2].start
    decreases |s| - from
  {
    match FindFrom(s, p, from)
    case None => []
    case Some(m) => [m] + FindAllFrom(s, p, m.end)
  }

  /** Every element of `FindAllFrom` is the match of `p` at its own start. */
  lemma {:induction false} FindAllFromMatches(s: string, p: Pattern, from: nat, k: nat)
    requires from <= |s| && k < |FindAllFrom(s, p, from)|
    ensures MatchAt(s, FindAllFrom(s, p, from)[k].start, p) == Some(FindAllFrom(s, p, from)[k])
    decreases k
  {
    var m := FindFrom(s, p, from).value;
    assert FindAllFrom(s, p, from) == [m] + FindAllFrom(s, p, m.end);
    if k > 0 {
      FindAllFromMatches(s, p, m.end, k - 1);
    }
  }

  /** No match is skipped: every position where `p` matches lies inside one of the matches found. */
  lemma {:induction false} FindAllFromCovers(s: string, p: Pattern, from: nat, j: nat)
    requires from <= j <= |s| && MatchAt(s, j, p).Some?
    ensures exists m :: m in FindAllFrom(s, p, from) && m.start <= j < m.end
    decreases |s| - from
  {
    match FindFrom(s, p, from)
    case None =>
    case Some(m) =>
      var rest := FindAllFrom(s, p, m.end);
      assert FindAllFrom(s, p, from) == [m] + rest;
      if m.end <= j {
        FindAllFromCovers(s, p, m.end, j);
        var m' :| m' in rest && m'.start <= j < m'.end;
        assert m' in FindAllFrom(s, p, from);
      }
  }

  function FindAll(s: string, p: Pattern): seq<Match> {
    FindAllFrom(s, p, 0)
  }

  /** No match found starts at the last character of a match found that is longer than one character. */
  lemma FindAllNoStartAtEnd(s: string, p: Pattern, k: nat)
    requires k < |FindAll(s, p)| && FindAll(s, p)[k].start + 1 < FindAll(s, p)[k].end
    ensures forall m :: m in FindAll(s, p) ==> m.start != FindAll(s, p)[k].end - 1
  {
    var ms := FindAll(s, p);
    forall m | m in ms ensures m.start != ms[k].end - 1 {
      var x :| 0 <= x < |ms| && ms[x] == m;
      if x < k {
        assert ms[x].end <= ms[k].start;
      } else if x > k {
        assert ms[k].end <= ms[x].start;
      }
    }
  }

  /**
   * Where an allocation group ends: after a separator and `Nodes` at `i`, the
   * group runs to the first `GRES` at or after `i + 6`, then through the first
   * separator after it, which it includes.
   */
  lemma FoundAllocationAt(s: string, i: nat, j: nat, k: nat)
    requires i < |s| && IsRegexSpace(s[i]) && HasAt(s, i + 1, "Nodes")
    requires i + 6 <= j && HasAt(s, j, "GRES")
    requires forall x :: i + 6 <= x < j ==> !HasAt(s, x, "GRES")
    requires j + 4 <= k < |s| && IsRegexSpace(s[k])
    requires forall x :: j + 4 <= x < k ==> !IsRegexSpace(s[x])
    ensures MatchAt(s, i, Allocation) == Some(Match(i, k + 1, []))
  {
    assert IndexOf(s, "GRES", i + 6) == Some(j);
    RunLenUnique(s, j + 4, NotRegexSpace, k - (j + 4));
  }

  /** An allocation group ends with the separator after its `GRES` value, which it consumes. */
  lemma AllocationEndsWithSeparator(s: string, i: nat)
    requires i <= |s| && MatchAt(s, i, Allocation).Some?
    ensures i + 1 < MatchAt(s, i, Allocation).value.end
    ensures IsRegexSpace(s[MatchAt(s, i, Allocation).value.end - 1])
  {
  }
}
