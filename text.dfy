/**
 * The text primitives the parsers are built on: splitting the raw output into
 * lines (Go's `strings.Split(s, "\n")`), splitting a line into fields
 * (`strings.Fields`), lower-casing (`strings.ToLower`), decimal digit strings
 * (`strconv.ParseFloat` on the digit runs the patterns capture) and the byte
 * length of a line (`len` on a Go string counts UTF-8 bytes).
 */
module Text {

  // ---------------------------------------------------------------------------
  // Character classes
  // ---------------------------------------------------------------------------

  predicate IsDigit(c: char) { '0' <= c <= '9' }

  predicate IsUpper(c: char) { 'A' <= c <= 'Z' }

  /** `\w` of Go's regular expressions: `[0-9A-Za-z_]`. */
  predicate IsWord(c: char) { IsDigit(c) || IsUpper(c) || ('a' <= c <= 'z') || c == '_' }

  /** `\s` of Go's regular expressions: `[\t\n\f\r ]` (ASCII only, no vertical tab). */
  predicate IsRegexSpace(c: char) {
    c == '\t' || c == '\n' || c as int == 0x0C || c == '\r' || c == ' '
  }

  /** `unicode.IsSpace`, the separator test of `strings.Fields`. */
  predicate IsFieldSpace(c: char) {
    var n := c as int;
    (0x09 <= n <= 0x0D) || n == 0x20 || n == 0x85 || n == 0xA0 || n == 0x1680
    || (0x2000 <= n <= 0x200A) || n == 0x2028 || n == 0x2029 || n == 0x202F
    || n == 0x205F || n == 0x3000
  }

  /** The character classes the scanners take runs of. */
  datatype CharClass = Digit | Upper | Word | NotRegexSpace | NotFieldSpace

  predicate InClass(c: char, cls: CharClass) {
    match cls
    case Digit => IsDigit(c)
    case Upper => IsUpper(c)
    case Word => IsWord(c)
    case NotRegexSpace => !IsRegexSpace(c)
    case NotFieldSpace => !IsFieldSpace(c)
  }

  /** Length of the longest run of `cls` characters starting at index `i` of `s`. */
  function RunLen(s: string, i: nat, cls: CharClass): (n: nat)
    requires i <= |s|
    ensures i + n <= |s|
    ensures i + n == |s| || !InClass(s[i + n], cls)
    decreases |s| - i
  {
    if i < |s| && InClass(s[i], cls) then 1 + RunLen(s, i + 1, cls) else 0
  }

  /** Every character of the run is of the class. */
  lemma {:induction false} RunLenSpan(s: string, i: nat, cls: CharClass)
    requires i <= |s|
    ensures forall k :: i <= k < i + RunLen(s, i, cls) ==> InClass(s[k], cls)
    decreases |s| - i
  {
    if i < |s| && InClass(s[i], cls) {
      RunLenSpan(s, i + 1, cls);
    }
  }

  /** A maximal run is unique: any `n` with the three properties is `RunLen`. */
  lemma {:induction false} RunLenUnique(s: string, i: nat, cls: CharClass, n: nat)
    requires i + n <= |s|
    requires forall k :: i <= k < i + n ==> InClass(s[k], cls)
    requires i + n == |s| || !InClass(s[i + n], cls)
    ensures RunLen(s, i, cls) == n
    decreases n
  {
    if n > 0 {
      assert InClass(s[i], cls);
      RunLenUnique(s, i + 1, cls, n - 1);
    }
  }

  /** `t` occurs in `s` starting at index `i`. */
  predicate HasAt(s: string, i: nat, t: string) {
    i + |t| <= |s| && s[i..i + |t|] == t
  }

  predicate HasPrefix(s: string, p: string) { HasAt(s, 0, p) }

  /** An occurrence of `a + b` is an occurrence of `a` followed by one of `b`. */
  lemma HasAtSplit(s: string, i: nat, a: string, b: string)
    requires HasAt(s, i, a + b)
    ensures HasAt(s, i, a) && HasAt(s, i + |a|, b)
  {
    assert s[i..i + |a|] == s[i..i + |a + b|][..|a|];
    assert s[i + |a|..i + |a| + |b|] == s[i..i + |a + b|][|a|..];
  }

  /** `b` occurs in `a + b + c` right after `a`. */
  lemma HasAtMiddle(a: string, b: string, c: string)
    ensures HasAt(a + b + c, |a|, b)
  {
    assert (a + b + c)[|a|..|a| + |b|] == b;
  }

  /** A text whose first character is not in `a` occurs nowhere in `a + rest` before `|a|`. */
  lemma AbsentBefore(a: string, rest: string, t: string)
    requires |t| > 0 && t[0] !in a
    ensures forall j :: 0 <= j < |a| ==> !HasAt(a + rest, j, t)
  {
    forall j | 0 <= j < |a| ensures !HasAt(a + rest, j, t) {
      assert (a + rest)[j] == a[j] && a[j] in a;
      if j + |t| <= |a + rest| {
        assert (a + rest)[j..j + |t|][0] == (a + rest)[j];
      }
    }
  }

  /** A run of `cls` characters written at `k` and not followed by another is the run there. */
  lemma RunAt(s: string, k: nat, v: string, cls: CharClass)
    requires HasAt(s, k, v) && (forall x :: 0 <= x < |v| ==> InClass(v[x], cls))
    requires k + |v| == |s| || !InClass(s[k + |v|], cls)
    ensures RunLen(s, k, cls) == |v|
  {
    forall x | k <= x < k + |v| ensures InClass(s[x], cls) {
      assert s[x] == s[k..k + |v|][x - k];
    }
    RunLenUnique(s, k, cls, |v|);
  }

  /** A run of digits written at `k` and not followed by a digit is the digit run there. */
  lemma DigitRunAt(s: string, k: nat, d: string)
    requires HasAt(s, k, d) && (forall x :: 0 <= x < |d| ==> IsDigit(d[x]))
    requires k + |d| == |s| || !IsDigit(s[k + |d|])
    ensures RunLen(s, k, Digit) == |d|
  {
    RunAt(s, k, d, Digit);
  }

  // ---------------------------------------------------------------------------
  // strings.Split(s, "\n")
  // ---------------------------------------------------------------------------

  /**
   * The pieces of `s` between newline characters: `k` newlines give `k + 1`
   * pieces, and the empty string gives one empty piece.
   */
  function Lines(s: string): (r: seq<string>)
    ensures |r| >= 1
  {
    if s == [] then [""]
    else
      var rest := Lines(s[1..]);
      if s[0] == '\n' then [""] + rest else [[s[0]] + rest[0]] + rest[1..]
  }

  /** The inverse of `Lines`: the pieces joined back with newline characters. */
  function JoinLines(ls: seq<string>): string
    decreases |ls|
  {
    if |ls| == 0 then ""
    else if |ls| == 1 then ls[0]
    else ls[0] + "\n" + JoinLines(ls[1..])
  }

  predicate NoNewline(s: string) { forall k :: 0 <= k < |s| ==> s[k] != '\n' }

  /** Splitting loses nothing, and no piece contains a newline. */
  lemma {:induction false} LinesJoin(s: string)
    ensures JoinLines(Lines(s)) == s
    ensures forall k :: 0 <= k < |Lines(s)| ==> NoNewline(Lines(s)[k])
    decreases |s|
  {
    if s != [] {
      var rest := Lines(s[1..]);
      LinesJoin(s[1..]);
      if s[0] == '\n' {
        assert Lines(s) == [""] + rest;
        assert JoinLines(Lines(s)) == "" + "\n" + JoinLines(rest);
      } else {
        var r := Lines(s);
        assert r == [[s[0]] + rest[0]] + rest[1..];
        if |rest| == 1 {
          assert JoinLines(r) == [s[0]] + rest[0];
        } else {
          assert JoinLines(rest) == rest[0] + "\n" + JoinLines(rest[1..]);
          assert r[1..] == rest[1..];
          assert JoinLines(r) == [s[0]] + rest[0] + "\n" + JoinLines(rest[1..]);
        }
        assert s == [s[0]] + s[1..];
        forall k | 0 <= k < |r| ensures NoNewline(r[k]) {
          if k > 0 { assert r[k] == rest[k]; }
        }
      }
    }
  }

  /** Prepending newline-free text `a` extends the first piece only. */
  lemma {:induction false} LinesOfPrefix(a: string, t: string)
    requires NoNewline(a)
    ensures Lines(a + t) == [a + Lines(t)[0]] + Lines(t)[1..]
    decreases |a|
  {
    if a != [] {
      assert (a + t)[1..] == a[1..] + t;
      LinesOfPrefix(a[1..], t);
      var rest := Lines(a[1..] + t);
      assert (a + t)[0] == a[0] != '\n';
      assert Lines(a + t) == [[a[0]] + rest[0]] + rest[1..];
      assert rest[1..] == Lines(t)[1..];
      assert [a[0]] + (a[1..] + Lines(t)[0]) == a + Lines(t)[0];
    } else {
      assert a + t == t;
      assert a + Lines(t)[0] == Lines(t)[0];
      assert Lines(t) == [Lines(t)[0]] + Lines(t)[1..];
    }
  }

  /** Splitting a join of newline-free pieces gives the pieces back. */
  lemma {:induction false} JoinLinesSplit(ls: seq<string>)
    requires |ls| >= 1
    requires forall k :: 0 <= k < |ls| ==> NoNewline(ls[k])
    ensures Lines(JoinLines(ls)) == ls
    decreases |ls|
  {
    if |ls| == 1 {
      LinesOfPrefix(ls[0], "");
      assert ls[0] + "" == ls[0];
    } else {
      var rest := ls[1..];
      JoinLinesSplit(rest);
      var t := "\n" + JoinLines(rest);
      assert JoinLines(ls) == ls[0] + t;
      LinesOfPrefix(ls[0], t);
      assert t[1..] == JoinLines(rest);
      assert Lines(t) == [""] + rest;
      assert ls[0] + "" == ls[0];
      assert ls == [ls[0]] + rest;
    }
  }

  // ---------------------------------------------------------------------------
  // strings.Fields
  // ---------------------------------------------------------------------------

  /** The maximal runs of non-space characters of `s`, in order. */
  function Fields(s: string): (r: seq<string>)
    decreases |s|
  {
    if s == [] then []
    else if IsFieldSpace(s[0]) then Fields(s[1..])
    else
      var n := RunLen(s, 0, NotFieldSpace);
      [s[..n]] + Fields(s[n..])
  }

  /** `s` with every separator character removed. */
  function Squeeze(s: string): string {
    if s == [] then [] else (if IsFieldSpace(s[0]) then [] else [s[0]]) + Squeeze(s[1..])
  }

  function Concat(ss: seq<string>): string {
    if ss == [] then [] else ss[0] + Concat(ss[1..])
  }

  predicate IsField(w: string) {
    |w| > 0 && forall k :: 0 <= k < |w| ==> !IsFieldSpace(w[k])
  }

  lemma {:induction false} SqueezeAppend(a: string, b: string)
    ensures Squeeze(a + b) == Squeeze(a) + Squeeze(b)
    decreases |a|
  {
    if a == [] {
      assert a + b == b;
    } else {
      assert (a + b)[1..] == a[1..] + b;
      SqueezeAppend(a[1..], b);
    }
  }

  lemma {:induction false} SqueezeField(w: string)
    requires forall k :: 0 <= k < |w| ==> !IsFieldSpace(w[k])
    ensures Squeeze(w) == w
    decreases |w|
  {
    if w != [] {
      SqueezeField(w[1..]);
      assert w == [w[0]] + w[1..];
    }
  }

  /**
   * Every field is a non-empty run of non-separators, and the fields together
   * hold exactly the non-separator characters of the line, in order.
   */
  lemma {:induction false} FieldsSpec(s: string)
    ensures forall k :: 0 <= k < |Fields(s)| ==> IsField(Fields(s)[k])
    ensures Concat(Fields(s)) == Squeeze(s)
    decreases |s|
  {
    if s != [] {
      if IsFieldSpace(s[0]) {
        FieldsSpec(s[1..]);
      } else {
        var n := RunLen(s, 0, NotFieldSpace);
        RunLenSpan(s, 0, NotFieldSpace);
        var rest := Fields(s[n..]);
        FieldsSpec(s[n..]);
        var r := Fields(s);
        assert r == [s[..n]] + rest;
        forall k | 0 <= k < |r| ensures IsField(r[k]) {
          if k > 0 { assert r[k] == rest[k - 1]; }
        }
        assert r[1..] == rest;
        assert s == s[..n] + s[n..];
        SqueezeAppend(s[..n], s[n..]);
        SqueezeField(s[..n]);
      }
    }
  }

  /** A field followed by a separator, or by nothing, is the first field. */
  lemma FieldsOfField(w: string, t: string)
    requires IsField(w) && (t == [] || IsFieldSpace(t[0]))
    ensures Fields(w + t) == [w] + Fields(t)
  {
    var s := w + t;
    forall k | 0 <= k < |w| ensures InClass(s[k], NotFieldSpace) {
      assert s[k] == w[k];
    }
    if t != [] {
      assert s[|w|] == t[0];
    }
    RunLenUnique(s, 0, NotFieldSpace, |w|);
    assert s[..|w|] == w && s[|w|..] == t;
  }

  /** Fields joined by single spaces, the layout of a listing line. */
  function Unwords(ws: seq<string>): string
    decreases |ws|
  {
    if ws == [] then "" else if |ws| == 1 then ws[0] else ws[0] + " " + Unwords(ws[1..])
  }

  /** Splitting fields joined by single spaces gives the fields back. */
  lemma {:induction false} FieldsUnwords(ws: seq<string>)
    requires forall k :: 0 <= k < |ws| ==> IsField(ws[k])
    ensures Fields(Unwords(ws)) == ws
    decreases |ws|
  {
    if |ws| == 1 {
      FieldsOfField(ws[0], "");
      assert ws[0] + "" == ws[0];
    } else if |ws| > 1 {
      var t := " " + Unwords(ws[1..]);
      assert Unwords(ws) == ws[0] + t;
      FieldsOfField(ws[0], t);
      assert t[1..] == Unwords(ws[1..]);
      FieldsUnwords(ws[1..]);
      assert ws == [ws[0]] + ws[1..];
    }
  }

  /** Fields joined by single spaces hold no newline, so they make one line. */
  lemma {:induction false} UnwordsNoNewline(ws: seq<string>)
    requires forall k :: 0 <= k < |ws| ==> IsField(ws[k])
    ensures NoNewline(Unwords(ws))
    decreases |ws|
  {
    if |ws| > 1 {
      UnwordsNoNewline(ws[1..]);
      var s := Unwords(ws);
      var rest := Unwords(ws[1..]);
      assert s == ws[0] + " " + rest;
      forall k | 0 <= k < |s| ensures s[k] != '\n' {
        if k < |ws[0]| {
          assert s[k] == ws[0][k];
        } else if k > |ws[0]| {
          assert s[k] == rest[k - |ws[0]| - 1];
        }
      }
    } else if |ws| == 1 {
      assert IsField(ws[0]);
    }
  }

  /**
   * The number of places where a field begins: a non-separator that starts
   * the text (when `afterSpace` holds) or follows a separator.
   */
  function FieldStarts(s: string, afterSpace: bool): nat {
    if s == [] then 0
    else (if afterSpace && !IsFieldSpace(s[0]) then 1 else 0) + FieldStarts(s[1..], IsFieldSpace(s[0]))
  }

  lemma {:induction false} FieldStartsInRun(s: string, i: nat, n: nat)
    requires 1 <= i <= n <= |s|
    requires forall k :: 0 <= k < n ==> !IsFieldSpace(s[k])
    requires n == |s| || IsFieldSpace(s[n])
    ensures FieldStarts(s[i..], false) == FieldStarts(s[n..], true)
    decreases n - i
  {
    if i < n {
      assert s[i..][1..] == s[i + 1..];
      FieldStartsInRun(s, i + 1, n);
    } else if n < |s| {
      assert s[n..][1..] == s[n + 1..];
    }
  }

  /** Fields are maximal: there is one field per place where a field begins. */
  lemma {:induction false} FieldsCount(s: string)
    ensures |Fields(s)| == FieldStarts(s, true)
    decreases |s|
  {
    if s != [] {
      if IsFieldSpace(s[0]) {
        FieldsCount(s[1..]);
      } else {
        var n := RunLen(s, 0, NotFieldSpace);
        RunLenSpan(s, 0, NotFieldSpace);
        FieldsCount(s[n..]);
        FieldStartsInRun(s, 1, n);
      }
    }
  }

  // ---------------------------------------------------------------------------
  // strings.ToLower
  // ---------------------------------------------------------------------------

  /**
   * Lower-casing of one character, for the characters whose lower case is an
   * ASCII letter: `A`-`Z`, the dotted capital I (U+0130) and the Kelvin sign
   * (U+212A). Every other character is its own lower case in Go or has a
   * non-ASCII one; it is kept as it is here, which changes no comparison
   * with the ASCII state words.
   */
  function LowerChar(c: char): (d: char)
    ensures !IsUpper(d)
    ensures IsUpper(c) ==> d as int == c as int + 32
    ensures c == '\U{130}' ==> d == 'i'
    ensures c == '\U{212A}' ==> d == 'k'
    ensures !IsUpper(c) && c != '\U{130}' && c != '\U{212A}' ==> d == c
  {
    if IsUpper(c) then (c as int + 32) as char
    else if c == '\U{130}' then 'i'
    else if c == '\U{212A}' then 'k'
    else c
  }

  /**
   * `strings.ToLower` as far as the state words can tell: no upper-case ASCII
   * letter is left, each one becomes its lower-case letter, and every other
   * ASCII character is kept.
   */
  function Lower(s: string): (r: string)
    ensures |r| == |s|
    ensures forall k :: 0 <= k < |s| ==> !IsUpper(r[k])
    ensures forall k :: 0 <= k < |s| && IsUpper(s[k]) ==> r[k] as int == s[k] as int + 32
    ensures forall k :: 0 <= k < |s| && s[k] as int < 0x80 && !IsUpper(s[k]) ==> r[k] == s[k]
  {
    seq(|s|, k requires 0 <= k < |s| => LowerChar(s[k]))
  }

  // ---------------------------------------------------------------------------
  // Decimal numbers
  // ---------------------------------------------------------------------------

  predicate AllDigits(d: string) { forall k :: 0 <= k < |d| ==> IsDigit(d[k]) }

  /** The value of a string of decimal digits. */
  function DigitsValue(d: string): nat
    requires AllDigits(d)
    decreases |d|
  {
    if d == [] then 0
    else 10 * DigitsValue(d[..|d| - 1]) + (d[|d| - 1] as int - '0' as int)
  }

  /** One more digit: ten times the value so far plus the digit's own value. */
  lemma DigitsAppend(d: string, c: char)
    requires AllDigits(d) && IsDigit(c)
    ensures AllDigits(d + [c])
    ensures DigitsValue(d + [c]) == 10 * DigitsValue(d) + (c as int - '0' as int)
  {
    assert (d + [c])[..|d|] == d;
  }

  /**
   * `strconv.ParseFloat` on the text the patterns capture, which is either
   * empty or a run of digits: the value of the digits, and 0 (the value Go
   * returns beside its error) for anything else.
   */
  function ParseNumber(d: string): (v: nat)
    ensures d == [] ==> v == 0
  {
    if |d| > 0 && AllDigits(d) then DigitsValue(d) else 0
  }

  // ---------------------------------------------------------------------------
  // Byte length
  // ---------------------------------------------------------------------------

  /** The number of bytes of the UTF-8 encoding of `c`. */
  function Utf8Width(c: char): nat {
    var n := c as int;
    if n < 0x80 then 1 else if n < 0x800 then 2 else if n < 0x10000 then 3 else 4
  }

  /** `len(s)` of a Go string: its length in UTF-8 bytes. */
  function Utf8Length(s: string): (n: nat)
    ensures |s| <= n <= 4 * |s|
    ensures (forall k :: 0 <= k < |s| ==> s[k] as int < 0x80) ==> n == |s|
  {
    if s == [] then 0 else Utf8Width(s[0]) + Utf8Length(s[1..])
  }
}
