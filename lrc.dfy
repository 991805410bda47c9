/**
 * `parseLrc` and `getActiveLineIndex` (Lyrics.jsx): reading `[mm:ss.xx]text`
 * lines into timed lyric lines, and finding the line to highlight for a
 * playback time. Times are integer milliseconds.
 */
module Lrc {
  import opened Wrappers
  import opened Text

  datatype LyricLine = LyricLine(timeMs: nat, text: string)

  /** What `(.*)` captures: everything before the first line terminator. */
  function UpToLineEnd(s: string): (r: string)
    ensures r <= s
    ensures forall k :: 0 <= k < |r| ==> !IsLineTerminator(r[k])
    ensures |r| < |s| ==> IsLineTerminator(s[|r|])
  {
    if |s| == 0 || IsLineTerminator(s[0]) then ""
    else [s[0]] + UpToLineEnd(s[1..])
  }

  /**
   * Where `^\[(\d{2}):(\d{2})\.(\d{2,3})\]` ends on `line`: 10 for a
   * two-digit fraction, 11 for a three-digit one, 0 when it does not match.
   */
  function TimestampLength(line: string): (n: nat)
    ensures n == 0 || n == 10 || n == 11
    ensures n > 0 ==> StampAt(line, n)
    ensures n == 0 ==> !StampAt(line, 10) && !StampAt(line, 11)
  {
    if |line| >= 10 && line[0] == '[' && IsDigit(line[1]) && IsDigit(line[2]) && line[3] == ':'
       && IsDigit(line[4]) && IsDigit(line[5]) && line[6] == '.' && IsDigit(line[7]) && IsDigit(line[8])
    then
      if line[9] == ']' then 10
      else if |line| >= 11 && IsDigit(line[9]) && line[10] == ']' then 11
      else 0
    else 0
  }

  /** `line` starts with a timestamp of length `n`: `[`, two digits, `:`, two digits, `.`, the fraction digits, `]`. */
  predicate StampAt(line: string, n: nat) {
    StampDigits(line, n) && line[0] == '[' && line[3] == ':' && line[6] == '.' && line[n - 1] == ']'
  }

  /** The digit positions of a matched timestamp of length `n`. */
  predicate StampDigits(line: string, n: nat) {
    (n == 10 || n == 11) && n <= |line|
    && IsDigit(line[1]) && IsDigit(line[2]) && IsDigit(line[4]) && IsDigit(line[5])
    && IsDigit(line[7]) && IsDigit(line[8]) && (n == 11 ==> IsDigit(line[9]))
  }

  function DigitValue(c: char): nat
    requires IsDigit(c)
  {
    c as int - '0' as int
  }

  /**
   * The time of a matched timestamp: minutes and seconds read as decimal
   * numbers, and the fraction right-padded to three digits (`padEnd(3, '0')`)
   * before it is read, so `.5x` is 5x0 ms.
   */
  function StampMs(line: string, n: nat): (r: nat)
    requires StampDigits(line, n)
    ensures r / 1000 == (DigitValue(line[1]) * 10 + DigitValue(line[2])) * 60 + DigitValue(line[4]) * 10 + DigitValue(line[5])
    ensures r % 1000 == DigitValue(line[7]) * 100 + DigitValue(line[8]) * 10 + (if n == 11 then DigitValue(line[9]) else 0)
    ensures n == 10 ==> r % 10 == 0
  {
    var minutes := DigitValue(line[1]) * 10 + DigitValue(line[2]);
    var seconds := DigitValue(line[4]) * 10 + DigitValue(line[5]);
    var third := if n == 11 then DigitValue(line[9]) else 0;
    var millis := DigitValue(line[7]) * 100 + DigitValue(line[8]) * 10 + third;
    minutes * 60000 + seconds * 1000 + millis
  }

  /**
   * One line of `parseLrc`'s `forEach`: the timed line it pushes, if any.
   */
  function ParseLrcLine(line: string): (r: Option<LyricLine>)
    ensures r.Some? ==> TimestampLength(line) > 0
    ensures r.Some? ==> r.value.text != "" && IsTrimmed(r.value.text)
  {
    var n := TimestampLength(line);
    if n == 0 then None
    else
      var text := Trim(UpToLineEnd(line[n..]));
      if text == "" then None else Some(LyricLine(StampMs(line, n), text))
  }

  function OptionToSeq<T>(o: Option<T>): seq<T> {
    match o
    case Some(x) => [x]
    case None => []
  }

  /** The values `f` yields on `xs`, in order, skipping the `None`s. */
  function Kept<A, B>(xs: seq<A>, f: A -> Option<B>): (r: seq<B>)
  {
    if |xs| == 0 then []
    else Kept(xs[..|xs| - 1], f) + OptionToSeq(f(xs[|xs| - 1]))
  }

  /** At most one value is kept per element. */
  lemma {:induction false} KeptLength<A, B>(xs: seq<A>, f: A -> Option<B>)
    ensures |Kept(xs, f)| <= |xs|
  {
    if |xs| > 0 {
      KeptLength(xs[..|xs| - 1], f);
    }
  }

  /** Elements are kept independently of one another and in input order. */
  lemma {:induction false} KeptConcat<A, B>(a: seq<A>, b: seq<A>, f: A -> Option<B>)
    ensures Kept(a + b, f) == Kept(a, f) + Kept(b, f)
    decreases |b|
  {
    if |b| == 0 {
      assert a + b == a;
    } else {
      var init := b[..|b| - 1];
      var ab := a + b;
      var last := OptionToSeq(f(b[|b| - 1]));
      assert Kept(ab, f) == (Kept(a, f) + Kept(init, f)) + last by {
        assert ab[..|ab| - 1] == a + init;
        assert ab[|ab| - 1] == b[|b| - 1];
        KeptConcat(a, init, f);
      }
      assert Kept(b, f) == Kept(init, f) + last;
      AppendAssociative(Kept(a, f), Kept(init, f), last);
    }
  }

  /** The lines `parseLrc` pushes, in input order. */
  function ParsedLines(lines: seq<string>): (r: seq<LyricLine>)
    ensures |r| <= |lines|
  {
    KeptLength(lines, ParseLrcLine);
    Kept(lines, ParseLrcLine)
  }

  /** Every kept line has non-empty, trimmed text. */
  lemma {:induction false} ParsedLinesHaveText(lines: seq<string>)
    ensures forall k :: 0 <= k < |ParsedLines(lines)| ==>
      ParsedLines(lines)[k].text != "" && IsTrimmed(ParsedLines(lines)[k].text)
  {
    if |lines| > 0 {
      var init := lines[..|lines| - 1];
      ParsedLinesHaveText(init);
      var last := ParseLrcLine(lines[|lines| - 1]);
      assert ParsedLines(lines) == ParsedLines(init) + OptionToSeq(last);
      assert last.Some? ==> last.value.text != "" && IsTrimmed(last.value.text);
    }
  }

  /** Lines are read independently: a file's lyrics are those of its halves, in order. */
  lemma ParsedLinesConcat(a: seq<string>, b: seq<string>)
    ensures ParsedLines(a + b) == ParsedLines(a) + ParsedLines(b)
  {
    KeptConcat(a, b, ParseLrcLine);
  }

  /** One more line read extends the parsed lyrics by what that line gives. */
  lemma ParsedLinesStep(lines: seq<string>, i: nat)
    requires i < |lines|
    ensures ParsedLines(lines[..i + 1]) == ParsedLines(lines[..i]) + OptionToSeq(ParseLrcLine(lines[i]))
  {
    assert lines[..i + 1][..i] == lines[..i];
  }

  /**
   * `parseLrc(lrcText)`: splits on newlines and keeps, in order, the lines
   * that start with a timestamp and have non-empty trimmed text after it.
   */
  method ParseLrc(lrcText: string) returns (parsed: seq<LyricLine>)
    ensures parsed == ParsedLines(Split(lrcText, '\n'))
  {
    var lines := Split(lrcText, '\n');
    parsed := [];
    var i := 0;
    while i < |lines|
      invariant 0 <= i <= |lines|
      invariant parsed == ParsedLines(lines[..i])
    {
      ParsedLinesStep(lines, i);
      parsed := parsed + OptionToSeq(ParseLrcLine(lines[i]));
      i := i + 1;
    }
    assert lines[..i] == lines;
  }

  /** A two-digit string's decimal value, digit by digit. */
  lemma TwoDigits(s: string)
    requires |s| == 2 && AllDigits(s)
    ensures DigitsValue(s) == DigitValue(s[0]) * 10 + DigitValue(s[1])
  {
    var init := s[..1];
    assert s[..|s| - 1] == init;
    assert init[..|init| - 1] == [];
    assert DigitsValue(init) == DigitValue(s[0]);
  }

  /** A three-digit string's decimal value, digit by digit. */
  lemma ThreeDigits(s: string)
    requires |s| == 3 && AllDigits(s)
    ensures DigitsValue(s) == DigitValue(s[0]) * 100 + DigitValue(s[1]) * 10 + DigitValue(s[2])
  {
    TwoDigits(s[..2]);
    assert s[..2][0] == s[0] && s[..2][1] == s[1];
    assert s[..|s| - 1] == s[..2];
  }

  /** The entry a timestamp and its text give: none when the text is empty. */
  function LineOrNothing(ms: nat, text: string): Option<LyricLine> {
    if text == "" then None else Some(LyricLine(ms, text))
  }

  /** A line whose timestamp of length `n` reads as `ms` gives that time and the trimmed text after the stamp. */
  lemma ParseLrcLineAt(line: string, n: nat, ms: nat, rest: string)
    requires TimestampLength(line) == n > 0 && StampDigits(line, n) && StampMs(line, n) == ms && line[n..] == rest
    ensures ParseLrcLine(line) == LineOrNothing(ms, Trim(UpToLineEnd(rest)))
  {
  }

  /** The line `[mm:ss.ff]rest` written from its fields. */
  function Stamped(mm: string, ss: string, ff: string, rest: string): string {
    "[" + mm + ":" + ss + "." + ff + "]" + rest
  }

  /** The time read from a line built from its fields, in terms of the fields' values. */
  lemma StampMsOf(mm: string, ss: string, ff: string, rest: string) returns (ms: nat)
    requires |mm| == 2 && |ss| == 2 && (|ff| == 2 || |ff| == 3)
    requires AllDigits(mm) && AllDigits(ss) && AllDigits(ff)
    ensures ms == DigitsValue(mm) * 60000 + DigitsValue(ss) * 1000 + (if |ff| == 2 then DigitsValue(ff) * 10 else DigitsValue(ff))
    ensures StampDigits(Stamped(mm, ss, ff, rest), 8 + |ff|)
    ensures StampMs(Stamped(mm, ss, ff, rest), 8 + |ff|) == ms
  {
    StampedChars(mm, ss, ff, rest);
    TwoDigits(mm);
    TwoDigits(ss);
    if |ff| == 2 {
      TwoDigits(ff);
    } else {
      ThreeDigits(ff);
    }
    ms := DigitsValue(mm) * 60000 + DigitsValue(ss) * 1000 + (if |ff| == 2 then DigitsValue(ff) * 10 else DigitsValue(ff));
  }

  /** The timestamp of a line built from its fields is recognised and ends where `rest` begins. */
  lemma TimestampOf(mm: string, ss: string, ff: string, rest: string) returns (n: nat)
    requires |mm| == 2 && |ss| == 2 && (|ff| == 2 || |ff| == 3)
    requires AllDigits(mm) && AllDigits(ss) && AllDigits(ff)
    ensures n == 8 + |ff| && TimestampLength(Stamped(mm, ss, ff, rest)) == n && Stamped(mm, ss, ff, rest)[n..] == rest
  {
    StampedChars(mm, ss, ff, rest);
    n := 8 + |ff|;
  }

  /** Where each field's characters sit in a line built from the fields. */
  lemma StampedChars(mm: string, ss: string, ff: string, rest: string)
    requires |mm| == 2 && |ss| == 2 && (|ff| == 2 || |ff| == 3)
    ensures var line := Stamped(mm, ss, ff, rest);
      var n := 8 + |ff|;
      |line| == n + |rest| && line[n..] == rest
      && line[0] == '[' && line[3] == ':' && line[6] == '.' && line[n - 1] == ']'
      && line[1] == mm[0] && line[2] == mm[1] && line[4] == ss[0] && line[5] == ss[1]
      && line[7] == ff[0] && line[8] == ff[1] && (|ff| == 3 ==> line[9] == ff[2])
  {
    var line := Stamped(mm, ss, ff, rest);
    var n := 8 + |ff|;
    assert line == ['['] + mm + [':'] + ss + ['.'] + ff + [']'] + rest;
    assert line[n..] == rest;
  }

  /** A single fraction digit does not match: `[00:15.5]` is dropped. */
  lemma OneDigitFractionDropped(rest: string)
    ensures ParseLrcLine("[00:15.5]" + rest) == None
  {
    var line := "[00:15.5]" + rest;
    assert line[8] == ']';
  }

  /** Nothing but the timestamp (or only spaces after it) is dropped, not kept as an empty row. */
  lemma EmptyTextDropped(mm: string, ss: string, ff: string)
    requires |mm| == 2 && |ss| == 2 && (|ff| == 2 || |ff| == 3)
    requires AllDigits(mm) && AllDigits(ss) && AllDigits(ff)
    ensures ParseLrcLine(Stamped(mm, ss, ff, "  ")) == None
  {
    var n := TimestampOf(mm, ss, ff, "  ");
    assert UpToLineEnd("  ") == "  ";
    assert Trim("  ") == "";
  }

  // ----- highlighting -----

  /** The greatest index whose time is at or before `t`, or -1 when there is none. */
  function LastLineAtOrBefore(lines: seq<LyricLine>, t: int): (r: int)
    ensures -1 <= r < |lines|
    ensures r >= 0 ==> lines[r].timeMs <= t
    ensures forall j :: r < j < |lines| ==> lines[j].timeMs > t
  {
    if |lines| == 0 then -1
    else if lines[|lines| - 1].timeMs <= t then |lines| - 1
    else LastLineAtOrBefore(lines[..|lines| - 1], t)
  }

  /**
   * `getActiveLineIndex`: -1 for unsynced lyrics; otherwise a backward scan
   * that returns the first index from the end whose time has been reached,
   * so the latest of equal timestamps wins.
   */
  method GetActiveLineIndex(lines: seq<LyricLine>, synced: bool, currentTime: int) returns (r: int)
    ensures !synced ==> r == -1
    ensures synced ==> r == LastLineAtOrBefore(lines, currentTime)
    ensures synced && r >= 0 ==> lines[r].timeMs <= currentTime
    ensures synced ==> forall j :: r < j < |lines| ==> lines[j].timeMs > currentTime
  {
    if !synced {
      return -1;
    }
    var i := |lines| - 1;
    while i >= 0
      invariant -1 <= i < |lines|
      invariant forall j :: i < j < |lines| ==> lines[j].timeMs > currentTime
    {
      if currentTime >= lines[i].timeMs {
        return i;
      }
      i := i - 1;
    }
    return -1;
  }

  /** As playback time grows, the highlighted line never moves back. */
  lemma {:induction false} ActiveLineMonotone(lines: seq<LyricLine>, t1: int, t2: int)
    requires t1 <= t2
    ensures LastLineAtOrBefore(lines, t1) <= LastLineAtOrBefore(lines, t2)
  {
    if |lines| > 0 && lines[|lines| - 1].timeMs > t2 {
      ActiveLineMonotone(lines[..|lines| - 1], t1, t2);
    }
  }
}
