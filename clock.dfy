/**
 * `formatTime` (MusicPlayer.jsx): whole seconds as `m:ss`, or `h:mm:ss`
 * from one hour on, and `0:00` for NaN. A reader for that format is given
 * beside it so that the rendering can be shown to lose nothing.
 */
module Clock {
  import opened Wrappers
  import opened Text

  /** Hours, minutes under the hour, seconds under the minute. */
  lemma ClockArithmetic(t: nat)
    ensures (t % 3600) / 60 < 60 && t % 60 < 60
    ensures (t / 3600) * 3600 + ((t % 3600) / 60) * 60 + t % 60 == t
  {
    var h, rest := t / 3600, t % 3600;
    var m, s := rest / 60, rest % 60;
    assert t == h * 3600 + rest;
    assert rest == m * 60 + s;
    assert t == (h * 60 + m) * 60 + s;
    assert t % 60 == s;
  }

  /** `formatTime(time)` for a time of whole seconds; `None` stands for NaN. */
  function FormatTime(time: Option<nat>): (r: string)
    ensures time.None? ==> r == "0:00"
  {
    match time
    case None => "0:00"
    case Some(t) =>
      ClockArithmetic(t);
      var hrs, min, sec := t / 3600, (t % 3600) / 60, t % 60;
      if hrs > 0 then Decimal(hrs) + ":" + Pad2(min) + ":" + Pad2(sec)
      else Decimal(min) + ":" + Pad2(sec)
  }

  /** A field of two digits worth less than 60. */
  predicate IsSexagesimal(field: string) {
    |field| == 2 && AllDigits(field) && DigitsValue(field) < 60
  }

  /** Reads `m:ss` or `h:mm:ss` back into seconds. */
  function ParseClock(s: string): Option<nat> {
    ClockFields(Split(s, ':'))
  }

  /** The seconds the colon-separated fields of a clock text stand for. */
  function ClockFields(parts: seq<string>): Option<nat> {
    if |parts| == 2 && |parts[0]| > 0 && AllDigits(parts[0]) && IsSexagesimal(parts[1]) then
      Some(DigitsValue(parts[0]) * 60 + DigitsValue(parts[1]))
    else if |parts| == 3 && |parts[0]| > 0 && AllDigits(parts[0]) && IsSexagesimal(parts[1]) && IsSexagesimal(parts[2]) then
      Some(DigitsValue(parts[0]) * 3600 + DigitsValue(parts[1]) * 60 + DigitsValue(parts[2]))
    else None
  }

  lemma DigitsHaveNoColon(s: string)
    requires AllDigits(s)
    ensures ':' !in s
  {
  }

  lemma ClockFieldsShort(m: string, sec: string)
    requires |m| > 0 && AllDigits(m) && IsSexagesimal(sec)
    ensures ClockFields([m, sec]) == Some(DigitsValue(m) * 60 + DigitsValue(sec))
  {
  }

  lemma ClockFieldsLong(h: string, m: string, sec: string)
    requires |h| > 0 && AllDigits(h) && IsSexagesimal(m) && IsSexagesimal(sec)
    ensures ClockFields([h, m, sec]) == Some(DigitsValue(h) * 3600 + DigitsValue(m) * 60 + DigitsValue(sec))
  {
  }

  lemma JoinThree(a: string, b: string, c: string, sep: char)
    ensures Join([a, b, c], sep) == a + [sep] + b + [sep] + c
  {
    assert [a, b, c][1..] == [b, c];
    assert Join([b, c], sep) == b + [sep] + c;
  }

  /** `h:mm:ss` splits into its three fields and reads back as those hours, minutes and seconds. */
  lemma LongClockText(h: nat, m: nat, sec: nat)
    requires h > 0 && m < 60 && sec < 60
    ensures Split(Decimal(h) + ":" + Pad2(m) + ":" + Pad2(sec), ':') == [Decimal(h), Pad2(m), Pad2(sec)]
    ensures ParseClock(Decimal(h) + ":" + Pad2(m) + ":" + Pad2(sec)) == Some(h * 3600 + m * 60 + sec)
  {
    var parts := [Decimal(h), Pad2(m), Pad2(sec)];
    DigitsHaveNoColon(Decimal(h));
    DigitsHaveNoColon(Pad2(m));
    DigitsHaveNoColon(Pad2(sec));
    JoinThree(Decimal(h), Pad2(m), Pad2(sec), ':');
    SplitJoin(parts, ':');
    ClockFieldsLong(Decimal(h), Pad2(m), Pad2(sec));
  }

  /** `m:ss` splits into its two fields and reads back as those minutes and seconds. */
  lemma ShortClockText(m: nat, sec: nat)
    requires sec < 60
    ensures Split(Decimal(m) + ":" + Pad2(sec), ':') == [Decimal(m), Pad2(sec)]
    ensures ParseClock(Decimal(m) + ":" + Pad2(sec)) == Some(m * 60 + sec)
  {
    var parts := [Decimal(m), Pad2(sec)];
    DigitsHaveNoColon(Decimal(m));
    DigitsHaveNoColon(Pad2(sec));
    assert Join(parts, ':') == Decimal(m) + [':'] + Pad2(sec);
    SplitJoin(parts, ':');
    ClockFieldsShort(Decimal(m), Pad2(sec));
  }

  /** From one hour on the text splits into hours, minutes and seconds, and reads back. */
  lemma LongClockRoundTrip(t: nat)
    requires t >= 3600
    ensures Split(FormatTime(Some(t)), ':') == [Decimal(t / 3600), Pad2((t % 3600) / 60), Pad2(t % 60)]
    ensures ParseClock(FormatTime(Some(t))) == Some(t)
  {
    var hrs, min, sec := t / 3600, (t % 3600) / 60, t % 60;
    assert hrs * 3600 + min * 60 + sec == t && hrs > 0 && min < 60 by {
      ClockArithmetic(t);
    }
    assert FormatTime(Some(t)) == Decimal(hrs) + ":" + Pad2(min) + ":" + Pad2(sec);
    LongClockText(hrs, min, sec);
  }

  /** Below one hour the text splits into minutes and seconds, and reads back. */
  lemma ShortClockRoundTrip(t: nat)
    requires t < 3600
    ensures Split(FormatTime(Some(t)), ':') == [Decimal((t % 3600) / 60), Pad2(t % 60)]
    ensures ParseClock(FormatTime(Some(t))) == Some(t)
  {
    assert t % 3600 == t;
    var min, sec := (t % 3600) / 60, t % 60;
    assert FormatTime(Some(t)) == Decimal(min) + ":" + Pad2(sec);
    ShortClockText(min, sec);
  }

  /**
   * The rendering loses nothing: `h:mm:ss` from one hour on and `m:ss`
   * below, each later field two digits under 60, and reading the text back
   * gives the time.
   */
  lemma FormatTimeRoundTrip(t: nat)
    ensures var parts := Split(FormatTime(Some(t)), ':');
      (|parts| == 3 <==> t >= 3600) && (|parts| == 2 <==> t < 3600)
      && IsSexagesimal(parts[|parts| - 1])
    ensures ParseClock(FormatTime(Some(t))) == Some(t)
  {
    if t >= 3600 {
      LongClockRoundTrip(t);
    } else {
      ShortClockRoundTrip(t);
    }
  }

  /** Different times never show the same text. */
  lemma FormatTimeInjective(a: nat, b: nat)
    requires FormatTime(Some(a)) == FormatTime(Some(b))
    ensures a == b
  {
    FormatTimeRoundTrip(a);
    FormatTimeRoundTrip(b);
  }
}
