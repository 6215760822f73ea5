/**
 * `formatElapsed`: the "Elapsed" readout of the playground, and a reader for
 * the text it produces.
 */
module Elapsed {
  import opened Wrappers
  import opened JsText

  /**
   * Whole seconds as "{s}s" below a minute and "{m}m {s}s" from a minute on.
   * An absent or zero count is falsy in the source and reads "0s".
   */
  function FormatElapsed(seconds: Option<nat>): (r: string)
    ensures |r| >= 2 && r[|r| - 1] == 's'
    ensures seconds.None? || seconds.value == 0 ==> r == "0s"
  {
    if seconds.None? || seconds.value == 0 then "0s"
    else
      var n := seconds.value;
      var mins := n / 60;
      var secs := n % 60;
      if mins > 0 then Decimal(mins) + "m " + Decimal(secs) + "s" else Decimal(secs) + "s"
  }

  /** The pieces of an elapsed-time text: minutes when shown, and seconds. */
  datatype Reading = Reading(minutes: Option<nat>, seconds: nat) {
    function Total(): nat {
      minutes.GetOr(0) * 60 + seconds
    }

    /** The text showing this reading, with both numbers in decimal. */
    function Text(): string {
      if minutes.Some? then Decimal(minutes.value) + "m " + Decimal(seconds) + "s" else Decimal(seconds) + "s"
    }
  }

  /** Index of the first `c` in `s`, if any. */
  function IndexOf(s: string, c: char): (r: Option<nat>)
    ensures r.None? <==> c !in s
    ensures r.Some? ==> r.value < |s| && s[r.value] == c && c !in s[..r.value]
  {
    if |s| == 0 then None
    else if s[0] == c then Some(0)
    else
      match IndexOf(s[1..], c)
      case None => None
      case Some(i) => assert s[..i + 1] == [s[0]] + s[1..][..i]; Some(i + 1)
  }

  /**
   * Reads "{m}m {s}s" or "{s}s" back into its numbers, each written without
   * leading zeros; `None` for any other text.
   */
  function ParseElapsed(t: string): (r: Option<Reading>)
    ensures r.Some? ==> |t| >= 2 && t[|t| - 1] == 's'
  {
    if |t| < 2 || t[|t| - 1] != 's' then None
    else
      var body := t[..|t| - 1];
      match IndexOf(body, 'm')
      case None =>
        if IsCanonical(body) then Some(Reading(None, NumeralValue(body))) else None
      case Some(i) =>
        var mins := body[..i];
        if i + 1 < |body| && body[i + 1] == ' ' && IsCanonical(mins) && IsCanonical(body[i + 2..])
        then Some(Reading(Some(NumeralValue(mins)), NumeralValue(body[i + 2..])))
        else None
  }

  /** A numeral holds no letter `m`. */
  lemma NumeralHasNoM(s: string)
    requires IsNumeral(s)
    ensures 'm' !in s
  {
  }

  /** A seconds-only text reads back as its number. */
  lemma ParseSecondsText(secs: nat)
    ensures ParseElapsed(Reading(None, secs).Text()) == Some(Reading(None, secs))
  {
    var d := Decimal(secs);
    var t := d + "s";
    assert t[..|t| - 1] == d;
    NumeralHasNoM(d);
    DecimalRoundTrip(secs);
  }

  /** A minutes-and-seconds text reads back as its two numbers. */
  lemma ParseMinutesText(mins: nat, secs: nat)
    ensures ParseElapsed(Reading(Some(mins), secs).Text()) == Some(Reading(Some(mins), secs))
  {
    var dm := Decimal(mins);
    var ds := Decimal(secs);
    var body := dm + "m " + ds;
    var t := body + "s";
    assert t[..|t| - 1] == body;
    NumeralHasNoM(dm);
    var i := |dm|;
    assert body[i] == 'm' && body[i + 1] == ' ';
    assert body[..i] == dm;
    assert IndexOf(body, 'm') == Some(i);
    assert body[i + 2..] == ds;
    DecimalRoundTrip(mins);
    DecimalRoundTrip(secs);
  }

  /** Every reading's text reads back as that reading. */
  lemma ParseText(rd: Reading)
    ensures ParseElapsed(rd.Text()) == Some(rd)
  {
    match rd.minutes
    case None => ParseSecondsText(rd.seconds);
    case Some(m) => ParseMinutesText(m, rd.seconds);
  }

  /**
   * The readout can be read back: it shows the minutes exactly when there is at
   * least one whole minute, the seconds part is always below 60, and the two
   * parts give back the count.
   */
  lemma FormatElapsedReadsBack(n: nat)
    ensures ParseElapsed(FormatElapsed(Some(n))) ==
      Some(if n >= 60 then Reading(Some(n / 60), n % 60) else Reading(None, n))
    ensures ParseElapsed(FormatElapsed(Some(n))).value.seconds < 60
    ensures ParseElapsed(FormatElapsed(Some(n))).value.Total() == n
  {
    var rd := if n >= 60 then Reading(Some(n / 60), n % 60) else Reading(None, n);
    assert FormatElapsed(Some(n)) == rd.Text();
    ParseText(rd);
  }

  /** A seconds-only reading of a canonical numeral shows that numeral. */
  lemma SecondsText(secs: string)
    requires IsCanonical(secs)
    ensures Reading(None, NumeralValue(secs)).Text() == secs + "s"
  {
    CanonicalRoundTrip(secs);
    assert Decimal(NumeralValue(secs)) == secs;
  }

  /** A minutes-and-seconds reading of two canonical numerals shows those numerals. */
  lemma MinutesText(mins: string, secs: string)
    requires IsCanonical(mins) && IsCanonical(secs)
    ensures Reading(Some(NumeralValue(mins)), NumeralValue(secs)).Text() == mins + "m " + secs + "s"
  {
    CanonicalRoundTrip(mins);
    CanonicalRoundTrip(secs);
  }

  /** The reader accepts only the text of the reading it returns. */
  lemma {:induction false} ParseElapsedExact(t: string)
    requires ParseElapsed(t).Some?
    ensures t == ParseElapsed(t).value.Text()
  {
    var body := t[..|t| - 1];
    assert t == body + "s";
    match IndexOf(body, 'm')
    case None =>
      SecondsText(body);
    case Some(i) =>
      var mins := body[..i];
      var secs := body[i + 2..];
      MinutesText(mins, secs);
      assert body == mins + "m " + secs;
  }

  /** No other text reads the same as the readout of a count: the readout is fixed digit for digit. */
  lemma FormatElapsedUnique(n: nat, t: string)
    requires ParseElapsed(t) == ParseElapsed(FormatElapsed(Some(n)))
    ensures t == FormatElapsed(Some(n))
  {
    FormatElapsedReadsBack(n);
    ParseElapsedExact(t);
    ParseElapsedExact(FormatElapsed(Some(n)));
  }
}
