/** The `mm:ss` clock of the voice recorder: two-digit zero padding and
    the facts that let a clock be read back as the seconds it shows. */
module Clock {
  import opened Options
  import opened JsString

  /** `n` as at least two digits, zero-padded: `n.toString().padStart(2, '0')`. */
  function Pad2(n: nat): string {
    PadStart(NatToString(n), 2, '0')
  }

  /** A padded number is a digit string denoting that number, two
      characters long below 100 and unpadded from 100 on, where it starts
      with a non-zero digit. */
  lemma Pad2Digits(n: nat)
    ensures IsDigits(Pad2(n)) && DigitsValue(Pad2(n)) == n
    ensures |Pad2(n)| >= 2
    ensures |Pad2(n)| == 2 <==> n < 100
    ensures |Pad2(n)| > 2 ==> Pad2(n)[0] != '0'
  {
    NatToStringDigits(n);
    PadStartShape(NatToString(n), 2, '0');
    PaddedValue(NatToString(n), 2);
  }

  /** Padding with zeros keeps a digit string's value. */
  lemma PaddedValue(s: string, n: nat)
    requires IsDigits(s)
    ensures IsDigits(PadStart(s, n, '0'))
    ensures DigitsValue(PadStart(s, n, '0')) == DigitsValue(s)
  {
    var r := PadStart(s, n, '0');
    PadStartShape(s, n, '0');
    if |s| < n {
      LeadingZeros(r[..|r| - |s|], s);
      assert r == r[..|r| - |s|] + s;
    }
  }

  /** Reading a clock back: the digits before the colon are minutes and the
      two after it seconds. */
  function ParseClock(t: string): Option<nat> {
    if |t| >= 4 && t[|t| - 3] == ':' && IsDigits(t[..|t| - 3]) && IsDigits(t[|t| - 2..]) then
      Some(DigitsValue(t[..|t| - 3]) * 60 + DigitsValue(t[|t| - 2..]))
    else None
  }

  /** A clock joined from a minute part `m` and a two-digit second part `s`:
      its layout, and that it reads back as the seconds they denote. */
  lemma ClockOf(m: string, s: string, mins: nat, secs: nat)
    requires IsDigits(m) && |m| >= 2 && DigitsValue(m) == mins
    requires IsDigits(s) && |s| == 2 && DigitsValue(s) == secs
    ensures var r := m + ":" + s;
      |r| == |m| + 3 && r[|r| - 3] == ':' && r[0] == m[0] &&
      IsDigits(r[..|r| - 3]) && IsDigits(r[|r| - 2..]) && DigitsValue(r[|r| - 2..]) == secs &&
      ParseClock(r) == Some(mins * 60 + secs)
  {
    var r := m + ":" + s;
    assert r[..|r| - 3] == m;
    assert r[|r| - 2..] == s;
  }

  /** The clock for a minute and a second count, each zero-padded to two
      digits and joined by a colon, reads back as their total in seconds;
      it is five characters long exactly when the minutes are below 100. */
  lemma ClockFace(mins: nat, secs: nat)
    requires secs < 60
    ensures var r := Pad2(mins) + ":" + Pad2(secs);
      |r| >= 5 && r[|r| - 3] == ':' &&
      IsDigits(r[..|r| - 3]) && IsDigits(r[|r| - 2..]) && DigitsValue(r[|r| - 2..]) < 60 &&
      ParseClock(r) == Some(mins * 60 + secs) &&
      (|r| == 5 <==> mins < 100) && (|r| > 5 ==> r[0] != '0')
  {
    Pad2Digits(mins);
    Pad2Digits(secs);
    ClockOf(Pad2(mins), Pad2(secs), mins, secs);
  }

  /** The recording clock: whole minutes, a colon and the remaining seconds,
      each zero-padded to two digits. It has at least five characters with
      the colon third from the end and seconds below 60 after it, exactly
      five below 100 minutes and otherwise with no leading zero, and it
      reads back as the seconds it was made from. */
  function FormatTime(seconds: nat): (r: string)
    ensures |r| >= 5 && r[|r| - 3] == ':'
    ensures IsDigits(r[..|r| - 3]) && IsDigits(r[|r| - 2..]) && DigitsValue(r[|r| - 2..]) < 60
    ensures ParseClock(r) == Some(seconds)
    ensures seconds < 6000 <==> |r| == 5
    ensures |r| > 5 ==> r[0] != '0'
  {
    assert seconds / 60 * 60 + seconds % 60 == seconds && seconds % 60 < 60;
    assert seconds / 60 < 100 <==> seconds < 6000;
    ClockFace(seconds / 60, seconds % 60);
    Pad2(seconds / 60) + ":" + Pad2(seconds % 60)
  }
}
