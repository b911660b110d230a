/** Formatting helpers of services/utils.ts: the 24-hour clock label, the
    uptime text and the zero case of the byte-size text. */
module Utils {

  import opened Wrappers
  import opened Text

  /** An hour and a minute of the local clock. */
  datatype HourMinute = HourMinute(hour: int, minute: int)

  /** What `Date.getHours()` and `Date.getMinutes()` can return. */
  type LocalTime = t: HourMinute | 0 <= t.hour < 24 && 0 <= t.minute < 60 witness HourMinute(0, 0)

  /** The local time zone: reads a millisecond timestamp as the local hour and minute.
      Time-zone rules (offsets, daylight saving) are whatever this function says. */
  type LocalClock = int -> LocalTime

  /** A minute padded to two digits. */
  function TwoDigitMinute(minute: int): (mm: string)
    requires 0 <= minute < 60
    ensures |mm| == 2 && IsDigits(mm) && ParseDigits(mm) == minute
  {
    ParseNatToString(minute);
    var mm := PadStart(NatToString(minute), 2, '0');
    assert mm[..1] == ['0'] || mm == NatToString(minute);
    mm
  }

  /** "H:MM": hour unpadded, minute padded to two digits. */
  function ClockText(t: LocalTime): (s: string)
    ensures |s| == |NatToString(t.hour)| + 3 && |s| <= 5
    ensures s[..|s| - 3] == NatToString(t.hour)
    ensures s[|s| - 3] == ':'
    ensures IsDigits(s[|s| - 2..]) && ParseDigits(s[|s| - 2..]) == t.minute
  {
    var mm := TwoDigitMinute(t.minute);
    var s := NatToString(t.hour) + ":" + mm;
    assert s[..|s| - 3] == NatToString(t.hour);
    assert s[|s| - 2..] == mm;
    s
  }

  /** Two clock texts are equal only for the same hour and minute. */
  lemma ClockTextInjective(a: LocalTime, b: LocalTime)
    requires ClockText(a) == ClockText(b)
    ensures a == b
  {
    var s := ClockText(a);
    NatToStringInjective(a.hour, b.hour);
  }

  /** get24Clock(date): the local time of `date` rendered as "H:MM". */
  function Get24Clock(date: int, local: LocalClock): (s: string)
    ensures 4 <= |s| <= 5 && s[|s| - 3] == ':'
    ensures s[..|s| - 3] == NatToString(local(date).hour)
    ensures IsDigits(s[|s| - 2..]) && ParseDigits(s[|s| - 2..]) == local(date).minute
  {
    ClockText(local(date))
  }

  /** Two timestamps get the same label exactly when their local hour and minute agree. */
  lemma Get24ClockSameIffSameLocalTime(a: int, b: int, local: LocalClock)
    ensures Get24Clock(a, local) == Get24Clock(b, local) <==> local(a) == local(b)
  {
    if Get24Clock(a, local) == Get24Clock(b, local) {
      ClockTextInjective(local(a), local(b));
    }
  }

  /** JavaScript's `%` on integers: the remainder takes the sign of the dividend. */
  function JsRem(a: int, b: int): (r: int)
    requires b > 0
    ensures a >= 0 ==> r == a % b
  {
    if a >= 0 then a % b else -((-a) % b)
  }

  /** The days, hours and minutes formatUptime computes. */
  datatype Duration = Duration(days: int, hours: int, minutes: int)

  /** `Math.floor(s / 86400)`, `Math.floor((s % 86400) / 3600)`, `Math.floor((s % 3600) / 60)`;
      Dafny's `/` with a positive divisor is the floor of the quotient. */
  function SplitUptime(seconds: int): (d: Duration)
    ensures seconds >= 0 ==> 0 <= d.days && 0 <= d.hours < 24 && 0 <= d.minutes < 60
    ensures seconds >= 0 ==>
      d.days * 86400 + d.hours * 3600 + d.minutes * 60 <= seconds < d.days * 86400 + d.hours * 3600 + d.minutes * 60 + 60
  {
    if seconds >= 0 then DecomposeSeconds(seconds); Duration(seconds / 86400, JsRem(seconds, 86400) / 3600, JsRem(seconds, 3600) / 60)
    else Duration(seconds / 86400, JsRem(seconds, 86400) / 3600, JsRem(seconds, 3600) / 60)
  }

  /** Arithmetic behind SplitUptime's contract: for non-negative seconds the three floors are the
      days, the hours of the last day and the minutes of the last hour. */
  lemma DecomposeSeconds(seconds: int)
    requires seconds >= 0
    ensures var h := (seconds % 86400) / 3600; var m := (seconds % 3600) / 60;
      && 0 <= h < 24 && 0 <= m < 60
      && (seconds / 86400) * 86400 + h * 3600 + m * 60 <= seconds < (seconds / 86400) * 86400 + h * 3600 + m * 60 + 60
  {
    var q := seconds / 86400;
    var r := seconds % 86400;
    assert seconds == q * 86400 + r;
    var h := r / 3600;
    var r2 := r % 3600;
    assert r == h * 3600 + r2;
    assert seconds % 3600 == r2 by {
      assert seconds == (q * 24 + h) * 3600 + r2;
    }
    var m := r2 / 60;
    assert r2 == m * 60 + r2 % 60;
  }

  /** formatUptime(seconds): "{d}d {h}h", "{h}h {m}m" or "{m}m". */
  function FormatUptime(seconds: int): string {
    var d := SplitUptime(seconds);
    if d.days > 0 then IntToString(d.days) + "d " + IntToString(d.hours) + "h"
    else if d.hours > 0 then IntToString(d.hours) + "h " + IntToString(d.minutes) + "m"
    else IntToString(d.minutes) + "m"
  }

  /** Which of the three shapes a non-negative uptime gets: days and hours from one day on,
      hours and minutes from one hour on, minutes alone below an hour. */
  lemma FormatUptimeShapes(seconds: int)
    requires seconds >= 0
    ensures var d := SplitUptime(seconds);
      && (seconds >= 86400 ==> FormatUptime(seconds) == IntToString(d.days) + "d " + IntToString(d.hours) + "h")
      && (3600 <= seconds < 86400 ==> FormatUptime(seconds) == IntToString(d.hours) + "h " + IntToString(d.minutes) + "m")
      && (seconds < 3600 ==> FormatUptime(seconds) == IntToString(d.minutes) + "m")
  {
    var d := SplitUptime(seconds);
    assert d.days > 0 <==> seconds >= 86400;
    assert d.days == 0 ==> (d.hours > 0 <==> seconds >= 3600);
  }

  /** The text names a number of days exactly when at least one whole day has elapsed,
      and names hours exactly when at least one whole hour has. */
  lemma FormatUptimeUnits(seconds: int)
    requires seconds >= 0
    ensures 'd' in FormatUptime(seconds) <==> seconds >= 86400
    ensures 'h' in FormatUptime(seconds) <==> seconds >= 3600
    ensures 'm' in FormatUptime(seconds) <==> seconds < 86400
  {
    var d := SplitUptime(seconds);
    var s := FormatUptime(seconds);
    IntToStringHasNoLetter(d.days, 'h');
    IntToStringHasNoLetter(d.days, 'm');
    IntToStringHasNoLetter(d.hours, 'd');
    IntToStringHasNoLetter(d.hours, 'm');
    IntToStringHasNoLetter(d.minutes, 'd');
    IntToStringHasNoLetter(d.minutes, 'h');
    if d.days > 0 {
      assert s[|IntToString(d.days)|] == 'd';
      assert s[|s| - 1] == 'h';
    } else if d.hours > 0 {
      assert s[|IntToString(d.hours)|] == 'h';
      assert s[|s| - 1] == 'm';
    } else {
      assert s[|s| - 1] == 'm';
    }
  }

  /** Anything under a minute reads "0m". */
  lemma FormatUptimeUnderAMinute(seconds: int)
    requires 0 <= seconds < 60
    ensures FormatUptime(seconds) == "0m"
  {
    assert SplitUptime(seconds) == Duration(0, 0, 0);
  }

  /** formatBytes(bytes): only the exact-zero branch is modelled; `None` stands for the
      logarithm-and-toFixed branch taken by every other input. */
  function FormatBytes(bytes: real): (r: Option<string>)
    ensures r.Some? <==> bytes == 0.0
    ensures r.Some? ==> r.value == "0 Bytes"
  {
    if bytes == 0.0 then Some("0 Bytes") else None
  }
}
