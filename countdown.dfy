/**
 * The launch countdown of the home page (`calculateTimeLeft` in
 * src/app/page.js) and the tiles it renders. The difference between the
 * launch date and now is an input, in whole milliseconds; the divisions
 * and remainders are JavaScript number operations, modelled on exact reals.
 */
module Countdown {
  import opened JsText

  /** `{}` when the launch has passed, otherwise the four units. */
  datatype TimeLeft = Launched | Remaining(days: int, hours: int, minutes: int, seconds: int)

  const MsPerSecond := 1000
  const MsPerMinute := 1000 * 60
  const MsPerHour := 1000 * 60 * 60
  const MsPerDay := 1000 * 60 * 60 * 24

  /** `calculateTimeLeft()` for a difference of `difference` milliseconds. */
  function CalculateTimeLeft(difference: int): TimeLeft {
    if difference > 0 then
      var d := difference as real;
      Remaining((d / (MsPerDay as real)).Floor,
                Rem24(d / (MsPerHour as real)).Floor,
                Rem60(d / 1000.0 / 60.0).Floor,
                Rem60(d / 1000.0).Floor)
    else Launched
  }

  /** The floor of an exact quotient by each unit is the integer quotient. */
  lemma FloorQuotients(n: int)
    ensures (n as real / 1000.0).Floor == n / 1000
    ensures (n as real / 60000.0).Floor == n / 60000
    ensures (n as real / 3600000.0).Floor == n / 3600000
    ensures (n as real / 86400000.0).Floor == n / 86400000
  {
    FloorShift((n % 1000) as real / 1000.0, n / 1000);
    FloorShift((n % 60000) as real / 60000.0, n / 60000);
    FloorShift((n % 3600000) as real / 3600000.0, n / 3600000);
    FloorShift((n % 86400000) as real / 86400000.0, n / 86400000);
  }

  /** Each unit's quotient is the next smaller unit's quotient divided by
      the number of those in it. */
  lemma NestedQuotients(n: int)
    requires n >= 0
    ensures n / 60000 == n / 1000 / 60
    ensures n / 3600000 == n / 60000 / 60
    ensures n / 86400000 == n / 3600000 / 24
  {
  }

  /** `Math.floor((difference / 1000) % 60)`: whole seconds less whole minutes. */
  lemma SecondsUnit(n: int)
    requires n >= 0
    ensures Rem60(n as real / 1000.0).Floor == n / 1000 - 60 * (n / 60000)
  {
    FloorQuotients(n);
    var x := n as real / 1000.0;
    assert x / 60.0 == n as real / 60000.0;
    assert Trunc(x / 60.0) == n / 60000;
    assert Rem60(x) == x + (-60 * (n / 60000)) as real;
    FloorShift(x, -60 * (n / 60000));
  }

  /** `Math.floor((difference / 1000 / 60) % 60)`: whole minutes less whole hours. */
  lemma MinutesUnit(n: int)
    requires n >= 0
    ensures Rem60(n as real / 1000.0 / 60.0).Floor == n / 60000 - 60 * (n / 3600000)
  {
    FloorQuotients(n);
    var x := n as real / 1000.0 / 60.0;
    assert x == n as real / 60000.0;
    assert x / 60.0 == n as real / 3600000.0;
    assert Trunc(x / 60.0) == n / 3600000;
    assert Rem60(x) == x + (-60 * (n / 3600000)) as real;
    FloorShift(x, -60 * (n / 3600000));
  }

  /** `Math.floor((difference / 3600000) % 24)`: whole hours less whole days. */
  lemma HoursUnit(n: int)
    requires n >= 0
    ensures Rem24(n as real / 3600000.0).Floor == n / 3600000 - 24 * (n / 86400000)
  {
    FloorQuotients(n);
    var x := n as real / 3600000.0;
    assert x / 24.0 == n as real / 86400000.0;
    assert Trunc(x / 24.0) == n / 86400000;
    assert Rem24(x) == x + (-24 * (n / 86400000)) as real;
    FloorShift(x, -24 * (n / 86400000));
  }

  /** A launch that has passed shows no units. */
  lemma PastLaunchIsEmpty(difference: int)
    requires difference <= 0
    ensures CalculateTimeLeft(difference) == Launched
  {
  }

  /** Before the launch, hours, minutes and seconds are in range and the four
      units add up to the whole seconds left. */
  lemma {:induction false} UnitsAddUp(difference: int)
    requires difference > 0
    ensures var t := CalculateTimeLeft(difference);
      && t.Remaining?
      && 0 <= t.days && 0 <= t.hours < 24 && 0 <= t.minutes < 60 && 0 <= t.seconds < 60
      && t.days * 86400 + t.hours * 3600 + t.minutes * 60 + t.seconds == difference / 1000
  {
    FloorQuotients(difference);
    NestedQuotients(difference);
    HoursUnit(difference);
    MinutesUnit(difference);
    SecondsUnit(difference);
    var days, hours, minutes, seconds := difference / 86400000, difference / 3600000, difference / 60000, difference / 1000;
    assert CalculateTimeLeft(difference) == Remaining(days, hours - 24 * days, minutes - 60 * hours, seconds - 60 * minutes);
  }

  /** `Object.entries(timeLeft)`, each value shown as `value || 0`. */
  function Tiles(t: TimeLeft): (tiles: seq<(string, int)>)
    ensures t.Launched? <==> tiles == []
    ensures t.Remaining? ==> |tiles| == 4
  {
    match t
    case Launched => []
    case Remaining(d, h, m, s) =>
      [("days", OrZero(d)), ("hours", OrZero(h)), ("minutes", OrZero(m)), ("seconds", OrZero(s))]
  }

  /** `value || 0`. The units reach it as integers, never NaN or undefined,
      so the default never acts: on 0 it gives 0 again, and the function is
      the identity. It is kept to mark where the source applies the default. */
  function OrZero(v: int): (r: int)
    ensures r == v
  {
    if v != 0 then v else 0
  }

  /** The tiles show the units in key order with their values. */
  lemma TilesInKeyOrder(difference: int)
    requires difference > 0
    ensures var t := CalculateTimeLeft(difference);
      Tiles(t) == [("days", t.days), ("hours", t.hours), ("minutes", t.minutes), ("seconds", t.seconds)]
  {
  }
}
