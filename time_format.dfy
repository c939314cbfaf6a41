/**
 * `formatTimeLeft`: the vault's remaining time, a non-negative number of
 * seconds, shown as "<d>d <h>h <m>m <s>s".
 */
module TimeFormat {
  import opened JsNumber

  const SecondsPerDay := 86400
  const SecondsPerHour := 3600
  const SecondsPerMinute := 60

  datatype Duration = Duration(days: nat, hours: nat, minutes: nat, seconds: nat)

  /**
   * The four components, computed as the component does: whole days, then
   * hours of the remaining day, minutes of the remaining hour, and seconds.
   * For non-negative counts JavaScript's Math.floor of a quotient and its %
   * agree with Dafny's / and %.
   */
  function Split(total: nat): (d: Duration)
    ensures d.days * SecondsPerDay + d.hours * SecondsPerHour
            + d.minutes * SecondsPerMinute + d.seconds == total
    ensures d.hours < 24 && d.minutes < 60 && d.seconds < 60
  {
    var r := total % SecondsPerDay;
    assert total % SecondsPerHour == r % SecondsPerHour;
    assert total % SecondsPerMinute == r % SecondsPerHour % SecondsPerMinute;
    Duration(total / SecondsPerDay, r / SecondsPerHour,
             (total % SecondsPerHour) / SecondsPerMinute, total % SecondsPerMinute)
  }

  /** One component of the display: its decimal numeral, its unit letter, then the rest. */
  function Component(n: nat, unit: char, rest: string): string {
    ToDecimalString(n) + [unit] + rest
  }

  /** The template literal `${d}d ${h}h ${m}m ${s}s`, built one component at a time. */
  function Render(d: Duration): (r: string)
    ensures r == ToDecimalString(d.days) + "d " + ToDecimalString(d.hours) + "h "
                 + ToDecimalString(d.minutes) + "m " + ToDecimalString(d.seconds) + "s"
  {
    Component(d.days, 'd', " " + Component(d.hours, 'h', " " +
      Component(d.minutes, 'm', " " + Component(d.seconds, 's', ""))))
  }

  /**
   * `formatTimeLeft`: the template over the code's own four divisions, each
   * count printed by Number#toString.
   */
  function FormatTimeLeft(total: nat): (r: string)
    ensures r == ToDecimalString(total / SecondsPerDay) + "d "
                 + ToDecimalString((total % SecondsPerDay) / SecondsPerHour) + "h "
                 + ToDecimalString((total % SecondsPerHour) / SecondsPerMinute) + "m "
                 + ToDecimalString(total % SecondsPerMinute) + "s"
  {
    Render(Split(total))
  }

  /** 90061 seconds: one day, one hour, one minute and one second. */
  lemma FormatTimeLeftExample()
    ensures Split(90061) == Duration(1, 1, 1, 1)
    ensures FormatTimeLeft(90061) == "1d 1h 1m 1s"
  {
    assert Split(90061) == Duration(1, 1, 1, 1);
    assert ToDecimalString(1) == "1";
  }

  /** Split is the only way to write a count with hours below 24 and minutes and seconds below 60. */
  lemma SplitUnique(total: nat, d: Duration)
    requires d.days * SecondsPerDay + d.hours * SecondsPerHour
             + d.minutes * SecondsPerMinute + d.seconds == total
    requires d.hours < 24 && d.minutes < 60 && d.seconds < 60
    ensures Split(total) == d
  {
    var below := d.hours * SecondsPerHour + d.minutes * SecondsPerMinute + d.seconds;
    assert total / SecondsPerDay == d.days && total % SecondsPerDay == below;
    assert below / SecondsPerHour == d.hours;
    assert total % SecondsPerHour == d.minutes * SecondsPerMinute + d.seconds;
    assert (total % SecondsPerHour) / SecondsPerMinute == d.minutes;
  }

  /** Equal displays of one component have equal counts and equal remainders. */
  lemma ComponentInjective(a: nat, b: nat, unit: char, x: string, y: string)
    requires !IsDecimalDigit(unit)
    requires Component(a, unit, x) == Component(b, unit, y)
    ensures a == b && x == y
  {
    var (p, q) := (ToDecimalString(a), ToDecimalString(b));
    var u := p + [unit] + x;
    assert u == q + [unit] + y;
    assert forall i :: 0 <= i < |p| ==> IsDecimalDigit(u[i]);
    assert forall i :: 0 <= i < |q| ==> IsDecimalDigit(u[i]);
    assert !IsDecimalDigit(u[|p|]) && !IsDecimalDigit(u[|q|]);
    assert p == u[..|p|] == q;
    assert x == u[|p| + 1..] == y;
    ToDecimalStringInjective(a, b);
  }

  /** Different durations are displayed differently. */
  lemma RenderInjective(d: Duration, e: Duration)
    requires Render(d) == Render(e)
    ensures d == e
  {
    var sd := Component(d.seconds, 's', "");
    var se := Component(e.seconds, 's', "");
    var md := Component(d.minutes, 'm', " " + sd);
    var me := Component(e.minutes, 'm', " " + se);
    var hd := Component(d.hours, 'h', " " + md);
    var he := Component(e.hours, 'h', " " + me);
    ComponentInjective(d.days, e.days, 'd', " " + hd, " " + he);
    assert hd == (" " + hd)[1..] == (" " + he)[1..] == he;
    ComponentInjective(d.hours, e.hours, 'h', " " + md, " " + me);
    assert md == (" " + md)[1..] == (" " + me)[1..] == me;
    ComponentInjective(d.minutes, e.minutes, 'm', " " + sd, " " + se);
    assert sd == (" " + sd)[1..] == (" " + se)[1..] == se;
    ComponentInjective(d.seconds, e.seconds, 's', "", "");
  }

  /** Distinct remaining times never show the same text. */
  lemma FormatTimeLeftInjective(a: nat, b: nat)
    requires FormatTimeLeft(a) == FormatTimeLeft(b)
    ensures a == b
  {
    RenderInjective(Split(a), Split(b));
  }
}
