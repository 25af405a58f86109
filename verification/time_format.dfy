/** `formatTime`: the player's `m:ss` rendering of a position or a duration given
    in seconds. Only non-negative times are modelled; the element never reports
    a negative position or duration. */
module TimeFormat {
  import opened Types
  import opened Text

  /** JavaScript's `Math.trunc`: rounds toward zero. */
  function Trunc(x: real): int {
    if x >= 0.0 then x.Floor else -((-x).Floor)
  }

  /** JavaScript's `%` on numbers: the remainder takes the sign of the dividend,
      unlike Euclidean or floored remainders. */
  function JsRemainder(x: real, y: real): real
    requires y != 0.0
  {
    x - y * Trunc(x / y) as real
  }

  /** `Math.floor(t / 60)`: the whole minutes of `t`. */
  function Minutes(t: real): (r: int)
    ensures t >= 0.0 ==> r >= 0 && 60.0 * r as real <= t < 60.0 * r as real + 60.0
  {
    (t / 60.0).Floor
  }

  /** `Math.floor(t % 60)`: for `t >= 0` the seconds past the whole minutes,
      in [0, 59], so minutes and seconds together split the whole seconds of `t`. */
  function Seconds(t: real): (r: int)
    ensures t >= 0.0 ==> 0 <= r <= 59 && Minutes(t) * 60 + r == t.Floor
  {
    var rem := JsRemainder(t, 60.0);
    if t >= 0.0 then
      var m := Minutes(t);
      assert Trunc(t / 60.0) == m;
      assert rem == t - 60.0 * m as real;
      FloorShift(t, -60 * m);
      rem.Floor
    else rem.Floor
  }

  /** The seconds field: a `'0'` in front of a single digit. */
  function SecondsField(s: nat): string {
    (if s < 10 then "0" else "") + NatToString(s)
  }

  /** `formatTime(t)`: the minutes, a colon and the seconds field; the result
      has the shape `m:ss` (one or more digits, a colon, exactly two digits). */
  function FormatTime(t: real): (r: string)
    requires t >= 0.0
    ensures |r| >= 4 && r[|r| - 3] == ':' && AllDigits(r[..|r| - 3]) && AllDigits(r[|r| - 2..])
    ensures DigitsValue(r[..|r| - 3]) == Minutes(t) && DigitsValue(r[|r| - 2..]) == Seconds(t)
    ensures |r| > 4 ==> r[0] != '0'
    ensures r[|r| - 2] == '0' <==> Seconds(t) < 10
  {
    var ms, f := NatToString(Minutes(t) as nat), SecondsField(Seconds(t) as nat);
    SecondsFieldTwoDigits(Seconds(t) as nat);
    var r := ms + ":" + f;
    assert r[..|r| - 3] == ms && r[|r| - 2..] == f;
    r
  }

  lemma FloorShift(x: real, n: int)
    ensures (x + n as real).Floor == x.Floor + n
  {
  }

  /** The seconds field is always two digits, it starts with `'0'` exactly when
      the seconds are below ten, and it reads back as the seconds. */
  lemma SecondsFieldTwoDigits(s: nat)
    requires s < 60
    ensures var f := SecondsField(s);
      |f| == 2 && AllDigits(f) && DigitsValue(f) == s && (f[0] == '0' <==> s < 10)
  {
    var f := SecondsField(s);
    if s < 10 {
      assert f == ['0', NatToString(s)[0]];
      assert f[..1] == "0";
    } else {
      var d := NatToString(s);
      assert NatToString(s / 10) == [DigitChar(s / 10)];
      assert d == [DigitChar(s / 10), DigitChar(s % 10)];
      assert f == d;
    }
  }

  /** Reads an `m:ss` string back as a number of seconds. Only the canonical
      form is accepted: at least one digit of minutes with no leading zero
      unless it is the only digit, a colon, and exactly two digits of seconds
      below 60. */
  function ParseClock(str: string): Option<nat> {
    if |str| >= 4 && str[|str| - 3] == ':'
       && AllDigits(str[..|str| - 3]) && AllDigits(str[|str| - 2..])
       && (|str| > 4 ==> str[0] != '0')
       && DigitsValue(str[|str| - 2..]) < 60
    then Some(DigitsValue(str[..|str| - 3]) * 60 + DigitsValue(str[|str| - 2..]))
    else None
  }

  /** The displayed string denotes exactly the whole seconds of `t`. */
  lemma FormatTimeRoundTrip(t: real)
    requires t >= 0.0
    ensures ParseClock(FormatTime(t)) == Some(t.Floor)
  {
    var m, s := Minutes(t) as nat, Seconds(t) as nat;
    var ms, f := NatToString(m), SecondsField(s);
    SecondsFieldTwoDigits(s);
    var str := FormatTime(t);
    assert str == ms + ":" + f;
    assert str[..|str| - 3] == ms;
    assert str[|str| - 2..] == f;
  }
}
