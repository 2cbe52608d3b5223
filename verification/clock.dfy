/**
 * The `formatTime` helper shared by the three Pomodoro timers (the shared
 * component, the web page and the mobile screen): minutes and seconds,
 * each rendered with `toString()` and padded to two digits with '0'.
 */
module Clock {
  import opened JsText

  /** JavaScript's `%` on integers: truncating, so the remainder takes the dividend's sign. */
  function JsRem(a: int, b: int): (r: int)
    requires b > 0
    ensures -b < r < b
    ensures a >= 0 ==> 0 <= r && r == a % b
    ensures a < 0 ==> r <= 0
  {
    if a >= 0 then a % b else -((-a) % b)
  }

  /** `Math.floor(seconds / 60)` and `seconds % 60`, each padded to two digits, joined by ':'. */
  function FormatTime(seconds: int): (r: string)
    ensures seconds >= 0 ==> |r| >= 5 && r[|r| - 3] == ':'
  {
    Show(seconds / 60, JsRem(seconds, 60))
  }

  /** The padded minutes, a colon and the padded seconds. */
  function Show(mins: int, secs: int): string {
    PadStart2(IntToString(mins)) + ":" + PadStart2(IntToString(secs))
  }

  /** A padded decimal rendering reads back as the number it renders. */
  lemma PaddedParse(n: nat)
    ensures var p := PadStart2(NatToString(n)); ParseDigits(p) == n && (n < 100 ==> |p| == 2)
  {
    ParseNatToString(n);
    PaddedDigits(NatToString(n));
  }

  /** Padding with zeros keeps the value of a digit string. */
  lemma PaddedDigits(m: string)
    ensures ParseDigits(PadStart2(m)) == ParseDigits(m)
  {
    var p := PadStart2(m);
    var z := p[..|p| - |m|];
    assert p == z + m;
    ParseLeadingZeros(z, m);
  }

  /** Reading the minutes and the seconds back from the display gives the original count. */
  lemma FormatTimeRoundTrip(seconds: nat)
    ensures var r := FormatTime(seconds);
      |r| >= 5 && r[|r| - 3] == ':'
      && ParseDigits(r[..|r| - 3]) == seconds / 60
      && ParseDigits(r[|r| - 2..]) == seconds % 60
  {
    assert JsRem(seconds, 60) == seconds % 60;
    Display(seconds / 60, seconds % 60);
  }

  /** The display of `m` minutes and `s` seconds reads back as `m` and `s`. */
  lemma Display(m: nat, s: nat)
    requires s < 60
    ensures var r := Show(m, s); |r| >= 5 ==> ParseDigits(r[..|r| - 3]) == m && ParseDigits(r[|r| - 2..]) == s
  {
    var pm, ps := PadStart2(NatToString(m)), PadStart2(NatToString(s));
    assert IntToString(m) == NatToString(m) && IntToString(s) == NatToString(s);
    PaddedParse(m);
    PaddedParse(s);
    ColonParse(pm, ps);
  }

  /** Two digit strings joined by a colon, the second of length two, read back piece by piece. */
  lemma ColonParse(pm: string, ps: string)
    requires |pm| >= 2 && |ps| == 2
    ensures var r := pm + ":" + ps;
      |r| >= 5 && r[|r| - 3] == ':' && ParseDigits(r[..|r| - 3]) == ParseDigits(pm) && ParseDigits(r[|r| - 2..]) == ParseDigits(ps)
  {
    var r := pm + ":" + ps;
    assert r[..|r| - 3] == pm;
    assert r[|r| - 2..] == ps;
  }

  /** Under 100 minutes the display is exactly "MM:SS". */
  lemma FormatTimeShape(seconds: nat)
    requires seconds < 6000
    ensures var r := FormatTime(seconds);
      |r| == 5 && r[2] == ':'
      && ParseDigits(r[..2]) == seconds / 60 && ParseDigits(r[3..]) == seconds % 60
  {
    FormatTimeRoundTrip(seconds);
    PaddedParse(seconds / 60);
    assert |FormatTime(seconds)| == |PadStart2(NatToString(seconds / 60))| + 3;
  }
}
