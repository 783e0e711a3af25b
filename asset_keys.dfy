/** The asset key under which an option position is booked,
    `'%s %s%s %s' % (symbol, callput, strike, expire)`, and the Python
    text of the numbers in it. */
module AssetKeys {
  import opened Outcomes
  import opened Lots

  /** Python `int(x)` of a finite number: truncation toward zero. */
  function Trunc(x: real): (n: int)
    ensures RealAbs(n as real) <= RealAbs(x) < RealAbs(n as real) + 1.0
    ensures n == 0 || (n > 0 <==> x > 0.0)
  {
    if x >= 0.0 then x.Floor else -((-x).Floor)
  }

  /** Whether `int(x) == x`. */
  predicate IsIntegral(x: real)
  {
    Trunc(x) as real == x
  }

  function DigitChar(d: int): char
    requires 0 <= d < 10
  {
    "0123456789"[d]
  }

  /** The number a string of decimal digits spells, most significant first. */
  function DigitsValue(s: string): int
    decreases |s|
  {
    if s == [] then 0 else DigitsValue(s[..|s| - 1]) * 10 + (s[|s| - 1] as int - '0' as int)
  }

  /** The decimal digits of a natural number, most significant first, with no
      leading zero. */
  function NatText(n: nat): (r: string)
    ensures |r| >= 1
    ensures forall i :: 0 <= i < |r| ==> '0' <= r[i] <= '9'
    ensures r[0] == '0' <==> n == 0
    decreases n
  {
    if n < 10 then [DigitChar(n)] else NatText(n / 10) + [DigitChar(n % 10)]
  }

  /** The digits `NatText` writes spell the number back. */
  lemma {:induction false} NatTextValue(n: nat)
    ensures DigitsValue(NatText(n)) == n
    decreases n
  {
    var r := NatText(n);
    if n < 10 {
      assert r[..0] == [];
    } else {
      NatTextValue(n / 10);
      assert r[..|r| - 1] == NatText(n / 10);
    }
  }

  /** `str(n)` of an integer: a minus sign for a negative number, then the
      digits of its magnitude. */
  function IntText(n: int): (r: string)
    ensures |r| >= 1
    ensures n < 0 <==> r[0] == '-'
  {
    if n < 0 then "-" + NatText(-n) else NatText(n)
  }

  /** The text of an integer reads back as that integer: an optional minus
      sign, then digits without a leading zero that spell its magnitude. */
  lemma IntTextValue(n: int)
    ensures var r := IntText(n);
      (n < 0 ==> DigitsValue(r[1..]) == -n && r[1] != '0') &&
      (n >= 0 ==> DigitsValue(r) == n && (r[0] == '0' ==> r == "0"))
  {
    var r := IntText(n);
    if n < 0 {
      var digits := NatText(-n);
      NatTextValue(-n);
      assert r == "-" + digits;
      assert r[1..] == digits && r[1] == digits[0];
    } else {
      NatTextValue(n);
      if r[0] == '0' {
        assert r == NatText(0) == [DigitChar(0)];
      }
    }
  }

  /** Up to `width` decimal digits of a fraction in [0, 1), dropping the
      trailing zeros. */
  function FractionText(f: real, width: nat): string
    requires 0.0 <= f < 1.0
    decreases width
  {
    if f == 0.0 || width == 0 then ""
    else
      var d := (f * 10.0).Floor;
      [DigitChar(d)] + FractionText(f * 10.0 - d as real, width - 1)
  }

  /** `str(x)` of a float strike that is not a whole number, for strikes with
      a short decimal expansion (such as 152.5). */
  function DecimalText(x: real): (r: string)
    ensures |r| >= 2
    ensures x < 0.0 <==> r[0] == '-'
    ensures '.' in r
  {
    var a := RealAbs(x);
    (if x < 0.0 then "-" else "") + IntText(a.Floor) + "." + FractionText(a - a.Floor as real, 17)
  }

  /** The strike as it appears in the key: a whole number without a decimal
      point, anything else as a decimal. */
  function StrikeText(strike: real): (r: string)
    ensures |r| >= 1
    ensures IsIntegral(strike) ==> r == IntText(Trunc(strike))
  {
    if IsIntegral(strike) then IntText(Trunc(strike)) else DecimalText(strike)
  }

  /** The asset key of an option; `expire` is the expiry already written as
      `yy-mm-dd`. */
  function OptionKey(symbol: string, callPut: Option<string>, strike: real, expire: string): (r: string)
    ensures |r| == |symbol| + |Str(callPut)| + |StrikeText(strike)| + |expire| + 2
    ensures r[|symbol|] == ' '
  {
    symbol + " " + Str(callPut) + StrikeText(strike) + " " + expire
  }

  /** The fields of an option key sit where `'%s %s%s %s'` puts them: the
      symbol first, then a space and the call/put marker, the strike, and a
      space before the expiry at the end. */
  lemma OptionKeyLayout(symbol: string, callPut: Option<string>, strike: real, expire: string)
    ensures var k := OptionKey(symbol, callPut, strike, expire);
      var strikeAt := |symbol| + 1 + |Str(callPut)|;
      k[..|symbol|] == symbol && k[|symbol|] == ' ' &&
      k[|symbol| + 1..strikeAt] == Str(callPut) &&
      k[strikeAt..strikeAt + |StrikeText(strike)|] == StrikeText(strike) &&
      k[|k| - |expire| - 1] == ' ' && k[|k| - |expire|..] == expire
  {
    FieldsLayout(symbol, Str(callPut), StrikeText(strike), expire);
  }

  lemma FieldsLayout(symbol: string, callPut: string, strike: string, expire: string)
    ensures var k := symbol + " " + callPut + strike + " " + expire;
      var strikeAt := |symbol| + 1 + |callPut|;
      k[..|symbol|] == symbol && k[|symbol|] == ' ' &&
      k[|symbol| + 1..strikeAt] == callPut &&
      k[strikeAt..strikeAt + |strike|] == strike &&
      k[|k| - |expire| - 1] == ' ' && k[|k| - |expire|..] == expire
  {
    var head := symbol + " " + callPut;
    var tail := strike + " " + expire;
    var k := head + tail;
    assert k == symbol + " " + callPut + strike + " " + expire;
    assert k[..|symbol|] == head[..|symbol|];
    assert k[|symbol| + 1..|head|] == head[|symbol| + 1..];
    assert k[|head|..|head| + |strike|] == tail[..|strike|];
    assert k[|k| - |expire|..] == tail[|tail| - |expire|..];
  }

  /** An option key with a `yy-mm-dd` expiry and a call/put marker is longer
      than ten characters and is not the cash key, so `fifo_add` treats the
      position as an option. */
  lemma OptionKeyIsOption(symbol: string, callPut: Option<string>, strike: real, expire: string)
    requires |expire| == 8 && Str(callPut) != ""
    ensures IsOption(OptionKey(symbol, callPut, strike, expire))
  {
    var key := OptionKey(symbol, callPut, strike, expire);
    assert ' ' in key;
    assert ' ' !in AccountUsd;
  }

  /** Whole strikes print without a decimal point. */
  lemma WholeStrikes()
    ensures StrikeText(150.0) == "150"
    ensures StrikeText(5.0) == "5"
  {
    assert NatText(150) == NatText(15) + ['0'];
    assert NatText(15) == NatText(1) + ['5'];
  }

  /** A half strike prints with one decimal. */
  lemma HalfStrike()
    ensures StrikeText(152.5) == "152.5"
  {
    assert Trunc(152.5) == 152;
    assert !IsIntegral(152.5);
    assert NatText(152) == NatText(15) + ['2'];
    assert NatText(15) == NatText(1) + ['5'];
    assert FractionText(0.5, 17) == ['5'] + FractionText(0.0, 16);
  }
}
