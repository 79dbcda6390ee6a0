/** The names of the recorded frames in src/ball_video.rs: frame n is
    written to `frame_{:05}.png`, the decimal n padded with zeros to at
    least five digits, which the encoder later reads back through the
    pattern `frame_%05d.png`. */
module FrameNames {

  predicate IsDigit(c: char)
  {
    '0' <= c <= '9'
  }

  function DigitChar(d: nat): (c: char)
    requires d < 10
    ensures IsDigit(c) && c as int - '0' as int == d
  {
    ('0' as int + d) as char
  }

  function DigitValue(c: char): nat
  {
    if IsDigit(c) then c as int - '0' as int else 0
  }

  /** The decimal numeral of n, without leading zeros. */
  function Decimal(n: nat): (s: string)
    ensures 1 <= |s| && forall i :: 0 <= i < |s| ==> IsDigit(s[i])
  {
    if n < 10 then [DigitChar(n)] else Decimal(n / 10) + [DigitChar(n % 10)]
  }

  function Zeros(k: nat): (z: string)
    ensures |z| == k && forall i :: 0 <= i < k ==> z[i] == '0'
  {
    if k == 0 then [] else Zeros(k - 1) + ['0']
  }

  /** `format!("{:05}", n)`. */
  function Pad5(n: nat): (s: string)
  {
    var d := Decimal(n);
    if |d| < 5 then Zeros(5 - |d|) + d else d
  }

  /** The file name of frame n. */
  function FrameFileName(n: nat): string
  {
    "frame_" + Pad5(n) + ".png"
  }

  /** The value of a string of decimal digits. */
  function ParseDecimal(s: string): nat
  {
    if s == [] then 0 else 10 * ParseDecimal(s[..|s| - 1]) + DigitValue(s[|s| - 1])
  }

  /** The frame number a name of the form `frame_<digits>.png` stands for. */
  function ParseFrameFileName(name: string): (r: Option<nat>)
    ensures r.Some? ==> |name| >= 11 && name[..6] == "frame_" && name[|name| - 4..] == ".png"
  {
    if |name| >= 11 && name[..6] == "frame_" && name[|name| - 4..] == ".png"
      && forall i :: 6 <= i < |name| - 4 ==> IsDigit(name[i])
    then Some(ParseDecimal(name[6..|name| - 4]))
    else None
  }

  datatype Option<T> = None | Some(value: T)

  /** A name the encoder's input pattern `frame_%05d.png` matches, for frame
      numbers below 100000: exactly five digits between prefix and suffix. */
  predicate MatchesPattern(name: string)
  {
    |name| == 15 && name[..6] == "frame_" && name[11..] == ".png" &&
    forall i :: 6 <= i < 11 ==> IsDigit(name[i])
  }

  function Pow10(k: nat): (p: nat)
    ensures p >= 1
  {
    if k == 0 then 1 else 10 * Pow10(k - 1)
  }

  lemma {:induction false} ParseDecimalOfDecimal(n: nat)
    ensures ParseDecimal(Decimal(n)) == n
  {
    var d := Decimal(n);
    if n >= 10 {
      ParseDecimalOfDecimal(n / 10);
      assert d[..|d| - 1] == Decimal(n / 10);
    }
  }

  lemma {:induction false} ParseSkipsZeros(k: nat, s: string)
    ensures ParseDecimal(Zeros(k) + s) == ParseDecimal(s)
    decreases |s|, k
  {
    if s == [] {
      assert Zeros(k) + s == Zeros(k);
      if k > 0 {
        assert Zeros(k)[..k - 1] == Zeros(k - 1);
        ParseSkipsZeros(k - 1, []);
        assert Zeros(k - 1) + [] == Zeros(k - 1);
      }
    } else {
      var t := Zeros(k) + s;
      assert t[..|t| - 1] == Zeros(k) + s[..|s| - 1];
      ParseSkipsZeros(k, s[..|s| - 1]);
    }
  }

  lemma {:induction false} DecimalLength(n: nat, k: nat)
    requires 1 <= k && n < Pow10(k)
    ensures |Decimal(n)| <= k
  {
    if n >= 10 {
      DecimalLength(n / 10, k - 1);
    }
  }

  /** The padded numeral reads back as the number it pads, and below
      100000 it is exactly five digits wide. */
  lemma Pad5RoundTrip(n: nat)
    ensures ParseDecimal(Pad5(n)) == n
    ensures forall i :: 0 <= i < |Pad5(n)| ==> IsDigit(Pad5(n)[i])
    ensures n < 100000 <==> |Pad5(n)| == 5
  {
    var d := Decimal(n);
    ParseDecimalOfDecimal(n);
    if |d| < 5 {
      ParseSkipsZeros(5 - |d|, d);
    }
    if n < 100000 {
      DecimalLength(n, 5);
    } else {
      DecimalAtLeast(n, 5);
    }
  }

  lemma {:induction false} DecimalAtLeast(n: nat, k: nat)
    requires Pow10(k) <= n
    ensures |Decimal(n)| > k
  {
    if k > 0 {
      DecimalAtLeast(n / 10, k - 1);
    }
  }

  /** Reading a frame's file name back gives its number. */
  lemma FrameFileNameRoundTrip(n: nat)
    ensures ParseFrameFileName(FrameFileName(n)) == Some(n)
  {
    Pad5RoundTrip(n);
    var name := FrameFileName(n);
    assert name[6..|name| - 4] == Pad5(n);
  }

  /** Distinct frames get distinct files, and every frame number below
      100000 gives a name the encoder's pattern matches. */
  lemma FrameFileNamesDistinct(m: nat, n: nat)
    ensures FrameFileName(m) == FrameFileName(n) ==> m == n
    ensures n < 100000 ==> MatchesPattern(FrameFileName(n))
  {
    FrameFileNameRoundTrip(m);
    FrameFileNameRoundTrip(n);
    Pad5RoundTrip(n);
  }
}
