/** The two fixed tables between the size labels of the resolution menus and the codes
    Painter's baking parameters store (a code is the base-2 logarithm of the size). */
module ResolutionTables {

  /** `resolutions`: menu size to Painter code. */
  const Resolutions: map<string, int> := map[
    "32" := 5, "64" := 6, "128" := 7, "256" := 8, "512" := 9,
    "1024" := 10, "2048" := 11, "4096" := 12, "8192" := 13]

  /** `read_resolutions`: Painter code to menu size. */
  const ReadResolutions: map<int, string> := map[
    5 := "32", 6 := "64", 7 := "128", 8 := "256", 9 := "512",
    10 := "1024", 11 := "2048", 12 := "4096", 13 := "8192"]

  function Pow2(n: nat): (p: nat)
    ensures p >= 1
  {
    if n == 0 then 1 else 2 * Pow2(n - 1)
  }

  function DigitChar(d: nat): char
    requires d < 10
  {
    "0123456789"[d]
  }

  /** The decimal numeral of `n`, as `str(n)` writes it. */
  function DecimalString(n: nat): (s: string)
    ensures |s| >= 1
  {
    if n < 10 then [DigitChar(n)] else DecimalString(n / 10) + [DigitChar(n % 10)]
  }

  /** The codes are exactly 5 through 13. */
  lemma CodesAreFiveToThirteen()
    ensures forall code :: code in ReadResolutions <==> 5 <= code <= 13
  {
  }

  /** Each table undoes the other. */
  lemma TablesAreInverse()
    ensures forall size :: size in Resolutions ==>
      Resolutions[size] in ReadResolutions && ReadResolutions[Resolutions[size]] == size
    ensures forall code :: code in ReadResolutions ==>
      ReadResolutions[code] in Resolutions && Resolutions[ReadResolutions[code]] == code
    ensures Resolutions.Keys == ReadResolutions.Values
  {
    assert Resolutions.Keys == {"32", "64", "128", "256", "512", "1024", "2048", "4096", "8192"};
    assert ReadResolutions.Values == Resolutions.Keys by {
      forall size | size in Resolutions.Keys ensures size in ReadResolutions.Values {
        assert ReadResolutions[Resolutions[size]] == size;
      }
    }
  }

  /** The size of code `c` is the decimal numeral of 2^c: a menu entry names the size in pixels. */
  lemma LabelIsPowerOfTwo()
    ensures forall code :: code in ReadResolutions ==> ReadResolutions[code] == DecimalString(Pow2(code))
  {
    forall code | code in ReadResolutions
      ensures ReadResolutions[code] == DecimalString(Pow2(code))
    {
      PowersOfTwo();
      if code == 5 { assert DecimalString(32) == DecimalString(3) + "2"; }
      else if code == 6 { assert DecimalString(64) == DecimalString(6) + "4"; }
      else if code == 7 { assert DecimalString(128) == DecimalString(12) + "8"; }
      else if code == 8 { assert DecimalString(256) == DecimalString(25) + "6"; }
      else if code == 9 { assert DecimalString(512) == DecimalString(51) + "2"; }
      else if code == 10 { assert DecimalString(1024) == DecimalString(102) + "4"; }
      else if code == 11 { assert DecimalString(2048) == DecimalString(204) + "8"; }
      else if code == 12 { assert DecimalString(4096) == DecimalString(409) + "6"; }
      else { assert DecimalString(8192) == DecimalString(819) + "2"; }
    }
  }

  lemma PowersOfTwo()
    ensures Pow2(5) == 32 && Pow2(6) == 64 && Pow2(7) == 128 && Pow2(8) == 256 && Pow2(9) == 512
    ensures Pow2(10) == 1024 && Pow2(11) == 2048 && Pow2(12) == 4096 && Pow2(13) == 8192
  {
    assert Pow2(5) == 32;
    assert Pow2(9) == 512;
  }
}
