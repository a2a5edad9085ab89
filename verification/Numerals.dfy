/** Decimal numerals: how numbers are written into names, and how Python reads them back. */
module Numerals {
  import opened Primitives

  function Decimal(n: nat): (r: string)
    ensures r != []
  {
    (if n < 10 then "" else Decimal(n / 10)) + [(n % 10 + '0' as int) as char]
  }

  function NumberIn(text: string): int {
    if text == "" then 0 else 10 * NumberIn(text[..|text| - 1]) + (text[|text| - 1] as int - '0' as int)
  }

  lemma {:induction false} NumberInDecimal(n: nat)
    ensures NumberIn(Decimal(n)) == n
  {
    if n >= 10 {
      NumberInDecimal(n / 10);
      assert Decimal(n)[..|Decimal(n)| - 1] == Decimal(n / 10);
    }
  }

  /** What Unicode counts as a decimal digit, with its value, and as a space. */
  datatype Alphabet = Alphabet(digit: char -> Option<nat>, space: char -> bool)

  /** Digits, with single underscores between them. */
  function ReadDigits(alphabet: Alphabet, text: string): Option<int>
    decreases |text|
  {
    if text == "" then None
    else
      var n := |text| - 1;
      match alphabet.digit(text[n])
      case None => None
      case Some(d) =>
        if n == 0 then Some(d)
        else
          match ReadDigits(alphabet, if text[n - 1] == '_' then text[..n - 1] else text[..n])
          case None => None
          case Some(v) => Some(10 * v + d)
  }

  function TrimStart(alphabet: Alphabet, text: string): (r: string)
    ensures |r| <= |text|
  {
    if text != "" && alphabet.space(text[0]) then TrimStart(alphabet, text[1..]) else text
  }

  function TrimEnd(alphabet: Alphabet, text: string): (r: string)
    ensures |r| <= |text|
  {
    if text != "" && alphabet.space(text[|text| - 1]) then TrimEnd(alphabet, text[..|text| - 1]) else text
  }

  /** `int(text)`; None is a ValueError. */
  function ReadInt(alphabet: Alphabet, text: string): Option<int> {
    var body := TrimEnd(alphabet, TrimStart(alphabet, text));
    if body != "" && body[0] == '+' then ReadDigits(alphabet, body[1..])
    else if body != "" && body[0] == '-' then
      (match ReadDigits(alphabet, body[1..]) case None => None case Some(v) => Some(-v))
    else ReadDigits(alphabet, body)
  }

  /** What follows the last dash, or everything. */
  function AfterLastDash(text: string): (r: string)
    ensures '-' !in r
  {
    if text == "" || text[|text| - 1] == '-' then "" else AfterLastDash(text[..|text| - 1]) + [text[|text| - 1]]
  }

  /** The sensor number a device takes from its id; None is a ValueError. */
  function SensorIndex(alphabet: Alphabet, deviceId: string): Option<int> {
    if '-' in deviceId then ReadInt(alphabet, AfterLastDash(deviceId)) else Some(0)
  }

  /** The ASCII digits are digits, and neither they nor letters are anything else. */
  ghost predicate ReadsAscii(alphabet: Alphabet) {
    && (forall c :: '0' <= c <= '9' ==> alphabet.digit(c) == Some(c as int - '0' as int) && !alphabet.space(c))
    && (forall c :: 'a' <= c <= 'z' ==> alphabet.digit(c) == None && !alphabet.space(c))
  }

  lemma {:induction false} DecimalIsDigits(n: nat)
    ensures forall i :: 0 <= i < |Decimal(n)| ==> '0' <= Decimal(n)[i] <= '9'
  {
    if n >= 10 {
      DecimalIsDigits(n / 10);
    }
  }

  lemma {:induction false} ReadDecimal(alphabet: Alphabet, n: nat)
    requires ReadsAscii(alphabet)
    ensures ReadDigits(alphabet, Decimal(n)) == Some(n)
  {
    DecimalIsDigits(n);
    if n >= 10 {
      ReadDecimal(alphabet, n / 10);
      assert Decimal(n)[..|Decimal(n)| - 1] == Decimal(n / 10);
    }
  }

  lemma {:induction false} AfterDash(prefix: string, text: string)
    requires '-' !in text
    ensures AfterLastDash(prefix + "-" + text) == text
  {
    var whole := prefix + "-" + text;
    if text != "" {
      var n := |text| - 1;
      assert text == text[..n] + [text[n]];
      assert whole[..|whole| - 1] == prefix + "-" + text[..n];
      AfterDash(prefix, text[..n]);
    }
  }

  /** A device named by a prefix, a dash and a number has that number. */
  lemma NumberedDevice(alphabet: Alphabet, prefix: string, n: nat)
    requires ReadsAscii(alphabet)
    ensures SensorIndex(alphabet, prefix + "-" + Decimal(n)) == Some(n)
  {
    DecimalIsDigits(n);
    AfterDash(prefix, Decimal(n));
    ReadDecimal(alphabet, n);
    var whole := prefix + "-" + Decimal(n);
    assert whole[|prefix|] == '-';
  }

  /** A good name that no device can sample under. */
  lemma EdgeSensorHasNoIndex(alphabet: Alphabet)
    requires ReadsAscii(alphabet)
    ensures SensorIndex(alphabet, "edge-sensor") == None
  {
    AfterDash("edge", "sensor");
    assert "edge" + "-" + "sensor" == "edge-sensor";
    assert "edge-sensor"[4] == '-';
  }
}
