/** The sampler's notification text: `snprintf(data_str, 20, "%dC | %d%%",
    temp.val1, hum.val1)` and what of it reaches the transport. */
module PayloadFormat {
  import opened CTypes
  import opened Decimal

  /** `sizeof(data_str)`: the sampler formats into a 20-byte buffer. */
  const BufferSize: nat := 20

  /** One reading as it appears in the payload: the integer parts only. */
  datatype Reading = Reading(temperature: int, humidity: int)

  /** The full text `"%dC | %d%%"` would produce with an unbounded buffer:
      the two numbers and five fixed characters, none of them a NUL, so
      `strlen` of a buffer holding it counts every character kept. */
  function PayloadText(temperature: int, humidity: int): (s: string)
    ensures '\0' !in s
    ensures |s| == |FormatInt(temperature)| + |FormatInt(humidity)| + 5
  {
    FormatIntAlphabet(temperature);
    FormatIntAlphabet(humidity);
    FormatInt(temperature) + "C | " + FormatInt(humidity) + "%"
  }

  /** The untruncated text parses back to the two integers. */
  lemma PayloadTextRoundTrip(temperature: int, humidity: int)
    ensures ParsePayload(PayloadText(temperature, humidity)) == Some(Reading(temperature, humidity))
  {
    var t, h := FormatInt(temperature), FormatInt(humidity);
    var p := PayloadText(temperature, humidity);
    assert p == t + "C | " + h + "%";
    FormatIntAlphabet(temperature);
    var k := IndexOf(p, 'C');
    assert p[|t|] == 'C';
    assert forall i :: 0 <= i < |t| ==> p[i] == t[i];
    assert k == |t|;
    assert p[..k] == t;
    assert p[k..k + 4] == "C | ";
    assert p[k + 4..|p| - 1] == h;
    FormatIntRoundTrip(temperature);
    FormatIntRoundTrip(humidity);
  }

  /** The bytes `snprintf(buf, size, ...)` stores for a given full text: at
      most `size - 1` characters of it, then a terminator. */
  function Snprintf(text: string, size: nat): (buf: seq<char>)
    requires size >= 1
    ensures 1 <= |buf| <= size
    ensures buf[|buf| - 1] == '\0'
    ensures buf[..|buf| - 1] <= text
    ensures |buf| - 1 == Min(|text|, size - 1)
  {
    text[..Min(|text|, size - 1)] + ['\0']
  }

  /** The characters the sampler hands on: the formatted text, truncated to
      what fits in the buffer before its terminator. */
  function Payload(temperature: int, humidity: int): (p: string)
    ensures |p| <= BufferSize - 1
    ensures p <= PayloadText(temperature, humidity)
    ensures |p| == Min(|PayloadText(temperature, humidity)|, BufferSize - 1)
  {
    var text := PayloadText(temperature, humidity);
    text[..Min(|text|, BufferSize - 1)]
  }

  /** Inverse of the formatting: reads `"<int>C | <int>%"` back. */
  function ParsePayload(p: string): Option<Reading>
  {
    var k := IndexOf(p, 'C');
    if k + 5 <= |p| && p[k..k + 4] == "C | " && p[|p| - 1] == '%'
       && IsDecimal(p[..k]) && IsDecimal(p[k + 4..|p| - 1])
    then Some(Reading(ParseInt(p[..k]), ParseInt(p[k + 4..|p| - 1])))
    else None
  }

  /** Index of the first occurrence of `c`, or `|s|` when there is none. */
  function IndexOf(s: string, c: char): (k: nat)
    ensures k <= |s|
    ensures k < |s| ==> s[k] == c
    ensures forall i :: 0 <= i < k ==> s[i] != c
  {
    if s == [] then 0 else if s[0] == c then 0 else 1 + IndexOf(s[1..], c)
  }

  /** `%d` output never contains the letter 'C', '%' or a NUL. */
  lemma FormatIntAlphabet(n: int)
    ensures 'C' !in FormatInt(n) && '%' !in FormatInt(n) && '\0' !in FormatInt(n)
  {
  }

  /** The 20-byte buffer holds a C string whose visible part is exactly the
      payload: `strlen` counts the truncated text and the terminator is not
      part of what is sent. */
  lemma BufferHoldsPayload(temperature: int, humidity: int)
    ensures CString(Snprintf(PayloadText(temperature, humidity), BufferSize))
    ensures Visible(Snprintf(PayloadText(temperature, humidity), BufferSize)) == Payload(temperature, humidity)
    ensures StrLen(Snprintf(PayloadText(temperature, humidity), BufferSize)) <= BufferSize - 1
  {
    var text := PayloadText(temperature, humidity);
    FormatIntAlphabet(temperature);
    FormatIntAlphabet(humidity);
    assert '\0' !in text;
    var p := Payload(temperature, humidity);
    assert '\0' !in p by {
      forall i | 0 <= i < |p| ensures p[i] != '\0' {
        assert p[i] == text[i];
      }
    }
    VisibleOfTerminated(p, []);
    assert Snprintf(text, BufferSize) == p + ['\0'] + [];
  }

  /** A payload that was not truncated parses back to the reading's integer
      parts. */
  lemma PayloadRoundTrip(temperature: int, humidity: int)
    requires |PayloadText(temperature, humidity)| <= BufferSize - 1
    ensures ParsePayload(Payload(temperature, humidity)) == Some(Reading(temperature, humidity))
  {
    assert Payload(temperature, humidity) == PayloadText(temperature, humidity);
    PayloadTextRoundTrip(temperature, humidity);
  }

  /** Conversely, every text that parses is the untruncated payload of the
      reading it parses to: formatting and parsing are inverse bijections
      between readings that fit and well-formed payloads. */
  lemma ParsePayloadRoundTrip(p: string)
    requires ParsePayload(p).Some?
    ensures PayloadText(ParsePayload(p).value.temperature, ParsePayload(p).value.humidity) == p
  {
    var k := IndexOf(p, 'C');
    var r := ParsePayload(p).value;
    ParseIntRoundTrip(p[..k]);
    ParseIntRoundTrip(p[k + 4..|p| - 1]);
    assert p == p[..k] + p[k..k + 4] + p[k + 4..|p| - 1] + [p[|p| - 1]];
  }

  /** Readings in the sensor's range (temperature -99..199, humidity 0..100)
      fit the buffer whole, so nothing is truncated and the payload parses
      back. */
  lemma SensorRangeFits(temperature: int, humidity: int)
    requires -99 <= temperature <= 199 && 0 <= humidity <= 100
    ensures |PayloadText(temperature, humidity)| <= 11
    ensures Payload(temperature, humidity) == PayloadText(temperature, humidity)
    ensures ParsePayload(Payload(temperature, humidity)) == Some(Reading(temperature, humidity))
  {
    assert Pow10(2) == 100 && Pow10(3) == 1000;
    FormatIntLength(temperature, if temperature < 0 then 2 else 3);
    FormatIntLength(humidity, 3);
    PayloadRoundTrip(temperature, humidity);
  }

  /** Any pair of `int32_t` values formats to at most 27 characters; beyond
      19 of them the buffer cuts the text off. */
  lemma PayloadTextInt32(temperature: int32, humidity: int32)
    ensures |PayloadText(temperature, humidity)| <= 27
  {
    FormatIntInt32(temperature);
    FormatIntInt32(humidity);
  }

  /** The reading (23, 55) is sent as "23C | 55%". */
  lemma PayloadExample()
    ensures Payload(23, 55) == "23C | 55%"
  {
  }

  /** Two minimal `int32_t` readings overflow the buffer: the text is cut
      after 19 characters, in the middle of the humidity. */
  lemma PayloadTruncationExample()
    ensures |PayloadText(-0x8000_0000, -0x8000_0000)| == 27
    ensures Payload(-0x8000_0000, -0x8000_0000) == "-2147483648C | -214"
  {
    Int32MinPayloadText();
    var text := PayloadText(-0x8000_0000, -0x8000_0000);
    var p := Payload(-0x8000_0000, -0x8000_0000);
    assert |p| == 19 && p <= text;
    assert p == text[..19];
  }

  /** The untruncated text of two `INT32_MIN` readings. */
  lemma Int32MinPayloadText()
    ensures PayloadText(-0x8000_0000, -0x8000_0000) == "-2147483648C | -2147483648%"
  {
    Int32MinText();
  }

  /** `%d` of `INT32_MIN`. */
  lemma Int32MinText()
    ensures FormatInt(-0x8000_0000) == "-2147483648"
  {
    Int32MinDigits();
  }

  /** The digits of 2^31, built up one digit at a time. */
  lemma Int32MinDigits()
    ensures Digits(2147483648) == "2147483648"
  {
    assert Digits(21) == "21";
    assert Digits(214) == "214";
    assert Digits(2147) == "2147";
    assert Digits(21474) == "21474";
    assert Digits(214748) == "214748";
    assert Digits(2147483) == "2147483";
    assert Digits(21474836) == "21474836";
    assert Digits(214748364) == "214748364";
  }
}
