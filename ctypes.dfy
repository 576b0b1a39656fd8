/** C-level vocabulary shared by the model: fixed-width integer ranges, the
    errno code the notify path returns, an Option type, and NUL-terminated
    strings with `strlen`. */
module CTypes {

  /** `int32_t`, the type of `struct sensor_value`'s `val1` and `val2`. */
  type int32 = x: int | -0x8000_0000 <= x < 0x8000_0000

  /** `uint8_t`, the error and reason codes of the connection callbacks. */
  type uint8 = x: int | 0 <= x < 0x100

  /** `uint16_t`, the value a central writes to a CCC descriptor. */
  type uint16 = x: int | 0 <= x < 0x1_0000

  /** `EACCES` of Zephyr's C library; functions return it negated. */
  const EACCES: int := 13

  datatype Option<T> = None | Some(value: T)

  function Min(a: int, b: int): int
  {
    if a <= b then a else b
  }

  /** The memory a `const char *` points at is a C string when a NUL
      terminator occurs in it. */
  predicate CString(s: seq<char>)
  {
    '\0' in s
  }

  /** `strlen`: the index of the first NUL, i.e. the number of characters
      before the terminator. */
  function StrLen(s: seq<char>): (n: nat)
    requires CString(s)
    ensures n < |s| && s[n] == '\0'
    ensures forall i :: 0 <= i < n ==> s[i] != '\0'
  {
    if s[0] == '\0' then 0 else 1 + StrLen(s[1..])
  }

  /** The visible text of a C string: everything before its terminator. */
  function Visible(s: seq<char>): (t: seq<char>)
    requires CString(s)
    ensures '\0' !in t
    ensures t + ['\0'] <= s
  {
    s[..StrLen(s)]
  }

  /** A text without NUL followed by a terminator (and anything after it) is
      a C string whose visible text is that text. */
  lemma VisibleOfTerminated(text: seq<char>, rest: seq<char>)
    requires '\0' !in text
    ensures CString(text + ['\0'] + rest)
    ensures StrLen(text + ['\0'] + rest) == |text|
    ensures Visible(text + ['\0'] + rest) == text
  {
    var s := text + ['\0'] + rest;
    assert s[|text|] == '\0';
    assert forall i :: 0 <= i < |text| ==> s[i] == text[i];
    assert s[..|text|] == text;
  }
}
