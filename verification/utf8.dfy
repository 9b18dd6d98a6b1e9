/**
  Well-formed UTF-8, as Rust's `&str` guarantees and `std::str::from_utf8`
  checks. The lead-byte table is Table 3-7 of the Unicode Standard
  (section 3.9), which also fixes the ranges of RFC 3629.
 */
module Utf8 {
  import opened Bytes
  import opened Stream

  predicate Continuation(b: byte) {
    0x80 <= b <= 0xBF
  }

  /** Length of the well-formed code-point sequence that starts `s`, or 0 when there is none. */
  function ScalarLength(s: seq<byte>): (n: nat)
    ensures n <= |s|
    ensures |s| > 0 && s[0] < 0x80 ==> n == 1
  {
    if |s| == 0 then 0
    else if s[0] < 0x80 then 1
    else if 0xC2 <= s[0] <= 0xDF then
      if |s| >= 2 && Continuation(s[1]) then 2 else 0
    else if s[0] == 0xE0 then
      if |s| >= 3 && 0xA0 <= s[1] <= 0xBF && Continuation(s[2]) then 3 else 0
    else if 0xE1 <= s[0] <= 0xEC || 0xEE <= s[0] <= 0xEF then
      if |s| >= 3 && Continuation(s[1]) && Continuation(s[2]) then 3 else 0
    else if s[0] == 0xED then
      if |s| >= 3 && 0x80 <= s[1] <= 0x9F && Continuation(s[2]) then 3 else 0
    else if s[0] == 0xF0 then
      if |s| >= 4 && 0x90 <= s[1] <= 0xBF && Continuation(s[2]) && Continuation(s[3]) then 4 else 0
    else if 0xF1 <= s[0] <= 0xF3 then
      if |s| >= 4 && Continuation(s[1]) && Continuation(s[2]) && Continuation(s[3]) then 4 else 0
    else if s[0] == 0xF4 then
      if |s| >= 4 && 0x80 <= s[1] <= 0x8F && Continuation(s[2]) && Continuation(s[3]) then 4 else 0
    else 0
  }

  /** `s` is a concatenation of well-formed code-point sequences. */
  predicate ValidUtf8(s: seq<byte>)
    decreases |s|
  {
    |s| == 0 || (ScalarLength(s) > 0 && ValidUtf8(s[ScalarLength(s)..]))
  }

  /** The bytes of a Rust `&str`. */
  type Text = s: seq<byte> | ValidUtf8(s) witness []

  /** `std::str::from_utf8`: the bytes as text when they are well-formed, an error otherwise. */
  function FromUtf8(b: seq<byte>): (r: Result<Text>)
    ensures r.Ok? <==> ValidUtf8(b)
    ensures r.Ok? ==> r.value == b
  {
    if ValidUtf8(b) then Ok(b) else Err(InvalidUtf8)
  }
}
