/**
 * Text crossing the C boundary (src/lib.rs): a C string is the run of bytes
 * before the first zero byte of a buffer; a Rust `String` is well-formed
 * UTF-8.  The two conversions `c_char_to_string` and `string_to_c_char`
 * `unwrap` their checks, so a failed check is a panic, modelled as a value.
 */
module Marshal {
  import opened Wrappers
  import opened Utf8
  import Errors

  /** Why an `unwrap` on the boundary panics. */
  datatype Panic =
    | InvalidUtf8                           // `CStr::to_str` rejected the bytes
    | InteriorNul(position: nat)            // `CString::new` found a zero byte at this byte offset
    | MalformedJson(error: Errors.SerdeError) // `serde_json::from_str` rejected an argument

  /** The offset of the first zero byte, where `CStr::from_ptr` stops reading. */
  function NulIndex(buf: seq<byte>): (i: nat)
    requires 0 in buf
    ensures i < |buf| && buf[i] == 0 && 0 !in buf[..i]
  {
    if buf[0] == 0 then 0
    else
      var i := NulIndex(buf[1..]) + 1;
      assert buf[..i] == [buf[0]] + buf[1..][..i - 1];
      i
  }

  /** The bytes `CStr::from_ptr` sees: everything before the first zero byte. */
  function CStrBytes(buf: seq<byte>): (p: seq<byte>)
    requires 0 in buf
    ensures 0 !in p && p + [0] <= buf
  {
    buf[..NulIndex(buf)]
  }

  /** `c_char_to_string`: the text of a C string, or a panic when its bytes are not UTF-8. */
  function CCharToString(buf: seq<byte>): (r: Result<string, Panic>)
    requires 0 in buf
    ensures r.Ok? <==> Valid(CStrBytes(buf))
    ensures r.Ok? ==> Encode(r.value) == CStrBytes(buf) && '\0' !in r.value
    ensures r.Err? ==> r.error == InvalidUtf8
  {
    match Decode(CStrBytes(buf))
    case Some(s) =>
      EncodeDecode(CStrBytes(buf));
      EncodeHasNul(s);
      Ok(s)
    case None => Err(InvalidUtf8)
  }

  /**
   * `string_to_c_char`: a fresh buffer holding the bytes of `s` and one zero
   * terminator, or a panic naming the first zero byte when `s` contains U+0000.
   */
  function StringToCChar(s: string): (r: Result<seq<byte>, Panic>)
    ensures r.Ok? <==> '\0' !in s
    ensures r.Ok? ==> r.value == Encode(s) + [0] && 0 !in Encode(s)
    ensures r.Err? ==> r.error.InteriorNul? && r.error.position < |Encode(s)|
                       && Encode(s)[r.error.position] == 0 && 0 !in Encode(s)[..r.error.position]
  {
    EncodeHasNul(s);
    var bytes := Encode(s);
    if 0 in bytes then Err(InteriorNul(NulIndex(bytes))) else Ok(bytes + [0])
  }

  /** The terminator written by `string_to_c_char` is the first zero byte of the buffer. */
  lemma CStrBytesOfTerminated(p: seq<byte>, rest: seq<byte>)
    requires 0 !in p
    ensures 0 in p + [0] + rest && CStrBytes(p + [0] + rest) == p
  {
    var buf := p + [0] + rest;
    assert buf[|p|] == 0;
    var i := NulIndex(buf);
    assert forall j :: 0 <= j < |p| ==> buf[j] == p[j] && buf[j] != 0;
    assert i >= |p|;
    assert buf[..|p|] == p;
  }

  /** `c_char_to_string` reads nothing past the first zero byte. */
  lemma CCharToStringStopsAtNul(p: seq<byte>, rest: seq<byte>)
    requires 0 !in p
    ensures 0 in p + [0] + rest && 0 in p + [0]
    ensures CCharToString(p + [0] + rest) == CCharToString(p + [0])
  {
    CStrBytesOfTerminated(p, rest);
    CStrBytesOfTerminated(p, []);
    assert p + [0] + [] == p + [0];
  }

  /** Round trip: marshaling text out and reading it back gives the same text. */
  lemma RoundTrip(s: string)
    requires '\0' !in s
    ensures StringToCChar(s).Ok? && 0 in StringToCChar(s).value
    ensures CCharToString(StringToCChar(s).value) == Ok(s)
  {
    EncodeHasNul(s);
    CStrBytesOfTerminated(Encode(s), []);
    assert Encode(s) + [0] + [] == Encode(s) + [0];
    DecodeEncode(s);
  }

  /** The other round trip: text read from a C string marshals back to that C string, terminator included. */
  lemma RoundTripFromC(buf: seq<byte>)
    requires 0 in buf && CCharToString(buf).Ok?
    ensures StringToCChar(CCharToString(buf).value) == Ok(buf[..NulIndex(buf) + 1])
  {
    assert buf[..NulIndex(buf) + 1] == CStrBytes(buf) + [0];
  }
}
