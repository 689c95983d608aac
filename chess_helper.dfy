/**
 * Square validation (src/utils/chess_helper.py): the text conversion applied to every
 * position the board receives, and the algebraic-notation check that follows it.
 */
module ChessHelper {
  import opened Wrappers
  import opened Exceptions

  newtype byte = x: int | 0 <= x < 0x100

  /**
   * A value handed to the helper: a Python `str`, a `bytes` object, or an object without a
   * `decode` method (such as None).
   */
  datatype Value = Str(s: string) | Bytes(data: seq<byte>) | Other

  // ---------------------------------------------------------------------------------------
  // Strict UTF-8, the codec `bytes.decode('utf-8')` applies (RFC 3629, section 4)
  // ---------------------------------------------------------------------------------------

  predicate IsContinuation(b: byte) { 0x80 <= b < 0xC0 }

  /** Length of the sequence a lead byte introduces; 0 when the byte cannot start one. */
  function LeadWidth(b: byte): nat
  {
    if b < 0x80 then 1
    else if 0xC2 <= b < 0xE0 then 2
    else if 0xE0 <= b < 0xF0 then 3
    else if 0xF0 <= b < 0xF5 then 4
    else 0
  }

  /** A complete sequence: no overlong form, no surrogate, nothing above U+10FFFF. */
  predicate WellFormed(u: seq<byte>)
  {
    && |u| >= 1
    && |u| == LeadWidth(u[0])
    && (|u| >= 2 ==>
          var lo := if u[0] == 0xE0 then 0xA0 else if u[0] == 0xF0 then 0x90 else 0x80;
          var hi := if u[0] == 0xED then 0xA0 else if u[0] == 0xF4 then 0x90 else 0xC0;
          lo <= u[1] < hi)
    && (|u| >= 3 ==> IsContinuation(u[2]))
    && (|u| == 4 ==> IsContinuation(u[3]))
  }

  /** The scalar value a well-formed sequence stands for. */
  function ScalarOf(u: seq<byte>): (c: char)
    requires WellFormed(u)
  {
    var n: int :=
      if |u| == 1 then u[0] as int
      else if |u| == 2 then (u[0] as int - 0xC0) * 0x40 + (u[1] as int - 0x80)
      else if |u| == 3 then (u[0] as int - 0xE0) * 0x1000 + (u[1] as int - 0x80) * 0x40 + (u[2] as int - 0x80)
      else (u[0] as int - 0xF0) * 0x40000 + (u[1] as int - 0x80) * 0x1000 + (u[2] as int - 0x80) * 0x40 + (u[3] as int - 0x80);
    assert |u| == 3 && u[0] == 0xED ==> n < 0xD800;
    assert |u| == 3 && u[0] != 0xED ==> n < 0xD800 || 0xE000 <= n < 0x10000;
    n as char
  }

  function Utf8Decode(b: seq<byte>): Option<string>
    decreases |b|
  {
    if b == [] then Some([])
    else
      var w := LeadWidth(b[0]);
      if w == 0 || |b| < w || !WellFormed(b[..w]) then None
      else
        var rest :- Utf8Decode(b[w..]);
        Some([ScalarOf(b[..w])] + rest)
  }

  function EncodeScalar(c: char): (u: seq<byte>)
  {
    var n := c as int;
    if n < 0x80 then [n as byte]
    else if n < 0x800 then [(0xC0 + n / 0x40) as byte, (0x80 + n % 0x40) as byte]
    else if n < 0x10000 then
      [(0xE0 + n / 0x1000) as byte, (0x80 + n / 0x40 % 0x40) as byte, (0x80 + n % 0x40) as byte]
    else
      [(0xF0 + n / 0x40000) as byte, (0x80 + n / 0x1000 % 0x40) as byte,
       (0x80 + n / 0x40 % 0x40) as byte, (0x80 + n % 0x40) as byte]
  }

  function Utf8Encode(s: string): seq<byte>
  {
    if s == [] then [] else EncodeScalar(s[0]) + Utf8Encode(s[1..])
  }

  /** Every scalar value encodes to one well-formed sequence that decodes back to it. */
  lemma EncodeScalarWellFormed(c: char)
    ensures WellFormed(EncodeScalar(c)) && ScalarOf(EncodeScalar(c)) == c
  {
    var n := c as int;
    if n < 0x80 {
    } else if n < 0x800 {
      assert n / 0x40 * 0x40 + n % 0x40 == n;
    } else if n < 0x10000 {
      EncodeThreeBytes(c);
    } else {
      EncodeFourBytes(c);
    }
  }

  lemma EncodeThreeBytes(c: char)
    requires 0x800 <= c as int < 0x10000
    ensures WellFormed(EncodeScalar(c)) && ScalarOf(EncodeScalar(c)) == c
  {
    var n := c as int;
    assert n / 0x1000 * 0x1000 + n / 0x40 % 0x40 * 0x40 + n % 0x40 == n;
    assert n / 0x1000 == 0 ==> n / 0x40 % 0x40 >= 0x20;
    assert n / 0x1000 == 0xD ==> n / 0x40 % 0x40 < 0x20;
  }

  lemma EncodeFourBytes(c: char)
    requires 0x10000 <= c as int
    ensures WellFormed(EncodeScalar(c)) && ScalarOf(EncodeScalar(c)) == c
  {
    var n := c as int;
    assert n / 0x40000 * 0x40000 + n / 0x1000 % 0x40 * 0x1000 + n / 0x40 % 0x40 * 0x40 + n % 0x40 == n;
    assert n / 0x40000 == 0 ==> n / 0x1000 % 0x40 >= 0x10;
    assert n / 0x40000 == 4 ==> n / 0x1000 % 0x40 < 0x10;
  }

  /** Decoding undoes encoding: `bytes.decode('utf-8')` recovers every string from its UTF-8 form. */
  lemma {:induction false} Utf8RoundTrip(s: string)
    ensures Utf8Decode(Utf8Encode(s)) == Some(s)
  {
    if s != [] {
      var u := EncodeScalar(s[0]);
      var b := Utf8Encode(s);
      EncodeScalarWellFormed(s[0]);
      assert b == u + Utf8Encode(s[1..]);
      assert b[..|u|] == u && b[|u|..] == Utf8Encode(s[1..]);
      Utf8RoundTrip(s[1..]);
      assert [s[0]] + s[1..] == s;
    }
  }

  // ---------------------------------------------------------------------------------------
  // to_string, is_valid_position, validate_position
  // ---------------------------------------------------------------------------------------

  /**
   * `to_string`: a `str` is returned as it is, anything else has `.decode('utf-8')` applied:
   * bytes give the text they encode or UnicodeDecodeError, and an object without a `decode`
   * method gives AttributeError.
   */
  function ToString(value: Value): (r: Result<string, Error>)
    ensures value.Str? ==> r == Ok(value.s)
    ensures value.Bytes? ==> (r.Ok? <==> Utf8Decode(value.data).Some?)
    ensures value.Bytes? && r.Ok? ==> Utf8Decode(value.data) == Some(r.value)
    ensures value.Bytes? && r.Err? ==> r.error == UnicodeDecodeError
    ensures value.Other? ==> r == Err(AttributeError)
  {
    match value
    case Str(s) => Ok(s)
    case Bytes(data) =>
      (match Utf8Decode(data)
       case Some(s) => Ok(s)
       case None => Err(UnicodeDecodeError))
    case Other => Err(AttributeError)
  }

  /** A square of the board: a file a-h followed by a rank 1-8. */
  predicate IsSquare(p: string)
  {
    |p| == 2 && 'a' <= p[0] <= 'h' && '1' <= p[1] <= '8'
  }

  /**
   * `is_valid_position`: `^[a-h][0-8]$` applied with `re.match`. `$` also matches just before a
   * final newline, so one trailing "\n" is accepted, and the rank digit may be 0.
   */
  function IsValidPosition(position: string): (valid: bool)
    ensures IsSquare(position) ==> valid
    ensures valid ==> 2 <= |position| <= 3 && (IsSquare(position) || position[1] == '0' || position[2..] == "\n")
  {
    && (|position| == 2 || (|position| == 3 && position[2] == '\n'))
    && 'a' <= position[0] <= 'h'
    && '0' <= position[1] <= '8'
  }

  /** `validate_position`: InvalidPositionError for every rejected text, nothing otherwise. */
  function ValidatePosition(position: Value): (r: Result<(), Error>)
    ensures r.Ok? <==> ToString(position).Ok? && IsValidPosition(ToString(position).value)
    ensures ToString(position).Ok? && !IsValidPosition(ToString(position).value) ==>
              r == Err(InvalidPosition(ToString(position).value))
  {
    var text :- ToString(position);
    if IsValidPosition(text) then Ok(()) else Err(InvalidPosition(text))
  }

  /** A position given as UTF-8 bytes is judged exactly like the same position given as text. */
  lemma BytesValidateLikeText(s: string)
    ensures ValidatePosition(Bytes(Utf8Encode(s))) == ValidatePosition(Str(s))
  {
    Utf8RoundTrip(s);
  }
}
