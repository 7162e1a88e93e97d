/** Unpadded URL base64 as Go's `base64.RawURLEncoding` reads it (section 5 of RFC 4648): line breaks
    are skipped wherever they stand, and the bits of the last character that make up no whole byte are
    ignored. So one byte string has many spellings, of which `Encode` writes one. */
module Base64 {
  import opened Text

  type Sextet = x: int | 0 <= x < 64

  function Symbol(x: Sextet): char {
    if x < 26 then ('A' as int + x) as char
    else if x < 52 then ('a' as int + x - 26) as char
    else if x < 62 then ('0' as int + x - 52) as char
    else if x == 62 then '-' else '_'
  }

  function Value(c: char): Option<Sextet> {
    if 'A' <= c <= 'Z' then Some(c as int - 'A' as int)
    else if 'a' <= c <= 'z' then Some(c as int - 'a' as int + 26)
    else if '0' <= c <= '9' then Some(c as int - '0' as int + 52)
    else if c == '-' then Some(62)
    else if c == '_' then Some(63)
    else None
  }

  /** The digits of a text; `None` at a character that is neither a digit nor a line break. */
  function Digits(s: string): Option<seq<Sextet>> {
    if s == "" then Some([])
    else
      var before, c := Digits(s[..|s| - 1]), s[|s| - 1];
      if before.None? || c == '\r' || c == '\n' then before
      else if Value(c).None? then None
      else Some(before.value + [Value(c).value])
  }

  /** Four digits make three bytes; two or three at the end one or two; a single one is an error. */
  function Unpack(d: seq<Sextet>): Option<Bytes> {
    if |d| == 0 then Some([])
    else if |d| == 1 then None
    else
      var x := (d[0] as int * 4 + d[1] as int / 16) as Byte;
      if |d| == 2 then Some([x])
      else
        var y := (d[1] as int % 16 * 16 + d[2] as int / 4) as Byte;
        if |d| == 3 then Some([x, y])
        else
          var rest := Unpack(d[4..]);
          if rest.None? then None else Some([x, y, (d[2] as int % 4 * 64 + d[3] as int) as Byte] + rest.value)
  }

  function Decode(s: string): Option<Bytes> {
    if Digits(s).None? then None else Unpack(Digits(s).value)
  }

  function Pack(b: Bytes): seq<Sextet> {
    if |b| == 0 then []
    else if |b| == 1 then [b[0] as int / 4, b[0] as int % 4 * 16]
    else if |b| == 2 then [b[0] as int / 4, b[0] as int % 4 * 16 + b[1] as int / 16, b[1] as int % 16 * 4]
    else [b[0] as int / 4, b[0] as int % 4 * 16 + b[1] as int / 16, b[1] as int % 16 * 4 + b[2] as int / 64,
          b[2] as int % 64]
         + Pack(b[3..])
  }

  function Write(d: seq<Sextet>): string {
    seq(|d|, i requires 0 <= i < |d| => Symbol(d[i]))
  }

  function Encode(b: Bytes): string {
    Write(Pack(b))
  }

  /** The spelling that `Encode` gives. */
  predicate Canonical(s: string) {
    Decode(s).Some? && Encode(Decode(s).value) == s
  }

  lemma SymbolValue(x: Sextet)
    ensures Value(Symbol(x)) == Some(x) && Symbol(x) != '\r' && Symbol(x) != '\n'
  {}

  lemma {:induction false} DigitsWritten(d: seq<Sextet>)
    ensures Digits(Write(d)) == Some(d)
  {
    if d != [] {
      var n := |d| - 1;
      DigitsWritten(d[..n]);
      SymbolValue(d[n]);
      assert Write(d)[..n] == Write(d[..n]) && d == d[..n] + [d[n]];
    }
  }

  lemma {:induction false} UnpackPacked(b: Bytes)
    ensures Unpack(Pack(b)) == Some(b)
  {
    var d := Pack(b);
    if |b| == 1 {
      assert d[0] as int * 4 + d[1] as int / 16 == b[0] as int;
      assert b == [b[0]];
    } else if |b| == 2 {
      assert d[0] as int * 4 + d[1] as int / 16 == b[0] as int;
      assert d[1] as int % 16 * 16 + d[2] as int / 4 == b[1] as int;
      assert b == [b[0], b[1]];
    } else if |b| >= 3 {
      UnpackPacked(b[3..]);
      assert d[4..] == Pack(b[3..]);
      assert d[0] as int * 4 + d[1] as int / 16 == b[0] as int;
      assert d[1] as int % 16 * 16 + d[2] as int / 4 == b[1] as int;
      assert d[2] as int % 4 * 64 + d[3] as int == b[2] as int;
      assert b == [b[0], b[1], b[2]] + b[3..];
    }
  }

  /** What is encoded decodes to the same bytes, so its spelling is the canonical one. */
  lemma DecodeEncoded(b: Bytes)
    ensures Decode(Encode(b)) == Some(b) && Canonical(Encode(b))
  {
    DigitsWritten(Pack(b));
    UnpackPacked(b);
  }

  /** Every text that decodes has other spellings: a line break more says the same. */
  lemma LineBreakIgnored(s: string)
    ensures Decode(s + "\n") == Decode(s) && s + "\n" != s
  {
    assert (s + "\n")[..|s|] == s;
  }
}
