/** Tokens as text: the hexadecimal printer and the parser that reads it back. */
module Hex {
  import opened Basics

  newtype Byte = n: int | 0 <= n < 256

  type Bytes = seq<Byte>

  type Ascii = c: char | c as int < 128

  const TOKEN_BYTES: nat := 128
  const TOKEN_CHARS: nat := 256

  /** The base 16 alphabet of section 8 of RFC 4648. */
  const ALPHABET: seq<Ascii> :=
    ['0', '1', '2', '3', '4', '5', '6', '7', '8', '9', 'A', 'B', 'C', 'D', 'E', 'F']

  function Digit(n: int): Ascii
    requires 0 <= n < 16
  {
    ALPHABET[n]
  }

  /** The value of a character as a base 16 digit; both cases are read. */
  function DigitValue(c: Ascii): Option<int> {
    if '0' <= c <= '9' then Some(c as int - '0' as int)
    else if 'A' <= c <= 'F' then Some(c as int - 'A' as int + 10)
    else if 'a' <= c <= 'f' then Some(c as int - 'a' as int + 10)
    else None
  }

  // ---------------------------------------------------------------- printing

  /** Two upper-case digits per byte, most significant first. */
  function Print(bytes: Bytes): (s: seq<Ascii>)
    ensures |s| == 2 * |bytes|
  {
    if bytes == [] then []
    else
      var b := bytes[|bytes| - 1] as int;
      Print(bytes[..|bytes| - 1]) + [Digit(b / 16), Digit(b % 16)]
  }

  method Display(bytes: Bytes) returns (s: seq<Ascii>)
    ensures s == Print(bytes)
  {
    s := [];
    for i := 0 to |bytes|
      invariant s == Print(bytes[..i])
    {
      assert bytes[..i + 1][..i] == bytes[..i];
      var b := bytes[i] as int;
      s := s + [Digit(b / 16), Digit(b % 16)];
    }
    assert bytes[..|bytes|] == bytes;
  }

  lemma {:induction false} PrintAt(bytes: Bytes, i: nat)
    requires i < |bytes|
    ensures Print(bytes)[2 * i] == Digit(bytes[i] as int / 16)
    ensures Print(bytes)[2 * i + 1] == Digit(bytes[i] as int % 16)
  {
    if i < |bytes| - 1 {
      PrintAt(bytes[..|bytes| - 1], i);
    }
  }

  // ---------------------------------------------------------------- parsing

  /** u8::from_str_radix on two characters: a leading plus sign is skipped, nothing else is. */
  function PairValue(high: Ascii, low: Ascii): (r: Option<Byte>) {
    if high == '+' then
      match DigitValue(low)
      case Some(v) => Some(v as Byte)
      case None => None
    else
      match (DigitValue(high), DigitValue(low))
      case (Some(h), Some(l)) => Some((16 * h + l) as Byte)
      case _ => None
  }

  datatype TokenError = TokenLengthError | TokenParseError

  predicate PairsReadable(s: seq<Ascii>)
    requires |s| == TOKEN_CHARS
  {
    forall i :: 0 <= i < TOKEN_BYTES ==> PairValue(s[2 * i], s[2 * i + 1]).Some?
  }

  function Parse(s: seq<Ascii>): (r: Result<Bytes, TokenError>)
    ensures r.Ok? ==> |r.value| == TOKEN_BYTES
  {
    if |s| != TOKEN_CHARS then Err(TokenLengthError)
    else if PairsReadable(s) then
      Ok(seq(TOKEN_BYTES, i requires 0 <= i < TOKEN_BYTES && PairsReadable(s) =>
        PairValue(s[2 * i], s[2 * i + 1]).value))
    else Err(TokenParseError)
  }

  // ---------------------------------------------------------------- the two together

  lemma DigitRoundTrip(n: int)
    requires 0 <= n < 16
    ensures DigitValue(Digit(n)) == Some(n)
    ensures Digit(n) != '+'
  {
  }

  lemma PrintedPair(bytes: Bytes, i: nat)
    requires |bytes| == TOKEN_BYTES && i < TOKEN_BYTES
    ensures PairValue(Print(bytes)[2 * i], Print(bytes)[2 * i + 1]) == Some(bytes[i])
  {
    PrintAt(bytes, i);
    DigitRoundTrip(bytes[i] as int / 16);
    DigitRoundTrip(bytes[i] as int % 16);
  }

  /** Every token survives being printed and read back. */
  lemma RoundTrip(bytes: Bytes)
    requires |bytes| == TOKEN_BYTES
    ensures Parse(Print(bytes)) == Ok(bytes)
  {
    var s := Print(bytes);
    forall i | 0 <= i < TOKEN_BYTES
      ensures PairValue(s[2 * i], s[2 * i + 1]) == Some(bytes[i])
    {
      PrintedPair(bytes, i);
    }
    assert Parse(s).value == bytes;
  }

  lemma PrintIsInjective(a: Bytes, b: Bytes)
    requires |a| == TOKEN_BYTES && |b| == TOKEN_BYTES
    ensures Print(a) == Print(b) <==> a == b
  {
    RoundTrip(a);
    RoundTrip(b);
  }

  predicate HexDigit(c: Ascii) {
    '0' <= c <= '9' || 'A' <= c <= 'F' || 'a' <= c <= 'f'
  }

  /** The language of the parser. */
  predicate InLanguage(s: seq<Ascii>) {
    && |s| == TOKEN_CHARS
    && forall i :: 0 <= i < TOKEN_BYTES ==> (HexDigit(s[2 * i]) || s[2 * i] == '+') && HexDigit(s[2 * i + 1])
  }

  function Upper(c: Ascii): Ascii {
    if 'a' <= c <= 'z' then (c as int - 32) as char else c
  }

  /** Upper case, with a plus sign in front of a digit read as a zero. */
  function Normal(s: seq<Ascii>): seq<Ascii> {
    seq(|s|, i requires 0 <= i < |s| => if i % 2 == 0 && s[i] == '+' then '0' else Upper(s[i]))
  }

  lemma UpperDigit(c: Ascii)
    requires HexDigit(c)
    ensures DigitValue(c).Some? && 0 <= DigitValue(c).value < 16 && Digit(DigitValue(c).value) == Upper(c)
  {
  }

  lemma PairFromDigits(high: Ascii, low: Ascii, h: int, l: int)
    requires 0 <= h < 16 && 0 <= l < 16 && DigitValue(low) == Some(l)
    requires if high == '+' then h == 0 else DigitValue(high) == Some(h)
    ensures PairValue(high, low) == Some((16 * h + l) as Byte)
    ensures (16 * h + l) / 16 == h && (16 * h + l) % 16 == l
  {
  }

  lemma NormalPair(high: Ascii, low: Ascii)
    requires (HexDigit(high) || high == '+') && HexDigit(low)
    ensures PairValue(high, low).Some?
    ensures Digit(PairValue(high, low).value as int / 16) == if high == '+' then '0' else Upper(high)
    ensures Digit(PairValue(high, low).value as int % 16) == Upper(low)
  {
    UpperDigit(low);
    if high == '+' {
      PairFromDigits(high, low, 0, DigitValue(low).value);
    } else {
      UpperDigit(high);
      PairFromDigits(high, low, DigitValue(high).value, DigitValue(low).value);
    }
  }

  lemma ReadableMeansInLanguage(s: seq<Ascii>)
    requires |s| == TOKEN_CHARS
    ensures PairsReadable(s) <==> InLanguage(s)
  {
  }

  lemma NormalAt(s: seq<Ascii>, i: nat)
    requires InLanguage(s) && Parse(s).Ok? && i < TOKEN_BYTES
    ensures Print(Parse(s).value)[2 * i] == Normal(s)[2 * i]
    ensures Print(Parse(s).value)[2 * i + 1] == Normal(s)[2 * i + 1]
  {
    var high, low := s[2 * i], s[2 * i + 1];
    assert Parse(s).value[i] == PairValue(high, low).value;
    NormalAtPair(s, i);
    PrintAt(Parse(s).value, i);
    NormalPair(high, low);
  }

  lemma NormalAtPair(s: seq<Ascii>, i: nat)
    requires 2 * i + 1 < |s|
    ensures Normal(s)[2 * i] == if s[2 * i] == '+' then '0' else Upper(s[2 * i])
    ensures Normal(s)[2 * i + 1] == Upper(s[2 * i + 1])
  {
  }

  /** Which texts are read, and that printing what was read normalises the text. */
  lemma ParseNormalises(s: seq<Ascii>)
    ensures Parse(s).Ok? <==> InLanguage(s)
    ensures Parse(s) == Err(TokenLengthError) <==> |s| != TOKEN_CHARS
    ensures Parse(s).Ok? ==> Print(Parse(s).value) == Normal(s)
  {
    if |s| == TOKEN_CHARS {
      ReadableMeansInLanguage(s);
    }
    if InLanguage(s) {
      forall k | 0 <= k < TOKEN_CHARS
        ensures Print(Parse(s).value)[k] == Normal(s)[k]
      {
        NormalAt(s, k / 2);
        assert k == 2 * (k / 2) || k == 2 * (k / 2) + 1;
      }
    }
  }

  /** Two texts denote the same token exactly when their normal forms agree. */
  lemma SameTokenSameNormalForm(a: seq<Ascii>, b: seq<Ascii>)
    requires Parse(a).Ok? && Parse(b).Ok?
    ensures Parse(a) == Parse(b) <==> Normal(a) == Normal(b)
  {
    ParseNormalises(a);
    ParseNormalises(b);
    PrintIsInjective(Parse(a).value, Parse(b).value);
  }
}
