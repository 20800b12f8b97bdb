/** The length limit of a shared text counts the bytes of its UTF-8 form, section 3 of RFC 3629. */
module InboxText {
  import opened InboxSpec

  type Byte = b: int | 0 <= b < 256

  function EncodeChar(c: char): seq<Byte> {
    var n := c as int;
    if n <= 0x7f then [n]
    else if n <= 0x7ff then [0xc0 + n / 64, 0x80 + n % 64]
    else if n <= 0xffff then [0xe0 + n / 4096, 0x80 + n / 64 % 64, 0x80 + n % 64]
    else [0xf0 + n / 262144, 0x80 + n / 4096 % 64, 0x80 + n / 64 % 64, 0x80 + n % 64]
  }

  function Encode(text: string): seq<Byte> { if text == "" then [] else EncodeChar(text[0]) + Encode(text[1..]) }

  /** How many bytes a first byte announces. */
  function Announced(b: Byte): nat { if b < 0xc0 then 1 else if b < 0xe0 then 2 else if b < 0xf0 then 3 else 4 }

  function CodePoint(bytes: seq<int>): int
    requires 1 <= |bytes| <= 4
  {
    match |bytes|
    case 1 => bytes[0]
    case 2 => (bytes[0] - 0xc0) * 64 + bytes[1] - 0x80
    case 3 => (bytes[0] - 0xe0) * 4096 + (bytes[1] - 0x80) * 64 + bytes[2] - 0x80
    case _ => (bytes[0] - 0xf0) * 262144 + (bytes[1] - 0x80) * 4096 + (bytes[2] - 0x80) * 64 + bytes[3] - 0x80
  }

  /** The code points of well-formed bytes. */
  function Decode(bytes: seq<Byte>): seq<int> {
    if bytes == [] || Announced(bytes[0]) > |bytes| then []
    else [CodePoint(bytes[..Announced(bytes[0])])] + Decode(bytes[Announced(bytes[0])..])
  }

  function CodePoints(text: string): seq<int> { seq(|text|, i requires 0 <= i < |text| => text[i] as int) }

  /** The first byte tells the length, and the bytes together the code point. */
  lemma ReadsChar(c: char)
    ensures |EncodeChar(c)| == Announced(EncodeChar(c)[0]) && CodePoint(EncodeChar(c)) == c as int
  {
    Digits(c as int);
  }

  /** The six-bit groups of a number make it up. */
  lemma Digits(n: nat)
    ensures n == n / 64 * 64 + n % 64
    ensures n == n / 4096 * 4096 + n / 64 % 64 * 64 + n % 64
    ensures n == n / 262144 * 262144 + n / 4096 % 64 * 4096 + n / 64 % 64 * 64 + n % 64
  {
    assert n / 64 / 64 == n / 4096 && n / 4096 / 64 == n / 262144;
  }

  lemma DecodesChar(c: char, rest: seq<Byte>)
    ensures Decode(EncodeChar(c) + rest) == [c as int] + Decode(rest)
  {
    hide EncodeChar, CodePoint;
    var n := |EncodeChar(c)|;
    ReadsChar(c);
    assert (EncodeChar(c) + rest)[..n] == EncodeChar(c) && (EncodeChar(c) + rest)[n..] == rest;
  }

  /** The encoding can be read back, and its length is what the limit of a share counts. */
  lemma {:induction false} LimitCountsEncodedBytes(text: string)
    ensures Decode(Encode(text)) == CodePoints(text)
    ensures Utf8(text) == |Encode(text)|
  {
    if text != "" {
      LimitCountsEncodedBytes(text[1..]);
      DecodesChar(text[0], Encode(text[1..]));
      assert CodePoints(text) == [text[0] as int] + CodePoints(text[1..]);
    }
  }
}
