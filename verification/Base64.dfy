/** Base64 with the standard alphabet and mandatory canonical padding (RFC 4648, section 4). */
module Base64 {
  import opened Basics

  function Digit(n: int): (c: char)
    requires 0 <= n < 64
    ensures c != '='
  {
    if n < 26 then (n + 'A' as int) as char
    else if n < 52 then (n - 26 + 'a' as int) as char
    else if n < 62 then (n - 52 + '0' as int) as char
    else if n == 62 then '+' else '/'
  }

  function Value(c: char): (n: Option<int>)
    ensures n.Some? ==> 0 <= n.value < 64 && Digit(n.value) == c
    ensures n.None? ==> forall k :: 0 <= k < 64 ==> Digit(k) != c
  {
    if 'A' <= c <= 'Z' then Some(c as int - 'A' as int)
    else if 'a' <= c <= 'z' then Some(c as int - 'a' as int + 26)
    else if '0' <= c <= '9' then Some(c as int - '0' as int + 52)
    else if c == '+' then Some(62)
    else if c == '/' then Some(63)
    else None
  }

  function Encode(bytes: Bytes): (text: string)
    ensures |text| == (|bytes| + 2) / 3 * 4
  {
    if |bytes| == 0 then ""
    else if |bytes| == 1 then OneByte(bytes[0])
    else if |bytes| == 2 then TwoBytes(bytes[0], bytes[1])
    else
      Group(bytes[0], bytes[1], bytes[2]) + Encode(bytes[3..])
  }

  function OneByte(a: byte): (text: string)
    ensures |text| == 4 && text[3] == '='
  {
    [Digit(a / 4), Digit(a % 4 * 16), '=', '=']
  }

  function TwoBytes(a: byte, b: byte): (text: string)
    ensures |text| == 4 && text[3] == '='
  {
    [Digit(a / 4), Digit(a % 4 * 16 + b / 16), Digit(b % 16 * 4), '=']
  }

  function Group(a: byte, b: byte, c: byte): (text: string)
    ensures |text| == 4 && text[3] != '='
  {
    [Digit(a / 4), Digit(a % 4 * 16 + b / 16), Digit(b % 16 * 4 + c / 64), Digit(c % 64)]
  }

  /** Strict decoding: padding only at the end, no stray bits below the last byte. */
  function Decode(text: string): Option<Bytes> {
    if |text| == 0 then Some([])
    else if |text| < 4 then None
    else if |text| == 4 && text[3] == '=' then DecodeLast(text)
    else
      match (DecodeGroup(text[..4]), Decode(text[4..]))
      case (Some(group), Some(rest)) => Some(group + rest)
      case _ => None
  }

  function DecodeGroup(text: string): (group: Option<Bytes>)
    requires |text| == 4
    ensures group.Some? ==> |group.value| == 3
  {
    match (Value(text[0]), Value(text[1]), Value(text[2]), Value(text[3]))
    case (Some(p), Some(q), Some(r), Some(s)) =>
      Some([(p * 4 + q / 16) as byte, (q % 16 * 16 + r / 4) as byte, (r % 4 * 64 + s) as byte])
    case _ => None
  }

  /** The final quad when it carries padding. */
  function DecodeLast(text: string): (last: Option<Bytes>)
    requires |text| == 4 && text[3] == '='
    ensures last.Some? ==> 1 <= |last.value| <= 2
  {
    match (Value(text[0]), Value(text[1]))
    case (Some(p), Some(q)) =>
      if text[2] == '=' then
        if q % 16 == 0 then Some([(p * 4 + q / 16) as byte]) else None
      else
        (match Value(text[2])
         case Some(r) => if r % 4 == 0 then Some([(p * 4 + q / 16) as byte, (q % 16 * 16 + r / 4) as byte]) else None
         case None => None)
    case _ => None
  }

  lemma UpperDigit(n: nat)
    requires n < 26
    ensures Digit(n) == "ABCDEFGHIJKLMNOPQRSTUVWXYZ"[n]
  {
    assert forall k :: 0 <= k < 26 ==> "ABCDEFGHIJKLMNOPQRSTUVWXYZ"[k] == (k + 65) as char;
  }

  lemma LowerDigit(n: nat)
    requires n < 26
    ensures Digit(n + 26) == "abcdefghijklmnopqrstuvwxyz"[n]
  {
    assert forall k :: 0 <= k < 26 ==> "abcdefghijklmnopqrstuvwxyz"[k] == (k + 97) as char;
  }

  /** The digits are those of table 1 of RFC 4648, in order. */
  lemma DigitsInOrder(n: nat)
    requires n < 64
    ensures Digit(n) == if n < 26 then "ABCDEFGHIJKLMNOPQRSTUVWXYZ"[n]
                        else if n < 52 then "abcdefghijklmnopqrstuvwxyz"[n - 26]
                        else "0123456789+/"[n - 52]
  {
    if n < 26 {
      UpperDigit(n);
    } else if n < 52 {
      LowerDigit(n - 26);
    }
  }

  lemma Divided(n: nat, d: nat, q: nat, r: nat)
    requires n == d * q + r && r < d && (d == 64 || d == 4096 || d == 262144)
    ensures n / d == q && n % d == r
  {
    if d == 64 {
    } else if d == 4096 {
    } else {
    }
  }

  /** Three bytes are one number of 24 bits, written in four digits of six bits, the highest first. */
  lemma GroupIsNumber(a: byte, b: byte, c: byte)
    ensures var n: int := a as int * 65536 + b as int * 256 + c as int;
            Group(a, b, c) == [Digit(n / 262144), Digit(n / 4096 % 64), Digit(n / 64 % 64), Digit(n % 64)]
  {
    hide Digit;
    var x: nat, y: nat, z: nat := a, b, c;
    var n := x * 65536 + y * 256 + z;
    Divided(n, 262144, x / 4, x % 4 * 65536 + y * 256 + z);
    Divided(n, 4096, x * 16 + y / 16, y % 16 * 256 + z);
    Divided(n / 4096, 64, x / 4, x % 4 * 16 + y / 16);
    Divided(n, 64, x * 1024 + y * 4 + z / 64, z % 64);
    Divided(n / 64, 64, x * 16 + y / 16, y % 16 * 4 + z / 64);
  }

  /** A rest of one or two bytes is filled up with zero bits on the right, and the text with padding. */
  lemma RestIsNumber(a: byte, b: byte)
    ensures OneByte(a) == [Digit(a as int * 16 / 64), Digit(a as int * 16 % 64), '=', '=']
    ensures var n: int := (a as int * 256 + b as int) * 4;
            TwoBytes(a, b) == [Digit(n / 4096), Digit(n / 64 % 64), Digit(n % 64), '=']
  {
    hide Digit;
    var x: nat, y: nat := a, b;
    var n := (x * 256 + y) * 4;
    Divided(x * 16, 64, x / 4, x % 4 * 16);
    Divided(n, 4096, x / 4, x % 4 * 1024 + y * 4);
    Divided(n, 64, x * 16 + y / 16, y % 16 * 4);
    Divided(n / 64, 64, x / 4, x % 4 * 16 + y / 16);
  }

  /** The text of the bytes from here on, up to three. */
  function Chunk(bytes: Bytes, i: nat): (text: string)
    requires i < |bytes|
    ensures |text| == 4
  {
    if i + 2 < |bytes| then Group(bytes[i], bytes[i + 1], bytes[i + 2])
    else if i + 1 < |bytes| then TwoBytes(bytes[i], bytes[i + 1])
    else OneByte(bytes[i])
  }

  lemma EncodeFirst(bytes: Bytes)
    requires bytes != []
    ensures Encode(bytes)[..4] == Chunk(bytes, 0)
  {
    hide Group;
    hide OneByte;
    hide TwoBytes;
    if |bytes| >= 3 {
      EncodeGroup(bytes);
    }
  }

  lemma ChunkLater(bytes: Bytes, i: nat)
    requires 3 <= i < |bytes|
    ensures Chunk(bytes, i) == Chunk(bytes[3..], i - 3)
  {
    hide Group;
    hide OneByte;
    hide TwoBytes;
  }

  /** Every position of the encoding: whole groups in order, then the rest. */
  lemma {:induction false} EncodeAt(bytes: Bytes, k: nat)
    requires 3 * k < |bytes|
    ensures Encode(bytes)[4 * k..4 * k + 4] == Chunk(bytes, 3 * k)
  {
    hide Encode;
    hide Chunk;
    if k == 0 {
      EncodeFirst(bytes);
    } else {
      EncodeGroup(bytes);
      EncodeAt(bytes[3..], k - 1);
      ChunkLater(bytes, 3 * k);
      LaterSlice(Group(bytes[0], bytes[1], bytes[2]), Encode(bytes[3..]), k);
    }
  }

  lemma EncodeGroup(bytes: Bytes)
    requires |bytes| >= 3
    ensures Encode(bytes) == Group(bytes[0], bytes[1], bytes[2]) + Encode(bytes[3..])
  {
    hide Group;
    if |bytes| == 3 {
      assert bytes[3..] == [];
    }
  }

  lemma LaterSlice(group: string, rest: string, k: nat)
    requires |group| == 4 && k > 0 && 4 * k <= |rest|
    ensures (group + rest)[4 * k..4 * k + 4] == rest[4 * (k - 1)..4 * (k - 1) + 4]
  {
  }

  lemma ValueOfDigit(n: int)
    requires 0 <= n < 64
    ensures Value(Digit(n)) == Some(n)
  {
  }

  lemma GroupRoundTrip(a: byte, b: byte, c: byte)
    ensures DecodeGroup(Group(a, b, c)) == Some([a, b, c])
  {
    hide Digit;
    hide Value;
    var p, q, r, s := a / 4, a % 4 * 16 + b / 16, b % 16 * 4 + c / 64, c % 64;
    ValueOfDigit(p);
    ValueOfDigit(q);
    ValueOfDigit(r);
    ValueOfDigit(s);
    assert q / 16 == a % 4 && q % 16 == b / 16;
    assert r / 4 == b % 16 && r % 4 == c / 64;
  }

  lemma OneByteRoundTrip(a: byte)
    ensures DecodeLast(OneByte(a)) == Some([a])
  {
    hide Digit;
    hide Value;
    ValueOfDigit(a / 4);
    ValueOfDigit(a % 4 * 16);
  }

  lemma TwoBytesRoundTrip(a: byte, b: byte)
    ensures DecodeLast(TwoBytes(a, b)) == Some([a, b])
  {
    hide Digit;
    hide Value;
    var p, q, r := a / 4, a % 4 * 16 + b / 16, b % 16 * 4;
    ValueOfDigit(p);
    ValueOfDigit(q);
    ValueOfDigit(r);
    assert p * 4 + q / 16 == a && q % 16 * 16 + r / 4 == b;
  }

  lemma {:induction false} DecodeEncode(bytes: Bytes)
    ensures Decode(Encode(bytes)) == Some(bytes)
  {
    hide Group;
    hide DecodeGroup;
    hide OneByte;
    hide TwoBytes;
    hide DecodeLast;
    if |bytes| == 0 {
    } else if |bytes| == 1 {
      OneByteRoundTrip(bytes[0]);
      assert bytes == [bytes[0]];
    } else if |bytes| == 2 {
      TwoBytesRoundTrip(bytes[0], bytes[1]);
      assert bytes == [bytes[0], bytes[1]];
    } else {
      var a, b, c := bytes[0], bytes[1], bytes[2];
      GroupRoundTrip(a, b, c);
      DecodeEncode(bytes[3..]);
      var text := Encode(bytes);
      assert text[..4] == Group(a, b, c) && text[4..] == Encode(bytes[3..]);
      assert bytes == [a, b, c] + bytes[3..];
    }
  }

  lemma GroupCanonical(text: string)
    requires |text| == 4 && DecodeGroup(text).Some?
    ensures var g := DecodeGroup(text).value; Group(g[0], g[1], g[2]) == text
  {
    hide Digit;
    hide Value;
    var p, q, r, s := Value(text[0]).value, Value(text[1]).value, Value(text[2]).value, Value(text[3]).value;
    var a, b, c := p * 4 + q / 16, q % 16 * 16 + r / 4, r % 4 * 64 + s;
    assert a / 4 == p && a % 4 * 16 + b / 16 == q;
    assert b % 16 * 4 + c / 64 == r && c % 64 == s;
    assert text == [text[0], text[1], text[2], text[3]];
  }

  lemma LastCanonical(text: string)
    requires |text| == 4 && text[3] == '=' && DecodeLast(text).Some?
    ensures Encode(DecodeLast(text).value) == text
  {
    hide Digit;
    hide Value;
    var p, q := Value(text[0]).value, Value(text[1]).value;
    var a := p * 4 + q / 16;
    assert a / 4 == p;
    assert text == [text[0], text[1], text[2], text[3]];
    if text[2] == '=' {
      assert a % 4 * 16 == q;
    } else {
      var r := Value(text[2]).value;
      var b := q % 16 * 16 + r / 4;
      assert a % 4 * 16 + b / 16 == q && b % 16 * 4 == r;
    }
  }

  /** Only encodings decode: with the lemma above, `Decode` accepts exactly the canonical texts. */
  lemma {:induction false} EncodeDecode(text: string)
    requires Decode(text).Some?
    ensures Encode(Decode(text).value) == text
  {
    if |text| == 0 {
    } else if |text| == 4 && text[3] == '=' {
      LastCanonical(text);
    } else {
      GroupCanonical(text[..4]);
      EncodeDecode(text[4..]);
      var g, rest := DecodeGroup(text[..4]).value, Decode(text[4..]).value;
      assert (g + rest)[3..] == rest;
      assert text == text[..4] + text[4..];
    }
  }
}
