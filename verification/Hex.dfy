/** Lower-case hexadecimal, as written by the digest helper. */
module Hex {
  import opened Basics

  function HexDigit(n: int): (c: char)
    requires 0 <= n < 16
  {
    "0123456789abcdef"[n]
  }

  function HexValue(c: char): (n: Option<int>)
    ensures n.Some? ==> 0 <= n.value < 16 && HexDigit(n.value) == c
  {
    if '0' <= c <= '9' then Some(c as int - '0' as int)
    else if 'a' <= c <= 'f' then Some(c as int - 'a' as int + 10)
    else None
  }

  function Encode(bytes: Bytes): (text: string)
    ensures |text| == 2 * |bytes|
    ensures forall i :: 0 <= i < |text| ==> HexValue(text[i]).Some?
  {
    if bytes == [] then "" else [HexDigit(bytes[0] / 16), HexDigit(bytes[0] % 16)] + Encode(bytes[1..])
  }

  function Decode(text: string): Option<Bytes> {
    if text == "" then Some([])
    else if |text| < 2 || HexValue(text[0]).None? || HexValue(text[1]).None? then None
    else match Decode(text[2..])
      case None => None
      case Some(rest) => Some([(HexValue(text[0]).value * 16 + HexValue(text[1]).value) as byte] + rest)
  }

  lemma HexValueOfDigit(n: int)
    requires 0 <= n < 16
    ensures HexValue(HexDigit(n)) == Some(n)
  {
    assert forall k :: 0 <= k < 16 ==>
      HexDigit(k) == if k < 10 then (k + '0' as int) as char else (k - 10 + 'a' as int) as char;
  }

  lemma {:induction false} DecodeEncode(bytes: Bytes)
    ensures Decode(Encode(bytes)) == Some(bytes)
  {
    hide HexDigit;
    hide HexValue;
    if bytes != [] {
      HexValueOfDigit(bytes[0] / 16);
      HexValueOfDigit(bytes[0] % 16);
      DecodeEncode(bytes[1..]);
      var text, rest := Encode(bytes), Encode(bytes[1..]);
      assert text[0] == HexDigit(bytes[0] / 16) && text[1] == HexDigit(bytes[0] % 16) && text[2..] == rest;
      assert bytes == [bytes[0]] + bytes[1..];
    }
  }

  /** Two lower-case digits per byte, the high half first. */
  lemma {:induction false} EncodeAt(bytes: Bytes, i: nat)
    requires i < |bytes|
    ensures Encode(bytes)[2 * i] == "0123456789abcdef"[bytes[i] / 16]
    ensures Encode(bytes)[2 * i + 1] == "0123456789abcdef"[bytes[i] % 16]
  {
    if i > 0 {
      EncodeAt(bytes[1..], i - 1);
    }
  }

  lemma EncodeInjective(a: Bytes, b: Bytes)
    requires Encode(a) == Encode(b)
    ensures a == b
  {
    DecodeEncode(a);
    DecodeEncode(b);
  }

  lemma {:induction false} EncodeAppend(a: Bytes, b: byte)
    ensures Encode(a + [b]) == Encode(a) + [HexDigit(b / 16), HexDigit(b % 16)]
  {
    if a == [] {
      assert a + [b] == [b];
    } else {
      EncodeAppend(a[1..], b);
      assert (a + [b])[1..] == a[1..] + [b];
    }
  }

  /** The digest loop: two digits are appended per byte. */
  method WriteHex(digest: Bytes) returns (hex: string)
    ensures |hex| == 2 * |digest| && Decode(hex) == Some(digest)
    ensures hex == Encode(digest)
  {
    hex := "";
    for i := 0 to |digest|
      invariant hex == Encode(digest[..i])
    {
      EncodeAppend(digest[..i], digest[i]);
      assert digest[..i] + [digest[i]] == digest[..i + 1];
      hex := hex + [HexDigit(digest[i] / 16), HexDigit(digest[i] % 16)];
    }
    assert digest[..|digest|] == digest;
    DecodeEncode(digest);
  }
}
