/** Length-prefixed JSON frames between the enclave and the broker. */
module Frames {
  import opened Basics

  const MAX_JSON_FRAME_LENGTH := 1024 * 1024

  datatype FrameError = Oversized | Truncated | TooLong | BadJson

  predicate Fits<T>(codec: Codec<T>, value: T) {
    |codec.render(value)| <= MAX_JSON_FRAME_LENGTH
  }

  predicate AllFit<T>(codec: Codec<T>, values: seq<T>) {
    forall k :: 0 <= k < |values| ==> Fits(codec, values[k])
  }

  function FrameOf<T>(codec: Codec<T>, value: T): (frame: Bytes)
    requires Fits(codec, value)
    ensures |frame| == 4 + |codec.render(value)|
  {
    Frame(codec.render(value))
  }

  /** `u32::to_be_bytes`. */
  function BigEndian(n: nat): (header: Bytes)
    requires n < 0x1_0000_0000
    ensures |header| == 4
  {
    [(n / 0x100_0000) as byte, (n / 0x1_0000 % 0x100) as byte, (n / 0x100 % 0x100) as byte, (n % 0x100) as byte]
  }

  function FromBigEndian(header: Bytes): nat
    requires |header| == 4
  {
    header[0] as int * 0x100_0000 + header[1] as int * 0x1_0000 + header[2] as int * 0x100 + header[3] as int
  }

  lemma BigEndianRoundTrip(n: nat)
    requires n < 0x1_0000_0000
    ensures FromBigEndian(BigEndian(n)) == n
  {
    var a, b, c := n / 0x100, n / 0x1_0000, n / 0x100_0000;
    assert n == a * 0x100 + n % 0x100 && a / 0x100 == b && b / 0x100 == c;
    assert a == b * 0x100 + a % 0x100 && b == c * 0x100 + b % 0x100;
  }

  function Frame(payload: Bytes): Bytes
    requires |payload| <= MAX_JSON_FRAME_LENGTH
  {
    BigEndian(|payload|) + payload
  }

  /** Reads one frame off the front of the input; on success also what is left. */
  function ReadFrame<T>(codec: Codec<T>, input: Bytes): Result<(T, Bytes), FrameError> {
    if |input| < 4 then Err(Truncated)
    else
      var len := FromBigEndian(input[..4]);
      if len > MAX_JSON_FRAME_LENGTH then Err(TooLong)
      else if |input| < 4 + len then Err(Truncated)
      else match codec.parse(input[4..4 + len])
        case None => Err(BadJson)
        case Some(value) => Ok((value, input[4 + len..]))
  }

  /** One direction of a connection: writing appends, reading consumes from the front. */
  class Wire {
    var bytes: Bytes

    constructor ()
      ensures bytes == []
    {
      bytes := [];
    }

    method WriteFrame<T>(codec: Codec<T>, value: T) returns (r: Result<(), FrameError>)
      modifies this
      ensures r.Ok? <==> |codec.render(value)| <= 1048576
      ensures r.Err? ==> bytes == old(bytes)
      ensures r.Ok? ==> bytes == old(bytes) + FrameOf(codec, value)
    {
      var payload := codec.render(value);
      if |payload| > MAX_JSON_FRAME_LENGTH {
        return Err(Oversized);
      }
      bytes := bytes + BigEndian(|payload|);
      bytes := bytes + payload;
      assert bytes == old(bytes) + FrameOf(codec, value);
      r := Ok(());
    }

    method ReadNext<T>(codec: Codec<T>) returns (r: Result<T, FrameError>)
      modifies this
      ensures match ReadFrame(codec, old(bytes))
              case Ok((value, rest)) => r == Ok(value) && bytes == rest
              case Err(e) => r == Err(e)
    {
      if |bytes| < 4 {
        return Err(Truncated);
      }
      var len := FromBigEndian(bytes[..4]);
      bytes := bytes[4..];
      if len > MAX_JSON_FRAME_LENGTH {
        return Err(TooLong);
      }
      if |bytes| < len {
        return Err(Truncated);
      }
      var payload := bytes[..len];
      assert payload == old(bytes)[4..4 + len] && bytes[len..] == old(bytes)[4 + len..];
      bytes := bytes[len..];
      match codec.parse(payload)
      case None => r := Err(BadJson);
      case Some(value) => r := Ok(value);
    }
  }

  /** Reads frames until one fails: the decoded values and the final error. */
  function ReadAll<T>(codec: Codec<T>, input: Bytes): (seq<T>, FrameError)
    decreases |input|
  {
    match ReadFrame(codec, input)
    case Err(e) => ([], e)
    case Ok((value, rest)) => var more := ReadAll(codec, rest); ([value] + more.0, more.1)
  }

  function Frames<T>(codec: Codec<T>, values: seq<T>): Bytes
    requires AllFit(codec, values)
  {
    if values == [] then [] else assert Fits(codec, values[0]); FrameOf(codec, values[0]) + Frames(codec, values[1..])
  }

  lemma ReadWritten<T(!new)>(codec: Codec<T>, value: T, tail: Bytes)
    requires Inverts(codec) && Fits(codec, value)
    ensures ReadFrame(codec, FrameOf(codec, value) + tail) == Ok((value, tail))
  {
    var payload := codec.render(value);
    var input := Frame(payload) + tail;
    BigEndianRoundTrip(|payload|);
    assert input[..4] == BigEndian(|payload|);
    assert input[4..4 + |payload|] == payload && input[4 + |payload|..] == tail;
  }

  /** A strict prefix of a frame is never mistaken for one. */
  lemma ReadCut<T>(codec: Codec<T>, value: T, cut: nat)
    requires Fits(codec, value) && cut < |FrameOf(codec, value)|
    ensures ReadFrame(codec, FrameOf(codec, value)[..cut]) == Err(Truncated)
  {
    var payload := codec.render(value);
    var frame := Frame(payload);
    BigEndianRoundTrip(|payload|);
    if cut >= 4 {
      assert frame[..cut][..4] == frame[..4] == BigEndian(|payload|);
    }
  }

  /** A header that announces too much is refused whatever follows it, even nothing. */
  lemma OversizedHeader<T>(codec: Codec<T>, n: nat, tail: Bytes)
    requires MAX_JSON_FRAME_LENGTH < n < 0x1_0000_0000
    ensures ReadFrame(codec, BigEndian(n) + tail) == Err(TooLong)
  {
    BigEndianRoundTrip(n);
    assert (BigEndian(n) + tail)[..4] == BigEndian(n);
  }

  /** Four bytes, the highest first. */
  lemma HeaderIsNumber(n: nat, h: Bytes)
    requires n < 0x1_0000_0000 && |h| == 4
    ensures BigEndian(n) == h <==> n == h[0] as int * 16777216 + h[1] as int * 65536 + h[2] as int * 256 + h[3] as int
    ensures FromBigEndian(h) == h[0] as int * 16777216 + h[1] as int * 65536 + h[2] as int * 256 + h[3] as int
  {
    BigEndianRoundTrip(n);
    HeaderUnique(h);
  }

  lemma HeaderUnique(h: Bytes)
    requires |h| == 4
    ensures FromBigEndian(h) < 0x1_0000_0000 && BigEndian(FromBigEndian(h)) == h
  {
    var a: int, b: int, c: int, d: int := h[0], h[1], h[2], h[3];
    var n := FromBigEndian(h);
    assert n == (a * 0x1_0000 + b * 0x100 + c) * 0x100 + d;
    assert n / 0x100 == a * 0x1_0000 + b * 0x100 + c && n % 0x100 == d;
    assert n / 0x1_0000 == a * 0x100 + b && n / 0x100 % 0x100 == c;
    assert n / 0x100_0000 == a && n / 0x1_0000 % 0x100 == b;
  }

  /** Reading succeeds exactly on a header of four bytes, a payload of the announced length, at most 1 MiB, that parses. */
  lemma ReadFrameExact<T>(codec: Codec<T>, input: Bytes, value: T, rest: Bytes)
    ensures ReadFrame(codec, input) == Ok((value, rest)) <==>
            exists payload: Bytes :: IsFrame(input, payload, rest) && codec.parse(payload) == Some(value)
  {
    if ReadFrame(codec, input) == Ok((value, rest)) {
      var len := FromBigEndian(input[..4]);
      var payload := input[4..4 + len];
      HeaderUnique(input[..4]);
      hide BigEndian;
      hide FromBigEndian;
      assert input == input[..4] + payload + rest;
      assert IsFrame(input, payload, rest) && codec.parse(payload) == Some(value);
    }
    if payload: Bytes :| IsFrame(input, payload, rest) && codec.parse(payload) == Some(value) {
      FrameReads(codec, input, payload, rest);
    }
  }

  ghost predicate IsFrame(input: Bytes, payload: Bytes, rest: Bytes) {
    |payload| <= 1048576 && input == BigEndian(|payload|) + payload + rest
  }

  lemma FrameReads<T>(codec: Codec<T>, input: Bytes, payload: Bytes, rest: Bytes)
    requires IsFrame(input, payload, rest) && codec.parse(payload).Some?
    ensures ReadFrame(codec, input) == Ok((codec.parse(payload).value, rest))
  {
    BigEndianRoundTrip(|payload|);
    hide BigEndian;
    hide FromBigEndian;
    assert input[..4] == BigEndian(|payload|);
    assert input[4..4 + |payload|] == payload && input[4 + |payload|..] == rest;
  }

  lemma ReadAllStep<T(!new)>(codec: Codec<T>, value: T, rest: Bytes)
    requires Inverts(codec) && Fits(codec, value)
    ensures ReadAll(codec, FrameOf(codec, value) + rest) == ([value] + ReadAll(codec, rest).0, ReadAll(codec, rest).1)
  {
    ReadWritten(codec, value, rest);
  }

  /** Round trip of a whole stream: the frames of a list decode to that list, and what follows them is untouched. */
  lemma {:induction false} ReadAllFrames<T(!new)>(codec: Codec<T>, values: seq<T>, tail: Bytes)
    requires Inverts(codec) && AllFit(codec, values)
    ensures ReadAll(codec, Frames(codec, values) + tail).0 == values + ReadAll(codec, tail).0
    ensures ReadAll(codec, Frames(codec, values) + tail).1 == ReadAll(codec, tail).1
  {
    var after := ReadAll(codec, tail).0;
    if values == [] {
      assert Frames(codec, values) + tail == tail && values + after == after;
    } else {
      ReadAllFrames(codec, values[1..], tail);
      PrependFrame(codec, values, tail);
      FirstAndRest(values, after);
    }
  }

  lemma FirstAndRest<T>(values: seq<T>, after: seq<T>)
    requires values != []
    ensures [values[0]] + (values[1..] + after) == values + after
  {
  }

  lemma PrependFrame<T(!new)>(codec: Codec<T>, values: seq<T>, tail: Bytes)
    requires Inverts(codec) && values != [] && AllFit(codec, values) && AllFit(codec, values[1..])
    ensures ReadAll(codec, Frames(codec, values) + tail)
            == ([values[0]] + ReadAll(codec, Frames(codec, values[1..]) + tail).0,
                ReadAll(codec, Frames(codec, values[1..]) + tail).1)
  {
    var rest, input := Frames(codec, values[1..]) + tail, Frames(codec, values) + tail;
    assert Fits(codec, values[0]) && input == FrameOf(codec, values[0]) + rest by {
      FramesUnfold(codec, values);
    }
    ReadAllStep(codec, values[0], rest);
  }

  lemma FramesUnfold<T>(codec: Codec<T>, values: seq<T>)
    requires AllFit(codec, values) && values != []
    ensures Fits(codec, values[0]) && AllFit(codec, values[1..])
    ensures Frames(codec, values) == FrameOf(codec, values[0]) + Frames(codec, values[1..])
  {
  }

  /** How many whole frames lie in the first `cut` bytes. */
  function Complete<T>(codec: Codec<T>, values: seq<T>, cut: nat): (k: nat)
    requires AllFit(codec, values)
    ensures k <= |values|
  {
    if values == [] then 0
    else if assert Fits(codec, values[0]); cut < |FrameOf(codec, values[0])| then 0
    else 1 + Complete(codec, values[1..], cut - |FrameOf(codec, values[0])|)
  }

  lemma {:induction false} CompleteIsMaximal<T>(codec: Codec<T>, values: seq<T>, cut: nat)
    requires AllFit(codec, values)
    ensures var k := Complete(codec, values, cut);
            && |Frames(codec, values[..k])| <= cut
            && (k < |values| ==> cut < |Frames(codec, values[..k + 1])|)
  {
    if values != [] {
      var first := FrameOf(codec, values[0]);
      if cut < |first| {
        assert values[..1][1..] == [];
      } else {
        CompleteIsMaximal(codec, values[1..], cut - |first|);
        var k := Complete(codec, values[1..], cut - |first|);
        assert values[..k + 1][1..] == values[1..][..k];
        if k + 1 < |values| {
          assert values[..k + 2][1..] == values[1..][..k + 1];
        }
      }
    }
  }

  lemma ReadAllCutFirst<T(!new)>(codec: Codec<T>, values: seq<T>, cut: nat)
    requires values != [] && AllFit(codec, values) && Fits(codec, values[0]) && cut < |FrameOf(codec, values[0])|
    ensures ReadAll(codec, Frames(codec, values)[..cut]) == ([], Truncated)
  {
    hide ReadFrame;
    hide FrameOf;
    FramesUnfold(codec, values);
    var first := FrameOf(codec, values[0]);
    assert (first + Frames(codec, values[1..]))[..cut] == first[..cut];
    ReadCut(codec, values[0], cut);
  }

  lemma ReadAllCutRest<T(!new)>(codec: Codec<T>, values: seq<T>, cut: nat)
    requires Inverts(codec) && values != [] && AllFit(codec, values) && Fits(codec, values[0]) && AllFit(codec, values[1..])
    requires |FrameOf(codec, values[0])| <= cut <= |Frames(codec, values)|
    ensures cut - |FrameOf(codec, values[0])| <= |Frames(codec, values[1..])|
    ensures var rest := ReadAll(codec, Frames(codec, values[1..])[..cut - |FrameOf(codec, values[0])|]);
            ReadAll(codec, Frames(codec, values)[..cut]) == ([values[0]] + rest.0, rest.1)
  {
    FramesUnfold(codec, values);
    hide ReadAll;
    hide FrameOf;
    hide Frames;
    var first, more := FrameOf(codec, values[0]), Frames(codec, values[1..]);
    assert (first + more)[..cut] == first + more[..cut - |first|];
    ReadAllStep(codec, values[0], more[..cut - |first|]);
  }

  lemma CompleteUnfold<T>(codec: Codec<T>, values: seq<T>, cut: nat)
    requires values != [] && AllFit(codec, values) && Fits(codec, values[0]) && AllFit(codec, values[1..])
    ensures var n := |FrameOf(codec, values[0])|;
            Complete(codec, values, cut) == if cut < n then 0 else 1 + Complete(codec, values[1..], cut - n)
  {
    hide FrameOf;
  }

  /** Cutting the stream anywhere yields exactly the complete frames and then an end-of-input error. */
  lemma {:induction false} ReadAllCut<T(!new)>(codec: Codec<T>, values: seq<T>, cut: nat)
    requires Inverts(codec) && AllFit(codec, values)
    requires cut <= |Frames(codec, values)|
    ensures ReadAll(codec, Frames(codec, values)[..cut])
            == (values[..Complete(codec, values, cut)], Truncated)
  {
    if values == [] {
      assert Frames(codec, values)[..cut] == [];
    } else {
      hide ReadAll;
      hide FrameOf;
      hide Frames;
      hide Complete;
      hide AllFit;
      hide Fits;
      hide Inverts;
      FramesUnfold(codec, values);
      CompleteUnfold(codec, values, cut);
      if cut < |FrameOf(codec, values[0])| {
        ReadAllCutFirst(codec, values, cut);
      } else {
        var left := cut - |FrameOf(codec, values[0])|;
        ReadAllCutRest(codec, values, cut);
        ReadAllCut(codec, values[1..], left);
        TakeOneMore(values, Complete(codec, values[1..], left));
      }
    }
  }

  lemma TakeOneMore<T>(values: seq<T>, k: nat)
    requires values != [] && k <= |values| - 1
    ensures values[..k + 1] == [values[0]] + values[1..][..k]
  {
  }

  // ----- how long the JSON of a body is (RFC 8259) -----

  function Decimal(b: byte): (text: string)
    ensures 1 <= |text| <= 3
    ensures forall i :: 0 <= i < |text| ==> '0' <= text[i] <= '9'
  {
    if b < 10 then [DecimalDigit(b)]
    else if b < 100 then [DecimalDigit(b / 10), DecimalDigit(b % 10)]
    else [DecimalDigit(b / 100), DecimalDigit(b / 10 % 10), DecimalDigit(b % 10)]
  }

  function DecimalDigit(n: int): char
    requires 0 <= n < 10
  {
    ('0' as int + n) as char
  }

  function Elements(body: Bytes): string {
    if body == [] then ""
    else if |body| == 1 then Decimal(body[0])
    else Decimal(body[0]) + "," + Elements(body[1..])
  }

  /** A byte vector is sent as an array of numbers. */
  function ByteArray(body: Bytes): string {
    "[" + Elements(body) + "]"
  }

  /** UTF-8 length of a text. */
  function Size(text: string): (n: nat)
    ensures n >= |text|
    ensures (forall i :: 0 <= i < |text| ==> text[i] as int < 0x80) ==> n == |text|
  {
    if text == "" then 0
    else (var u := text[0] as int; if u < 0x80 then 1 else if u < 0x800 then 2 else if u < 0x1_0000 then 3 else 4)
         + Size(text[1..])
  }

  function Escape(c: char): string {
    if c == '\"' then "\\\""
    else if c == '\\' then "\\\\"
    else if c as int >= 0x20 then [c]
    else if c as int == 8 then "\\b"
    else if c as int == 9 then "\\t"
    else if c as int == 10 then "\\n"
    else if c as int == 12 then "\\f"
    else if c as int == 13 then "\\r"
    else "\\u00" + [DecimalDigit(c as int / 16), "0123456789abcdef"[c as int % 16]]
  }

  /** Exactly quotes, backslashes and control characters are escaped, and no control character is left. */
  lemma EscapeExact(c: char)
    ensures Escape(c) == [c] <==> c != '\"' && c != '\\' && c as int >= 0x20
    ensures Escape(c) != [c] ==> |Escape(c)| >= 2 && Escape(c)[0] == '\\'
    ensures forall i :: 0 <= i < |Escape(c)| ==> Escape(c)[i] as int >= 0x20
  {
  }

  function EscapeAll(s: string): string {
    if s == "" then "" else Escape(s[0]) + EscapeAll(s[1..])
  }

  function Quoted(s: string): string {
    "\"" + EscapeAll(s) + "\""
  }

  function SaveRequest(bucket: string, key: string, body: Bytes): string {
    "{\"SaveObjectIfAbsent\":{\"bucket\":" + Quoted(bucket) + ",\"key\":" + Quoted(key)
    + ",\"body\":" + ByteArray(body) + "}}"
  }

  function LoadResponse(body: Bytes): string {
    "{\"Object\":" + ByteArray(body) + "}"
  }

  /** The digits of a byte spell its value, without a leading zero. */
  lemma DecimalSpells(b: byte)
    ensures var t := Decimal(b); var v := (i: int) requires 0 <= i < |t| => t[i] as int - '0' as int;
            && b == (if |t| == 1 then v(0) else if |t| == 2 then 10 * v(0) + v(1) else 100 * v(0) + 10 * v(1) + v(2))
            && (|t| > 1 ==> t[0] != '0')
  {
  }

  lemma {:induction false} ElementsSize(body: Bytes)
    requires body != []
    ensures 2 * |body| - 1 <= |Elements(body)| <= 4 * |body| - 1
    ensures forall i :: 0 <= i < |Elements(body)| ==> Elements(body)[i] as int < 0x80
  {
    if |body| > 1 {
      ElementsSize(body[1..]);
    }
  }

  /** The array of n >= 1 bytes takes between 2n + 1 and 4n + 1 characters, all ASCII. */
  lemma ByteArraySize(body: Bytes)
    requires body != []
    ensures 2 * |body| + 1 <= Size(ByteArray(body)) <= 4 * |body| + 1
    ensures Size(ByteArray(body)) == |ByteArray(body)|
  {
    ElementsSize(body);
    var text := ByteArray(body);
    assert forall i :: 0 <= i < |text| ==> text[i] as int < 0x80;
  }

  lemma LoadResponseSize(body: Bytes)
    ensures Size(LoadResponse(body)) == |ByteArray(body)| + 11
  {
    if body != [] {
      ElementsSize(body);
    }
    var text := LoadResponse(body);
    assert forall i :: 0 <= i < |text| ==> text[i] as int < 0x80;
  }

  lemma SaveRequestSize(bucket: string, key: string, body: Bytes)
    ensures Size(SaveRequest(bucket, key, body)) >= |ByteArray(body)| + 52
  {
    hide EscapeAll;
    hide Elements;
    var open, mid, end := "{\"SaveObjectIfAbsent\":{\"bucket\":", ",\"key\":", ",\"body\":";
    assert |open| == 32 && |mid| == 7 && |end| == 8;
    assert |SaveRequest(bucket, key, body)|
           == |open| + |Quoted(bucket)| + |mid| + |Quoted(key)| + |end| + |ByteArray(body)| + 2;
  }

  /** Nothing saved through the broker is unreadable through it: if the save request fits, so does the load response. */
  lemma SavedObjectsAreLoadable(bucket: string, key: string, body: Bytes)
    requires Size(SaveRequest(bucket, key, body)) <= MAX_JSON_FRAME_LENGTH
    ensures Size(LoadResponse(body)) + 41 <= Size(SaveRequest(bucket, key, body))
    ensures Size(LoadResponse(body)) <= MAX_JSON_FRAME_LENGTH
  {
    LoadResponseSize(body);
    SaveRequestSize(bucket, key, body);
  }
}
