/** The framing of the API server: a message is a three-element MessagePack array of a type, a method name
    and a payload, the last two in the bin format family. */
module Wire {
  import opened Wrappers

  newtype byte = x: int | 0 <= x < 0x100

  type Bytes = seq<byte>

  const FIXED_ARRAY_3: byte := 0x93
  const BIN_8: byte := 0xC4
  const BIN_16: byte := 0xC5
  const BIN_32: byte := 0xC6
  const U_8: byte := 0xCC

  /** From a request to a call. */
  predicate IsMessageType(t: byte) {
    1 <= t <= 6
  }

  datatype Message = Message(messageType: byte, name: Bytes, payload: Bytes)

  datatype Error = UnexpectedEnd | InvalidRequest

  datatype Read<+T> = Done(value: T, rest: Bytes) | Failed(error: Error)

  // ----- big-endian lengths -----

  function Low(n: nat): byte {
    (n % 0x100) as byte
  }

  /** The last `width` bytes of a length, the high ones first; what does not fit is cut off. */
  function BigEndian(n: nat, width: nat): Bytes {
    if width == 0 then [] else BigEndian(n / 0x100, width - 1) + [Low(n)]
  }

  function FromBigEndian(s: Bytes): nat {
    if s == [] then 0 else FromBigEndian(s[..|s| - 1]) * 0x100 + s[|s| - 1] as nat
  }

  function Power(width: nat): nat {
    if width == 0 then 1 else 0x100 * Power(width - 1)
  }

  lemma {:induction false} BigEndianRoundTrip(n: nat, width: nat)
    ensures |BigEndian(n, width)| == width
    ensures n < Power(width) ==> FromBigEndian(BigEndian(n, width)) == n
    ensures FromBigEndian(BigEndian(n, width)) < Power(width)
  {
    if width > 0 {
      BigEndianRoundTrip(n / 0x100, width - 1);
      var s := BigEndian(n, width);
      assert s[..|s| - 1] == BigEndian(n / 0x100, width - 1);
    }
  }

  lemma Powers()
    ensures Power(1) == 0x100 && Power(2) == 0x1_0000 && Power(4) == 0x1_0000_0000
  {
    assert Power(3) == 0x100_0000;
  }

  // ----- one binary -----

  function EncodeBin(p: Bytes): Bytes {
    if |p| < 0x100 then [BIN_8] + BigEndian(|p|, 1) + p
    else if |p| < 0x1_0000 then [BIN_16] + BigEndian(|p|, 2) + p
    else [BIN_32] + BigEndian(|p|, 4) + p
  }

  function LengthWidth(t: byte): nat {
    if t == BIN_8 then 1 else if t == BIN_16 then 2 else if t == BIN_32 then 4 else 0
  }

  function DecodeBin(s: Bytes): Read<Bytes> {
    if s == [] then Failed(UnexpectedEnd)
    else
      var width := LengthWidth(s[0]);
      if width == 0 then Failed(InvalidRequest)
      else if |s| < 1 + width then Failed(UnexpectedEnd)
      else
        var size := FromBigEndian(s[1..1 + width]);
        if |s| < 1 + width + size then Failed(UnexpectedEnd)
        else Done(s[1 + width..1 + width + size], s[1 + width + size..])
  }

  lemma DecodeSized(t: byte, width: nat, p: Bytes, rest: Bytes)
    requires width == LengthWidth(t) > 0 && |p| < Power(width)
    ensures DecodeBin([t] + BigEndian(|p|, width) + p + rest) == Done(p, rest)
  {
    hide BigEndian, FromBigEndian, Power;
    BigEndianRoundTrip(|p|, width);
    var s := [t] + BigEndian(|p|, width) + p + rest;
    assert s[1..1 + width] == BigEndian(|p|, width);
    assert s[1 + width..1 + width + |p|] == p;
    assert s[1 + width + |p|..] == rest;
  }

  /** What is read back is what was written, exactly if its length fits in 32 bits. */
  lemma BinRoundTrip(p: Bytes, rest: Bytes)
    ensures DecodeBin(EncodeBin(p) + rest) == Done(p, rest) <==> |p| < 0x1_0000_0000
  {
    hide BigEndian, FromBigEndian, Power;
    Powers();
    if |p| < 0x100 {
      DecodeSized(BIN_8, 1, p, rest);
    } else if |p| < 0x1_0000 {
      DecodeSized(BIN_16, 2, p, rest);
    } else if |p| < 0x1_0000_0000 {
      DecodeSized(BIN_32, 4, p, rest);
    } else {
      BigEndianRoundTrip(|p|, 4);
      var s := EncodeBin(p) + rest;
      assert s[1..1 + 4] == BigEndian(|p|, 4);
    }
  }

  /** A binary that is cut short is never taken for another. */
  lemma BinCutShort(p: Bytes, n: nat)
    requires |p| < 0x1_0000_0000 && n < |EncodeBin(p)|
    ensures DecodeBin(EncodeBin(p)[..n]) == Failed(UnexpectedEnd)
  {
    hide BigEndian, FromBigEndian, Power;
    Powers();
    var width := if |p| < 0x100 then 1 else if |p| < 0x1_0000 then 2 else 4;
    BigEndianRoundTrip(|p|, width);
    var s := EncodeBin(p)[..n];
    if n >= 1 + width {
      assert s[1..1 + width] == BigEndian(|p|, width);
    }
  }

  // ----- the bytes -----

  /** The three forms of a binary, byte by byte, the high bytes of the length first. */
  ghost predicate IsBin(s: Bytes, p: Bytes, rest: Bytes) {
    || (|s| >= 2 && s[0] == 0xC4 && |p| == s[1] as nat && s[2..] == p + rest)
    || (|s| >= 3 && s[0] == 0xC5 && |p| == s[1] as nat * 0x100 + s[2] as nat && s[3..] == p + rest)
    || (&& |s| >= 5 && s[0] == 0xC6
        && |p| == s[1] as nat * 0x100_0000 + s[2] as nat * 0x1_0000 + s[3] as nat * 0x100 + s[4] as nat
        && s[5..] == p + rest)
  }

  lemma Quotients(n: nat)
    ensures n < 0x100 ==> BigEndian(n, 1) == [n as byte]
    ensures n < 0x1_0000 ==> BigEndian(n, 2) == [(n / 0x100) as byte, (n % 0x100) as byte]
    ensures n < 0x1_0000_0000 ==> n / 0x100_0000 < 0x100
    ensures n < 0x1_0000_0000 ==>
              BigEndian(n, 4) == [(n / 0x100_0000) as byte, (n / 0x1_0000 % 0x100) as byte, (n / 0x100 % 0x100) as byte,
                                  (n % 0x100) as byte]
  {
    var a, b, c := n / 0x100, n / 0x1_0000, n / 0x100_0000;
    assert a / 0x100 == b && b / 0x100 == c;
    assert BigEndian(n, 1) == [Low(n)];
    assert BigEndian(a, 1) == [Low(a)] && BigEndian(n, 2) == BigEndian(a, 1) + [Low(n)];
    assert BigEndian(c, 1) == [Low(c)] && BigEndian(b, 2) == BigEndian(c, 1) + [Low(b)];
    assert BigEndian(a, 3) == BigEndian(b, 2) + [Low(a)] && BigEndian(n, 4) == BigEndian(a, 3) + [Low(n)];
  }

  /** The shortest form that fits the length; a length of 32 bits or more is cut off. */
  lemma BinBytes(p: Bytes)
    ensures |p| < 0x100 ==> EncodeBin(p) == [0xC4, |p| as byte] + p
    ensures 0x100 <= |p| < 0x1_0000 ==> EncodeBin(p) == [0xC5, (|p| / 0x100) as byte, (|p| % 0x100) as byte] + p
    ensures |p| < 0x1_0000_0000 ==> |p| / 0x100_0000 < 0x100
    ensures 0x1_0000 <= |p| < 0x1_0000_0000 ==>
              EncodeBin(p) == [0xC6, (|p| / 0x100_0000) as byte, (|p| / 0x1_0000 % 0x100) as byte,
                               (|p| / 0x100 % 0x100) as byte, (|p| % 0x100) as byte] + p
  {
    hide BigEndian;
    Quotients(|p|);
  }

  lemma Numbers(s: Bytes)
    ensures |s| == 1 ==> FromBigEndian(s) == s[0] as nat
    ensures |s| == 2 ==> FromBigEndian(s) == s[0] as nat * 0x100 + s[1] as nat
    ensures |s| == 4 ==>
              FromBigEndian(s) == s[0] as nat * 0x100_0000 + s[1] as nat * 0x1_0000 + s[2] as nat * 0x100 + s[3] as nat
  {
    if |s| == 4 {
      var a, b, c := s[..3], s[..2], s[..1];
      assert a[..2] == b && b[..1] == c && c[..0] == [];
      assert FromBigEndian(c) == s[0] as nat;
      assert FromBigEndian(b) == FromBigEndian(c) * 0x100 + s[1] as nat;
      assert FromBigEndian(a) == FromBigEndian(b) * 0x100 + s[2] as nat;
      assert FromBigEndian(s) == FromBigEndian(a) * 0x100 + s[3] as nat;
    } else if |s| == 2 {
      assert s[..1][..0] == [];
      assert FromBigEndian(s[..1]) == s[0] as nat;
    } else if |s| == 1 {
      assert s[..0] == [];
    }
  }

  /** What is read is exactly what is there in one of the three forms, however long the form; and what is
      not read is either cut short or starts with another byte. */
  lemma DecodeMeaning(s: Bytes, p: Bytes, rest: Bytes)
    ensures DecodeBin(s) == Done(p, rest) <==> IsBin(s, p, rest)
    ensures DecodeBin(s) == Failed(InvalidRequest) <==> s != [] && s[0] != 0xC4 && s[0] != 0xC5 && s[0] != 0xC6
  {
    hide FromBigEndian;
    if s != [] {
      var width := if s[0] == 0xC4 then 1 else if s[0] == 0xC5 then 2 else 4;
      if |s| >= 1 + width {
        var n, tail := s[1..1 + width], s[1 + width..];
        Numbers(n);
        var size := FromBigEndian(n);
        if |tail| >= size {
          assert tail == tail[..size] + tail[size..];
          assert s[1 + width..1 + width + size] == tail[..size] && s[1 + width + size..] == tail[size..];
        }
        if tail == p + rest && |p| == size {
          assert tail[..size] == p && tail[size..] == rest;
        }
      }
    }
  }

  // ----- messages -----

  predicate IsMessage(m: Message) {
    IsMessageType(m.messageType) && |m.name| < 0x1_0000_0000 && |m.payload| < 0x1_0000_0000
  }

  function EncodeMessage(m: Message): Bytes {
    [FIXED_ARRAY_3, U_8, m.messageType] + (EncodeBin(m.name) + EncodeBin(m.payload))
  }

  /** With an expected method name, any other is refused before its payload is read. */
  function DecodeMessage(s: Bytes, expected: Bytes): Read<Message> {
    if s == [] then Failed(UnexpectedEnd)
    else if s[0] != FIXED_ARRAY_3 then Failed(InvalidRequest)
    else if |s| < 2 then Failed(UnexpectedEnd)
    else if s[1] != U_8 then Failed(InvalidRequest)
    else if |s| < 3 then Failed(UnexpectedEnd)
    else if !IsMessageType(s[2]) then Failed(InvalidRequest)
    else DecodeBody(s[2], s[3..], expected)
  }

  function DecodeBody(t: byte, s: Bytes, expected: Bytes): Read<Message> {
    match DecodeBin(s)
    case Failed(e) => Failed(e)
    case Done(name, rest) =>
      if expected != [] && name != expected then Failed(InvalidRequest)
      else
        match DecodeBin(rest)
        case Failed(e) => Failed(e)
        case Done(payload, rest') => Done(Message(t, name, payload), rest')
  }

  lemma MessageRoundTrip(m: Message, rest: Bytes, expected: Bytes)
    requires IsMessage(m)
    ensures DecodeMessage(EncodeMessage(m) + rest, expected) ==
              if expected == [] || expected == m.name then Done(m, rest) else Failed(InvalidRequest)
  {
    hide DecodeBin, EncodeBin;
    var s := EncodeMessage(m) + rest;
    assert s[3..] == EncodeBin(m.name) + (EncodeBin(m.payload) + rest);
    BinRoundTrip(m.name, EncodeBin(m.payload) + rest);
    BinRoundTrip(m.payload, rest);
  }

  /** A message starts with the mark of an array of three elements and of a one-byte number, and its type. */
  lemma MessageBytes(m: Message)
    ensures EncodeMessage(m)[..3] == [0x93, 0xCC, m.messageType]
    ensures EncodeMessage(m)[3..] == EncodeBin(m.name) + EncodeBin(m.payload)
  {
  }

  /** A message is read exactly if it is there: the three bytes with a known type, a name, which must be the
      expected one if any is, and a payload. */
  lemma MessageMeaning(s: Bytes, expected: Bytes, m: Message, rest: Bytes)
    ensures DecodeMessage(s, expected) == Done(m, rest) <==>
              && |s| >= 3 && s[0] == 0x93 && s[1] == 0xCC && s[2] == m.messageType && 1 <= m.messageType <= 6
              && (expected == [] || m.name == expected)
              && exists middle :: IsBin(s[3..], m.name, middle) && IsBin(middle, m.payload, rest)
  {
    hide DecodeBin, IsBin;
    if |s| >= 3 {
      var name := DecodeBin(s[3..]);
      if middle :| IsBin(s[3..], m.name, middle) && IsBin(middle, m.payload, rest) {
        DecodeMeaning(s[3..], m.name, middle);
        DecodeMeaning(middle, m.payload, rest);
      }
      if name.Done? {
        DecodeMeaning(s[3..], name.value, name.rest);
        DecodeMeaning(name.rest, m.payload, rest);
      }
    }
  }

  /** A message that is cut short is never taken for another. */
  lemma MessageCutShort(m: Message, n: nat)
    requires IsMessage(m) && n < |EncodeMessage(m)|
    ensures DecodeMessage(EncodeMessage(m)[..n], []) == Failed(UnexpectedEnd)
  {
    hide DecodeBin, EncodeBin;
    var name, payload := EncodeBin(m.name), EncodeBin(m.payload);
    var s := EncodeMessage(m)[..n];
    if n >= 3 {
      if n - 3 < |name| {
        assert s[3..] == name[..n - 3];
        BinCutShort(m.name, n - 3);
      } else {
        assert s[3..] == name + payload[..n - 3 - |name|];
        BinRoundTrip(m.name, payload[..n - 3 - |name|]);
        BinCutShort(m.payload, n - 3 - |name|);
      }
    }
  }

  function EncodeAll(ms: seq<Message>): Bytes {
    if ms == [] then [] else EncodeMessage(ms[0]) + EncodeAll(ms[1..])
  }

  /** The first `n` messages of a stream. */
  function DecodeAll(s: Bytes, n: nat): Read<seq<Message>> {
    if n == 0 then Done([], s)
    else
      match DecodeMessage(s, [])
      case Failed(e) => Failed(e)
      case Done(m, rest) =>
        match DecodeAll(rest, n - 1)
        case Failed(e) => Failed(e)
        case Done(ms, rest') => Done([m] + ms, rest')
  }

  /** Any messages written one after the other are read back, and nothing of what follows. */
  lemma {:induction false} StreamRoundTrip(ms: seq<Message>, rest: Bytes)
    requires forall m :: m in ms ==> IsMessage(m)
    ensures DecodeAll(EncodeAll(ms) + rest, |ms|) == Done(ms, rest)
  {
    hide DecodeMessage, EncodeMessage;
    if ms == [] {
      assert EncodeAll(ms) + rest == rest;
    } else {
      assert EncodeAll(ms) + rest == EncodeMessage(ms[0]) + (EncodeAll(ms[1..]) + rest);
      MessageRoundTrip(ms[0], EncodeAll(ms[1..]) + rest, []);
      StreamRoundTrip(ms[1..], rest);
      assert ms == [ms[0]] + ms[1..];
    }
  }

  // ----- the server's streams -----

  class Server {
    var input: Bytes // what is still to be read
    var output: Bytes // what has been written

    constructor (input: Bytes)
      ensures this.input == input && output == []
    {
      this.input, output := input, [];
    }

    method WriteByte(b: byte)
      modifies this`output
      ensures output == old(output) + [b]
    {
      output := output + [b];
    }

    method WriteBin(p: Bytes)
      modifies this`output
      ensures output == old(output) + EncodeBin(p)
    {
      hide BigEndian;
      var length := |p|;
      if length < 256 {
        WriteByte(BIN_8);
        output := output + BigEndian(length, 1);
      } else if length < 0x1_0000 {
        WriteByte(BIN_16);
        output := output + BigEndian(length, 2);
      } else {
        WriteByte(BIN_32);
        output := output + BigEndian(length, 4);
      }
      output := output + p;
    }

    method WriteMessage(m: Message)
      modifies this`output
      ensures output == old(output) + EncodeMessage(m)
    {
      hide EncodeBin;
      WriteByte(FIXED_ARRAY_3);
      WriteByte(U_8);
      WriteByte(m.messageType);
      WriteBin(m.name);
      WriteBin(m.payload);
    }

    /** The next `n` bytes, unless the input ends before. */
    method ReadFull(n: nat) returns (r: Option<Bytes>)
      modifies this`input
      ensures if n <= |old(input)| then r == Some(old(input)[..n]) && input == old(input)[n..] else r == None && input == []
    {
      if n <= |input| {
        r := Some(input[..n]);
        input := input[n..];
      } else {
        r := None;
        input := [];
      }
    }

    method ReadBin() returns (r: Read<Bytes>)
      modifies this`input
      ensures match DecodeBin(old(input))
              case Failed(e) => r == Failed(e)
              case Done(p, rest) => r == Done(p, rest) && input == rest
    {
      hide FromBigEndian;
      ghost var before := input;
      var t := ReadFull(1);
      if t.None? {
        return Failed(UnexpectedEnd);
      }
      var width := if t.value[0] == BIN_8 then 1 else if t.value[0] == BIN_16 then 2 else if t.value[0] == BIN_32 then 4 else 0;
      if width == 0 {
        return Failed(InvalidRequest);
      }
      var size := ReadFull(width);
      if size.None? {
        return Failed(UnexpectedEnd);
      }
      assert size.value == before[1..1 + width] && input == before[1 + width..];
      var n := FromBigEndian(size.value);
      var payload := ReadFull(n);
      if payload.None? {
        return Failed(UnexpectedEnd);
      }
      assert payload.value == before[1 + width..1 + width + n];
      return Done(payload.value, input);
    }

    method ReadRequest(expected: Bytes) returns (r: Read<Message>)
      modifies this`input
      ensures match DecodeMessage(old(input), expected)
              case Failed(e) => r == Failed(e)
              case Done(m, rest) => r == Done(m, rest) && input == rest
    {
      hide DecodeBin;
      ghost var before := input;
      var t := ReadFull(1);
      if t.None? {
        return Failed(UnexpectedEnd);
      }
      if t.value[0] != FIXED_ARRAY_3 {
        return Failed(InvalidRequest);
      }
      t := ReadFull(1);
      if t.None? {
        return Failed(UnexpectedEnd);
      }
      if t.value[0] != U_8 {
        return Failed(InvalidRequest);
      }
      t := ReadFull(1);
      if t.None? {
        return Failed(UnexpectedEnd);
      }
      if !IsMessageType(t.value[0]) {
        return Failed(InvalidRequest);
      }
      assert input == before[3..];
      var name := ReadBin();
      if name.Failed? {
        return Failed(name.error);
      }
      if expected != [] && name.value != expected {
        return Failed(InvalidRequest);
      }
      var payload := ReadBin();
      if payload.Failed? {
        return Failed(payload.error);
      }
      return Done(Message(t.value[0], name.value, payload.value), payload.rest);
    }
  }
}
