/** The binary frame: [type 1][id length 1][id][sequence 4][flags 1][data length 4][data]. */
module Codec {
  import opened Words

  datatype Message = Message(kind: byte, streamId: bytes, sequence: u32, flags: byte, data: bytes)

  /** Result of building: an over-long id is an error on the server and a panic on the client. */
  datatype BuildResult = Built(frame: bytes) | IdTooLong

  datatype ParseResult =
    | Parsed(msg: Message)
    | TooShort        // fewer than 11 bytes
    | ShortId         // the id, or on the client the whole header, does not fit
    | ShortData
    | OutOfBounds     // an index outside the buffer: the program panics

  // ---------------------------------------------------------------- big-endian words

  function PutU32(v: u32): (b: bytes)
    ensures |b| == 4
  {
    [v / 0x100_0000, v / 0x1_0000 % 0x100, v / 0x100 % 0x100, v % 0x100]
  }

  function GetU32(b: bytes): u32
    requires |b| >= 4
  {
    var b0: int, b1: int, b2: int := b[0], b[1], b[2];
    b0 * 0x100_0000 + b1 * 0x1_0000 + b2 * 0x100 + b[3]
  }

  lemma GetPut(v: u32)
    ensures GetU32(PutU32(v)) == v
  {
    var w := v / 0x100;
    var x := w / 0x100;
    assert v == w * 0x100 + v % 0x100;
    assert w == x * 0x100 + w % 0x100;
    assert x == x / 0x100 * 0x100 + x % 0x100;
    assert v / 0x1_0000 == x && v / 0x100_0000 == x / 0x100;
  }

  lemma PutGet(b: bytes)
    requires |b| == 4
    ensures PutU32(GetU32(b)) == b
  {
    var v: int, b0: int, b1: int, b2: int := GetU32(b), b[0], b[1], b[2];
    assert v / 0x100_0000 == b0 && v / 0x1_0000 == b0 * 0x100 + b1;
    assert v / 0x100 == b0 * 0x1_0000 + b1 * 0x100 + b2;
  }

  // ---------------------------------------------------------------- the format

  /** The bytes of a message. The length field keeps only 32 bits of the data length. */
  function Encode(m: Message): bytes
    requires |m.streamId| <= 255
  {
    [m.kind, |m.streamId|] + m.streamId + PutU32(m.sequence) + [m.flags] + PutU32(ToU32(|m.data|)) + m.data
  }

  /** What the client's parser answers. */
  function Decode(b: bytes): ParseResult {
    if |b| < 11 then TooShort
    else
      var n: nat := b[1];
      if |b| < 11 + n then ShortId
      else
        var len: nat := GetU32(b[7 + n..11 + n]);
        if |b| < 11 + n + len then ShortData
        else Parsed(Message(b[0], b[2..2 + n], GetU32(b[2 + n..6 + n]), b[6 + n], b[11 + n..11 + n + len]))
  }

  // ---------------------------------------------------------------- the programs

  method CopyInto(buffer: array<byte>, offset: nat, src: bytes)
    requires offset + |src| <= buffer.Length
    modifies buffer
    ensures buffer[..] == old(buffer[..offset]) + src + old(buffer[offset + |src|..])
    ensures buffer[..offset + |src|] == old(buffer[..offset]) + src
  {
    forall i | 0 <= i < |src| {
      buffer[offset + i] := src[i];
    }
  }

  method BuildBinaryMessage(msg: Message) returns (r: BuildResult)
    ensures r == if |msg.streamId| > 255 then IdTooLong else Built(Encode(msg))
  {
    hide PutU32, ToU32;
    var streamIdLength := |msg.streamId|;
    if streamIdLength > 255 {
      return IdTooLong;
    }
    var headerSize := 1 + 1 + streamIdLength + 4 + 1 + 4;
    var totalSize := headerSize + |msg.data|;
    var buffer := new byte[totalSize](_ => 0);
    var offset: nat := 0;
    ghost var done: bytes := [];

    buffer[offset] := msg.kind;
    offset := offset + 1;
    buffer[offset] := streamIdLength;
    offset := offset + 1;
    done := [msg.kind, streamIdLength];
    assert buffer[..offset] == done;

    CopyInto(buffer, offset, msg.streamId);
    offset := offset + streamIdLength;
    done := done + msg.streamId;
    assert buffer[..offset] == done;

    CopyInto(buffer, offset, PutU32(msg.sequence));
    offset := offset + 4;
    done := done + PutU32(msg.sequence);
    assert buffer[..offset] == done;

    buffer[offset] := msg.flags;
    offset := offset + 1;
    done := done + [msg.flags];
    assert buffer[..offset] == done;

    CopyInto(buffer, offset, PutU32(ToU32(|msg.data|)));
    offset := offset + 4;
    done := done + PutU32(ToU32(|msg.data|));
    assert buffer[..offset] == done;

    CopyInto(buffer, offset, msg.data);
    assert buffer[..] == done + msg.data;
    return Built(buffer[..]);
  }

  /** The client's parser: no read is out of bounds, on any input. */
  method ParseClient(buffer: bytes) returns (r: ParseResult)
    ensures r == Decode(buffer)
    ensures r != OutOfBounds
    ensures r == TooShort <==> |buffer| < 11
    ensures r == ShortId <==> 11 <= |buffer| && |buffer| - 11 < buffer[1]
  {
    if |buffer| < 11 {
      return TooShort;
    }
    var offset: nat := 0;
    var kind := buffer[offset];
    offset := offset + 1;
    var streamIdLength: nat := buffer[offset];
    offset := offset + 1;
    if |buffer| < offset + streamIdLength + 4 + 1 + 4 {
      return ShortId;
    }
    var streamId := buffer[offset..offset + streamIdLength];
    offset := offset + streamIdLength;
    var sequence := GetU32(buffer[offset..offset + 4]);
    offset := offset + 4;
    var flags := buffer[offset];
    offset := offset + 1;
    var dataLength: nat := GetU32(buffer[offset..offset + 4]);
    offset := offset + 4;
    if |buffer| < offset + dataLength {
      return ShortData;
    }
    return Parsed(Message(kind, streamId, sequence, flags, buffer[offset..offset + dataLength]));
  }

  /** The server's parser checks the id but not the nine header bytes after it: it agrees with the
      client's everywhere except on the inputs where it reads past the end. */
  method ParseServer(buffer: bytes) returns (r: ParseResult)
    ensures r == OutOfBounds <==> 11 <= |buffer| && 2 <= |buffer| - buffer[1] < 11
    ensures r != OutOfBounds ==> r == Decode(buffer)
  {
    if |buffer| < 11 {
      return TooShort;
    }
    var offset: nat := 0;
    var kind := buffer[offset];
    offset := offset + 1;
    var streamIdLength: nat := buffer[offset];
    offset := offset + 1;
    if |buffer| < offset + streamIdLength {
      return ShortId;
    }
    var streamId := buffer[offset..offset + streamIdLength];
    offset := offset + streamIdLength;
    if |buffer| < offset + 4 {
      return OutOfBounds;
    }
    var sequence := GetU32(buffer[offset..offset + 4]);
    offset := offset + 4;
    if |buffer| <= offset {
      return OutOfBounds;
    }
    var flags := buffer[offset];
    offset := offset + 1;
    if |buffer| < offset + 4 {
      return OutOfBounds;
    }
    var dataLength: nat := GetU32(buffer[offset..offset + 4]);
    offset := offset + 4;
    if |buffer| < offset + dataLength {
      return ShortData;
    }
    return Parsed(Message(kind, streamId, sequence, flags, buffer[offset..offset + dataLength]));
  }

  // ---------------------------------------------------------------- the layout

  /** Four bytes, the most significant first. */
  function Word(b0: int, b1: int, b2: int, b3: int): int {
    b0 * 0x100_0000 + b1 * 0x1_0000 + b2 * 0x100 + b3
  }

  lemma BigEndian(v: u32, b: bytes)
    requires b == PutU32(v)
    ensures |b| == 4 && Word(b[0], b[1], b[2], b[3]) == v
  {
    GetPut(v);
  }

  /** Where each field of a frame is, and what its bytes say. */
  lemma LayoutExactly(m: Message)
    requires |m.streamId| <= 255
    ensures |Encode(m)| == 11 + |m.streamId| + |m.data|
    ensures var n, b := |m.streamId|, Encode(m);
      && b[0] == m.kind && b[1] == n && b[2..2 + n] == m.streamId
      && Word(b[2 + n], b[3 + n], b[4 + n], b[5 + n]) == m.sequence
      && b[6 + n] == m.flags
      && Word(b[7 + n], b[8 + n], b[9 + n], b[10 + n]) == |m.data| % 0x1_0000_0000
      && b[11 + n..] == m.data
  {
    hide Word, Encode, PutU32;
    var n, b := |m.streamId|, Encode(m);
    EncodeLayout(m, []);
    assert b + [] == b && m.data + [] == m.data;
    BigEndian(m.sequence, b[2 + n..6 + n]);
    BigEndian(ToU32(|m.data|), b[7 + n..11 + n]);
  }

  /** A byte string parses exactly when it begins with a frame. */
  lemma ParsedExactly(b: bytes)
    ensures Decode(b).Parsed? <==>
      exists m: Message :: |m.streamId| <= 255 && |m.data| < 0x1_0000_0000 && Encode(m) <= b
  {
    if Decode(b).Parsed? {
      EncodeDecode(b);
    }
    if m: Message :| |m.streamId| <= 255 && |m.data| < 0x1_0000_0000 && Encode(m) <= b {
      assert b == Encode(m) + b[|Encode(m)|..];
      DecodeEncode(m, b[|Encode(m)|..]);
    }
  }

  // ---------------------------------------------------------------- unique decodability

  lemma EncodeLayout(m: Message, junk: bytes)
    requires |m.streamId| <= 255
    ensures var n := |m.streamId|; var b := Encode(m) + junk;
      && |Encode(m)| == 11 + n + |m.data|
      && b[0] == m.kind && b[1] == n && b[2..2 + n] == m.streamId
      && b[2 + n..6 + n] == PutU32(m.sequence) && b[6 + n] == m.flags
      && b[7 + n..11 + n] == PutU32(ToU32(|m.data|)) && b[11 + n..] == m.data + junk
  {
    var n := |m.streamId|;
    var h := [m.kind, n];
    var p1 := h + m.streamId;
    var p2 := p1 + PutU32(m.sequence);
    var p3 := p2 + [m.flags];
    var p4 := p3 + PutU32(ToU32(|m.data|));
    var b := Encode(m) + junk;
    assert b == p4 + (m.data + junk);
    assert b[..11 + n] == p4;
    assert b[2..2 + n] == p4[2..2 + n] == p1[2..];
    assert b[2 + n..6 + n] == p4[2 + n..6 + n] == p2[2 + n..];
    assert b[7 + n..11 + n] == p4[7 + n..];
  }

  /** Decoding a frame followed by anything gives the message back, its data cut to the number of
      bytes that the 32-bit length field can express. */
  lemma DecodeEncode(m: Message, junk: bytes)
    requires |m.streamId| <= 255
    ensures Decode(Encode(m) + junk) == Parsed(m.(data := m.data[..ToU32(|m.data|)]))
  {
    var n, b := |m.streamId|, Encode(m) + junk;
    EncodeLayout(m, junk);
    GetPut(m.sequence);
    GetPut(ToU32(|m.data|));
    var len := ToU32(|m.data|);
    assert b[11 + n..11 + n + len] == b[11 + n..][..len] == m.data[..len];
  }

  /** The round trip is exact for precisely the messages whose data is under 2^32 bytes. */
  lemma RoundTripExactly(m: Message, junk: bytes)
    requires |m.streamId| <= 255
    ensures Decode(Encode(m) + junk) == Parsed(m) <==> |m.data| < 0x1_0000_0000
  {
    DecodeEncode(m, junk);
  }

  /** Re-encoding what was parsed gives back the bytes it was parsed from. */
  lemma EncodeDecode(b: bytes)
    requires Decode(b).Parsed?
    ensures var m := Decode(b).msg;
      |m.streamId| <= 255 && |m.data| < 0x1_0000_0000 && Encode(m) <= b
  {
    var m, n: nat := Decode(b).msg, b[1];
    var len: nat := GetU32(b[7 + n..11 + n]);
    PutGet(b[2 + n..6 + n]);
    PutGet(b[7 + n..11 + n]);
    assert Encode(m) == b[..11 + n + len] by {
      assert [m.kind, n] == b[..2];
      assert [m.kind, n] + m.streamId == b[..2 + n];
      assert [m.kind, n] + m.streamId + PutU32(m.sequence) == b[..6 + n];
      assert [m.kind, n] + m.streamId + PutU32(m.sequence) + [m.flags] == b[..7 + n];
      assert [m.kind, n] + m.streamId + PutU32(m.sequence) + [m.flags] + PutU32(len) == b[..11 + n];
    }
  }

  /** No frame is a proper prefix of another: a byte string splits into a frame and a rest in one way. */
  lemma UniquelyDecodable(m1: Message, m2: Message, rest1: bytes, rest2: bytes)
    requires |m1.streamId| <= 255 && |m1.data| < 0x1_0000_0000
    requires |m2.streamId| <= 255 && |m2.data| < 0x1_0000_0000
    requires Encode(m1) + rest1 == Encode(m2) + rest2
    ensures m1 == m2 && rest1 == rest2
  {
    var f1, f2 := Encode(m1), Encode(m2);
    DecodeEncode(m1, rest1);
    DecodeEncode(m2, rest2);
    assert m1.data[..|m1.data|] == m1.data && m2.data[..|m2.data|] == m2.data;
    assert m1 == m2;
    assert (f1 + rest1)[|f1|..] == rest1 && (f2 + rest2)[|f2|..] == rest2;
  }
}
