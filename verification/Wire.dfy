/** The length-prefixed frame codec (`pyleans/transport/wire.py`, `pyleans/transport/_io.py`).

    `Encode` and `Decode` say what the two routines compute; `EncodeFrame` fills a buffer and
    `ReadFrame` consumes a stream, and each is proved equal to its function. */
module Wire {
  import opened Wrappers

  newtype byte = x: int | 0 <= x < 256

  const FRAME_PREFIX_SIZE: nat := 4
  const FRAME_OVERHEAD_AFTER_PREFIX: nat := 13
  const UINT32_MAX: nat := 0xFFFF_FFFF
  const UINT64_MAX: nat := 0xFFFF_FFFF_FFFF_FFFF

  datatype MessageType = REQUEST | RESPONSE | ONE_WAY | PING | PONG | ERROR

  datatype Message = Message(messageType: MessageType, correlationId: int, header: seq<byte>, body: seq<byte>)

  datatype WireError = ValueError | MessageTooLarge | ConnectionLost

  function Code(t: MessageType): byte {
    match t
    case REQUEST => 1
    case RESPONSE => 2
    case ONE_WAY => 3
    case PING => 4
    case PONG => 5
    case ERROR => 6
  }

  function TypeOf(code: byte): Option<MessageType> {
    if code == 1 then Some(REQUEST)
    else if code == 2 then Some(RESPONSE)
    else if code == 3 then Some(ONE_WAY)
    else if code == 4 then Some(PING)
    else if code == 5 then Some(PONG)
    else if code == 6 then Some(ERROR)
    else None
  }

  // ---- Big-endian integers -------------------------------------------------------------

  function Capacity(width: nat): nat {
    if width == 0 then 1 else 256 * Capacity(width - 1)
  }

  function Pack(n: nat, width: nat): (bs: seq<byte>)
    ensures |bs| == width
  {
    if width == 0 then [] else Pack(n / 256, width - 1) + [(n % 256) as byte]
  }

  function Unpack(bs: seq<byte>): nat {
    if bs == [] then 0 else 256 * Unpack(bs[..|bs| - 1]) + bs[|bs| - 1] as nat
  }

  lemma {:induction false} UnpackInvertsPack(n: nat, width: nat)
    requires n < Capacity(width)
    ensures Unpack(Pack(n, width)) == n
  {
    if width > 0 {
      UnpackInvertsPack(n / 256, width - 1);
      assert Pack(n, width)[..width - 1] == Pack(n / 256, width - 1);
    }
  }

  lemma {:induction false} PackInvertsUnpack(bs: seq<byte>)
    ensures Pack(Unpack(bs), |bs|) == bs && Unpack(bs) < Capacity(|bs|)
  {
    if bs != [] {
      PackInvertsUnpack(bs[..|bs| - 1]);
      assert bs == bs[..|bs| - 1] + [bs[|bs| - 1]];
    }
  }

  lemma Capacities()
    ensures Capacity(4) == UINT32_MAX + 1 && Capacity(8) == UINT64_MAX + 1
  {
    assert Capacity(2) == 65536;
    assert Capacity(4) == 65536 * 65536;
    assert Capacity(6) == 65536 * Capacity(4);
    assert Capacity(8) == 65536 * Capacity(6);
  }

  // ---- What the codec computes -----------------------------------------------------------

  function TotalLength(m: Message): nat {
    FRAME_OVERHEAD_AFTER_PREFIX + |m.header| + |m.body|
  }

  /** Message type, correlation id, header length. */
  function Fixed(m: Message): (bs: seq<byte>)
    requires m.correlationId >= 0
    ensures |bs| == FRAME_OVERHEAD_AFTER_PREFIX
  {
    [Code(m.messageType)] + Pack(m.correlationId, 8) + Pack(|m.header|, 4)
  }

  /** Checks in the order the code makes them. */
  function Encode(m: Message, maxSize: int): Result<seq<byte>, WireError> {
    if !(0 <= m.correlationId <= UINT64_MAX) then Err(ValueError)
    else if |m.header| > UINT32_MAX then Err(ValueError)
    else if TotalLength(m) > UINT32_MAX then Err(ValueError)
    else if FRAME_PREFIX_SIZE + TotalLength(m) > maxSize then Err(MessageTooLarge)
    else Ok(Pack(TotalLength(m), 4) + Fixed(m) + m.header + m.body)
  }

  /** `n` bytes off the stream; a stream that ends too early is used up. */
  function Take(s: seq<byte>, n: nat): (Result<seq<byte>, WireError>, seq<byte>) {
    if n <= |s| then (Ok(s[..n]), s[n..]) else (Err(ConnectionLost), [])
  }

  /** The message read, or why not, and what is left on the stream. */
  function Decode(s: seq<byte>, maxSize: int): (Result<Message, WireError>, seq<byte>) {
    var (prefix, s1) := Take(s, FRAME_PREFIX_SIZE);
    if prefix.Err? then (Err(prefix.error), s1)
    else
      var total := Unpack(prefix.value);
      if total < FRAME_OVERHEAD_AFTER_PREFIX then (Err(ValueError), s1)
      else if FRAME_PREFIX_SIZE + total > maxSize then (Err(MessageTooLarge), s1)
      else
        var (fixed, s2) := Take(s1, FRAME_OVERHEAD_AFTER_PREFIX);
        if fixed.Err? then (Err(fixed.error), s2)
        else DecodePayload(fixed.value, s2, total - FRAME_OVERHEAD_AFTER_PREFIX)
  }

  function DecodePayload(fixed: seq<byte>, s: seq<byte>, payload: nat): (Result<Message, WireError>, seq<byte>)
    requires |fixed| == FRAME_OVERHEAD_AFTER_PREFIX
  {
    var headerLength := Unpack(fixed[9..]);
    if headerLength > payload then (Err(ValueError), s)
    else if TypeOf(fixed[0]).None? then (Err(ValueError), s)
    else
      var (header, s1) := Take(s, headerLength);
      if header.Err? then (Err(header.error), s1)
      else
        var (body, s2) := Take(s1, payload - headerLength);
        if body.Err? then (Err(body.error), s2)
        else (Ok(Message(TypeOf(fixed[0]).value, Unpack(fixed[1..9]), header.value, body.value)), s2)
  }

  // ---- Round trips -----------------------------------------------------------------------

  lemma FixedParts(m: Message)
    requires 0 <= m.correlationId <= UINT64_MAX && |m.header| <= UINT32_MAX
    ensures TypeOf(Fixed(m)[0]) == Some(m.messageType)
    ensures Unpack(Fixed(m)[1..9]) == m.correlationId && Unpack(Fixed(m)[9..]) == |m.header|
  {
    hide Pack, Unpack, Capacity;
    Capacities();
    UnpackInvertsPack(m.correlationId, 8);
    UnpackInvertsPack(|m.header|, 4);
    assert Fixed(m)[1..9] == Pack(m.correlationId, 8);
    assert Fixed(m)[9..] == Pack(|m.header|, 4);
  }

  lemma PrefixParts(n: nat)
    requires n <= UINT32_MAX
    ensures Unpack(Pack(n, 4)) == n
  {
    Capacities();
    UnpackInvertsPack(n, 4);
  }

  lemma TakeFront(a: seq<byte>, b: seq<byte>)
    ensures Take(a + b, |a|) == (Ok(a), b)
  {
  }

  /** A message encoded and put on a stream is read back, and exactly its bytes are consumed. */
  lemma DecodeInvertsEncode(m: Message, maxSize: int, rest: seq<byte>)
    requires Encode(m, maxSize).Ok?
    ensures Decode(Encode(m, maxSize).value + rest, maxSize) == (Ok(m), rest)
  {
    hide Fixed, Pack, Unpack, TypeOf, Take;
    var prefix, fixed := Pack(TotalLength(m), 4), Fixed(m);
    PrefixParts(TotalLength(m));
    FixedParts(m);
    var s := Encode(m, maxSize).value + rest;
    assert s == prefix + (fixed + (m.header + (m.body + rest)));
    TakeFront(prefix, fixed + (m.header + (m.body + rest)));
    TakeFront(fixed, m.header + (m.body + rest));
    TakeFront(m.header, m.body + rest);
    TakeFront(m.body, rest);
  }

  lemma FixedFromParts(fixed: seq<byte>, m: Message)
    requires |fixed| == FRAME_OVERHEAD_AFTER_PREFIX && TypeOf(fixed[0]) == Some(m.messageType)
    requires m.correlationId == Unpack(fixed[1..9]) && |m.header| == Unpack(fixed[9..])
    ensures m.correlationId <= UINT64_MAX && |m.header| <= UINT32_MAX && Fixed(m) == fixed
  {
    hide Pack, Unpack, Capacity;
    Capacities();
    PackInvertsUnpack(fixed[1..9]);
    PackInvertsUnpack(fixed[9..]);
    assert fixed == [fixed[0]] + fixed[1..9] + fixed[9..];
  }

  lemma PrefixFromParts(prefix: seq<byte>, n: nat)
    requires |prefix| == FRAME_PREFIX_SIZE && n == Unpack(prefix)
    ensures n <= UINT32_MAX && Pack(n, 4) == prefix
  {
    Capacities();
    PackInvertsUnpack(prefix);
  }

  lemma TookFront(s: seq<byte>, n: nat)
    ensures var (r, rest) := Take(s, n); r.Ok? ==> |r.value| == n && s == r.value + rest
  {
  }

  /** Whatever is accepted is what the encoder produces for the message returned, under the same limit. */
  lemma EncodeInvertsDecode(s: seq<byte>, maxSize: int)
    requires Decode(s, maxSize).0.Ok?
    ensures var (m, rest) := (Decode(s, maxSize).0.value, Decode(s, maxSize).1);
            Encode(m, maxSize).Ok? && s == Encode(m, maxSize).value + rest
  {
    hide Pack, Unpack, TypeOf, Fixed, Take;
    var (m, rest) := (Decode(s, maxSize).0.value, Decode(s, maxSize).1);
    var (prefix, s1) := Take(s, 4);
    TookFront(s, 4);
    var total := Unpack(prefix.value);
    var (fixed, s2) := Take(s1, 13);
    TookFront(s1, 13);
    assert DecodePayload(fixed.value, s2, total - 13) == (Ok(m), rest);
    var headerLength := Unpack(fixed.value[9..]);
    var (header, s3) := Take(s2, headerLength);
    TookFront(s2, headerLength);
    var (body, s4) := Take(s3, total - 13 - headerLength);
    TookFront(s3, total - 13 - headerLength);
    assert header.value == m.header && body.value == m.body && s4 == rest;
    PrefixFromParts(prefix.value, TotalLength(m));
    FixedFromParts(fixed.value, m);
    assert s == prefix.value + fixed.value + m.header + m.body + rest;
  }

  /** No frame is a proper beginning of another, and frames are unambiguous: bytes determine the messages. */
  lemma FramesAreUnambiguous(m: Message, n: Message, maxSize: int, r: seq<byte>, q: seq<byte>)
    requires Encode(m, maxSize).Ok? && Encode(n, maxSize).Ok?
    requires Encode(m, maxSize).value + r == Encode(n, maxSize).value + q
    ensures m == n && r == q
  {
    hide Encode, Decode;
    DecodeInvertsEncode(m, maxSize, r);
    DecodeInvertsEncode(n, maxSize, q);
  }

  /** A frame cut short anywhere is reported as a lost connection, never as a message or a malformed frame. */
  lemma CutShortIsLost(m: Message, maxSize: int, k: nat)
    requires Encode(m, maxSize).Ok? && k < |Encode(m, maxSize).value|
    ensures Decode(Encode(m, maxSize).value[..k], maxSize) == (Err(ConnectionLost), [])
  {
    hide Fixed, Pack, Unpack, TypeOf, Take;
    var prefix, fixed := Pack(TotalLength(m), 4), Fixed(m);
    PrefixParts(TotalLength(m));
    FixedParts(m);
    var f := Encode(m, maxSize).value;
    var s := f[..k];
    var tail := m.header + m.body;
    assert f == prefix + fixed + tail;
    TakeShort(s, 4);
    if k >= 17 {
      var t := tail[..k - 17];
      assert s == prefix + (fixed + t);
      TakeFront(prefix, fixed + t);
      TakeFront(fixed, t);
      TakeShort(t, |m.header|);
      if |m.header| <= k - 17 {
        var b := m.body[..k - 17 - |m.header|];
        assert t == m.header + b;
        TakeFront(m.header, b);
        TakeShort(b, |m.body|);
      }
    } else if k >= 4 {
      var t := fixed[..k - 4];
      assert s == prefix + t;
      TakeFront(prefix, t);
      TakeShort(t, 13);
    }
  }

  lemma TakeShort(s: seq<byte>, n: nat)
    ensures |s| < n ==> Take(s, n) == (Err(ConnectionLost), [])
  {
  }

  // ---- The layout, byte by byte ------------------------------------------------------------

  /** The most significant byte comes first. */
  lemma {:induction false} MostSignificantFirst(b: byte, rest: seq<byte>)
    ensures Unpack([b] + rest) == b as nat * Capacity(|rest|) + Unpack(rest)
  {
    if rest == [] {
      assert [b] + rest == [b] && [b][..0] == [];
    } else {
      var front, last := rest[..|rest| - 1], rest[|rest| - 1];
      MostSignificantFirst(b, front);
      assert ([b] + rest)[..|rest|] == [b] + front;
      assert b as nat * Capacity(|rest|) == 256 * (b as nat * Capacity(|front|));
    }
  }

  function Uint32(b0: byte, b1: byte, b2: byte, b3: byte): nat {
    b0 as nat * 16777216 + b1 as nat * 65536 + b2 as nat * 256 + b3 as nat
  }

  lemma UnpackIsUint32(bs: seq<byte>)
    requires |bs| == 4
    ensures Unpack(bs) == Uint32(bs[0], bs[1], bs[2], bs[3])
  {
    assert bs == [bs[0]] + ([bs[1]] + ([bs[2]] + ([bs[3]] + [])));
    MostSignificantFirst(bs[3], []);
    MostSignificantFirst(bs[2], [bs[3]] + []);
    MostSignificantFirst(bs[1], [bs[2]] + ([bs[3]] + []));
    MostSignificantFirst(bs[0], [bs[1]] + ([bs[2]] + ([bs[3]] + [])));
    assert Capacity(0) == 1 && Capacity(1) == 256 && Capacity(2) == 65536 && Capacity(3) == 16777216;
  }

  lemma TypeCodes()
    ensures Code(REQUEST) == 1 && Code(RESPONSE) == 2 && Code(ONE_WAY) == 3
    ensures Code(PING) == 4 && Code(PONG) == 5 && Code(ERROR) == 6
    ensures forall code: byte :: TypeOf(code).Some? <==> 1 <= code <= 6
    ensures forall code: byte :: TypeOf(code).Some? ==> Code(TypeOf(code).value) == code
  {
  }

  /** A frame is the length of what follows its first four bytes, the type code, the correlation id, the header length,
      the header and the body. */
  lemma FrameLayout(m: Message, maxSize: int)
    requires Encode(m, maxSize).Ok?
    ensures var f := Encode(m, maxSize).value;
            var h := 17 + |m.header|;
            && |f| == h + |m.body| && |f| <= maxSize
            && Uint32(f[0], f[1], f[2], f[3]) == |f| - 4
            && f[4] == Code(m.messageType)
            && Unpack(f[5..13]) == m.correlationId
            && Uint32(f[13], f[14], f[15], f[16]) == |m.header|
            && f[17..h] == m.header && f[h..] == m.body
  {
    hide Pack, Unpack, Code, Uint32;
    var prefix, fixed := Pack(TotalLength(m), 4), Fixed(m);
    PrefixParts(TotalLength(m));
    FixedParts(m);
    UnpackIsUint32(prefix);
    UnpackIsUint32(fixed[9..]);
    var f := Encode(m, maxSize).value;
    assert f == prefix + fixed + m.header + m.body;
    assert f[..4] == prefix && f[4..17] == fixed;
    assert f[5..13] == f[4..17][1..9];
    assert fixed[9..] == f[13..17];
  }

  /** When encoding fails: a correlation id or a length that does not fit its field, and otherwise a frame over the
      limit. */
  lemma EncodeFails(m: Message, maxSize: int)
    ensures var total := 13 + |m.header| + |m.body|;
            var misfit := m.correlationId < 0 || m.correlationId > 0xFFFF_FFFF_FFFF_FFFF || total > 0xFFFF_FFFF;
            && (Encode(m, maxSize) == Err(ValueError) <==> misfit)
            && (Encode(m, maxSize) == Err(MessageTooLarge) <==> !misfit && 4 + total > maxSize)
            && Encode(m, maxSize) != Err(ConnectionLost)
  {
    hide Pack, Fixed;
  }

  /** The length a stream declares in its first four bytes. */
  function Declared(s: seq<byte>): nat
    requires |s| >= 4
  {
    Uint32(s[0], s[1], s[2], s[3])
  }

  /** When reading fails, in terms of the bytes, and what is then left: nothing of a stream that ends too early, and
      otherwise all but the part read. */
  lemma DecodeFails(s: seq<byte>, maxSize: int)
    ensures var (r, rest) := Decode(s, maxSize);
            if |s| < 4 then r == Err(ConnectionLost) && rest == []
            else if Declared(s) < 13 then r == Err(ValueError) && rest == s[4..]
            else if 4 + Declared(s) > maxSize then r == Err(MessageTooLarge) && rest == s[4..]
            else if |s| < 17 then r == Err(ConnectionLost) && rest == []
            else if Uint32(s[13], s[14], s[15], s[16]) > Declared(s) - 13 || !(1 <= s[4] <= 6) then
              r == Err(ValueError) && rest == s[17..]
            else if |s| < 4 + Declared(s) then r == Err(ConnectionLost) && rest == []
            else r.Ok? && rest == s[4 + Declared(s)..]
  {
    hide Unpack, Code, TypeOf, Uint32;
    TypeCodes();
    if |s| >= 4 {
      UnpackIsUint32(s[..4]);
      if |s| >= 17 {
        var fixed := s[4..][..13];
        assert fixed[9..] == s[13..17] && fixed[0] == s[4] && s[4..][13..] == s[17..];
        UnpackIsUint32(fixed[9..]);
      }
    }
  }

  // ---- Whole streams -----------------------------------------------------------------------

  predicate AllEncodable(ms: seq<Message>, maxSize: int) {
    forall m :: m in ms ==> Encode(m, maxSize).Ok?
  }

  function EncodeAll(ms: seq<Message>, maxSize: int): seq<byte>
    requires AllEncodable(ms, maxSize)
  {
    if ms == [] then [] else Encode(ms[0], maxSize).value + EncodeAll(ms[1..], maxSize)
  }

  /** `n` frames in a row; reading stops at the first error. */
  function DecodeMany(s: seq<byte>, n: nat, maxSize: int): (Result<seq<Message>, WireError>, seq<byte>) {
    if n == 0 then (Ok([]), s)
    else
      var (m, s1) := Decode(s, maxSize);
      if m.Err? then (Err(m.error), s1)
      else
        var (ms, s2) := DecodeMany(s1, n - 1, maxSize);
        if ms.Err? then (ms, s2) else (Ok([m.value] + ms.value), s2)
  }

  /** Reading `n` frames yields these messages and leaves `rest` exactly when the stream is their encodings
      followed by `rest`. */
  lemma {:induction false} StreamRoundTrip(s: seq<byte>, ms: seq<Message>, maxSize: int, rest: seq<byte>)
    ensures DecodeMany(s, |ms|, maxSize) == (Ok(ms), rest) <==>
            AllEncodable(ms, maxSize) && s == EncodeAll(ms, maxSize) + rest
    decreases |ms|
  {
    hide Encode, Decode;
    if ms == [] {
      assert [] + rest == rest;
    } else {
      var (m, s1) := Decode(s, maxSize);
      if Encode(ms[0], maxSize).Ok? {
        var f := Encode(ms[0], maxSize).value;
        if AllEncodable(ms, maxSize) {
          assert EncodeAll(ms, maxSize) + rest == f + (EncodeAll(ms[1..], maxSize) + rest);
          DecodeInvertsEncode(ms[0], maxSize, EncodeAll(ms[1..], maxSize) + rest);
        }
      }
      if m.Ok? {
        EncodeInvertsDecode(s, maxSize);
        StreamRoundTrip(s1, ms[1..], maxSize, rest);
        assert ms == [ms[0]] + ms[1..];
        assert forall x :: x in ms <==> x == ms[0] || x in ms[1..];
      }
    }
  }

  // ---- The routines ------------------------------------------------------------------------

  /** `struct.pack_into` of one big-endian unsigned field, least significant byte first. */
  method PackInto(buffer: array<byte>, offset: nat, value: nat, width: nat)
    requires offset + width <= buffer.Length
    modifies buffer
    ensures buffer[..] == old(buffer[..offset]) + Pack(value, width) + old(buffer[offset + width..])
  {
    var left, i := value, width;
    while i > 0
      invariant 0 <= i <= width
      invariant buffer[..offset + i] == old(buffer[..offset + i])
      invariant buffer[offset + width..] == old(buffer[offset + width..])
      invariant Pack(value, width) == Pack(left, i) + buffer[offset + i..offset + width]
    {
      i := i - 1;
      buffer[offset + i] := (left % 256) as byte;
      assert Pack(left, i + 1) == Pack(left / 256, i) + [buffer[offset + i]];
      assert buffer[offset + i..offset + width] == [buffer[offset + i]] + buffer[offset + i + 1..offset + width];
      left := left / 256;
    }
  }

  method CopyInto(buffer: array<byte>, offset: nat, bytes: seq<byte>)
    requires offset + |bytes| <= buffer.Length
    modifies buffer
    ensures buffer[..] == old(buffer[..offset]) + bytes + old(buffer[offset + |bytes|..])
  {
    for i := 0 to |bytes|
      invariant buffer[offset..offset + i] == bytes[..i]
      invariant buffer[..offset] == old(buffer[..offset])
      invariant buffer[offset + i..] == old(buffer[offset + i..])
    {
      buffer[offset + i] := bytes[i];
    }
  }

  /** Fills the buffer field by field. */
  method FillFrame(buffer: array<byte>, m: Message)
    requires buffer.Length == FRAME_PREFIX_SIZE + TotalLength(m) && m.correlationId >= 0
    modifies buffer
    ensures buffer[..] == Pack(TotalLength(m), 4) + Fixed(m) + m.header + m.body
  {
    hide Pack, Code;
    var h := |m.header|;
    PackInto(buffer, 0, TotalLength(m), 4);
    buffer[4] := Code(m.messageType);
    PackInto(buffer, 5, m.correlationId, 8);
    PackInto(buffer, 13, h, 4);
    assert buffer[..17] == Pack(TotalLength(m), 4) + Fixed(m);
    CopyInto(buffer, 17, m.header);
    assert buffer[..17 + h] == Pack(TotalLength(m), 4) + Fixed(m) + m.header;
    CopyInto(buffer, 17 + h, m.body);
  }

  method EncodeFrame(m: Message, maxSize: int) returns (r: Result<seq<byte>, WireError>)
    ensures r == Encode(m, maxSize)
  {
    hide Pack, Fixed;
    if m.correlationId < 0 || m.correlationId > UINT64_MAX {
      return Err(ValueError);
    }
    if |m.header| > UINT32_MAX {
      return Err(ValueError);
    }
    var total := FRAME_OVERHEAD_AFTER_PREFIX + |m.header| + |m.body|;
    if total > UINT32_MAX {
      return Err(ValueError);
    }
    var full := FRAME_PREFIX_SIZE + total;
    if full > maxSize {
      return Err(MessageTooLarge);
    }
    var buffer := new byte[full](_ => 0);
    FillFrame(buffer, m);
    return Ok(buffer[..]);
  }

  /** What the peer sends before it closes. */
  class StreamReader {
    var rest: seq<byte>

    constructor (bytes: seq<byte>)
      ensures rest == bytes
    {
      rest := bytes;
    }

    method ReadExactly(n: nat) returns (r: Result<seq<byte>, WireError>)
      modifies this
      ensures (r, rest) == Take(old(rest), n)
    {
      if n == 0 {
        return Ok([]);
      }
      if |rest| < n {
        rest := [];
        return Err(ConnectionLost);
      }
      r := Ok(rest[..n]);
      rest := rest[n..];
    }
  }

  method ReadFrame(reader: StreamReader, maxSize: int) returns (r: Result<Message, WireError>)
    modifies reader
    ensures (r, reader.rest) == Decode(old(reader.rest), maxSize)
  {
    hide Unpack, TypeOf;
    var prefix := reader.ReadExactly(FRAME_PREFIX_SIZE);
    if prefix.Err? {
      return Err(prefix.error);
    }
    var total := Unpack(prefix.value);
    if total < FRAME_OVERHEAD_AFTER_PREFIX {
      return Err(ValueError);
    }
    if FRAME_PREFIX_SIZE + total > maxSize {
      return Err(MessageTooLarge);
    }
    var fixed := reader.ReadExactly(FRAME_OVERHEAD_AFTER_PREFIX);
    if fixed.Err? {
      return Err(fixed.error);
    }
    var code, correlationId, headerLength := fixed.value[0], Unpack(fixed.value[1..9]), Unpack(fixed.value[9..]);
    var payload := total - FRAME_OVERHEAD_AFTER_PREFIX;
    if headerLength > payload {
      return Err(ValueError);
    }
    var messageType := TypeOf(code);
    if messageType.None? {
      return Err(ValueError);
    }
    var header := reader.ReadExactly(headerLength);
    if header.Err? {
      return Err(header.error);
    }
    var body := reader.ReadExactly(payload - headerLength);
    if body.Err? {
      return Err(body.error);
    }
    return Ok(Message(messageType.value, correlationId, header.value, body.value));
  }
}
