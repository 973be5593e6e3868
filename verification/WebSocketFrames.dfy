/** The text frames of sections 5.2 and 5.3 of RFC 6455, as the hub prints and incrementally parses them.
    Fragmentation and 64-bit lengths are not supported by the hub. */
module WebSocketFrames {
  import opened Basics

  type byte = x: int | 0 <= x < 256

  datatype FrameError = FrameTooLarge | LongLengthUnsupported

  // ---------------------------------------------------------------- exclusive or

  function Pow2(n: nat): nat { if n == 0 then 1 else 2 * Pow2(n - 1) }

  /** Bitwise exclusive or of the low `bits` bits. */
  function XorBits(a: nat, b: nat, bits: nat): (r: nat)
    ensures r < Pow2(bits)
  {
    if bits == 0 then 0 else (a % 2 + b % 2) % 2 + 2 * XorBits(a / 2, b / 2, bits - 1)
  }

  lemma BitTwice(p: nat, q: nat)
    requires p < 2 && q < 2
    ensures ((p + q) % 2 + q) % 2 == p
  {
  }

  lemma SplitBit(low: nat, high: nat)
    requires low < 2
    ensures (low + 2 * high) % 2 == low && (low + 2 * high) / 2 == high
  {
  }

  lemma {:induction false} XorBitsTwice(a: nat, b: nat, bits: nat)
    requires a < Pow2(bits)
    ensures XorBits(XorBits(a, b, bits), b, bits) == a
  {
    hide XorBits;
    NoBits(XorBits(a, b, bits), b);
    if bits > 0 {
      XorBitsTwice(a / 2, b / 2, bits - 1);
      XorHalves(a, b, bits);
      XorHalves(XorBits(a, b, bits), b, bits);
      BitTwice(a % 2, b % 2);
    }
  }

  lemma NoBits(a: nat, b: nat)
    ensures XorBits(a, b, 0) == 0
  {
  }

  /** Bit `k`, counted from the lowest. */
  predicate BitSet(a: nat, k: nat) { if k == 0 then a % 2 == 1 else BitSet(a / 2, k - 1) }

  /** Exclusive or, bit by bit. */
  lemma {:induction false} XorBit(a: nat, b: nat, bits: nat, k: nat)
    requires k < bits
    ensures BitSet(XorBits(a, b, bits), k) <==> BitSet(a, k) != BitSet(b, k)
  {
    hide XorBits;
    XorHalves(a, b, bits);
    if k > 0 { XorBit(a / 2, b / 2, bits - 1, k - 1); }
  }

  lemma XorHalves(a: nat, b: nat, bits: nat)
    requires bits > 0
    ensures XorBits(a, b, bits) % 2 == (a % 2 + b % 2) % 2
    ensures XorBits(a, b, bits) / 2 == XorBits(a / 2, b / 2, bits - 1)
  {
    SplitBit((a % 2 + b % 2) % 2, XorBits(a / 2, b / 2, bits - 1));
  }

  function Xor(a: byte, b: byte): byte {
    assert Pow2(8) == 256;
    XorBits(a, b, 8)
  }

  function ApplyMask(key: seq<byte>, payload: seq<byte>): seq<byte>
    requires |key| == 4
  {
    seq(|payload|, i requires 0 <= i < |payload| => Xor(payload[i], key[i % 4]))
  }

  lemma MaskTwice(key: seq<byte>, payload: seq<byte>)
    requires |key| == 4
    ensures ApplyMask(key, ApplyMask(key, payload)) == payload
  {
    assert Pow2(8) == 256;
    forall i | 0 <= i < |payload| ensures Xor(Xor(payload[i], key[i % 4]), key[i % 4]) == payload[i] {
      XorBitsTwice(payload[i], key[i % 4], 8);
    }
  }

  // ---------------------------------------------------------------- printing

  function Length(n: nat, maskBit: byte): seq<byte>
    requires n < 65536 && maskBit in {0, 128}
  {
    if n < 126 then [n + maskBit] else [126 + maskBit, n / 256, n % 256]
  }

  function FrameText(payload: seq<byte>): Result<seq<byte>, FrameError> {
    if |payload| < 65536 then Ok([0x81] + Length(|payload|, 0) + payload) else Err(FrameTooLarge)
  }

  /** What a client sends: the same frame with its payload masked. */
  function MaskedText(key: seq<byte>, payload: seq<byte>): seq<byte>
    requires |key| == 4 && |payload| < 65536
  {
    [0x81] + Length(|payload|, 128) + key + ApplyMask(key, payload)
  }

  // ---------------------------------------------------------------- parsing

  datatype Parsed = Incomplete | Unsupported | Frame(opcode: nat, payload: seq<byte>, size: nat)

  function PayloadLength(input: seq<byte>): nat
    requires |input| >= 2 && (input[1] % 128 == 126 ==> |input| >= 4)
  {
    if input[1] % 128 == 126 then (input[2] as int) * 256 + input[3] as int else input[1] as int % 128
  }

  /** The first frame of the input, if it is all there. The length read is compared with the 64-bit marker only after
      an extended length has replaced it, so a payload of exactly 127 bytes is refused like a 64-bit length. */
  function Parse(input: seq<byte>): (p: Parsed)
    ensures p.Frame? ==> 2 <= p.size <= |input|
  {
    if |input| < 2 || (input[1] % 128 == 126 && |input| < 4) then Incomplete
    else if PayloadLength(input) == 127 then Unsupported
    else
      var head := if input[1] % 128 == 126 then 4 else 2;
      var maskLength := if input[1] >= 128 then 4 else 0;
      var start := head + maskLength;
      var size := start + PayloadLength(input);
      if |input| < size then Incomplete
      else if input[1] >= 128
      then Frame(input[0] % 16, ApplyMask(input[head..start], input[start..size]), size)
      else Frame(input[0] % 16, input[start..size], size)
  }

  datatype Decoded = Decoded(messages: seq<seq<byte>>, rest: seq<byte>, closed: bool)

  function Prepend(messages: seq<seq<byte>>, d: Result<Decoded, FrameError>): Result<Decoded, FrameError> {
    if d.Ok? then Ok(d.value.(messages := messages + d.value.messages)) else d
  }

  function Decode(input: seq<byte>): Result<Decoded, FrameError>
    decreases |input|
  {
    match Parse(input)
    case Incomplete => Ok(Decoded([], input, false))
    case Unsupported => Err(LongLengthUnsupported)
    case Frame(opcode, payload, size) =>
      if opcode == 8 then Ok(Decoded([], input[size..], true))
      else Prepend(if opcode == 1 then [payload] else [], Decode(input[size..]))
  }

  lemma SliceOfTail(input: seq<byte>, offset: nat, from: nat, to: nat)
    requires offset <= from <= to <= |input|
    ensures input[offset..][from - offset..to - offset] == input[from..to]
  {
  }

  /** One turn of the decoding loop: the frame at `offset`, its payload unmasked in place. */
  method TakeFrame(input: seq<byte>, offset: nat) returns (p: Parsed)
    requires offset <= |input|
    ensures p == Parse(input[offset..])
  {
    ghost var left := input[offset..];
    if |input| - offset < 2 { return Incomplete; }
    var b0, b1: int := input[offset], input[offset + 1];
    var len, head := b1 % 128, 2;
    if len == 126 {
      if |input| - offset < 4 { return Incomplete; }
      len, head := (input[offset + 2] as int) * 256 + input[offset + 3] as int, 4;
    }
    if len == 127 { return Unsupported; }
    assert len == PayloadLength(left);
    var start := offset + head + if b1 >= 128 then 4 else 0;
    if |input| < start + len { return Incomplete; }
    var payload := new byte[len](i requires 0 <= i < len => input[start + i]);
    assert payload[..] == input[start..start + len];
    SliceOfTail(input, offset, start, start + len);
    if b1 >= 128 {
      var mask := input[offset + head..start];
      SliceOfTail(input, offset, offset + head, start);
      UnmaskInPlace(mask, payload);
    }
    p := Frame(b0 % 16, payload[..], start - offset + len);
  }

  lemma DecodeByFrame(input: seq<byte>)
    ensures Parse(input).Incomplete? ==> Decode(input) == Ok(Decoded([], input, false))
    ensures Parse(input).Unsupported? ==> Decode(input) == Err(LongLengthUnsupported)
    ensures Parse(input).Frame? ==>
              var p := Parse(input);
              Decode(input) == if p.opcode == 8 then Ok(Decoded([], input[p.size..], true))
                               else Prepend(if p.opcode == 1 then [p.payload] else [], Decode(input[p.size..]))
  {
  }

  /** The decoding loop. */
  method DecodeFrames(input: seq<byte>) returns (r: Result<Decoded, FrameError>)
    ensures r == Decode(input)
  {
    hide Parse, Decode;
    var messages: seq<seq<byte>>, offset: nat := [], 0;
    PrependTwice([], [], Decode(input));
    assert input[0..] == input;
    while true
      invariant offset <= |input| && Decode(input) == Prepend(messages, Decode(input[offset..]))
      decreases |input| - offset
    {
      assert messages + [] == messages;
      DecodeByFrame(input[offset..]);
      var next := TakeFrame(input, offset);
      if next.Incomplete? { return Ok(Decoded(messages, input[offset..], false)); }
      if next.Unsupported? { return Err(LongLengthUnsupported); }
      assert input[offset..][next.size..] == input[offset + next.size..];
      offset := offset + next.size;
      if next.opcode == 8 { return Ok(Decoded(messages, input[offset..], true)); }
      PrependTwice(messages, if next.opcode == 1 then [next.payload] else [], Decode(input[offset..]));
      if next.opcode == 1 { messages := messages + [next.payload]; }
    }
  }

  method UnmaskInPlace(mask: seq<byte>, payload: array<byte>)
    requires |mask| == 4
    modifies payload
    ensures payload[..] == ApplyMask(mask, old(payload[..]))
  {
    for i := 0 to payload.Length
      invariant forall j :: 0 <= j < i ==> payload[j] == Xor(old(payload[j]), mask[j % 4])
      invariant forall j :: i <= j < payload.Length ==> payload[j] == old(payload[j])
    {
      payload[i] := Xor(payload[i], mask[i % 4]);
    }
  }

  // ---------------------------------------------------------------- the octets of a frame

  /** The header octets of a frame whose payload has `n` octets: its length, or 126 and two octets, high first. */
  predicate HeaderFor(header: seq<byte>, n: nat) {
    || (|header| == 2 && n < 126 && header[1] % 128 == n)
    || (|header| == 4 && header[1] % 128 == 126 && n == 256 * header[2] as int + header[3] as int)
  }

  /** Header, key and body of one frame; four octets of key come with a body that is masked. */
  predicate OnTheWire(header: seq<byte>, key: seq<byte>, body: seq<byte>) {
    HeaderFor(header, |body|) && |key| == if header[1] >= 128 then 4 else 0
  }

  /** `payload` is `body` with its mask off: each bit is flipped where the key octet of its turn has it. */
  ghost predicate Unmasks(payload: seq<byte>, key: seq<byte>, body: seq<byte>)
    requires |key| == 4
  {
    |payload| == |body| &&
    forall i, k :: 0 <= i < |body| && 0 <= k < 8 ==>
      (BitSet(payload[i], k) <==> BitSet(body[i], k) != BitSet(key[i % 4], k))
  }

  lemma MaskUnmasks(key: seq<byte>, body: seq<byte>)
    requires |key| == 4
    ensures Unmasks(ApplyMask(key, body), key, body)
  {
    forall i, k | 0 <= i < |body| && 0 <= k < 8
      ensures BitSet(ApplyMask(key, body)[i], k) <==> BitSet(body[i], k) != BitSet(key[i % 4], k)
    {
      XorBit(body[i], key[i % 4], 8, k);
    }
  }

  /** Eight bits are an octet, so there is one way to take a mask off. */
  lemma {:induction false} BitsDecide(a: nat, b: nat, bits: nat)
    requires a < Pow2(bits) && b < Pow2(bits) && forall k: nat :: k < bits ==> (BitSet(a, k) <==> BitSet(b, k))
    ensures a == b
  {
    if bits > 0 {
      assert BitSet(a, 0) <==> BitSet(b, 0);
      forall k: nat | k < bits - 1 ensures BitSet(a / 2, k) <==> BitSet(b / 2, k) {
        assert BitSet(a, k + 1) <==> BitSet(b, k + 1);
      }
      BitsDecide(a / 2, b / 2, bits - 1);
    }
  }

  /** A frame on the wire is read as its opcode, its payload without mask and its size; one of 127 octets is refused. */
  lemma FrameIsRead(header: seq<byte>, key: seq<byte>, body: seq<byte>, more: seq<byte>)
    requires OnTheWire(header, key, body)
    ensures var p := Parse(header + key + body + more);
            if |body| == 127 then p.Unsupported?
            else p.Frame? && p.opcode == header[0] % 16 && p.size == |header| + |key| + |body|
                 && if key == [] then p.payload == body else Unmasks(p.payload, key, body)
  {
    hide Xor, Unmasks;
    var input, head, start := header + key + body + more, |header|, |header| + |key|;
    assert input[head..start] == key && input[start..start + |body|] == body;
    if |key| == 4 { MaskUnmasks(key, body); }
  }

  /** The input starts with a whole frame. */
  ghost predicate StartsWithFrame(input: seq<byte>) {
    exists head, start, end :: 0 <= head <= start <= end <= |input|
      && OnTheWire(input[..head], input[head..start], input[start..end])
  }

  /** A declared length of 127: the 64-bit marker, or 127 in two octets. */
  predicate Declares127(input: seq<byte>) {
    || (|input| >= 2 && input[1] % 128 == 127)
    || (|input| >= 4 && input[1] % 128 == 126 && 256 * input[2] as int + input[3] as int == 127)
  }

  /** Parsing yields nothing else: an input is refused exactly for a declared length of 127, and is otherwise incomplete
      exactly when it starts with no whole frame. */
  lemma ParsedIff(input: seq<byte>)
    ensures Parse(input).Unsupported? <==> Declares127(input)
    ensures Parse(input).Frame? <==> StartsWithFrame(input) && !Declares127(input)
  {
    hide Xor, StartsWithFrame;
    if Parse(input).Frame? { ParsedStarts(input); }
    if StartsWithFrame(input) && !Declares127(input) { StartIsParsed(input); }
  }

  lemma ParsedStarts(input: seq<byte>)
    requires Parse(input).Frame?
    ensures StartsWithFrame(input)
  {
    hide Xor;
    var p := Parse(input);
    var head := if input[1] % 128 == 126 then 4 else 2;
    var start := head + if input[1] >= 128 then 4 else 0;
    assert OnTheWire(input[..head], input[head..start], input[start..p.size]);
  }

  lemma StartIsParsed(input: seq<byte>)
    requires StartsWithFrame(input)
    ensures !Parse(input).Incomplete?
  {
    hide Parse, OnTheWire;
    var head, start, end :| 0 <= head <= start <= end <= |input|
                            && OnTheWire(input[..head], input[head..start], input[start..end]);
    FrameIsRead(input[..head], input[head..start], input[start..end], input[end..]);
    InFourParts(input, head, start, end);
  }

  lemma InFourParts(input: seq<byte>, head: nat, start: nat, end: nat)
    requires head <= start <= end <= |input|
    ensures input == input[..head] + input[head..start] + input[start..end] + input[end..]
  {
    assert input[start..] == input[start..end] + input[end..];
    assert input[head..] == input[head..start] + input[start..];
    assert input == input[..head] + input[head..];
  }

  /** The hub prints a whole unmasked text frame, with the shortest length that fits. */
  lemma PrintedIsOnTheWire(payload: seq<byte>)
    ensures FrameText(payload).Ok? <==> |payload| < 65536
    ensures |payload| < 65536 ==>
              var printed, head := FrameText(payload).value, if |payload| < 126 then 2 else 4;
              && |printed| == head + |payload| && printed[0] == 0x81 && printed[1] < 128
              && OnTheWire(printed[..head], [], printed[head..]) && printed[head..] == payload
  {
  }

  /** One masked octet, and a length in two octets. */
  lemma LiteralFrames()
    ensures Decode([0x81, 0x81, 1, 1, 1, 1, 0x49]) == Ok(Decoded([[0x48]], [], false))
    ensures Decode([0x81, 126, 0, 1, 0x48]) == Ok(Decoded([[0x48]], [], false))
  {
    hide Parse, Decode;
    LiteralMask();
    ParseMasked([1, 1, 1, 1], [0x49], []);
    var masked := [0x81] + Length(1, 128) + [1, 1, 1, 1] + [0x49] + [];
    assert masked == [0x81, 0x81, 1, 1, 1, 1, 0x49];
    OneFrame(masked, [0x48]);
    var long: seq<byte> := [0x81, 126, 0, 1, 0x48];
    FrameIsRead([0x81, 126, 0, 1], [], [0x48], []);
    assert [0x81, 126, 0, 1] + [] + [0x48] + [] == long;
    OneFrame(long, [0x48]);
  }

  lemma LiteralMask()
    ensures ApplyMask([1, 1, 1, 1], [0x49]) == [0x48]
  {
    assert XorBits(0x49, 1, 8) == 2 * XorBits(0x24, 0, 7);
    XorWithZero(0x24, 7);
  }

  lemma {:induction false} XorWithZero(a: nat, bits: nat)
    requires a < Pow2(bits)
    ensures XorBits(a, 0, bits) == a
  {
    if bits > 0 { XorWithZero(a / 2, bits - 1); }
  }

  lemma OneFrame(input: seq<byte>, payload: seq<byte>)
    requires Parse(input) == Frame(1, payload, |input|)
    ensures Decode(input) == Ok(Decoded([payload], [], false))
  {
    hide Parse, Decode;
    DecodeByFrame(input);
    NothingDecodes();
    assert input[|input|..] == [];
    assert [payload] + [] == [payload];
  }

  // ---------------------------------------------------------------- chunking

  /** More bytes never change a frame that is already complete. */
  lemma ParseStable(a: seq<byte>, b: seq<byte>)
    ensures !Parse(a).Incomplete? ==> Parse(a + b) == Parse(a)
  {
    if !Parse(a).Incomplete? && Parse(a).Frame? {
      var head := if a[1] % 128 == 126 then 4 else 2;
      var start := head + if a[1] >= 128 then 4 else 0;
      assert PayloadLength(a + b) == PayloadLength(a);
      var size := start + PayloadLength(a);
      SliceOfHead(a, b, start, size);
      SliceOfHead(a, b, head, start);
    }
  }

  lemma SliceOfHead(a: seq<byte>, b: seq<byte>, from: nat, to: nat)
    requires from <= to <= |a|
    ensures (a + b)[from..to] == a[from..to]
  {
  }

  lemma PrependTwice(m: seq<seq<byte>>, n: seq<seq<byte>>, d: Result<Decoded, FrameError>)
    ensures Prepend(m, Prepend(n, d)) == Prepend(m + n, d)
    ensures Prepend([], d) == d
  {
    if d.Ok? {
      assert [] + d.value.messages == d.value.messages;
      assert m + (n + d.value.messages) == (m + n) + d.value.messages;
    }
  }

  /** Decoding `a` and then the carried rest with `b` is decoding `a + b`: for every cut of every stream.
      An unsupported length or a close frame met in `a` ends both in the same way. */
  lemma {:induction false} ChunkingIndependence(a: seq<byte>, b: seq<byte>)
    ensures match Decode(a)
            case Err(e) => Decode(a + b) == Err(e)
            case Ok(d) =>
              if d.closed then Decode(a + b) == Ok(Decoded(d.messages, d.rest + b, true))
              else Decode(a + b) == Prepend(d.messages, Decode(d.rest + b))
    decreases |a|
  {
    ParseStable(a, b);
    match Parse(a)
    case Incomplete => PrependTwice([], [], Decode(a + b));
    case Unsupported =>
    case Frame(opcode, payload, size) =>
      assert (a + b)[size..] == a[size..] + b;
      if opcode != 8 {
        ChunkingIndependence(a[size..], b);
        var tail := Decode(a[size..]);
        var m := if opcode == 1 then [payload] else [];
        if tail.Ok? { PrependTwice(m, tail.value.messages, Decode(tail.value.rest + b)); }
      }
  }

  /** The hub's data handler: bytes in, messages out, the rest carried; an exception leaves the buffer as joined. */
  datatype PeerState = PeerState(buffer: seq<byte>, messages: seq<seq<byte>>, closed: bool, failed: bool)

  function OnData(p: PeerState, chunk: seq<byte>): PeerState {
    match Decode(p.buffer + chunk)
    case Err(_) => p.(buffer := p.buffer + chunk, failed := true)
    case Ok(d) => PeerState(d.rest, p.messages + d.messages, p.closed || d.closed, p.failed)
  }

  function Feed(chunks: seq<seq<byte>>): PeerState {
    if chunks == [] then PeerState([], [], false, false)
    else OnData(Feed(chunks[..|chunks| - 1]), chunks[|chunks| - 1])
  }

  function Join(chunks: seq<seq<byte>>): seq<byte> {
    if chunks == [] then [] else Join(chunks[..|chunks| - 1]) + chunks[|chunks| - 1]
  }

  predicate OpenStream(input: seq<byte>) { Decode(input).Ok? && !Decode(input).value.closed }

  /** However a stream arrives, the hub has seen what decoding it at once shows, up to and including the chunk
      that completes its close frame. */
  lemma {:induction false} FeedIsDecode(chunks: seq<seq<byte>>)
    requires chunks != [] ==> OpenStream(Join(chunks[..|chunks| - 1]))
    ensures match Decode(Join(chunks))
            case Ok(d) => Feed(chunks) == PeerState(d.rest, d.messages, d.closed, false)
            case Err(_) => Feed(chunks).failed
  {
    if chunks != [] {
      var init, last := chunks[..|chunks| - 1], chunks[|chunks| - 1];
      if init != [] {
        OpenPrefix(Join(init[..|init| - 1]), init[|init| - 1]);
      }
      FeedIsDecode(init);
      ChunkingIndependence(Join(init), last);
    }
  }

  /** A stream that decoding refuses makes the hub throw, however it arrives. */
  lemma {:induction false} RefusedStreamFails(chunks: seq<seq<byte>>)
    requires Decode(Join(chunks)).Err?
    ensures Feed(chunks).failed
  {
    if chunks != [] {
      var init, last := chunks[..|chunks| - 1], chunks[|chunks| - 1];
      ChunkingIndependence(Join(init), last);
      if Decode(Join(init)).Err? { RefusedStreamFails(init); } else { FeedIsDecode(chunks); }
    }
  }

  lemma OpenPrefix(a: seq<byte>, b: seq<byte>)
    requires OpenStream(a + b)
    ensures OpenStream(a)
  {
    ChunkingIndependence(a, b);
  }

  lemma FeedTwo(a: seq<byte>, b: seq<byte>)
    ensures Feed([a, b]) == OnData(OnData(PeerState([], [], false, false), a), b)
    ensures Decode([] + a) == Decode(a)
  {
    assert [a, b][..1] == [a] && [a][..0] == [] && [] + a == a;
    assert Feed([a]) == OnData(Feed([]), a);
    assert Feed([a, b]) == OnData(Feed([a]), b);
  }

  predicate IsText(opcode: nat) { opcode == 1 }

  datatype End = AtClose | AtIncomplete | AtRefused

  /** The opcodes of the complete frames before parsing ends, and how it ends. */
  function Opcodes(input: seq<byte>): seq<nat>
    decreases |input|
  {
    match Parse(input)
    case Frame(opcode, _, size) => if opcode == 8 then [] else [opcode] + Opcodes(input[size..])
    case _ => []
  }

  function EndOf(input: seq<byte>): End
    decreases |input|
  {
    match Parse(input)
    case Frame(opcode, _, size) => if opcode == 8 then AtClose else EndOf(input[size..])
    case Incomplete => AtIncomplete
    case Unsupported => AtRefused
  }

  /** Decoding shows as many messages as there are complete text frames before the end, unless the end is a refused
      length, which loses them all. */
  lemma {:induction false} MessagesAreTextFrames(input: seq<byte>)
    ensures Decode(input).Err? <==> EndOf(input) == AtRefused
    ensures Decode(input).Ok? ==> |Decode(input).value.messages| == |Filter(IsText, Opcodes(input))|
    decreases |input|
  {
    hide Parse;
    DecodeByFrame(input);
    var p := Parse(input);
    if p.Frame? && p.opcode != 8 {
      var rest := input[p.size..];
      assert |rest| < |input| by { FrameFits(input); }
      MessagesAreTextFrames(rest);
      assert Opcodes(input) == [p.opcode] + Opcodes(rest);
      FilterConcat(IsText, [p.opcode], Opcodes(rest));
    }
  }

  lemma FrameFits(input: seq<byte>)
    ensures Parse(input).Frame? ==> 2 <= Parse(input).size <= |input|
  {
  }

  /** Past a close frame the hub goes on parsing what arrives. Cutting there shows the same messages exactly when the
      bytes after the close frame hold no complete text frame before parsing ends, or it ends at a refused length. */
  lemma CutAfterCloseIff(a: seq<byte>, b: seq<byte>)
    requires Decode(a).Ok? && Decode(a).value.closed
    ensures Decode(a + b).Ok?
    ensures Feed([a, b]).messages == Decode(a + b).value.messages
            <==> var late := Decode(a).value.rest + b; 1 !in Opcodes(late) || EndOf(late) == AtRefused
  {
    hide Parse, Opcodes, EndOf, Feed;
    ChunkingIndependence(a, b);
    FeedTwo(a, b);
    var late := Decode(a).value.rest + b;
    MessagesAreTextFrames(late);
    TextFramesIff(Opcodes(late));
  }

  lemma {:induction false} TextFramesIff(opcodes: seq<nat>)
    ensures Filter(IsText, opcodes) == [] <==> 1 !in opcodes
  {
    if opcodes != [] { TextFramesIff(opcodes[1..]); }
  }

  lemma MessageAfterCloseIsHandled()
    ensures Feed([[0x88, 0], [0x81, 0]]).messages == [[]]
            && Decode([0x88, 0] + [0x81, 0]) == Ok(Decoded([], [0x81, 0], true))
  {
    hide Parse;
    var close: seq<byte>, text: seq<byte> := [0x88, 0], [0x81, 0];
    EmptyFramesParse();
    ChunkingIndependence(close, text);
    assert text[2..] == [] && close[2..] == [];
    assert Decode(text) == Prepend([[]], Decode([]));
    assert [] + text == text;
    FeedTwo(close, text);
  }

  lemma EmptyFramesParse()
    ensures Parse([0x88, 0]) == Frame(8, [], 2) && Parse([0x81, 0]) == Frame(1, [], 2) && Parse([]) == Incomplete
  {
  }

  // ---------------------------------------------------------------- round trip

  datatype Sent = Plain(payload: seq<byte>) | Masked(key: seq<byte>, payload: seq<byte>)

  predicate Sendable(s: Sent) { |s.payload| < 65536 && (s.Masked? ==> |s.key| == 4) }

  function Encode(s: Sent): seq<byte>
    requires Sendable(s)
  {
    match s
    case Plain(payload) => FrameText(payload).value
    case Masked(key, payload) => MaskedText(key, payload)
  }

  lemma ParseLength(n: nat, maskBit: byte, more: seq<byte>)
    requires n < 65536 && maskBit in {0, 128}
    ensures var input := [0x81] + Length(n, maskBit) + more;
            && |input| >= 2 && (input[1] >= 128 <==> maskBit == 128)
            && (input[1] % 128 == 126 <==> n >= 126) && (input[1] % 128 == 126 ==> |input| >= 4)
            && PayloadLength(input) == n
  {
  }

  /** What parsing makes of a text frame with a payload of this length. */
  function TextFrame(payload: seq<byte>, size: nat): Parsed {
    if |payload| == 127 then Unsupported else Frame(1, payload, size)
  }

  lemma ParsePlain(payload: seq<byte>, more: seq<byte>)
    requires |payload| < 65536
    ensures Parse([0x81] + Length(|payload|, 0) + payload + more)
         == TextFrame(payload, 1 + |Length(|payload|, 0)| + |payload|)
  {
    var n := |payload|;
    var input := [0x81] + Length(n, 0) + payload + more;
    assert input == [0x81] + Length(n, 0) + (payload + more);
    ParseLength(n, 0, payload + more);
    var head := if n >= 126 then 4 else 2;
    assert input[head..head + n] == payload;
  }

  lemma ParseMasked(key: seq<byte>, body: seq<byte>, more: seq<byte>)
    requires |key| == 4 && |body| < 65536
    ensures Parse([0x81] + Length(|body|, 128) + key + body + more)
         == TextFrame(ApplyMask(key, body), 1 + |Length(|body|, 128)| + 4 + |body|)
  {
    hide Xor;
    var n := |body|;
    var input := [0x81] + Length(n, 128) + key + body + more;
    assert input == [0x81] + Length(n, 128) + (key + body + more);
    ParseLength(n, 128, key + body + more);
    var head := if n >= 126 then 4 else 2;
    assert input[head..head + 4] == key;
    assert input[head + 4..head + 4 + n] == body;
  }

  /** Whatever follows, the first frame parsed is the one printed, or a refusal. */
  lemma ParseEncoded(s: Sent, more: seq<byte>)
    requires Sendable(s)
    ensures Parse(Encode(s) + more) == TextFrame(s.payload, |Encode(s)|)
  {
    hide Parse, Xor;
    match s
    case Plain(payload) => ParsePlain(payload, more);
    case Masked(key, payload) =>
      ParseMasked(key, ApplyMask(key, payload), more);
      MaskTwice(key, payload);
  }

  function EncodeAll(frames: seq<Sent>): seq<byte>
    requires forall s :: s in frames ==> Sendable(s)
  {
    if frames == [] then [] else Encode(frames[0]) + EncodeAll(frames[1..])
  }

  function Payloads(frames: seq<Sent>): seq<seq<byte>> {
    seq(|frames|, i requires 0 <= i < |frames| => frames[i].payload)
  }

  /** The frames the decoder reads: all but those whose payload has exactly 127 bytes. */
  predicate Readable(frames: seq<Sent>) { forall s :: s in frames ==> |s.payload| != 127 }

  /** Any list of text frames, masked or not, decodes to its payloads with nothing left over if and only if no payload
      has exactly 127 bytes; otherwise decoding throws. */
  lemma {:induction false} RoundTripIff(frames: seq<Sent>)
    requires forall s :: s in frames ==> Sendable(s)
    ensures Decode(EncodeAll(frames))
         == if Readable(frames) then Ok(Decoded(Payloads(frames), [], false)) else Err(LongLengthUnsupported)
  {
    hide Parse, Encode;
    if frames == [] {
      NothingDecodes();
    } else {
      var rest := frames[1..];
      RoundTripIff(rest);
      assert Readable(frames) <==> |frames[0].payload| != 127 && Readable(rest);
      ParseEncoded(frames[0], EncodeAll(rest));
      var input := EncodeAll(frames);
      DecodeByFrame(input);
      assert input[|Encode(frames[0])|..] == EncodeAll(rest);
      assert Payloads(frames) == [frames[0].payload] + Payloads(rest);
    }
  }

  lemma NothingDecodes()
    ensures Decode([]) == Ok(Decoded([], [], false))
  {
  }

  /** The failing family is inhabited by everything the hub prints for 127 bytes. */
  lemma PrintedButRefused(payload: seq<byte>)
    requires |payload| == 127
    ensures FrameText(payload).Ok? && Decode(FrameText(payload).value) == Err(LongLengthUnsupported)
  {
    ParseEncoded(Plain(payload), []);
    assert FrameText(payload).value + [] == FrameText(payload).value;
  }

  /** Together: text frames cut anywhere reach the hub whole, in order, and nothing else does, if and only if no payload
      has exactly 127 bytes; otherwise the hub throws. */
  lemma FramesSurviveAnyCutIff(frames: seq<Sent>, chunks: seq<seq<byte>>)
    requires forall s :: s in frames ==> Sendable(s)
    requires Join(chunks) == EncodeAll(frames)
    ensures Readable(frames) ==> Feed(chunks) == PeerState([], Payloads(frames), false, false)
    ensures !Readable(frames) ==> Feed(chunks).failed
  {
    RoundTripIff(frames);
    if Readable(frames) {
      if chunks != [] {
        OpenPrefix(Join(chunks[..|chunks| - 1]), chunks[|chunks| - 1]);
      }
      FeedIsDecode(chunks);
    } else {
      RefusedStreamFails(chunks);
    }
  }
}
