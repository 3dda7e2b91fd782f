/**
 The per-channel send queue (crates/reactor-webrtc-dc-chunking/src/send.rs).

 The queue stores messages and an offset into the first one. Its meaning is
 the list of frames it still has to hand out; the class is proved against that
 list.
 */
module Send {
  import opened Wrappers
  import opened Frame

  const DEFAULT_MAX_MESSAGE_SIZE: nat := 64 * 1024 * 1024
  const DEFAULT_SEND_BUFFER_LIMIT: nat := 128 * 1024 * 1024
  const DEFAULT_CHUNK_SIZE: nat := 64 * 1024
  const DEFAULT_HIGH_WATER: nat := 8 * 1024 * 1024
  const DEFAULT_LOW_WATER: nat := 4 * 1024 * 1024
  const NATIVE_SEND_BUFFER_LIMIT: nat := 16 * 1024 * 1024
  const LEGACY_MAX_MESSAGE_SIZE: nat := 256 * 1024

  datatype SendConfig = SendConfig(
    chunkSize: nat, highWater: nat, lowWater: nat, queueLimit: nat, maxMessageSize: nat)

  const DEFAULT_CONFIG := SendConfig(
    DEFAULT_CHUNK_SIZE, DEFAULT_HIGH_WATER, DEFAULT_LOW_WATER,
    DEFAULT_SEND_BUFFER_LIMIT, DEFAULT_MAX_MESSAGE_SIZE)

  datatype ConfigError =
    | ChunkSize(size: nat)
    | Watermarks(low: nat, high: nat)
    | HighWater(high: nat)
    | QueueBelowMessage(queue: nat, message: nat)

  function Validate(c: SendConfig): Result<(), ConfigError> {
    if c.chunkSize < 2 || c.chunkSize > LEGACY_MAX_MESSAGE_SIZE then
      Err(ChunkSize(c.chunkSize))
    else if c.lowWater >= c.highWater then
      Err(Watermarks(c.lowWater, c.highWater))
    else if c.highWater > NATIVE_SEND_BUFFER_LIMIT - c.chunkSize then
      Err(HighWater(c.highWater))
    else if c.queueLimit < c.maxMessageSize then
      Err(QueueBelowMessage(c.queueLimit, c.maxMessageSize))
    else
      Ok(())
  }

  datatype SendError =
    | TooLarge(size: nat, max: nat)
    | QueueFull(queued: nat, size: nat, limit: nat)

  datatype Message = Message(data: Bytes, text: bool)

  // ---------------------------------------------------------------------
  // The wire format of one message
  // ---------------------------------------------------------------------

  /** The frames of `m` from `offset` on, each carrying up to `room` payload bytes. */
  function FramesFrom(m: Message, offset: nat, room: nat): (fs: seq<Bytes>)
    requires offset <= |m.data| && room >= 1
    ensures fs != []
    decreases |m.data| - offset
  {
    var take := Min(room, |m.data| - offset);
    var more := offset + take < |m.data|;
    var frame := [Encode(Header(more, m.text))] + m.data[offset..offset + take];
    if more then [frame] + FramesFrom(m, offset + take, room) else [frame]
  }

  function FramesOf(m: Message, room: nat): seq<Bytes>
    requires room >= 1
  {
    FramesFrom(m, 0, room)
  }

  function Payload(frames: seq<Bytes>): Bytes {
    if frames == [] then []
    else (if frames[0] == [] then [] else frames[0][1..]) + Payload(frames[1..])
  }

  /**
   The wire format, stated without saying how it is produced: contiguous
   frames carrying the message's type, `more` on all but the last, every frame
   but the last full, no empty frame after the first, payloads adding up to
   the message.
   */
  ghost predicate IsFraming(fs: seq<Bytes>, m: Message, room: nat) {
    && fs != []
    && (forall i :: 0 <= i < |fs| ==>
        && 1 <= |fs[i]| <= room + 1
        && Decode(fs[i][0]) == Ok(Header(i < |fs| - 1, m.text)))
    && (forall i :: 0 <= i < |fs| - 1 ==> |fs[i]| == room + 1)
    && (|fs| > 1 ==> |fs[|fs| - 1]| >= 2)
    && Payload(fs) == m.data
  }

  lemma PayloadOfFirst(fs: seq<Bytes>)
    requires fs != [] && fs[0] != []
    ensures |fs[0]| - 1 <= |Payload(fs)|
    ensures fs[0][1..] == Payload(fs)[..|fs[0]| - 1]
    ensures Payload(fs[1..]) == Payload(fs)[|fs[0]| - 1..]
  {
  }

  /** The frames the queue produces are in the wire format, and nothing else is. */
  lemma {:induction false} FramesAreTheOnlyFraming(fs: seq<Bytes>, m: Message, room: nat)
    requires room >= 1
    ensures IsFraming(fs, m, room) <==> fs == FramesOf(m, room)
  {
    FramesFromIsFraming(m, 0, room);
    assert m.data[0..] == m.data;
    if IsFraming(fs, m, room) {
      FramingIsUnique(fs, FramesOf(m, room), m, room);
    }
  }

  lemma FramingCons(frame: Bytes, tail: seq<Bytes>, m: Message, room: nat)
    requires 1 <= room < |m.data| && |frame| == room + 1
    requires Decode(frame[0]) == Ok(Header(true, m.text)) && frame[1..] == m.data[..room]
    requires IsFraming(tail, Message(m.data[room..], m.text), room)
    ensures IsFraming([frame] + tail, m, room)
  {
    hide Encode, Decode;
    var fs := [frame] + tail;
    assert fs[1..] == tail;
    assert Payload(fs) == m.data[..room] + m.data[room..] == m.data;
    if |tail| == 1 {
      assert tail[1..] == [];
      assert Payload(tail) == tail[0][1..];
    }
  }

  lemma FramingOne(frame: Bytes, m: Message, room: nat)
    requires |m.data| <= room && |frame| == |m.data| + 1
    requires Decode(frame[0]) == Ok(Header(false, m.text)) && frame[1..] == m.data
    ensures IsFraming([frame], m, room)
  {
    hide Encode, Decode;
    assert [frame][1..] == [];
    assert Payload([frame]) == m.data + [];
  }

  lemma {:induction false} FramesFromIsFraming(m: Message, offset: nat, room: nat)
    requires room >= 1 && offset <= |m.data|
    ensures IsFraming(FramesFrom(m, offset, room), Message(m.data[offset..], m.text), room)
    decreases |m.data| - offset
  {
    hide IsFraming, Encode, Decode;
    var take := Min(room, |m.data| - offset);
    var more := offset + take < |m.data|;
    var rest := Message(m.data[offset..], m.text);
    var frame := [Encode(Header(more, m.text))] + m.data[offset..offset + take];
    DecodeInvertsEncode(frame[0], Header(more, m.text));
    assert frame[1..] == rest.data[..take];
    if more {
      FramesFromIsFraming(m, offset + take, room);
      assert rest.data[room..] == m.data[offset + take..];
      FramingCons(frame, FramesFrom(m, offset + take, room), rest, room);
    } else {
      FramingOne(frame, rest, room);
    }
  }

  lemma {:induction false} FramingIsUnique(a: seq<Bytes>, b: seq<Bytes>, m: Message, room: nat)
    requires room >= 1 && IsFraming(a, m, room) && IsFraming(b, m, room)
    ensures a == b
    decreases |a|
  {
    DecodeInvertsEncode(a[0][0], Header(|a| > 1, m.text));
    DecodeInvertsEncode(b[0][0], Header(|b| > 1, m.text));
    PayloadOfFirst(a);
    PayloadOfFirst(b);
    SingleFrameIffFits(a, m, room);
    SingleFrameIffFits(b, m, room);
    assert a[0] == [a[0][0]] + a[0][1..];
    assert b[0] == [b[0][0]] + b[0][1..];
    if |a| == 1 {
      assert a == [a[0]] && b == [b[0]];
      assert Payload(a[1..]) == [] && Payload(b[1..]) == [];
    } else {
      assert a[0] == b[0];
      var rest := Message(m.data[room..], m.text);
      FramingTail(a, m, room);
      FramingTail(b, m, room);
      FramingIsUnique(a[1..], b[1..], rest, room);
      assert a == [a[0]] + a[1..] && b == [b[0]] + b[1..];
    }
  }

  lemma FramingTail(fs: seq<Bytes>, m: Message, room: nat)
    requires room >= 1 && IsFraming(fs, m, room) && |fs| > 1
    ensures room <= |m.data| && IsFraming(fs[1..], Message(m.data[room..], m.text), room)
  {
    PayloadOfFirst(fs);
    var tail := fs[1..];
    assert forall i :: 0 <= i < |tail| ==> tail[i] == fs[i + 1];
  }

  lemma SingleFrameIffFits(fs: seq<Bytes>, m: Message, room: nat)
    requires room >= 1 && IsFraming(fs, m, room)
    ensures |fs| == 1 <==> |m.data| <= room
    ensures |fs| == 1 ==> m.data == fs[0][1..]
  {
    PayloadOfFirst(fs);
    if |fs| == 1 {
      assert fs[1..] == [];
    } else {
      FramingTail(fs, m, room);
      var tail := fs[1..];
      PayloadOfFirst(tail);
      assert tail[0] == fs[1];
    }
  }

  // ---------------------------------------------------------------------
  // The queue as a list of frames
  // ---------------------------------------------------------------------

  /** Payload bytes carried by `frames`, headers not counted. */
  function PayloadBytes(frames: seq<Bytes>): (n: nat) {
    if frames == [] then 0
    else (if frames[0] == [] then 0 else |frames[0]| - 1) + PayloadBytes(frames[1..])
  }

  lemma {:induction false} PayloadBytesConcat(a: seq<Bytes>, b: seq<Bytes>)
    ensures PayloadBytes(a + b) == PayloadBytes(a) + PayloadBytes(b)
  {
    if a == [] {
      assert a + b == b;
    } else {
      PayloadBytesConcat(a[1..], b);
      assert (a + b)[1..] == a[1..] + b;
    }
  }

  lemma {:induction false} PayloadBytesFrom(m: Message, offset: nat, room: nat)
    requires room >= 1 && offset <= |m.data|
    ensures PayloadBytes(FramesFrom(m, offset, room)) == |m.data| - offset
    decreases |m.data| - offset
  {
    var fs := FramesFrom(m, offset, room);
    var take := Min(room, |m.data| - offset);
    assert |fs[0]| - 1 == take;
    if offset + take < |m.data| {
      PayloadBytesFrom(m, offset + take, room);
      assert fs[1..] == FramesFrom(m, offset + take, room);
    } else {
      assert fs[1..] == [];
    }
  }

  /** `push` on the list of frames: a refused message queues nothing. */
  function PushFrames(c: SendConfig, toSend: seq<Bytes>, data: Bytes, binary: bool)
    : (seq<Bytes>, Result<(), SendError>)
    requires c.chunkSize >= 2
  {
    if |data| > c.maxMessageSize then
      (toSend, Err(TooLarge(|data|, c.maxMessageSize)))
    else if PayloadBytes(toSend) + |data| > c.queueLimit then
      (toSend, Err(QueueFull(PayloadBytes(toSend), |data|, c.queueLimit)))
    else
      (toSend + FramesOf(Message(data, !binary), c.chunkSize - 1), Ok(()))
  }

  /** `next_frame` on the list of frames: the first one, unless the native buffer is full. */
  function TakeFrame(c: SendConfig, toSend: seq<Bytes>, nativeBuffered: nat)
    : (seq<Bytes>, Option<Bytes>)
  {
    if nativeBuffered >= c.highWater || toSend == [] then
      (toSend, None)
    else
      (toSend[1..], Some(toSend[0]))
  }

  /** A push appends the message's frames, within the queue's limit, or changes nothing. */
  lemma PushAppends(c: SendConfig, toSend: seq<Bytes>, data: Bytes, binary: bool)
    requires Validate(c).Ok?
    ensures
      var (toSend', r) := PushFrames(c, toSend, data, binary);
      if r.Ok? then
        && |data| <= c.maxMessageSize
        && toSend' == toSend + FramesOf(Message(data, !binary), c.chunkSize - 1)
        && PayloadBytes(toSend') <= c.queueLimit
      else toSend' == toSend
  {
    var m := Message(data, !binary);
    PayloadBytesFrom(m, 0, c.chunkSize - 1);
    PayloadBytesConcat(toSend, FramesOf(m, c.chunkSize - 1));
    hide PayloadBytes, FramesFrom;
  }

  datatype Pending = Pending(data: Bytes, text: bool, offset: nat)

  predicate WellFormed(p: Pending) {
    p.offset == 0 || p.offset < |p.data|
  }

  predicate AllWellFormed(pending: seq<Pending>) {
    forall i :: 0 <= i < |pending| ==> WellFormed(pending[i])
  }

  function QueueFrames(pending: seq<Pending>, room: nat): (fs: seq<Bytes>)
    requires room >= 1 && AllWellFormed(pending)
    ensures fs == [] <==> pending == []
  {
    if pending == [] then []
    else
      var p := pending[0];
      FramesFrom(Message(p.data, p.text), p.offset, room) + QueueFrames(pending[1..], room)
  }

  lemma {:induction false} QueueFramesAppend(pending: seq<Pending>, p: Pending, room: nat)
    requires room >= 1 && WellFormed(p) && AllWellFormed(pending)
    ensures AllWellFormed(pending + [p])
    ensures QueueFrames(pending + [p], room)
         == QueueFrames(pending, room) + FramesFrom(Message(p.data, p.text), p.offset, room)
  {
    if pending == [] {
      assert pending + [p] == [p] && [p][1..] == [];
    } else {
      QueueFramesAppend(pending[1..], p, room);
      assert (pending + [p])[1..] == pending[1..] + [p];
    }
  }

  lemma QueueAppend(pending: seq<Pending>, data: Bytes, text: bool, room: nat)
    requires room >= 1 && AllWellFormed(pending)
    ensures AllWellFormed(pending + [Pending(data, text, 0)])
    ensures
      var before := QueueFrames(pending, room);
      var after := QueueFrames(pending + [Pending(data, text, 0)], room);
      && after == before + FramesOf(Message(data, text), room)
      && PayloadBytes(after) == PayloadBytes(before) + |data|
  {
    QueueFramesAppend(pending, Pending(data, text, 0), room);
    PayloadBytesFrom(Message(data, text), 0, room);
    PayloadBytesConcat(QueueFrames(pending, room), FramesOf(Message(data, text), room));
  }

  function Taken(p: Pending, room: nat): nat
    requires WellFormed(p)
  {
    Min(room, |p.data| - p.offset)
  }

  function HeadFrame(p: Pending, room: nat): Bytes
    requires WellFormed(p)
  {
    [Encode(Header(p.offset + Taken(p, room) < |p.data|, p.text))]
    + p.data[p.offset..p.offset + Taken(p, room)]
  }

  function AfterFrame(pending: seq<Pending>, room: nat): seq<Pending>
    requires pending != [] && WellFormed(pending[0])
  {
    var p := pending[0];
    if p.offset + Taken(p, room) < |p.data|
    then [p.(offset := p.offset + Taken(p, room))] + pending[1..]
    else pending[1..]
  }

  /** What handing out one frame of the head does to the frames still to send. */
  lemma QueueStep(pending: seq<Pending>, room: nat)
    requires room >= 1 && AllWellFormed(pending) && pending != []
    ensures AllWellFormed(AfterFrame(pending, room))
    ensures QueueFrames(pending, room)
         == [HeadFrame(pending[0], room)] + QueueFrames(AfterFrame(pending, room), room)
    ensures PayloadBytes(QueueFrames(pending, room))
         == Taken(pending[0], room) + PayloadBytes(QueueFrames(AfterFrame(pending, room), room))
    ensures More(HeadFrame(pending[0], room))
         == (pending[0].offset + Taken(pending[0], room) < |pending[0].data|)
  {
    hide Decode, More;
    var p := pending[0];
    var rest := AfterFrame(pending, room);
    HeadHeader(p, room);
    FirstQueueFrame(pending, room);
    PayloadBytesConcat([HeadFrame(p, room)], QueueFrames(rest, room));
    assert PayloadBytes([HeadFrame(p, room)]) == Taken(p, room) + PayloadBytes([]);
  }

  lemma HeadHeader(p: Pending, room: nat)
    requires WellFormed(p)
    ensures More(HeadFrame(p, room)) == (p.offset + Taken(p, room) < |p.data|)
  {
    var h := Header(p.offset + Taken(p, room) < |p.data|, p.text);
    DecodeInvertsEncode(Encode(h), h);
  }

  lemma FirstQueueFrame(pending: seq<Pending>, room: nat)
    requires room >= 1 && AllWellFormed(pending) && pending != []
    ensures AllWellFormed(AfterFrame(pending, room))
    ensures QueueFrames(pending, room)
         == [HeadFrame(pending[0], room)] + QueueFrames(AfterFrame(pending, room), room)
  {
    var p := pending[0];
    var m := Message(p.data, p.text);
    var tail := QueueFrames(pending[1..], room);
    var next := p.offset + Taken(p, room);
    FirstFrame(p, room);
    hide HeadFrame, FramesFrom;
    if next < |p.data| {
      var rest := AfterFrame(pending, room);
      assert rest[0] == p.(offset := next) && rest[1..] == pending[1..];
      assert QueueFrames(rest, room) == FramesFrom(m, next, room) + tail;
      hide QueueFrames;
      OneInFront(HeadFrame(p, room), FramesFrom(m, next, room), tail);
    } else {
      assert AfterFrame(pending, room) == pending[1..];
      assert [HeadFrame(p, room)] + [] == [HeadFrame(p, room)];
    }
  }

  lemma OneInFront<T>(x: T, a: seq<T>, b: seq<T>)
    ensures [x] + a + b == [x] + (a + b)
  {
  }

  lemma FirstFrame(p: Pending, room: nat)
    requires room >= 1 && WellFormed(p)
    ensures
      var m := Message(p.data, p.text);
      var next := p.offset + Taken(p, room);
      FramesFrom(m, p.offset, room)
        == [HeadFrame(p, room)] + if next < |p.data| then FramesFrom(m, next, room) else []
  {
    hide Encode;
  }

  class SendQueue {
    const config: SendConfig
    var pending: seq<Pending>
    var queued: nat
    /** Whether the last frame handed out promised more of its message. */
    ghost var promised: bool

    ghost predicate Valid()
      reads this
    {
      && Validate(config).Ok?
      && AllWellFormed(pending)
      && (forall i :: 1 <= i < |pending| ==> pending[i].offset == 0)
      && queued == PayloadBytes(ToSend()) <= config.queueLimit
      && (promised <==> pending != [] && pending[0].offset > 0)
    }

    ghost function ToSend(): seq<Bytes>
      reads this
      requires Validate(config).Ok? && AllWellFormed(pending)
    {
      QueueFrames(pending, config.chunkSize - 1)
    }

    constructor (config: SendConfig)
      requires Validate(config).Ok?
      ensures Valid() && this.config == config && ToSend() == [] && !promised
    {
      this.config := config;
      pending := [];
      queued := 0;
      promised := false;
    }

    method Push(data: Bytes, binary: bool) returns (r: Result<(), SendError>)
      requires Valid()
      modifies this
      ensures Valid()
      ensures (ToSend(), r) == PushFrames(config, old(ToSend()), data, binary)
      ensures promised == old(promised)
      ensures r.Err? ==> pending == old(pending) && queued == old(queued)
    {
      hide FramesFrom, QueueFrames, PayloadBytes;
      var size := |data|;
      if size > config.maxMessageSize {
        return Err(TooLarge(size, config.maxMessageSize));
      }
      if queued + size > config.queueLimit {
        return Err(QueueFull(queued, size, config.queueLimit));
      }
      QueueAppend(pending, data, !binary, config.chunkSize - 1);
      queued := queued + size;
      pending := pending + [Pending(data, !binary, 0)];
      r := Ok(());
    }

    method NextFrame(nativeBuffered: nat) returns (r: Option<Bytes>)
      requires Valid()
      modifies this
      ensures Valid()
      ensures (ToSend(), r) == TakeFrame(config, old(ToSend()), nativeBuffered)
      ensures promised == if r.Some? then More(r.value) else old(promised)
    {
      hide Encode, Decode, More, FramesFrom, QueueFrames, PayloadBytes;
      if nativeBuffered >= config.highWater {
        return None;
      }
      if pending == [] {
        return None;
      }
      var head := pending[0];
      var room := config.chunkSize - 1;
      var take := Min(room, |head.data| - head.offset);
      var more := head.offset + take < |head.data|;
      QueueStep(pending, room);
      var frame := [Encode(Header(more, head.text))];
      frame := frame + head.data[head.offset..head.offset + take];
      pending := [head.(offset := head.offset + take)] + pending[1..];
      queued := queued - take;
      if !more {
        pending := pending[1..];
      }
      promised := more;
      r := Some(frame);
    }

    method Queued() returns (n: nat)
      requires Valid()
      ensures n == PayloadBytes(ToSend())
    {
      n := queued;
    }

    method IsEmpty() returns (b: bool)
      requires Valid()
      ensures b <==> ToSend() == []
    {
      b := pending == [];
    }

    method MidMessage() returns (b: bool)
      requires Valid()
      ensures b == promised
    {
      b := pending != [] && pending[0].offset > 0;
    }

    method Clear()
      requires Valid()
      modifies this
      ensures Valid() && ToSend() == [] && !promised
    {
      pending := [];
      queued := 0;
      promised := false;
    }
  }
}
