/**
 One direction of a chunked channel, end to end: a send queue, an in-order
 reliable wire and a reassembler, refining a plain FIFO of messages.

 A state machine over every interleaving of pushes, frames leaving at any
 buffered amount, frames arriving, and either end closing.
 */
module Transport {
  import opened Wrappers
  import opened Frame
  import Send
  import Recv

  datatype Net = Net(
    toSend: seq<Bytes>,
    wire: seq<Bytes>,
    progress: Option<Recv.Partial>,
    /** Every message the queue accepted, in order. */
    accepted: seq<Send.Message>,
    /** What the receiver reported, in order, `Pending` left out. */
    delivered: seq<Recv.Delivery>,
    fault: Option<FrameError>,
    senderOpen: bool,
    receiverOpen: bool,
    /** Frames the sender cleared instead of handing out. */
    cleared: seq<Bytes>)

  const INIT := Net([], [], None, [], [], None, true, true, [])

  datatype Event =
    | Submit(data: Bytes, binary: bool)
    | Emit(nativeBuffered: nat)
    | Arrive
    | CloseSender
    | CloseReceiver

  function Step(c: Send.SendConfig, limit: nat, s: Net, e: Event): Net
    requires Send.Validate(c).Ok?
  {
    match e
    case Submit(data, binary) =>
      if !s.senderOpen then s else
      var (toSend, r) := Send.PushFrames(c, s.toSend, data, binary);
      if r.Ok? then
        s.(toSend := toSend, accepted := s.accepted + [Send.Message(data, !binary)])
      else
        s.(toSend := toSend)
    case Emit(nativeBuffered) =>
      if !s.senderOpen then s else
      var (toSend, r) := Send.TakeFrame(c, s.toSend, nativeBuffered);
      if r.Some? then s.(toSend := toSend, wire := s.wire + [r.value]) else s.(toSend := toSend)
    case Arrive =>
      if !s.receiverOpen || s.wire == [] then s else
      var (progress, r) := Recv.Receive(limit, s.progress, s.wire[0]);
      match r {
        case Ok(d) =>
          s.(wire := s.wire[1..], progress := progress,
             delivered := if d.Pending? then s.delivered else s.delivered + [d])
        case Err(e) =>
          s.(wire := s.wire[1..], progress := None, fault := Some(e), receiverOpen := false)
      }
    case CloseSender =>
      s.(toSend := [], senderOpen := false, cleared := s.cleared + s.toSend)
    case CloseReceiver =>
      s.(progress := None, receiverOpen := false)
  }

  function Run(c: Send.SendConfig, limit: nat, events: seq<Event>): Net
    requires Send.Validate(c).Ok?
    decreases |events|
  {
    if events == [] then INIT
    else Step(c, limit, Run(c, limit, events[..|events| - 1]), events[|events| - 1])
  }

  // ---------------------------------------------------------------------
  // The specification: a FIFO of whole messages
  // ---------------------------------------------------------------------

  /** The one report the receiver makes about `m`. */
  function Outcome(limit: nat, m: Send.Message): Recv.Delivery {
    if |m.data| <= limit then Recv.Message(m.data, !m.text) else Recv.Dropped(|m.data|)
  }

  function Outcomes(limit: nat, ms: seq<Send.Message>): seq<Recv.Delivery> {
    seq(|ms|, i requires 0 <= i < |ms| => Outcome(limit, ms[i]))
  }

  ghost predicate Reported(limit: nat, delivered: seq<Recv.Delivery>, ms: seq<Send.Message>) {
    && |delivered| <= |ms|
    && forall i :: 0 <= i < |delivered| ==> delivered[i] == Outcome(limit, ms[i])
  }

  datatype Fifo = Fifo(waiting: seq<Send.Message>, out: seq<Recv.Delivery>)

  ghost predicate FifoStep(limit: nat, q: Fifo, q': Fifo) {
    || q' == q
    || (|q'.waiting| == |q.waiting| + 1 && q.waiting < q'.waiting && q'.out == q.out)
    || (q.waiting != [] && q' == Fifo(q.waiting[1..], q.out + [Outcome(limit, q.waiting[0])]))
  }

  function Abstract(s: Net): Fifo
    requires |s.delivered| <= |s.accepted|
  {
    Fifo(s.accepted[|s.delivered|..], s.delivered)
  }

  // ---------------------------------------------------------------------
  // The invariant
  // ---------------------------------------------------------------------

  function Framing(room: nat, ms: seq<Send.Message>): seq<Bytes>
    requires room >= 1
  {
    if ms == [] then [] else Send.FramesOf(ms[0], room) + Framing(room, ms[1..])
  }

  lemma {:induction false} FramingAppend(room: nat, ms: seq<Send.Message>, m: Send.Message)
    requires room >= 1
    ensures Framing(room, ms + [m]) == Framing(room, ms) + Send.FramesOf(m, room)
  {
    if ms == [] {
      assert ms + [m] == [m] && [m][1..] == [];
    } else {
      FramingAppend(room, ms[1..], m);
      assert (ms + [m])[1..] == ms[1..] + [m];
    }
  }

  /** `p` is a message in progress: its first bytes, the last frame still to come. */
  ghost predicate PartOf(p: Recv.Partial, m: Send.Message) {
    && p.text == m.text
    && |p.acc| < |m.data|
    && p.acc == m.data[..|p.acc|]
  }

  /** The frames the receiver has still to see, given the messages it has not reported. */
  function Expected(room: nat, progress: Option<Recv.Partial>, waiting: seq<Send.Message>): seq<Bytes>
    requires room >= 1
    requires progress.Some? ==> waiting != [] && PartOf(progress.value, waiting[0])
  {
    if progress.None? then Framing(room, waiting)
    else Send.FramesFrom(waiting[0], |progress.value.acc|, room) + Framing(room, waiting[1..])
  }

  ghost predicate Inv(c: Send.SendConfig, limit: nat, s: Net) {
    && Send.Validate(c).Ok?
    && Reported(limit, s.delivered, s.accepted)
    && s.fault == None
    && (forall m :: m in s.accepted ==> |m.data| <= c.maxMessageSize)
    && Send.PayloadBytes(s.toSend) <= c.queueLimit
    && (s.senderOpen ==> s.cleared == [])
    && (!s.senderOpen ==> s.toSend == [])
    && (s.receiverOpen ==> InStep(c.chunkSize - 1, s.progress, s.accepted[|s.delivered|..],
                                  s.wire + s.toSend + s.cleared))
  }

  /** `stream` is what the receiver has still to see. */
  ghost predicate InStep(
    room: nat, progress: Option<Recv.Partial>, waiting: seq<Send.Message>, stream: seq<Bytes>)
  {
    && room >= 1
    && (progress.Some? ==> waiting != [] && PartOf(progress.value, waiting[0]))
    && stream == Expected(room, progress, waiting)
  }

  /** What one frame of a message does to the receiver. */
  lemma ArrivalOfOne(limit: nat, m: Send.Message, progress: Option<Recv.Partial>, room: nat)
    requires room >= 1
    requires progress.Some? ==> PartOf(progress.value, m)
    ensures
      var offset := if progress.Some? then |progress.value.acc| else 0;
      var next := offset + Min(room, |m.data| - offset);
      var fs := Send.FramesFrom(m, offset, room);
      if next < |m.data| then
        && Recv.Receive(limit, progress, fs[0])
             == (Some(Recv.Partial(m.text, m.data[..next])), Ok(Recv.Pending))
        && fs[1..] == Send.FramesFrom(m, next, room)
      else
        && Recv.Receive(limit, progress, fs[0]) == (None, Ok(Outcome(limit, m)))
        && fs[1..] == []
  {
    var offset := if progress.Some? then |progress.value.acc| else 0;
    var next := offset + Min(room, |m.data| - offset);
    var h := Header(next < |m.data|, m.text);
    DecodeInvertsEncode(Encode(h), h);
    hide Encode, Decode;
    var frame := Send.FramesFrom(m, offset, room)[0];
    assert frame[1..] == m.data[offset..next];
    assert m.data[..offset] + m.data[offset..next] == m.data[..next];
    assert m.data[..|m.data|] == m.data;
  }

  /** Taking the first expected frame either extends the message in progress or reports it. */
  lemma ArrivalKeepsStep(
    limit: nat, room: nat, progress: Option<Recv.Partial>, waiting: seq<Send.Message>, stream: seq<Bytes>)
    requires InStep(room, progress, waiting, stream) && stream != []
    ensures waiting != []
    ensures
      var (progress', r) := Recv.Receive(limit, progress, stream[0]);
      if r == Ok(Recv.Pending) then
        InStep(room, progress', waiting, stream[1..])
      else
        && r == Ok(Outcome(limit, waiting[0]))
        && progress' == None
        && InStep(room, None, waiting[1..], stream[1..])
  {
    StreamIsFrames(room, progress, waiting, stream);
    var m := waiting[0];
    var offset := if progress.Some? then |progress.value.acc| else 0;
    var next := offset + Min(room, |m.data| - offset);
    var fs, tail := Send.FramesFrom(m, offset, room), Framing(room, waiting[1..]);
    ArrivalOfOne(limit, m, progress, room);
    TakesFirst(fs, tail);
    hide Recv.Receive, Send.FramesFrom, Framing;
    if next < |m.data| {
      assert PartOf(Recv.Partial(m.text, m.data[..next]), m);
      hide PartOf;
    } else {
      hide PartOf;
      assert [] + tail == tail;
      assert Outcome(limit, m) != Recv.Pending;
      hide Outcome;
    }
  }

  lemma StreamIsFrames(
    room: nat, progress: Option<Recv.Partial>, waiting: seq<Send.Message>, stream: seq<Bytes>)
    requires InStep(room, progress, waiting, stream) && stream != []
    ensures waiting != [] && (progress.Some? ==> PartOf(progress.value, waiting[0]))
    ensures
      var offset := if progress.Some? then |progress.value.acc| else 0;
      stream == Send.FramesFrom(waiting[0], offset, room) + Framing(room, waiting[1..])
  {
    hide Send.FramesFrom, PartOf;
  }

  lemma TakesFirst<T>(a: seq<T>, b: seq<T>)
    requires a != []
    ensures a + b != [] && (a + b)[0] == a[0] && (a + b)[1..] == a[1..] + b
  {
  }

  lemma Regrouped<T>(a: seq<T>, b: seq<T>, c: seq<T>)
    ensures a + (b + c) == a + b + c
  {
  }

  lemma PartIsProper(p: Recv.Partial, m: Send.Message)
    requires PartOf(p, m)
    ensures |p.acc| <= |m.data|
  {
  }

  lemma StreamTakes<T>(a: seq<T>, b: seq<T>, c: seq<T>)
    requires a != []
    ensures a + b + c != [] && (a + b + c)[0] == a[0] && (a + b + c)[1..] == a[1..] + b + c
  {
  }

  lemma StreamGains<T>(a: seq<T>, b: seq<T>, c: seq<T>, more: seq<T>)
    requires c == []
    ensures a + (b + more) + c == a + b + c + more
  {
  }

  lemma DropOne<T>(s: seq<T>, k: nat)
    requires k < |s|
    ensures s[k..] != [] && s[k..][0] == s[k] && s[k + 1..] == s[k..][1..]
  {
  }

  lemma ArriveStep(c: Send.SendConfig, limit: nat, s: Net)
    requires Inv(c, limit, s) && s.receiverOpen && s.wire != []
    ensures Inv(c, limit, Step(c, limit, s, Arrive))
    ensures FifoStep(limit, Abstract(s), Abstract(Step(c, limit, s, Arrive)))
  {
    var k := |s.delivered|;
    var waiting := s.accepted[k..];
    var stream := s.wire + s.toSend + s.cleared;
    hide Recv.Receive, InStep, Send.PayloadBytes, Send.Validate, Send.PushFrames, Send.TakeFrame, Outcome;
    ArrivalKeepsStep(limit, c.chunkSize - 1, s.progress, waiting, stream);
    StreamTakes(s.wire, s.toSend, s.cleared);
    DropOne(s.accepted, k);
  }

  lemma SubmissionKeepsStep(
    room: nat, progress: Option<Recv.Partial>, waiting: seq<Send.Message>, stream: seq<Bytes>, m: Send.Message)
    requires InStep(room, progress, waiting, stream)
    ensures InStep(room, progress, waiting + [m], stream + Send.FramesOf(m, room))
  {
    hide Framing, Send.FramesFrom, Send.FramesOf, PartOf;
    if progress.None? {
      FramingAppend(room, waiting, m);
    } else {
      var p := progress.value;
      FramingAppend(room, waiting[1..], m);
      TakesFirst(waiting, [m]);
      assert PartOf(p, waiting[0]);
      PartIsProper(p, waiting[0]);
      Regrouped(Send.FramesFrom(waiting[0], |p.acc|, room), Framing(room, waiting[1..]), Send.FramesOf(m, room));
    }
  }

  lemma SubmitStep(c: Send.SendConfig, limit: nat, s: Net, data: Bytes, binary: bool)
    requires Inv(c, limit, s)
    ensures Inv(c, limit, Step(c, limit, s, Submit(data, binary)))
    ensures FifoStep(limit, Abstract(s), Abstract(Step(c, limit, s, Submit(data, binary))))
  {
    var room := c.chunkSize - 1;
    var m := Send.Message(data, !binary);
    var k := |s.delivered|;
    var s' := Step(c, limit, s, Submit(data, binary));
    Send.PushAppends(c, s.toSend, data, binary);
    hide InStep, Send.PayloadBytes, Send.FramesOf, Send.PushFrames, Send.Validate, Outcome;
    if s'.accepted != s.accepted {
      StreamGains(s.wire, s.toSend, s.cleared, Send.FramesOf(m, room));
      assert s'.accepted[k..] == s.accepted[k..] + [m];
      if s.receiverOpen {
        SubmissionKeepsStep(room, s.progress, s.accepted[k..], s.wire + s.toSend + s.cleared, m);
      }
    }
  }

  /** Every step keeps the invariant and is a step, or a stutter, of the FIFO. */
  lemma StepRefinesFifo(c: Send.SendConfig, limit: nat, s: Net, e: Event)
    requires Inv(c, limit, s)
    ensures Inv(c, limit, Step(c, limit, s, e))
    ensures FifoStep(limit, Abstract(s), Abstract(Step(c, limit, s, e)))
  {
    match e
    case Submit(data, binary) => SubmitStep(c, limit, s, data, binary);
    case Arrive =>
      if s.receiverOpen && s.wire != [] {
        ArriveStep(c, limit, s);
      }
    case Emit(nativeBuffered) =>
      var s' := Step(c, limit, s, e);
      assert s'.wire + s'.toSend == s.wire + s.toSend;
    case CloseSender =>
      var s' := Step(c, limit, s, e);
      assert s'.wire + s'.toSend + s'.cleared == s.wire + s.toSend + s.cleared;
    case CloseReceiver =>
  }

  /**
   In every run: no frame is ever refused, and what was delivered is the
   outcome of the first accepted messages, one each, in order. Once nothing is
   queued or in flight it is the outcome of all of them.
   */
  lemma {:induction false} RunsBehaveAsFifo(c: Send.SendConfig, limit: nat, events: seq<Event>)
    requires Send.Validate(c).Ok?
    ensures Inv(c, limit, Run(c, limit, events))
    ensures
      var s := Run(c, limit, events);
      && s.fault == None
      && s.delivered <= Outcomes(limit, s.accepted)
      && (s.senderOpen && s.receiverOpen && s.toSend == [] && s.wire == [] ==>
            s.delivered == Outcomes(limit, s.accepted) && s.progress == None)
    decreases |events|
  {
    var s := Run(c, limit, events);
    if events != [] {
      var before := events[..|events| - 1];
      RunsBehaveAsFifo(c, limit, before);
      StepRefinesFifo(c, limit, Run(c, limit, before), events[|events| - 1]);
    }
    if s.receiverOpen && s.senderOpen && s.toSend == [] && s.wire == [] {
      assert s.accepted[|s.delivered|..] == [];
    }
  }

  /** Everything the receiver reported so far is an accepted message, whole and in order. */
  ghost predicate AllKept(s: Net) {
    forall i :: 0 <= i < |s.delivered| ==>
      && i < |s.accepted|
      && s.delivered[i] == Recv.Message(s.accepted[i].data, !s.accepted[i].text)
  }

  /** A receiver whose limit is at least the sender's keeps every accepted message. */
  lemma NothingDroppedWithinLimit(c: Send.SendConfig, limit: nat, events: seq<Event>)
    requires Send.Validate(c).Ok? && c.maxMessageSize <= limit
    ensures AllKept(Run(c, limit, events))
  {
    RunsBehaveAsFifo(c, limit, events);
    hide Run, Send.Validate;
    var s := Run(c, limit, events);
    forall i | 0 <= i < |s.delivered|
      ensures i < |s.accepted| && s.delivered[i] == Recv.Message(s.accepted[i].data, !s.accepted[i].text)
    {
      assert s.accepted[i] in s.accepted;
    }
  }
}
