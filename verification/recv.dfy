/**
 The per-channel reassembler (crates/reactor-webrtc-dc-chunking/src/recv.rs).

 Its meaning is a receiver that keeps every payload byte of the message in
 progress and judges the size only at the end. The real one throws bytes away
 as soon as the message passes the limit; the class is proved to answer the
 same.
 */
module Recv {
  import opened Wrappers
  import opened Frame

  datatype Delivery = Pending | Message(data: Bytes, binary: bool) | Dropped(size: nat)

  /** A message in progress: its type and every payload byte that arrived for it. */
  datatype Partial = Partial(text: bool, acc: Bytes)

  function Complete(limit: nat, p: Partial): Delivery {
    if |p.acc| <= limit then Message(p.acc, !p.text) else Dropped(|p.acc|)
  }

  function Receive(limit: nat, progress: Option<Partial>, frame: Bytes)
    : (Option<Partial>, Result<Delivery, FrameError>)
  {
    if frame == [] then
      (progress, Err(Empty))
    else match Decode(frame[0])
      case Err(e) => (progress, Err(e))
      case Ok(h) =>
        if progress.Some? && progress.value.text != h.text then
          (progress, Err(TypeChanged))
        else
          var acc := (if progress.Some? then progress.value.acc else []) + frame[1..];
          if h.more then
            (Some(Partial(h.text, acc)), Ok(Pending))
          else
            (None, Ok(Complete(limit, Partial(h.text, acc))))
  }

  class Reassembler {
    const maxMessageSize: nat
    var buf: Bytes
    var text: Option<bool>
    var skipping: Option<nat>
    /** What the unbounded receiver would hold. */
    ghost var progress: Option<Partial>

    /** However large the message in progress, no more than the limit is held. */
    ghost predicate Valid()
      reads this
      ensures Valid() ==> |buf| <= maxMessageSize
    {
      match progress
      case None =>
        text == None && skipping == None && buf == []
      case Some(p) =>
        && text == Some(p.text)
        && (if |p.acc| <= maxMessageSize
            then buf == p.acc && skipping == None
            else buf == [] && skipping == Some(|p.acc|))
    }

    constructor (maxMessageSize: nat)
      ensures Valid() && this.maxMessageSize == maxMessageSize && progress == None
    {
      this.maxMessageSize := maxMessageSize;
      buf := [];
      text := None;
      skipping := None;
      progress := None;
    }

    method Push(frame: Bytes) returns (r: Result<Delivery, FrameError>)
      requires Valid()
      modifies this
      ensures Valid()
      ensures (progress, r) == Receive(maxMessageSize, old(progress), frame)
    {
      ghost var next := Receive(maxMessageSize, progress, frame).0;
      if frame == [] {
        return Err(Empty);
      }
      var first, payload := frame[0], frame[1..];
      var header;
      match Decode(first) {
        case Err(e) => return Err(e);
        case Ok(h) => header := h;
      }
      if text.Some? && text.value != header.text {
        return Err(TypeChanged);
      }
      text := Some(header.text);

      if skipping.Some? {
        skipping := Some(skipping.value + |payload|);
      } else if |buf| + |payload| > maxMessageSize {
        skipping := Some(|buf| + |payload|);
        buf := [];
      } else {
        buf := buf + payload;
      }

      progress := next;
      if header.more {
        return Ok(Pending);
      }
      text := None;
      if skipping.Some? {
        r := Ok(Dropped(skipping.value));
        skipping := None;
        return;
      }
      r := Ok(Message(buf, !header.text));
      buf := [];
    }

    method MidMessage() returns (b: bool)
      requires Valid()
      ensures b <==> progress.Some?
    {
      b := text.Some?;
    }

    method Reset()
      modifies this
      ensures Valid() && progress == None
    {
      buf := [];
      text := None;
      skipping := None;
      progress := None;
    }
  }
}
