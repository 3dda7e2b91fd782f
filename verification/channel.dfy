/**
 One pump pass on the real send queue, with nobody else pumping
 (crates/reactor-webrtc/src/peer_connection.rs, the inner loop of
 `ChannelCore::pump`), and the number of passes a queue can need.
 */
module ChannelPump {
  import opened Wrappers
  import opened Frame
  import Send

  class ChannelCore {
    const queue: Send.SendQueue
    /** libwebrtc's buffered amount. */
    var native: nat
    /** `native_est`: the amount after the last send, `None` while unknown. */
    var est: Option<nat>
    /** What libwebrtc took, oldest first. */
    ghost var handed: seq<Bytes>

    ghost predicate Valid()
      reads this, queue
    {
      && queue.Valid()
      && native < queue.config.highWater + queue.config.chunkSize
      && (est.Some? ==> native <= est.value)
    }

    constructor (queue: Send.SendQueue)
      requires queue.Valid()
      ensures Valid() && this.queue == queue && native == 0 && handed == []
    {
      this.queue := queue;
      native := 0;
      est := None;
      handed := [];
    }

    /** Hands over frames until the queue is empty or the buffer is at the high-water mark. */
    method Pump()
      requires Valid()
      modifies this, queue
      ensures Valid()
      ensures queue.ToSend() == [] || native >= queue.config.highWater
      ensures old(handed) <= handed
      ensures handed + queue.ToSend() == old(handed + queue.ToSend())
      ensures old(native) < queue.config.highWater && old(queue.ToSend()) != [] ==>
        |queue.ToSend()| < |old(queue.ToSend())|
      ensures |queue.ToSend()| <= |old(queue.ToSend())|
    {
      hide Send.FramesFrom, Send.QueueFrames, Send.PayloadBytes, Send.AllWellFormed, More;
      var config := queue.config;
      ghost var start := queue.ToSend();
      while true
        invariant Valid()
        invariant old(handed) <= handed
        invariant handed + queue.ToSend() == old(handed) + start
        invariant |queue.ToSend()| <= |start|
        invariant queue.ToSend() == start ==> native == old(native)
        invariant queue.ToSend() == start || |queue.ToSend()| < |start|
        decreases |queue.ToSend()|
      {
        ghost var before := queue.ToSend();
        var buffered;
        if est.Some? && est.value <= config.lowWater {
          buffered := est.value;
        } else {
          buffered := native;
          est := Some(native);
        }
        if before != [] {
          FrameFits(queue);
        }
        var frame := queue.NextFrame(buffered);
        if frame.None? {
          return;
        }
        native := native + |frame.value|;
        est := Some(native);
        handed := handed + [frame.value];
        assert before == [frame.value] + queue.ToSend();
      }
    }

    /** Pumps, lets libwebrtc empty its buffer, and pumps again, until nothing is queued. */
    method DrainCompletely() returns (rounds: nat)
      requires Valid()
      modifies this, queue
      ensures Valid() && queue.ToSend() == []
      ensures handed == old(handed) + old(queue.ToSend())
      ensures rounds <= |old(queue.ToSend())| + 1
    {
      ghost var start := queue.ToSend();
      Pump();
      rounds := 1;
      var empty := queue.IsEmpty();
      while !empty
        invariant Valid()
        invariant empty <==> queue.ToSend() == []
        invariant handed + queue.ToSend() == old(handed) + start
        invariant rounds + |queue.ToSend()| <= |start| + 1
        decreases |queue.ToSend()|
      {
        native := 0;
        Pump();
        rounds := rounds + 1;
        empty := queue.IsEmpty();
      }
    }
  }

  lemma FrameFits(q: Send.SendQueue)
    requires q.Valid() && q.ToSend() != []
    ensures 1 <= |q.ToSend()[0]| <= q.config.chunkSize
  {
    var p := q.pending[0];
    Send.FirstQueueFrame(q.pending, q.config.chunkSize - 1);
  }
}
