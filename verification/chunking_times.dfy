/**
 Where a chunked channel's messages spend their time
 (crates/reactor-webrtc/src/chunking_times.rs).

 The class keeps running totals. Their meaning is a ledger of whole messages,
 replayed from everything that happened; the totals are sums over it. Instants
 are nanoseconds of one clock and durations exact integers.
 */
module ChunkingTimes {
  import opened Wrappers
  import opened Frame

  type Instant = nat

  /** `Instant - Instant`, which saturates at zero. */
  function Elapsed(from: Instant, to: Instant): nat {
    if from <= to then to - from else 0
  }

  datatype FrameSteps = FrameSteps(checkStart: Instant, buildStart: Instant, nativeStart: Instant)

  datatype FrameTimes = FrameTimes(check: nat, build: nat, native: nat)

  datatype Stats = Stats(
    messagesSent: nat, framesSent: nat,
    queueWait: nat, enqueue: nat,
    firstCheck: nat, firstBuild: nat, firstNative: nat,
    nativeSend: nat, send: nat,
    stalls: nat, stall: nat,
    messagesReceived: nat, framesReceived: nat, reassembly: nat)

  const ZERO := Stats(0, 0, 0, 0, 0, 0, 0, 0, 0, 0, 0, 0, 0, 0)

  // ---------------------------------------------------------------------
  // History
  // ---------------------------------------------------------------------

  datatype Event =
    | Queued(at: Instant, enqueue: nat)
    | FrameSent(frame: Bytes, now: Instant, steps: FrameSteps)
    | Stalled(since: Instant)
    | Cleared
    | FrameReceived(completes: bool, at: Instant)
    | ResetReceive

  datatype Stamp = Stamp(at: Instant, enqueue: nat)

  /** A message whose first frame left, its queue stamp, and the steps of that frame. */
  datatype Started = Started(stamp: Stamp, firstAt: Instant, steps: FrameSteps)

  /** A message whose last frame left. */
  datatype Sent = Sent(start: Started, lastAt: Instant)

  datatype Span = Span(from: Instant, to: Instant)

  datatype Ledger = Ledger(
    queued: seq<Stamp>,
    leaving: Option<Started>,
    sent: seq<Sent>,
    frames: seq<Span>,
    stalledSince: Option<Instant>,
    stalls: seq<Span>,
    arrivingSince: Option<Instant>,
    received: seq<Span>,
    framesReceived: nat)

  const EMPTY := Ledger([], None, [], [], None, [], None, [], 0)

  /** The message the next frame belongs to: the one leaving, or the oldest waiting. */
  function StartOf(l: Ledger, now: Instant, steps: FrameSteps): Started {
    if l.leaving.Some? then l.leaving.value
    else Started(if l.queued != [] then l.queued[0] else Stamp(now, 0), now, steps)
  }

  function Enter(l: Ledger, e: Event): Ledger {
    match e
    case Queued(at, enqueue) => l.(queued := l.queued + [Stamp(at, enqueue)])
    case FrameSent(frame, now, steps) =>
      var start := StartOf(l, now, steps);
      var l' := l.(frames := l.frames + [Span(steps.nativeStart, now)],
                   stalls := if l.stalledSince.Some? then l.stalls + [Span(l.stalledSince.value, now)] else l.stalls,
                   stalledSince := None);
      if More(frame) then
        l'.(leaving := Some(start))
      else
        l'.(leaving := None,
            sent := l.sent + [Sent(start, now)],
            queued := if l.queued != [] then l.queued[1..] else [])
    case Stalled(since) =>
      if l.stalledSince.Some? then l else l.(stalledSince := Some(since))
    case Cleared => l.(queued := [], leaving := None, stalledSince := None)
    case FrameReceived(completes, at) =>
      var first := if l.arrivingSince.Some? then l.arrivingSince.value else at;
      var l' := l.(framesReceived := l.framesReceived + 1);
      if completes then l'.(arrivingSince := None, received := l.received + [Span(first, at)])
      else l'.(arrivingSince := Some(first))
    case ResetReceive => l.(arrivingSince := None)
  }

  function Replay(history: seq<Event>): Ledger {
    if history == [] then EMPTY
    else Enter(Replay(history[..|history| - 1]), history[|history| - 1])
  }

  // ---------------------------------------------------------------------
  // Totals as sums over the ledger
  // ---------------------------------------------------------------------

  function Waited(m: Started): nat {
    Elapsed(m.stamp.at, m.firstAt)
  }

  /** The steps of the first frame, counted from when the message was queued. */
  function FirstTimes(m: Started): FrameTimes {
    var check := Max(m.steps.checkStart, m.stamp.at);
    var build := Max(m.steps.buildStart, m.stamp.at);
    var native := Max(m.steps.nativeStart, m.stamp.at);
    FrameTimes(Elapsed(check, build), Elapsed(build, native), Elapsed(native, m.firstAt))
  }

  function SumSpans(spans: seq<Span>): nat {
    if spans == [] then 0
    else
      var last := spans[|spans| - 1];
      SumSpans(spans[..|spans| - 1]) + Elapsed(last.from, last.to)
  }

  /** What one sent message adds. */
  function AddSent(s: Stats, m: Sent): Stats {
    var first := FirstTimes(m.start);
    s.(messagesSent := s.messagesSent + 1,
       queueWait := s.queueWait + Waited(m.start),
       enqueue := s.enqueue + m.start.stamp.enqueue,
       firstCheck := s.firstCheck + first.check,
       firstBuild := s.firstBuild + first.build,
       firstNative := s.firstNative + first.native,
       send := s.send + Elapsed(m.start.firstAt, m.lastAt))
  }

  function SentTotals(sent: seq<Sent>): Stats {
    if sent == [] then ZERO
    else AddSent(SentTotals(sent[..|sent| - 1]), sent[|sent| - 1])
  }

  function Totals(l: Ledger): Stats {
    SentTotals(l.sent).(
      framesSent := |l.frames|,
      nativeSend := SumSpans(l.frames),
      stalls := |l.stalls|,
      stall := SumSpans(l.stalls),
      messagesReceived := |l.received|,
      framesReceived := l.framesReceived,
      reassembly := SumSpans(l.received))
  }

  /** The message leaving now, as the class records it. */
  datatype Leaving = Leaving(firstAt: Instant, waited: nat, firstSteps: FrameTimes, enqueue: nat)

  function Recorded(m: Option<Started>): Option<Leaving> {
    match m
    case None => None
    case Some(s) => Some(Leaving(s.firstAt, Waited(s), FirstTimes(s), s.stamp.enqueue))
  }

  /** What `frame_sent` adds to the totals, the entry being made first. */
  lemma TotalsAfterFrame(l: Ledger, frame: Bytes, now: Instant, steps: FrameSteps)
    ensures
      var l' := Enter(l, FrameSent(frame, now, steps));
      var t := Totals(l);
      var stalled := if l.stalledSince.Some? then 1 else 0;
      var stall := if l.stalledSince.Some? then Elapsed(l.stalledSince.value, now) else 0;
      var counted := t.(
        framesSent := t.framesSent + 1,
        nativeSend := t.nativeSend + Elapsed(steps.nativeStart, now),
        stalls := t.stalls + stalled,
        stall := t.stall + stall);
      Totals(l') == if More(frame) then counted else AddSent(counted, l'.sent[|l.sent|])
  {
    hide More;
    SumSpansOneMore(l.frames, Span(steps.nativeStart, now));
    if l.stalledSince.Some? {
      SumSpansOneMore(l.stalls, Span(l.stalledSince.value, now));
    }
    hide SumSpans, Elapsed;
    var l' := Enter(l, FrameSent(frame, now, steps));
    if !More(frame) {
      assert l'.sent[..|l.sent|] == l.sent;
      hide FirstTimes, Waited;
    }
  }

  /** The rest of the ledger after a frame. */
  lemma EnterFrame(l: Ledger, frame: Bytes, now: Instant, steps: FrameSteps)
    ensures
      var l', start := Enter(l, FrameSent(frame, now, steps)), StartOf(l, now, steps);
      && l'.stalledSince == None && l'.arrivingSince == l.arrivingSince
      && (if More(frame) then l'.leaving == Some(start) && l'.queued == l.queued
          else
            && l'.leaving == None && l'.queued == (if l.queued != [] then l.queued[1..] else [])
            && |l'.sent| == |l.sent| + 1 && l'.sent[|l.sent|] == Sent(start, now))
  {
    hide More, StartOf;
  }

  lemma SumSpansOneMore(spans: seq<Span>, last: Span)
    ensures SumSpans(spans + [last]) == SumSpans(spans) + Elapsed(last.from, last.to)
  {
    assert (spans + [last])[..|spans|] == spans;
  }

  class ChunkingTimes {
    var stats: Stats
    var sentAt: seq<Stamp>
    var leaving: Option<Leaving>
    var stalledSince: Option<Instant>
    var arrivingSince: Option<Instant>
    ghost var history: seq<Event>

    /** The totals are the sums over the replayed history. */
    ghost predicate Valid()
      reads this
    {
      var l := Replay(history);
      && stats == Totals(l)
      && sentAt == l.queued
      && leaving == Recorded(l.leaving)
      && stalledSince == l.stalledSince
      && arrivingSince == l.arrivingSince
    }

    constructor ()
      ensures Valid() && history == []
    {
      stats := ZERO;
      sentAt := [];
      leaving := None;
      stalledSince := None;
      arrivingSince := None;
      history := [];
    }

    method OnQueued(now: Instant, enqueue: nat)
      requires Valid()
      modifies this
      ensures Valid() && history == old(history) + [Queued(now, enqueue)]
    {
      ReplayAppend(history, Queued(now, enqueue));
      sentAt := sentAt + [Stamp(now, enqueue)];
      history := history + [Queued(now, enqueue)];
    }

    /** `leaving.get_or_insert_with(…)`: the message the frame belongs to, its first steps counted from its stamp. */
    method LeavingOrNew(now: Instant, steps: FrameSteps) returns (current: Leaving)
      requires sentAt == Replay(history).queued && leaving == Recorded(Replay(history).leaving)
      modifies this`leaving
      ensures leaving == Some(current) == Recorded(Some(StartOf(Replay(history), now, steps)))
    {
      hide Replay, Elapsed, Max;
      match leaving {
        case Some(l) => current := l;
        case None =>
          var stamp := if sentAt != [] then sentAt[0] else Stamp(now, 0);
          var check := Max(steps.checkStart, stamp.at);
          var build := Max(steps.buildStart, stamp.at);
          var native := Max(steps.nativeStart, stamp.at);
          current := Leaving(
            now, Elapsed(stamp.at, now),
            FrameTimes(Elapsed(check, build), Elapsed(build, native), Elapsed(native, now)),
            stamp.enqueue);
      }
      leaving := Some(current);
    }

    method OnFrameSent(frame: Bytes, now: Instant, steps: FrameSteps)
      requires Valid()
      modifies this
      ensures Valid() && history == old(history) + [FrameSent(frame, now, steps)]
    {
      hide More, Totals, Replay, Elapsed, Max, Enter, Waited, FirstTimes, StartOf;
      TotalsAfterFrame(Replay(history), frame, now, steps);
      EnterFrame(Replay(history), frame, now, steps);
      ReplayAppend(history, FrameSent(frame, now, steps));
      stats := stats.(nativeSend := stats.nativeSend + Elapsed(steps.nativeStart, now));
      if stalledSince.Some? {
        stats := stats.(stalls := stats.stalls + 1,
                        stall := stats.stall + Elapsed(stalledSince.value, now));
        stalledSince := None;
      }
      var current := LeavingOrNew(now, steps);
      stats := stats.(framesSent := stats.framesSent + 1);
      if !More(frame) {
        stats := stats.(
          queueWait := stats.queueWait + current.waited,
          enqueue := stats.enqueue + current.enqueue,
          firstCheck := stats.firstCheck + current.firstSteps.check,
          firstBuild := stats.firstBuild + current.firstSteps.build,
          firstNative := stats.firstNative + current.firstSteps.native,
          send := stats.send + Elapsed(current.firstAt, now),
          messagesSent := stats.messagesSent + 1);
        sentAt := if sentAt != [] then sentAt[1..] else [];
        leaving := None;
      }
      history := history + [FrameSent(frame, now, steps)];
    }

    method OnStalled(now: Instant)
      requires Valid()
      modifies this
      ensures Valid() && history == old(history) + [Stalled(now)]
    {
      ReplayAppend(history, Stalled(now));
      if stalledSince.None? {
        stalledSince := Some(now);
      }
      history := history + [Stalled(now)];
    }

    method OnCleared()
      requires Valid()
      modifies this
      ensures Valid() && history == old(history) + [Cleared]
    {
      ReplayAppend(history, Cleared);
      sentAt := [];
      leaving := None;
      stalledSince := None;
      history := history + [Cleared];
    }

    method OnFrameReceived(completes: bool, now: Instant)
      requires Valid()
      modifies this
      ensures Valid() && history == old(history) + [FrameReceived(completes, now)]
    {
      ReplayAppend(history, FrameReceived(completes, now));
      if arrivingSince.None? {
        arrivingSince := Some(now);
      }
      var first := arrivingSince.value;
      stats := stats.(framesReceived := stats.framesReceived + 1);
      if completes {
        stats := stats.(reassembly := stats.reassembly + Elapsed(first, now),
                        messagesReceived := stats.messagesReceived + 1);
        arrivingSince := None;
      }
      history := history + [FrameReceived(completes, now)];
    }

    method OnResetReceive()
      requires Valid()
      modifies this
      ensures Valid() && history == old(history) + [ResetReceive]
    {
      ReplayAppend(history, ResetReceive);
      arrivingSince := None;
      history := history + [ResetReceive];
    }
  }

  lemma ReplayAppend(history: seq<Event>, e: Event)
    ensures Replay(history + [e]) == Enter(Replay(history), e)
  {
    assert (history + [e])[..|history|] == history;
  }
}
