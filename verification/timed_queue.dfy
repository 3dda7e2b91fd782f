/**
 The send queue and its timing ledger, driven as a chunked channel drives them
 (crates/reactor-webrtc/src/peer_connection.rs). A send checks the channel's
 state first and queues its message and stamp later, under one lock. The pump
 takes a frame, hands it to libwebrtc and counts it in three separate steps. A
 clear empties the queue and then, under the other lock, the ledger. Anything
 of the others can come in between.

 Instants are ordered only where the program orders the reading of them: by
 the queue's lock, and along the one pump that runs at a time.
 */
module TimedQueue {
  import opened Wrappers
  import opened Frame
  import opened ChunkingTimes
  import Send

  /** A frame the queue gave out that is not counted yet; `taken` once libwebrtc has it. */
  datatype Hand = Hand(frame: Bytes, steps: FrameSteps, taken: bool)

  datatype Timed = Timed(
    toSend: seq<Bytes>,
    inHand: Option<Hand>,
    history: seq<Event>,
    /** When each accepted message was queued, in order. */
    stamps: seq<Stamp>,
    /** The channel is open at libwebrtc: sends are let in, frames are taken. */
    up: bool,
    /** Sends that found the channel open and have not reached the queue yet. */
    admitted: nat,
    /** Clears that emptied the queue and have not reached the ledger yet. */
    owed: nat,
    cleared: bool,
    /** The instant of the last stamp, and of the last frame counted. */
    queuedAt: Instant,
    countedAt: Instant)

  const INIT := Timed([], None, [], [], true, 0, 0, false, 0, 0)

  datatype Action =
    | Admit
    | Submit(data: Bytes, binary: bool, at: Instant, enqueue: nat)
    | Take(nativeBuffered: nat, steps: FrameSteps)
    | HandOver
    | Count(now: Instant)
    /** libwebrtc refuses the frame, and closes the channel. */
    | Refuse
    | Stall(now: Instant)
    | Arrive(completes: bool, now: Instant)
    | Reset
    /** The channel leaves the open state. */
    | Shut
    /** The closed channel's queue is emptied. */
    | Empty
    | Forget

  function Log(s: Timed, e: Event): Timed {
    s.(history := s.history + [e])
  }

  predicate Ordered(steps: FrameSteps) {
    steps.checkStart <= steps.buildStart <= steps.nativeStart
  }

  function Step(c: Send.SendConfig, s: Timed, a: Action): Timed
    requires Send.Validate(c).Ok?
  {
    match a
    case Admit => if s.up then s.(admitted := s.admitted + 1) else s
    case Submit(data, binary, at, enqueue) =>
      if s.admitted == 0 || at < s.queuedAt then s else
      var (toSend, r) := Send.PushFrames(c, s.toSend, data, binary);
      if r.Err? then s.(admitted := s.admitted - 1)
      else
        Log(s, Queued(at, enqueue)).(
          toSend := toSend, stamps := s.stamps + [Stamp(at, enqueue)],
          admitted := s.admitted - 1, queuedAt := at)
    case Take(nativeBuffered, steps) =>
      var (toSend, frame) := Send.TakeFrame(c, s.toSend, nativeBuffered);
      if s.inHand.Some? || frame.None? then s
      else if !Ordered(steps) || steps.checkStart < s.countedAt || steps.nativeStart < s.queuedAt then s
      else s.(toSend := toSend, inHand := Some(Hand(frame.value, steps, false)))
    case HandOver =>
      if s.inHand.Some? && s.up then s.(inHand := Some(s.inHand.value.(taken := true))) else s
    case Count(now) =>
      if s.inHand.None? || !s.inHand.value.taken || now < s.inHand.value.steps.nativeStart then s
      else
        Log(s, FrameSent(s.inHand.value.frame, now, s.inHand.value.steps)).(
          inHand := None, countedAt := now)
    case Refuse =>
      if s.inHand.None? || s.inHand.value.taken then s
      else s.(inHand := None, up := false, toSend := [], owed := s.owed + 1)
    case Stall(now) => Log(s, Stalled(now))
    case Arrive(completes, now) => Log(s, FrameReceived(completes, now))
    case Reset => Log(s, ResetReceive)
    case Shut => s.(up := false)
    case Empty => if s.up then s else s.(toSend := [], owed := s.owed + 1)
    case Forget => if s.owed == 0 then s else Log(s, Cleared).(owed := s.owed - 1, cleared := true)
  }

  function Run(c: Send.SendConfig, actions: seq<Action>): Timed
    requires Send.Validate(c).Ok?
    decreases |actions|
  {
    if actions == [] then INIT
    else Step(c, Run(c, actions[..|actions| - 1]), actions[|actions| - 1])
  }

  lemma Extend(c: Send.SendConfig, actions: seq<Action>, a: Action)
    requires Send.Validate(c).Ok?
    ensures Run(c, actions + [a]) == Step(c, Run(c, actions), a)
  {
    assert (actions + [a])[..|actions|] == actions;
  }

  // ---------------------------------------------------------------------
  // Message boundaries in a list of frames
  // ---------------------------------------------------------------------

  function Ends(frames: seq<Bytes>): nat {
    if frames == [] then 0 else (if More(frames[0]) then 0 else 1) + Ends(frames[1..])
  }

  lemma {:induction false} EndsConcat(a: seq<Bytes>, b: seq<Bytes>)
    ensures Ends(a + b) == Ends(a) + Ends(b)
  {
    hide More;
    if a == [] {
      assert a + b == b;
    } else {
      EndsConcat(a[1..], b);
      assert (a + b)[1..] == a[1..] + b;
    }
  }

  /** The frames of a message hold exactly one end, the last. */
  lemma {:induction false} OneEndPerMessage(m: Send.Message, offset: nat, room: nat)
    requires room >= 1 && offset <= |m.data|
    ensures
      var fs := Send.FramesFrom(m, offset, room);
      Ends(fs) == 1 && !More(fs[|fs| - 1])
    decreases |m.data| - offset
  {
    var next := offset + Min(room, |m.data| - offset);
    var h := Header(next < |m.data|, m.text);
    DecodeInvertsEncode(Encode(h), h);
    var fs := Send.FramesFrom(m, offset, room);
    assert More(fs[0]) == (next < |m.data|);
    hide Encode, Decode, More;
    if next < |m.data| {
      OneEndPerMessage(m, next, room);
      var tail := Send.FramesFrom(m, next, room);
      assert fs[1..] == tail;
      assert fs[|fs| - 1] == tail[|tail| - 1];
    } else {
      assert fs[1..] == [];
    }
  }

  lemma {:induction false} LastIsAnEnd(frames: seq<Bytes>)
    requires frames != [] && !More(frames[|frames| - 1])
    ensures Ends(frames) >= 1
  {
    hide More;
    if |frames| > 1 {
      LastIsAnEnd(frames[1..]);
    }
  }

  // ---------------------------------------------------------------------
  // Invariants
  // ---------------------------------------------------------------------

  /**
   A finished message: its first frame's steps in order, and queued before that
   frame left unless it is one frame, counted after a clear.
   */
  predicate WellTimed(m: Sent) {
    && Ordered(m.start.steps)
    && m.start.steps.nativeStart <= m.start.firstAt <= m.lastAt
    && (m.start.stamp.at <= m.start.firstAt || m.start.firstAt == m.lastAt)
  }

  ghost predicate AllWellTimed(sent: seq<Sent>) {
    forall i :: 0 <= i < |sent| ==> WellTimed(sent[i])
  }

  /** A frame can still be counted: libwebrtc has one, or will take one. */
  predicate Countable(s: Timed) {
    s.up || (s.inHand.Some? && s.inHand.value.taken)
  }

  /** Until a clear, the ledger holds the stamps of the messages still to finish, in order. */
  ghost predicate Kept(l: Ledger, stamps: seq<Stamp>) {
    && |l.sent| <= |stamps|
    && l.queued == stamps[|l.sent|..]
    && (l.leaving.Some? ==> l.queued != [] && l.leaving.value.stamp == l.queued[0])
    && (forall k :: 0 <= k < |l.sent| ==> l.sent[k].start.stamp == stamps[k])
  }

  /** The message leaving, and the one whose frame is in hand, were queued before. */
  ghost predicate Begun(l: Ledger, s: Timed) {
    && (l.leaving.Some? ==>
         && Ordered(l.leaving.value.steps)
         && l.leaving.value.steps.nativeStart <= l.leaving.value.firstAt <= s.countedAt
         && (Countable(s) ==> l.leaving.value.stamp.at <= l.leaving.value.firstAt))
    && (s.inHand.Some? ==>
         Ordered(s.inHand.value.steps) && s.countedAt <= s.inHand.value.steps.checkStart)
    && (!s.cleared && s.inHand.Some? && Countable(s) ==>
         l.queued != [] && l.queued[0].at <= s.inHand.value.steps.nativeStart)
    && (s.cleared && Countable(s) ==> l.leaving == None)
  }

  function Outstanding(inHand: Option<Hand>, toSend: seq<Bytes>): seq<Bytes> {
    (if inHand.Some? then [inHand.value.frame] else []) + toSend
  }

  /** The frames still to be counted end the messages still to finish. */
  ghost predicate InStep(queued: seq<Stamp>, outstanding: seq<Bytes>) {
    && |queued| == Ends(outstanding)
    && (outstanding != [] ==> !More(outstanding[|outstanding| - 1]))
  }

  ghost predicate Early(stamps: seq<Stamp>, at: Instant) {
    forall k :: 0 <= k < |stamps| ==> stamps[k].at <= at
  }

  ghost predicate Inv(c: Send.SendConfig, s: Timed) {
    var l := Replay(s.history);
    && AllWellTimed(l.sent)
    && Begun(l, s)
    && (!s.cleared ==> Kept(l, s.stamps))
    && (s.up ==> !s.cleared && s.owed == 0 && InStep(l.queued, Outstanding(s.inHand, s.toSend)))
    && Early(s.stamps, s.queuedAt)
    && Send.PayloadBytes(s.toSend) <= c.queueLimit
  }

  lemma SubmitKeepsInv(c: Send.SendConfig, s: Timed, data: Bytes, binary: bool, at: Instant, enqueue: nat)
    requires Send.Validate(c).Ok? && Inv(c, s)
    ensures Inv(c, Step(c, s, Submit(data, binary, at, enqueue)))
  {
    var s' := Step(c, s, Submit(data, binary, at, enqueue));
    Send.PushAppends(c, s.toSend, data, binary);
    hide Replay, Enter, Ends, More, Send.PushFrames, Send.Validate, Send.FramesFrom, Send.PayloadBytes,
         AllWellTimed, Begun, Early, Kept, InStep;
    if s'.history == s.history {
      FewerAdmitted(s, s');
    } else {
      var l, stamp := Replay(s.history), Stamp(at, enqueue);
      ReplayAppend(s.history, Queued(at, enqueue));
      QueuedStamp(l, stamp);
      QueuedKeepsKept(l, s.stamps, stamp);
      QueuedKeepsBegun(l, s, stamp, s');
      if s.up {
        var fs := Send.FramesOf(Send.Message(data, !binary), c.chunkSize - 1);
        OneEndPerMessage(Send.Message(data, !binary), 0, c.chunkSize - 1);
        QueuedKeepsStep(l.queued, Outstanding(s.inHand, s.toSend), stamp, fs);
        OutstandingGains(s.inHand, s.toSend, fs);
      }
      hide Outstanding;
    }
  }

  lemma FewerAdmitted(s: Timed, s': Timed)
    requires s' == s || s' == s.(admitted := s'.admitted)
    ensures Begun(Replay(s.history), s') == Begun(Replay(s.history), s)
  {
  }

  lemma OutstandingGains(inHand: Option<Hand>, toSend: seq<Bytes>, fs: seq<Bytes>)
    ensures Outstanding(inHand, toSend + fs) == Outstanding(inHand, toSend) + fs
  {
    assert forall a: seq<Bytes> :: a + (toSend + fs) == a + toSend + fs;
  }

  lemma QueuedKeepsBegun(l: Ledger, s: Timed, stamp: Stamp, s': Timed)
    requires Begun(l, s) && Early(s.stamps, s.queuedAt) && s.queuedAt <= stamp.at
    requires s'.inHand == s.inHand && s'.up == s.up && s'.cleared == s.cleared && s'.countedAt == s.countedAt
    requires s'.stamps == s.stamps + [stamp] && s'.queuedAt == stamp.at
    ensures Begun(l.(queued := l.queued + [stamp]), s') && Early(s'.stamps, s'.queuedAt)
  {
  }

  lemma QueuedStamp(l: Ledger, stamp: Stamp)
    ensures Enter(l, Queued(stamp.at, stamp.enqueue)) == l.(queued := l.queued + [stamp])
  {
  }

  lemma QueuedKeepsKept(l: Ledger, stamps: seq<Stamp>, stamp: Stamp)
    ensures Kept(l, stamps) ==> Kept(l.(queued := l.queued + [stamp]), stamps + [stamp])
  {
  }

  lemma QueuedKeepsStep(queued: seq<Stamp>, outstanding: seq<Bytes>, stamp: Stamp, fs: seq<Bytes>)
    requires InStep(queued, outstanding) && fs != [] && Ends(fs) == 1 && !More(fs[|fs| - 1])
    ensures InStep(queued + [stamp], outstanding + fs)
  {
    EndsConcat(outstanding, fs);
    hide Ends, More;
  }

  lemma TakeKeepsInv(c: Send.SendConfig, s: Timed, nativeBuffered: nat, steps: FrameSteps)
    requires Send.Validate(c).Ok? && Inv(c, s)
    ensures Inv(c, Step(c, s, Take(nativeBuffered, steps)))
  {
    hide Replay, Ends, More, Send.Validate, AllWellTimed, WellTimed;
    var s' := Step(c, s, Take(nativeBuffered, steps));
    if s' != s {
      assert Outstanding(s.inHand, s.toSend) == Outstanding(s'.inHand, s'.toSend) == s.toSend;
      if s.up {
        LastIsAnEnd(s.toSend);
        assert Replay(s.history).queued[0] == s.stamps[|Replay(s.history).sent|];
      }
      TakenIsLess(s.toSend);
      hide Kept, InStep, Send.PayloadBytes;
    }
  }

  lemma TakenIsLess(toSend: seq<Bytes>)
    requires toSend != []
    ensures Send.PayloadBytes(toSend[1..]) <= Send.PayloadBytes(toSend)
  {
  }

  /** The message a frame counts for, and what its last frame leaves. */
  lemma CountKeepsInv(c: Send.SendConfig, s: Timed, now: Instant)
    requires Send.Validate(c).Ok? && Inv(c, s)
    ensures Inv(c, Step(c, s, Count(now)))
  {
    hide Replay, Enter, Ends, More, Send.Validate, Send.PayloadBytes, WellTimed, Kept, InStep, Early;
    var s' := Step(c, s, Count(now));
    if s' != s {
      var hand, l := s.inHand.value, Replay(s.history);
      ReplayAppend(s.history, FrameSent(hand.frame, now, hand.steps));
      CountedIsTimed(l, s, now);
      CountedIsBegun(l, s, now, s');
      if !s.cleared {
        CountedKeepsKept(l, s, hand.frame, now, hand.steps);
      }
      if s.up {
        CountedKeepsStep(l, hand.frame, s.toSend, now, hand.steps);
        assert Outstanding(s.inHand, s.toSend) == [hand.frame] + s.toSend;
        assert Outstanding(None, s.toSend) == s.toSend;
      }
      hide AllWellTimed, Begun, Outstanding;
    }
  }

  lemma CountedIsTimed(l: Ledger, s: Timed, now: Instant)
    requires s.inHand.Some? && s.inHand.value.taken && s.inHand.value.steps.nativeStart <= now
    requires AllWellTimed(l.sent) && Begun(l, s)
    ensures AllWellTimed(Enter(l, FrameSent(s.inHand.value.frame, now, s.inHand.value.steps)).sent)
  {
    hide More;
  }

  lemma CountedIsBegun(l: Ledger, s: Timed, now: Instant, s': Timed)
    requires s.inHand.Some? && s.inHand.value.taken && s.inHand.value.steps.nativeStart <= now
    requires Begun(l, s) && s'.inHand == None && s'.countedAt == now && s'.up == s.up && s'.cleared == s.cleared
    requires s.up ==> !s.cleared
    ensures Begun(Enter(l, FrameSent(s.inHand.value.frame, now, s.inHand.value.steps)), s')
  {
    hide More;
  }

  lemma CountedKeepsKept(l: Ledger, s: Timed, frame: Bytes, now: Instant, steps: FrameSteps)
    requires Kept(l, s.stamps) && Begun(l, s) && !s.cleared && s.inHand.Some? && s.inHand.value.taken
    ensures Kept(Enter(l, FrameSent(frame, now, steps)), s.stamps)
  {
    hide More;
    assert l.queued[0] == s.stamps[|l.sent|];
  }

  lemma CountedKeepsStep(l: Ledger, frame: Bytes, toSend: seq<Bytes>, now: Instant, steps: FrameSteps)
    requires InStep(l.queued, [frame] + toSend)
    ensures InStep(Enter(l, FrameSent(frame, now, steps)).queued, toSend)
  {
    LastIsAnEnd([frame] + toSend);
    assert ([frame] + toSend)[1..] == toSend;
    assert Ends([frame] + toSend) == (if More(frame) then 0 else 1) + Ends(toSend);
    hide Ends, More;
  }

  /** Events that touch no message on its way out. */
  lemma QuietEventKeepsInv(c: Send.SendConfig, s: Timed, e: Event)
    requires Send.Validate(c).Ok? && Inv(c, s) && (e.Stalled? || e.FrameReceived? || e.ResetReceive?)
    ensures Inv(c, Log(s, e))
  {
    hide Replay, More, Ends, Send.PayloadBytes;
    ReplayAppend(s.history, e);
    var l, l' := Replay(s.history), Replay(s.history + [e]);
    assert l'.sent == l.sent && l'.queued == l.queued && l'.leaving == l.leaving;
    assert Kept(l', s.stamps) == Kept(l, s.stamps) && Begun(l', Log(s, e)) == Begun(l, s);
    hide Kept, Begun, AllWellTimed, InStep, Early, Outstanding;
  }

  lemma ForgetKeepsInv(c: Send.SendConfig, s: Timed)
    requires Send.Validate(c).Ok? && Inv(c, s)
    ensures Inv(c, Step(c, s, Forget))
  {
    hide Replay, More, Ends, Send.PayloadBytes, WellTimed, Kept, InStep;
    ReplayAppend(s.history, Cleared);
  }

  /** Steps that log nothing and take nothing from the queue. */
  lemma SilentStepKeepsInv(c: Send.SendConfig, s: Timed, a: Action)
    requires Send.Validate(c).Ok? && Inv(c, s)
    requires a.Admit? || a.HandOver? || a.Refuse? || a.Shut? || a.Empty?
    ensures Inv(c, Step(c, s, a))
  {
    hide Replay, More, Ends, WellTimed, Kept, Send.Validate;
  }

  lemma StepKeepsInv(c: Send.SendConfig, s: Timed, a: Action)
    requires Send.Validate(c).Ok? && Inv(c, s)
    ensures Inv(c, Step(c, s, a))
  {
    hide Inv;
    match a
    case Submit(data, binary, at, enqueue) => SubmitKeepsInv(c, s, data, binary, at, enqueue);
    case Take(nativeBuffered, steps) => TakeKeepsInv(c, s, nativeBuffered, steps);
    case Count(now) => CountKeepsInv(c, s, now);
    case Stall(now) => QuietEventKeepsInv(c, s, Stalled(now));
    case Arrive(completes, now) => QuietEventKeepsInv(c, s, FrameReceived(completes, now));
    case Reset => QuietEventKeepsInv(c, s, ResetReceive);
    case Forget => ForgetKeepsInv(c, s);
    case _ => SilentStepKeepsInv(c, s, a);
  }

  lemma InitKeepsInv(c: Send.SendConfig)
    ensures Inv(c, INIT)
  {
  }

  lemma {:induction false} EveryRunKeepsInv(c: Send.SendConfig, actions: seq<Action>)
    requires Send.Validate(c).Ok?
    ensures Inv(c, Run(c, actions))
    decreases |actions|
  {
    InitKeepsInv(c);
    hide Inv, Step;
    if actions != [] {
      EveryRunKeepsInv(c, actions[..|actions| - 1]);
      StepKeepsInv(c, Run(c, actions[..|actions| - 1]), actions[|actions| - 1]);
    }
  }

  // ---------------------------------------------------------------------
  // What the totals mean
  // ---------------------------------------------------------------------

  /** From being queued to the last frame leaving, summed over the messages that finished. */
  function Lifetimes(sent: seq<Sent>): nat {
    if sent == [] then 0
    else
      var m := sent[|sent| - 1];
      Lifetimes(sent[..|sent| - 1]) + Elapsed(m.start.stamp.at, m.lastAt)
  }

  lemma {:induction false} WaitAndSendAddUp(sent: seq<Sent>)
    requires AllWellTimed(sent)
    ensures
      var t := SentTotals(sent);
      && t.messagesSent == |sent|
      && t.queueWait + t.send == Lifetimes(sent)
      && t.firstCheck + t.firstBuild + t.firstNative <= t.queueWait
  {
    if sent != [] {
      WaitAndSendAddUp(sent[..|sent| - 1]);
      assert WellTimed(sent[|sent| - 1]);
    }
  }

  /**
   In every run: wait plus send is the whole lifetime of the messages that
   finished, and the steps of a message's first frame fit inside its wait.
   */
  lemma TotalsAddUp(c: Send.SendConfig, actions: seq<Action>)
    requires Send.Validate(c).Ok?
    ensures
      var l := Replay(Run(c, actions).history);
      var t := Totals(l);
      && t.messagesSent == |l.sent|
      && t.queueWait + t.send == Lifetimes(l.sent)
      && t.firstCheck + t.firstBuild + t.firstNative <= t.queueWait
  {
    EveryRunKeepsInv(c, actions);
    hide Run, Replay;
    WaitAndSendAddUp(Replay(Run(c, actions).history).sent);
  }

  /**
   Until the ledger is cleared, the k-th message that finished was timed from
   the moment the k-th accepted message was queued, and one stamp is held per
   message still to finish.
   */
  lemma StampsMirrorTheQueue(c: Send.SendConfig, actions: seq<Action>)
    requires Send.Validate(c).Ok? && !Run(c, actions).cleared
    ensures
      var s := Run(c, actions);
      var l := Replay(s.history);
      && |l.sent| + |l.queued| == |s.stamps|
      && (forall k :: 0 <= k < |l.sent| ==> l.sent[k].start.stamp == s.stamps[k])
      && l.queued == s.stamps[|l.sent|..]
      && (s.up && s.inHand.None? ==> |l.queued| == Ends(s.toSend))
  {
    EveryRunKeepsInv(c, actions);
    hide Run, Replay, Ends, More, WellTimed;
    assert Outstanding(None, Run(c, actions).toSend) == Run(c, actions).toSend;
  }

  /** What is finished and what is stamped stays so. */
  ghost predicate Grows(s: Timed, s': Timed) {
    Replay(s.history).sent <= Replay(s'.history).sent && s.stamps <= s'.stamps
  }

  lemma StepGrows(c: Send.SendConfig, s: Timed, a: Action)
    requires Send.Validate(c).Ok?
    ensures Grows(s, Step(c, s, a))
  {
    hide Replay, More, Send.PushFrames, Send.TakeFrame, Send.Validate;
    var s' := Step(c, s, a);
    if s'.history != s.history {
      ReplayAppend(s.history, s'.history[|s.history|]);
    }
  }

  lemma {:induction false} RunsGrow(c: Send.SendConfig, before: seq<Action>, later: seq<Action>)
    requires Send.Validate(c).Ok?
    ensures Grows(Run(c, before), Run(c, before + later))
    decreases |later|
  {
    hide Run, Step, Replay;
    if later == [] {
      assert before + later == before;
    } else {
      var shorter, last := later[..|later| - 1], later[|later| - 1];
      RunsGrow(c, before, shorter);
      assert before + later == (before + shorter) + [last];
      Extend(c, before + shorter, last);
      StepGrows(c, Run(c, before + shorter), last);
    }
  }

  /** A message that finished before the clear stays timed from its own stamp, whatever closes. */
  lemma FinishedStayTimed(c: Send.SendConfig, before: seq<Action>, later: seq<Action>, k: nat)
    requires Send.Validate(c).Ok? && !Run(c, before).cleared
    requires k < |Replay(Run(c, before).history).sent|
    ensures
      var s' := Run(c, before + later);
      var sent := Replay(s'.history).sent;
      && k < |sent| && sent[k] == Replay(Run(c, before).history).sent[k]
      && k < |s'.stamps| && sent[k].start.stamp == s'.stamps[k]
  {
    StampsMirrorTheQueue(c, before);
    RunsGrow(c, before, later);
    hide Run, Replay;
  }

  // ---------------------------------------------------------------------
  // After a clear
  // ---------------------------------------------------------------------

  /** The last thing the ledger was told is to forget. */
  predicate JustCleared(s: Timed) {
    s.cleared && s.history != [] && s.history[|s.history| - 1] == Cleared
  }

  /** libwebrtc has the last frame of a message that is not counted yet. */
  predicate HoldsALastFrame(s: Timed) {
    s.inHand.Some? && s.inHand.value.taken && !More(s.inHand.value.frame)
  }

  /** The stamps made since `s0`: sends that were let in before and queued after. */
  function Late(s0: Timed, s: Timed): seq<Stamp>
    requires |s0.stamps| <= |s.stamps|
  {
    s.stamps[|s0.stamps|..]
  }

  /** One message finished since `l0`: the frame in hand, timed from nothing or from a late stamp. */
  ghost predicate OneCounted(l0: Ledger, l: Ledger, steps: FrameSteps, late: seq<Stamp>) {
    && |l.sent| == |l0.sent| + 1 && l0.sent <= l.sent
    && var m := l.sent[|l0.sent|];
       && m.start == Started(m.start.stamp, m.lastAt, steps)
       && (m.start.stamp == Stamp(m.lastAt, 0) || m.start.stamp in late)
  }

  ghost predicate CountedAfter(s0: Timed, l0: Ledger, l: Ledger, inHand: Option<Hand>, late: seq<Stamp>) {
    if inHand.Some? && inHand.value.taken then
      inHand == s0.inHand && l.leaving == None && l.sent == l0.sent
    else
      l.sent == l0.sent || (HoldsALastFrame(s0) && OneCounted(l0, l, s0.inHand.value.steps, late))
  }

  ghost predicate AfterClear(s0: Timed, s: Timed) {
    && s.cleared && !s.up
    && s0.stamps <= s.stamps
    && s.admitted + |s.stamps| <= s0.admitted + |s0.stamps|
    && (forall stamp :: stamp in Replay(s.history).queued ==> stamp in Late(s0, s))
    && CountedAfter(s0, Replay(s0.history), Replay(s.history), s.inHand, Late(s0, s))
  }

  lemma ClearedNow(c: Send.SendConfig, s: Timed)
    requires Inv(c, s) && JustCleared(s)
    ensures AfterClear(s, s) && Replay(s.history).queued == [] && Replay(s.history).leaving == None
  {
    var n := |s.history| - 1;
    assert s.history == s.history[..n] + [Cleared];
    ReplayAppend(s.history[..n], Cleared);
    hide Replay, Kept, Begun, InStep, Early, AllWellTimed, More;
  }

  lemma LateGrows(s0: Timed, s: Timed, s': Timed, stamp: Stamp)
    requires s0.stamps <= s.stamps && s'.stamps == s.stamps + [stamp]
    ensures s0.stamps <= s'.stamps && Late(s0, s') == Late(s0, s) + [stamp]
  {
  }

  lemma CountedStays(s0: Timed, l0: Ledger, l: Ledger, l': Ledger, inHand: Option<Hand>, late: seq<Stamp>, stamp: Stamp)
    requires CountedAfter(s0, l0, l, inHand, late) && l'.sent == l.sent && l'.leaving == l.leaving
    ensures CountedAfter(s0, l0, l', inHand, late + [stamp])
  {
    hide More;
  }

  lemma SubmitAfterClear(
    c: Send.SendConfig, s0: Timed, s: Timed, data: Bytes, binary: bool, at: Instant, enqueue: nat)
    requires Send.Validate(c).Ok? && AfterClear(s0, s)
    ensures AfterClear(s0, Step(c, s, Submit(data, binary, at, enqueue)))
  {
    hide Replay, Enter, More, Late, CountedAfter, Send.PushFrames, Send.Validate;
    var s' := Step(c, s, Submit(data, binary, at, enqueue));
    if s'.history != s.history {
      var l, stamp := Replay(s.history), Stamp(at, enqueue);
      ReplayAppend(s.history, Queued(at, enqueue));
      QueuedStamp(l, stamp);
      LateGrows(s0, s, s', stamp);
      CountedStays(s0, Replay(s0.history), l, Replay(s'.history), s.inHand, Late(s0, s), stamp);
    } else {
      assert Late(s0, s') == Late(s0, s) by { SameLate(s0, s, s'); }
    }
  }

  lemma SameLate(s0: Timed, s: Timed, s': Timed)
    requires s0.stamps <= s.stamps && s'.stamps == s.stamps
    ensures Late(s0, s') == Late(s0, s)
  {
  }

  /** A frame counted when nothing was leaving. */
  lemma CountedAlone(l: Ledger, frame: Bytes, now: Instant, steps: FrameSteps)
    requires l.leaving == None
    ensures
      var l' := Enter(l, FrameSent(frame, now, steps));
      var stamp := if l.queued != [] then l.queued[0] else Stamp(now, 0);
      && l'.sent == (if More(frame) then l.sent else l.sent + [Sent(Started(stamp, now, steps), now)])
      && (forall x :: x in l'.queued ==> x in l.queued)
      && (l.queued != [] ==> stamp in l.queued)
  {
    hide More;
  }

  lemma CountAfterClear(c: Send.SendConfig, s0: Timed, s: Timed, now: Instant)
    requires Send.Validate(c).Ok? && AfterClear(s0, s)
    ensures AfterClear(s0, Step(c, s, Count(now)))
  {
    hide Replay, More, Enter, Send.Validate;
    var s' := Step(c, s, Count(now));
    if s'.history != s.history {
      var l, hand := Replay(s.history), s.inHand.value;
      ReplayAppend(s.history, FrameSent(hand.frame, now, hand.steps));
      CountedAlone(l, hand.frame, now, hand.steps);
      assert Late(s0, s') == Late(s0, s);
      hide Late;
    }
  }

  lemma QuietAfterClear(s0: Timed, s: Timed, e: Event, s': Timed)
    requires AfterClear(s0, s) && (e.Stalled? || e.FrameReceived? || e.ResetReceive? || e.Cleared?)
    requires s'.history == s.history + [e] && s'.stamps == s.stamps && s'.inHand == s.inHand
    requires s'.cleared && !s'.up && s'.admitted == s.admitted
    ensures AfterClear(s0, s')
  {
    hide Replay, More, OneCounted;
    ReplayAppend(s.history, e);
    var l, l' := Replay(s.history), Replay(s'.history);
    assert l'.sent == l.sent && (l'.queued == l.queued || l'.queued == []) && (l'.leaving == l.leaving || l'.leaving == None);
    assert Late(s0, s') == Late(s0, s);
    SameSentCounts(Replay(s0.history), l, l', s0, Late(s0, s));
  }

  lemma SameSentCounts(l0: Ledger, l: Ledger, l': Ledger, s0: Timed, late: seq<Stamp>)
    requires l'.sent == l.sent
    ensures s0.inHand.Some? ==>
      OneCounted(l0, l', s0.inHand.value.steps, late) == OneCounted(l0, l, s0.inHand.value.steps, late)
  {
  }

  lemma StepAfterClear(c: Send.SendConfig, s0: Timed, s: Timed, a: Action)
    requires Send.Validate(c).Ok? && AfterClear(s0, s)
    ensures AfterClear(s0, Step(c, s, a))
  {
    match a
    case Submit(data, binary, at, enqueue) => SubmitAfterClear(c, s0, s, data, binary, at, enqueue);
    case Count(now) => CountAfterClear(c, s0, s, now);
    case Stall(now) => QuietAfterClear(s0, s, Stalled(now), Step(c, s, a));
    case Arrive(completes, now) => QuietAfterClear(s0, s, FrameReceived(completes, now), Step(c, s, a));
    case Reset => QuietAfterClear(s0, s, ResetReceive, Step(c, s, a));
    case Forget =>
      if s.owed > 0 {
        QuietAfterClear(s0, s, Cleared, Step(c, s, a));
      }
    case _ => hide Replay, More, OneCounted, HoldsALastFrame, Send.TakeFrame, Send.Validate;
  }

  lemma {:induction false} RunsAfterClear(c: Send.SendConfig, before: seq<Action>, later: seq<Action>)
    requires Send.Validate(c).Ok? && JustCleared(Run(c, before))
    ensures AfterClear(Run(c, before), Run(c, before + later))
    decreases |later|
  {
    hide Run, Step, Replay, Inv, AfterClear;
    if later == [] {
      assert before + later == before;
      EveryRunKeepsInv(c, before);
      ClearedNow(c, Run(c, before));
    } else {
      var shorter, last := later[..|later| - 1], later[|later| - 1];
      RunsAfterClear(c, before, shorter);
      assert before + later == (before + shorter) + [last];
      Extend(c, before + shorter, last);
      StepAfterClear(c, Run(c, before), Run(c, before + shorter), last);
    }
  }

  function TotalsOf(c: Send.SendConfig, actions: seq<Action>): Stats
    requires Send.Validate(c).Ok?
  {
    Totals(Replay(Run(c, actions).history))
  }

  /** The times summed over messages are the same. */
  predicate SameTimes(t: Stats, t': Stats) {
    && t'.queueWait == t.queueWait && t'.enqueue == t.enqueue && t'.send == t.send
    && t'.firstCheck == t.firstCheck && t'.firstBuild == t.firstBuild && t'.firstNative == t.firstNative
  }

  lemma TotalsOfSent(l: Ledger)
    ensures SameTimes(SentTotals(l.sent), Totals(l)) && Totals(l).messagesSent == SentTotals(l.sent).messagesSent
  {
  }

  lemma {:induction false} MessagesCounted(sent: seq<Sent>)
    ensures SentTotals(sent).messagesSent == |sent|
  {
    if sent != [] {
      MessagesCounted(sent[..|sent| - 1]);
    }
  }

  lemma OneMoreTotals(l0: Ledger, l: Ledger)
    requires |l.sent| == |l0.sent| + 1 && l0.sent <= l.sent
    ensures SentTotals(l.sent) == AddSent(SentTotals(l0.sent), l.sent[|l0.sent|])
  {
    assert l.sent[..|l0.sent|] == l0.sent;
  }

  /** A message of one frame with no stamp takes no time. */
  lemma UnstampedAddsNothing(t: Stats, now: Instant, steps: FrameSteps)
    requires Ordered(steps) && steps.nativeStart <= now
    ensures SameTimes(t, AddSent(t, Sent(Started(Stamp(now, 0), now, steps), now)))
  {
  }

  /**
   After a clear at most one more message is counted, ever: the one whose last
   frame libwebrtc had already. Unless a send let in before was queued since,
   it adds no time.
   */
  lemma AtMostOneMoreMessage(c: Send.SendConfig, before: seq<Action>, later: seq<Action>)
    requires Send.Validate(c).Ok? && JustCleared(Run(c, before))
    ensures
      var s0, t, t' := Run(c, before), TotalsOf(c, before), TotalsOf(c, before + later);
      && t.messagesSent <= t'.messagesSent <= t.messagesSent + (if HoldsALastFrame(s0) then 1 else 0)
      && (t'.messagesSent == t.messagesSent || Run(c, before + later).stamps == s0.stamps || s0.admitted == 0
          ==> SameTimes(t, t'))
  {
    RunsAfterClear(c, before, later);
    EveryRunKeepsInv(c, before + later);
    hide Run, Replay, Totals, SentTotals, AddSent, SameTimes, Begun, Kept, InStep, Early;
    var s0, s := Run(c, before), Run(c, before + later);
    var l0, l := Replay(s0.history), Replay(s.history);
    TotalsOfSent(l0);
    TotalsOfSent(l);
    MessagesCounted(l0.sent);
    MessagesCounted(l.sent);
    TimesFollow(l0, l);
    if l.sent != l0.sent {
      OneMoreTotals(l0, l);
      var m := l.sent[|l0.sent|];
      assert WellTimed(m);
      assert s0.admitted == 0 || s.stamps == s0.stamps ==> Late(s0, s) == [];
      UnstampedAddsNothing(SentTotals(l0.sent), m.lastAt, m.start.steps);
      SameTimesChain(Totals(l0), SentTotals(l0.sent), SentTotals(l.sent), Totals(l));
    }
  }

  lemma TimesFollow(l0: Ledger, l: Ledger)
    ensures l.sent == l0.sent ==> SameTimes(Totals(l0), Totals(l))
  {
  }

  lemma SameTimesChain(t0: Stats, t1: Stats, t2: Stats, t3: Stats)
    requires SameTimes(t1, t0) && SameTimes(t2, t3)
    ensures SameTimes(t1, t2) <==> SameTimes(t0, t3)
  {
  }

  ghost predicate TimesStay(c: Send.SendConfig, before: seq<Action>)
    requires Send.Validate(c).Ok?
  {
    forall later :: SameTimes(TotalsOf(c, before), TotalsOf(c, before + later))
  }

  /**
   Cleared messages add nothing to the times of messages, then or later,
   exactly when the clear does not meet both a last frame still to be counted
   and a send still to be queued: that frame is then timed by that send.
   */
  lemma ClearedMessagesAddNothing(c: Send.SendConfig, before: seq<Action>)
    requires Send.Validate(c).Ok? && JustCleared(Run(c, before))
    ensures TimesStay(c, before) <==> !(HoldsALastFrame(Run(c, before)) && Run(c, before).admitted > 0)
  {
    hide Run, SameTimes, Totals, Replay;
    if HoldsALastFrame(Run(c, before)) && Run(c, before).admitted > 0 {
      var later := LateSendIsCounted(c, before);
      assert !SameTimes(TotalsOf(c, before), TotalsOf(c, before + later));
    } else {
      forall later ensures SameTimes(TotalsOf(c, before), TotalsOf(c, before + later)) {
        AtMostOneMoreMessage(c, before, later);
      }
    }
  }

  lemma LateSendIsCounted(c: Send.SendConfig, before: seq<Action>) returns (later: seq<Action>)
    requires Send.Validate(c).Ok? && JustCleared(Run(c, before))
    requires HoldsALastFrame(Run(c, before)) && Run(c, before).admitted > 0
    ensures !SameTimes(TotalsOf(c, before), TotalsOf(c, before + later))
  {
    var s := Run(c, before);
    EveryRunKeepsInv(c, before);
    ClearedNow(c, s);
    var hand, l := s.inHand.value, Replay(s.history);
    var stamp := Stamp(s.queuedAt, 1);
    var now := hand.steps.nativeStart;
    var a1, a2 := Submit([], true, stamp.at, stamp.enqueue), Count(now);
    later := [a1, a2];
    Extend(c, before, a1);
    Extend(c, before + [a1], a2);
    assert before + later == before + [a1] + [a2];
    hide Run, Replay, Inv, More, SentTotals, Send.PayloadBytes, Send.Validate, AfterClear;
    EmptyIsAccepted(c, s);
    ReplayAppend(s.history, Queued(stamp.at, stamp.enqueue));
    ReplayAppend(s.history + [Queued(stamp.at, stamp.enqueue)], FrameSent(hand.frame, now, hand.steps));
    var s2 := Run(c, before + later);
    var l2 := Replay(s2.history);
    assert l2.sent == l.sent + [Sent(Started(stamp, now, hand.steps), now)];
    OneMoreTotals(l, l2);
  }

  lemma EmptyIsAccepted(c: Send.SendConfig, s: Timed)
    requires Send.Validate(c).Ok? && Send.PayloadBytes(s.toSend) <= c.queueLimit
    ensures Send.PushFrames(c, s.toSend, [], true).1.Ok?
  {
  }
}
