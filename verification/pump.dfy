/**
 The pump that moves frames from a channel's queue into libwebrtc
 (crates/reactor-webrtc/src/peer_connection.rs, `ChannelCore::pump`), run by
 any number of calls at once: senders, drains, and the native low-threshold
 callback, which fires while the buffer drains underneath them.

 Every access the calls share is one step: the check that the channel is open,
 the push, the `pump_again` flag, the try-lock, the cached buffered amount, the
 queue, the native send. A send let in before the channel closed may push after
 the closed channel's queue was emptied.
 */
module Pump {
  import opened Wrappers
  import opened Frame
  import Send

  type CallId = nat

  datatype Pc =
    /** A send that found the channel open. */
    | Enqueue(data: Bytes, binary: bool)
    | Ask
    | TryLock
    | Swap
    | Estimate
    | Measure
    | Build(buffered: nat)
    | Native(room: nat, frame: Bytes)
    | Record(taken: bool)
    /** libwebrtc refused the frame: the queue is to be emptied. */
    | Clear
    | Unlock
    | Recheck

  datatype Channel = Channel(
    toSend: seq<Bytes>,
    /** libwebrtc's buffered amount. */
    native: nat,
    /** `native_est`; `None` is UNKNOWN, the largest value. */
    est: Option<nat>,
    again: bool,
    lock: Option<CallId>,
    calls: map<CallId, Pc>,
    /** Buffered-amount changes libwebrtc has not yet reported to the observer. */
    events: nat,
    open: bool,
    /** Every frame ever queued, and every frame libwebrtc took, in order. */
    pushed: seq<Bytes>,
    handed: seq<Bytes>)

  const INIT := Channel([], 0, None, false, None, map[], 0, true, [], [])

  datatype Action =
    | Submit(id: CallId, data: Bytes, binary: bool)
    | Poll(id: CallId)
    | Drain(left: nat)
    | Report(id: CallId)
    | Advance(id: CallId)
    /** libwebrtc refuses the frame it is handed, and closes the channel. */
    | Refuse(id: CallId)
    /** The channel leaves the open state. */
    | Shut
    /** The closed channel's queue is emptied. */
    | EmptyQueue

  predicate Holds(pc: Pc) {
    !(pc.Enqueue? || pc.Ask? || pc.TryLock? || pc.Recheck?)
  }

  function At(s: Channel, id: CallId, pc: Pc): Channel {
    s.(calls := s.calls[id := pc])
  }

  function Finish(s: Channel, id: CallId): Channel {
    s.(calls := s.calls - {id})
  }

  /** One step of a running call. */
  function AdvanceCall(c: Send.SendConfig, s: Channel, id: CallId): Channel
    requires id in s.calls && Send.Validate(c).Ok?
  {
    match s.calls[id]
    case Enqueue(data, binary) =>
      var (toSend, r) := Send.PushFrames(c, s.toSend, data, binary);
      if r.Err? then Finish(s, id) else
      At(s.(toSend := toSend,
            pushed := s.pushed + Send.FramesOf(Send.Message(data, !binary), c.chunkSize - 1)),
         id, Ask)
    case Ask => At(s.(again := true), id, TryLock)
    case TryLock =>
      if s.lock.Some? then Finish(s, id) else At(s.(lock := Some(id)), id, Swap)
    case Swap =>
      if s.again then At(s.(again := false), id, Estimate) else At(s, id, Unlock)
    case Estimate =>
      if s.est.Some? && s.est.value <= c.lowWater
      then At(s, id, Build(s.est.value))
      else At(s, id, Measure)
    case Measure => At(s.(est := Some(s.native)), id, Build(s.native))
    case Build(buffered) =>
      var (toSend, frame) := Send.TakeFrame(c, s.toSend, buffered);
      if frame.Some?
      then At(s.(toSend := toSend), id, Native(buffered, frame.value))
      else At(s, id, Swap)
    case Native(_, frame) =>
      if s.open
      then At(s.(native := s.native + |frame|, handed := s.handed + [frame]), id, Record(true))
      else At(s, id, Record(false))
    case Record(taken) => At(s.(est := Some(s.native)), id, if taken then Estimate else Clear)
    case Clear => Finish(s.(toSend := [], lock := None), id)
    case Unlock => At(s.(lock := None), id, Recheck)
    case Recheck => if s.again then At(s, id, Ask) else Finish(s, id)
  }

  function Step(c: Send.SendConfig, s: Channel, a: Action): Channel
    requires Send.Validate(c).Ok?
  {
    match a
    case Submit(id, data, binary) =>
      if id in s.calls || !s.open then s else At(s, id, Enqueue(data, binary))
    case Poll(id) =>
      if id in s.calls then s else At(s, id, Ask)
    case Drain(left) =>
      if left >= s.native then s else s.(native := left, events := s.events + 1)
    case Report(id) =>
      if s.events == 0 || id in s.calls then s
      else
        var s' := s.(events := s.events - 1);
        if s.native <= c.lowWater then At(s', id, Ask) else s'
    case Advance(id) =>
      if id in s.calls then AdvanceCall(c, s, id) else s
    case Refuse(id) =>
      if id in s.calls && s.calls[id].Native? then At(s.(open := false), id, Record(false)) else s
    case Shut => s.(open := false)
    case EmptyQueue => if s.open then s else s.(toSend := [])
  }

  function Run(c: Send.SendConfig, actions: seq<Action>): Channel
    requires Send.Validate(c).Ok?
    decreases |actions|
  {
    if actions == [] then INIT
    else Step(c, Run(c, actions[..|actions| - 1]), actions[|actions| - 1])
  }

  // ---------------------------------------------------------------------
  // Invariants
  // ---------------------------------------------------------------------

  ghost predicate Exclusive(s: Channel) {
    && (s.lock.Some? ==> s.lock.value in s.calls)
    && (forall id :: id in s.calls ==> (Holds(s.calls[id]) <==> s.lock == Some(id)))
  }

  function Holder(s: Channel): Option<Pc> {
    if s.lock.Some? && s.lock.value in s.calls then Some(s.calls[s.lock.value]) else None
  }

  function InHand(s: Channel): seq<Bytes> {
    match Holder(s)
    case Some(Native(_, frame)) => [frame]
    case _ => []
  }

  /** The cached amount is never below the real one, but for the frame just sent. */
  ghost predicate Bounded(c: Send.SendConfig, s: Channel) {
    && s.native < c.highWater + c.chunkSize
    && (forall f :: f in s.toSend ==> |f| <= c.chunkSize)
    && match Holder(s)
       case Some(Record(_)) => true
       case Some(Build(b)) => s.native <= b && s.est.Some? && s.native <= s.est.value
       case Some(Native(b, f)) =>
         s.native <= b < c.highWater && |f| <= c.chunkSize && s.est.Some? && s.native <= s.est.value
       case _ => s.est.Some? ==> s.native <= s.est.value
  }

  ghost predicate Ordered(s: Channel) {
    if s.open then s.handed + InHand(s) + s.toSend == s.pushed
    else s.handed <= s.pushed
  }

  /** A refused frame means a closed channel. */
  ghost predicate RefusedIsShut(s: Channel) {
    forall id :: id in s.calls && (s.calls[id] == Record(false) || s.calls[id].Clear?) ==> !s.open
  }

  /** The holder will look at the queue again, with a buffered amount that lets frames go. */
  predicate Looking(c: Send.SendConfig, pc: Pc) {
    match pc
    case Estimate => true
    case Measure => true
    case Build(b) => b < c.highWater
    case Native(_, _) => true
    case Record(_) => true
    case _ => false
  }

  ghost predicate SomeoneAt(s: Channel, pc: Pc) {
    exists id :: id in s.calls && s.calls[id] == pc
  }

  /** Some pump pass is certain to come. */
  ghost predicate WakePending(c: Send.SendConfig, s: Channel) {
    || s.events > 0
    || SomeoneAt(s, Ask)
    || (s.again && (s.lock.Some? || SomeoneAt(s, TryLock) || SomeoneAt(s, Recheck)))
    || (Holder(s).Some? && Looking(c, Holder(s).value))
  }

  ghost predicate NoLostWakeup(c: Send.SendConfig, s: Channel) {
    s.open && s.toSend != [] && s.native <= c.lowWater ==> WakePending(c, s)
  }

  ghost predicate Inv(c: Send.SendConfig, s: Channel) {
    && Send.Validate(c).Ok?
    && Exclusive(s)
    && Bounded(c, s)
    && Ordered(s)
    && RefusedIsShut(s)
    && NoLostWakeup(c, s)
  }

  lemma FramesFit(m: Send.Message, room: nat)
    requires room >= 1
    ensures forall f :: f in Send.FramesOf(m, room) ==> |f| <= room + 1
  {
    Send.FramesAreTheOnlyFraming(Send.FramesOf(m, room), m, room);
  }

  /** One call moves, and the lock with it. */
  lemma OneMoves(c: Send.SendConfig, s: Channel, id: CallId)
    requires id in s.calls && Send.Validate(c).Ok?
    ensures var pc, s' := s.calls[id], AdvanceCall(c, s, id);
      && s'.calls == (if id in s'.calls then s.calls[id := s'.calls[id]] else s.calls - {id})
      && s'.lock == (if pc.TryLock? && s.lock.None? then Some(id)
                     else if pc.Unlock? || pc.Clear? then None else s.lock)
  {
    hide Send.Validate, Send.PushFrames, Send.TakeFrame, Send.FramesOf;
  }

  lemma HoldsAfter(c: Send.SendConfig, s: Channel, id: CallId)
    requires id in s.calls && Send.Validate(c).Ok?
    ensures var pc, s' := s.calls[id], AdvanceCall(c, s, id);
      && (id in s'.calls ==> !pc.Clear? && Holds(s'.calls[id]) == (pc.TryLock? || (Holds(pc) && !pc.Unlock?)))
      && (id !in s'.calls ==> !Holds(pc) || pc.Clear?)
      && (pc.TryLock? ==> (id in s'.calls <==> s.lock.None?))
  {
    hide Send.Validate, Send.PushFrames, Send.TakeFrame, Send.FramesOf;
  }

  lemma AdvanceKeepsExclusive(c: Send.SendConfig, s: Channel, id: CallId)
    requires Exclusive(s) && id in s.calls && Send.Validate(c).Ok?
    ensures Exclusive(AdvanceCall(c, s, id))
    ensures Holder(AdvanceCall(c, s, id)) == HolderAfter(c, s, id)
  {
    hide AdvanceCall, Send.Validate;
    OneMoves(c, s, id);
    HoldsAfter(c, s, id);
  }

  /** Who holds the lock after `id` advanced, and where. */
  function HolderAfter(c: Send.SendConfig, s: Channel, id: CallId): Option<Pc>
    requires id in s.calls && Send.Validate(c).Ok?
  {
    var s' := AdvanceCall(c, s, id);
    if s.lock == Some(id) || (s.calls[id].TryLock? && s.lock.None?) then
      if id in s'.calls && Holds(s'.calls[id]) then Some(s'.calls[id]) else None
    else Holder(s)
  }

  lemma AdvanceKeepsBounded(c: Send.SendConfig, s: Channel, id: CallId)
    requires Inv(c, s) && id in s.calls && !s.calls[id].Enqueue?
    ensures Bounded(c, AdvanceCall(c, s, id))
  {
    AdvanceKeepsExclusive(c, s, id);
    assert s.lock == Some(id) ==> Holder(s) == Some(s.calls[id]);
    hide Ordered, NoLostWakeup, Holder, Exclusive, RefusedIsShut, Send.PushFrames, Send.FramesOf;
  }

  lemma AdvanceKeepsOrdered(c: Send.SendConfig, s: Channel, id: CallId)
    requires Inv(c, s) && id in s.calls && !s.calls[id].Enqueue?
    ensures Ordered(AdvanceCall(c, s, id))
  {
    hide Bounded, NoLostWakeup;
  }

  lemma OthersStay(c: Send.SendConfig, s: Channel, id: CallId, pc: Pc)
    requires id in s.calls && s.calls[id] != pc && SomeoneAt(s, pc) && Send.Validate(c).Ok?
    ensures SomeoneAt(AdvanceCall(c, s, id), pc)
  {
    var other :| other in s.calls && s.calls[other] == pc;
    assert other in AdvanceCall(c, s, id).calls;
  }

  /** A pass under way goes on to look at the queue, or leaves it empty or the buffer full. */
  lemma PassKeepsWakeup(c: Send.SendConfig, s: Channel, id: CallId)
    requires Inv(c, s) && id in s.calls && Holds(s.calls[id]) && !s.calls[id].Swap? && !s.calls[id].Unlock?
    ensures NoLostWakeup(c, AdvanceCall(c, s, id))
  {
    var s' := AdvanceCall(c, s, id);
    AdvanceKeepsExclusive(c, s, id);
    assert Holder(s) == Some(s.calls[id]);
    if SomeoneAt(s, Ask) { OthersStay(c, s, id, Ask); }
    hide Ordered, Exclusive, Holder, SomeoneAt;
  }

  lemma RequestKeepsWakeup(c: Send.SendConfig, s: Channel, id: CallId)
    requires Inv(c, s) && id in s.calls && (!Holds(s.calls[id]) || s.calls[id].Swap? || s.calls[id].Unlock?)
    ensures NoLostWakeup(c, AdvanceCall(c, s, id))
  {
    hide Send.PushFrames, Send.FramesOf, Send.Validate;
    var s' := AdvanceCall(c, s, id);
    AdvanceKeepsExclusive(c, s, id);
    assert s.lock == Some(id) ==> Holder(s) == Some(s.calls[id]);
    assert Holds(s.calls[id]) <==> s.lock == Some(id);
    assert id in s'.calls && s'.calls[id] == Ask ==> SomeoneAt(s', Ask);
    assert id in s'.calls && s'.calls[id] == TryLock ==> SomeoneAt(s', TryLock);
    assert id in s'.calls && s'.calls[id] == Recheck ==> SomeoneAt(s', Recheck);
    if s.calls[id] != Ask && SomeoneAt(s, Ask) { OthersStay(c, s, id, Ask); }
    if s.calls[id] != TryLock && SomeoneAt(s, TryLock) { OthersStay(c, s, id, TryLock); }
    if s.calls[id] != Recheck && SomeoneAt(s, Recheck) { OthersStay(c, s, id, Recheck); }
    hide Ordered, Bounded, Exclusive, Holder, SomeoneAt;
  }

  lemma AdvanceKeepsWakeup(c: Send.SendConfig, s: Channel, id: CallId)
    requires Inv(c, s) && id in s.calls
    ensures NoLostWakeup(c, AdvanceCall(c, s, id))
  {
    hide Inv, NoLostWakeup, AdvanceCall, Holds;
    if Holds(s.calls[id]) && !s.calls[id].Swap? && !s.calls[id].Unlock? {
      PassKeepsWakeup(c, s, id);
    } else {
      RequestKeepsWakeup(c, s, id);
    }
  }

  lemma AdvanceKeepsRefusedShut(c: Send.SendConfig, s: Channel, id: CallId)
    requires RefusedIsShut(s) && id in s.calls && Send.Validate(c).Ok?
    ensures RefusedIsShut(AdvanceCall(c, s, id))
  {
    hide Send.Validate;
  }

  /** A late push puts frames on a queue, closed or not. */
  lemma EnqueueKeepsInv(c: Send.SendConfig, s: Channel, id: CallId)
    requires Inv(c, s) && id in s.calls && s.calls[id].Enqueue?
    ensures Bounded(c, AdvanceCall(c, s, id)) && Ordered(AdvanceCall(c, s, id))
  {
    hide Send.FramesFrom, Send.PayloadBytes, NoLostWakeup, RefusedIsShut;
    var m := Send.Message(s.calls[id].data, !s.calls[id].binary);
    FramesFit(m, c.chunkSize - 1);
    AdvanceKeepsExclusive(c, s, id);
    var s' := AdvanceCall(c, s, id);
    assert Holder(s') == Holder(s);
    assert s.handed + InHand(s) + (s.toSend + Send.FramesOf(m, c.chunkSize - 1))
        == (s.handed + InHand(s) + s.toSend) + Send.FramesOf(m, c.chunkSize - 1);
  }

  lemma AdvanceKeepsInv(c: Send.SendConfig, s: Channel, id: CallId)
    requires Inv(c, s) && id in s.calls
    ensures Inv(c, AdvanceCall(c, s, id))
  {
    AdvanceKeepsExclusive(c, s, id);
    AdvanceKeepsRefusedShut(c, s, id);
    AdvanceKeepsWakeup(c, s, id);
    if s.calls[id].Enqueue? {
      EnqueueKeepsInv(c, s, id);
    } else {
      AdvanceKeepsBounded(c, s, id);
      AdvanceKeepsOrdered(c, s, id);
    }
    hide Exclusive, Bounded, Ordered, RefusedIsShut, NoLostWakeup, Send.Validate;
  }

  lemma SubmitKeepsInv(c: Send.SendConfig, s: Channel, id: CallId, data: Bytes, binary: bool)
    requires Inv(c, s)
    ensures Inv(c, Step(c, s, Submit(id, data, binary)))
  {
    var s' := Step(c, s, Submit(id, data, binary));
    if s' != s {
      OneMoreCall(c, s, id, Enqueue(data, binary));
    }
  }

  /** A new call before it holds anything. */
  lemma OneMoreCall(c: Send.SendConfig, s: Channel, id: CallId, pc: Pc)
    requires Inv(c, s) && id !in s.calls && !Holds(pc)
    ensures Inv(c, At(s, id, pc))
  {
    var s' := At(s, id, pc);
    assert Holder(s') == Holder(s);
    forall other: Pc | SomeoneAt(s, other) ensures SomeoneAt(s', other) {
      var x :| x in s.calls && s.calls[x] == other;
      assert s'.calls[x] == other;
    }
    hide Send.Validate, SomeoneAt;
  }

  lemma CallAsked(c: Send.SendConfig, s: Channel, id: CallId, events: nat)
    requires Inv(c, s) && id !in s.calls
    ensures Inv(c, At(s.(events := events), id, Ask))
  {
    var s' := At(s.(events := events), id, Ask);
    assert s'.calls[id] == Ask;
    assert Holder(s') == Holder(s);
  }

  lemma RefuseKeepsInv(c: Send.SendConfig, s: Channel, id: CallId)
    requires Inv(c, s)
    ensures Inv(c, Step(c, s, Refuse(id)))
  {
  }

  lemma DrainKeepsInv(c: Send.SendConfig, s: Channel, left: nat)
    requires Inv(c, s)
    ensures Inv(c, Step(c, s, Drain(left)))
  {
    assert Holder(Step(c, s, Drain(left))) == Holder(s);
    hide Send.Validate;
  }

  lemma ReportAboveLowWater(c: Send.SendConfig, s: Channel)
    requires Inv(c, s) && s.events > 0
    ensures s.native > c.lowWater ==> Inv(c, s.(events := s.events - 1))
  {
    assert Holder(s.(events := s.events - 1)) == Holder(s);
    hide Send.Validate;
  }

  lemma ClosingKeepsInv(c: Send.SendConfig, s: Channel)
    requires Inv(c, s)
    ensures Inv(c, Step(c, s, Shut)) && Inv(c, Step(c, s, EmptyQueue))
  {
    assert Holder(Step(c, s, Shut)) == Holder(s);
    assert Holder(Step(c, s, EmptyQueue)) == Holder(s);
    assert s.handed + InHand(s) + s.toSend == s.handed + (InHand(s) + s.toSend);
    hide Send.Validate;
  }

  lemma StepKeepsInv(c: Send.SendConfig, s: Channel, a: Action)
    requires Inv(c, s)
    ensures Inv(c, Step(c, s, a))
  {
    hide Inv;
    match a
    case Submit(id, data, binary) => SubmitKeepsInv(c, s, id, data, binary);
    case Poll(id) =>
      if id !in s.calls {
        CallAsked(c, s, id, s.events);
      }
    case Drain(left) => DrainKeepsInv(c, s, left);
    case Report(id) =>
      if s.events > 0 && id !in s.calls {
        CallAsked(c, s, id, s.events - 1);
        ReportAboveLowWater(c, s);
      }
    case Advance(id) =>
      if id in s.calls {
        AdvanceKeepsInv(c, s, id);
      }
    case Refuse(id) => RefuseKeepsInv(c, s, id);
    case Shut => ClosingKeepsInv(c, s);
    case EmptyQueue => ClosingKeepsInv(c, s);
  }

  lemma {:induction false} EveryRunKeepsInv(c: Send.SendConfig, actions: seq<Action>)
    requires Send.Validate(c).Ok?
    ensures Inv(c, Run(c, actions))
    decreases |actions|
  {
    if actions != [] {
      EveryRunKeepsInv(c, actions[..|actions| - 1]);
      StepKeepsInv(c, Run(c, actions[..|actions| - 1]), actions[|actions| - 1]);
    }
  }

  // ---------------------------------------------------------------------
  // What the invariants mean
  // ---------------------------------------------------------------------

  /** libwebrtc's send buffer never reaches the size at which it closes the channel. */
  lemma NativeBufferStaysBelowItsLimit(c: Send.SendConfig, actions: seq<Action>)
    requires Send.Validate(c).Ok?
    ensures Run(c, actions).native < Send.NATIVE_SEND_BUFFER_LIMIT
  {
    EveryRunKeepsInv(c, actions);
  }

  /**
   When every pump call has returned and every buffer change was reported,
   frames are left only above the low-water mark: the drain that crosses it is
   still to come, so the callback that resumes the pump cannot be missed.
   */
  lemma StoppedPumpWaitsAboveLowWater(c: Send.SendConfig, actions: seq<Action>)
    requires Send.Validate(c).Ok?
    ensures
      var s := Run(c, actions);
      s.calls == map[] && s.events == 0 && s.open && s.toSend != [] ==> s.native > c.lowWater
  {
    EveryRunKeepsInv(c, actions);
  }

  /**
   Frames reach libwebrtc in the order they were queued, whoever pumps: on an
   open channel all of them but the queue and at most one frame in hand, on a
   closed one a prefix.
   */
  lemma FramesLeaveInOrder(c: Send.SendConfig, actions: seq<Action>)
    requires Send.Validate(c).Ok?
    ensures
      var s := Run(c, actions);
      && s.handed <= s.pushed
      && (s.open ==> s.handed + InHand(s) + s.toSend == s.pushed)
      && (s.open && s.calls == map[] ==> s.handed + s.toSend == s.pushed)
  {
    EveryRunKeepsInv(c, actions);
    hide Run;
    HandedIsAPrefix(c, Run(c, actions));
    hide Inv;
  }

  lemma HandedIsAPrefix(c: Send.SendConfig, s: Channel)
    requires Inv(c, s)
    ensures s.handed <= s.pushed
    ensures s.open ==> s.handed + InHand(s) + s.toSend == s.pushed
    ensures s.calls == map[] ==> InHand(s) == [] && s.handed + [] == s.handed
  {
    hide Bounded, NoLostWakeup, Send.Validate;
    assert s.calls == map[] ==> Holder(s) == None;
    var rest := InHand(s) + if s.open then s.toSend else [];
    hide Exclusive, Holder, InHand;
    assert s.handed <= s.handed + rest;
    assert s.open ==> s.handed + rest == s.pushed;
  }
}
