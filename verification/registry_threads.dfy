/**
 Any number of threads inside the encoder-slot registry
 (crates/reactor-webrtc/src/encoded.rs, `EncoderRegistry`), each taking and
 releasing the `pending` and `assigned` locks and the callback locks exactly
 where the program does.
 */
module RegistryThreads {
  import opened Wrappers
  import opened Registry
  import opened RegistryStore

  type ThreadId = nat

  /** A user callback and the lock that serialises it. */
  datatype Callback = Feedback(id: SlotId) | InlineEncoder(id: SlotId)

  /** The queue `encode_for` still has to pop once its callback returned. */
  datatype Rest = Rest(e: EncoderId, q: SlotId)

  /** Where a call is. `Acquire…` waits for a lock, the next point holds it. */
  datatype Pc =
    | AddAcquire(track: TrackId, slot: Slot)
    | AddPush(track: TrackId, slot: Slot)
    | HasAcquirePending(since: nat)
    | HasScanPending(since: nat)
    | HasAcquireBound(since: nat)
    | HasScanBound(since: nat)
    | HasDone(since: nat, result: bool)
    | RetractAcquirePending(track: TrackId)
    | RetractRetain(track: TrackId)
    | RetractAcquirePendingAgain(track: TrackId)
    | RetractScanPending(track: TrackId)
    | RetractAcquireBound(track: TrackId)
    | RetractScanBound(track: TrackId)
    | RetractAcquireBoundAgain(track: TrackId)
    | RetractDegrade(track: TrackId)
    | UseAcquireBound(e: EncoderId)
    | UseLookup(e: EncoderId)
    | UseAcquirePending(e: EncoderId)
    | UsePop(e: EncoderId)
    | UseInsert(e: EncoderId)
    | UseScanBound
    | UseAcquirePendingAgain
    | UseScanPending
    | UseRelease
    | EncodeAcquireBound(e: EncoderId, keyFrame: bool)
    | EncodeLookup(e: EncoderId, keyFrame: bool)
    | EncodeAcquirePending(e: EncoderId, keyFrame: bool)
    | EncodePop(e: EncoderId, keyFrame: bool)
    | EncodeInsert(e: EncoderId, keyFrame: bool)
    | EncodeDequeue(rest: Rest)
    | RateAcquireBound(e: EncoderId)
    | RateLookup(e: EncoderId)
    | BackendAcquireBound(e: EncoderId)
    | BackendRead(e: EncoderId)
    | CallbackAcquire(cb: Callback, andThen: Option<Rest>)
    | InCallback(cb: Callback, andThen: Option<Rest>)

  datatype Shared = Shared(
    store: Store,
    pendingLock: Option<ThreadId>,
    boundLock: Option<ThreadId>,
    callbackLocks: map<Callback, ThreadId>,
    calls: map<ThreadId, Pc>)

  const INIT := Shared(EMPTY, None, None, map[], map[])

  // ---------------------------------------------------------------------
  // Which operation a call is in
  // ---------------------------------------------------------------------

  predicate InAdd(pc: Pc) {
    pc.AddAcquire? || pc.AddPush?
  }

  predicate InHas(pc: Pc) {
    || pc.HasAcquirePending? || pc.HasScanPending? || pc.HasAcquireBound?
    || pc.HasScanBound? || pc.HasDone?
  }

  /** Not at a point that changes a slot. */
  predicate RetractLooksOn(pc: Pc) {
    || pc.RetractAcquirePending? || pc.RetractAcquirePendingAgain? || pc.RetractScanPending?
    || pc.RetractAcquireBound? || pc.RetractScanBound? || pc.RetractAcquireBoundAgain?
  }

  predicate InRetract(pc: Pc) {
    RetractLooksOn(pc) || pc.RetractRetain? || pc.RetractDegrade?
  }

  /** Not at a point that pops or inserts. */
  predicate UseLooksOn(pc: Pc) {
    || pc.UseAcquireBound? || pc.UseLookup? || pc.UseAcquirePending? || pc.UseScanBound?
    || pc.UseAcquirePendingAgain? || pc.UseScanPending? || pc.UseRelease?
  }

  predicate InUse(pc: Pc) {
    UseLooksOn(pc) || pc.UsePop? || pc.UseInsert?
  }

  /** Before the pop. */
  predicate EncodeLooksOn(pc: Pc) {
    pc.EncodeAcquireBound? || pc.EncodeLookup? || pc.EncodeAcquirePending?
  }

  predicate InEncode(pc: Pc) {
    EncodeLooksOn(pc) || pc.EncodePop? || pc.EncodeInsert? || pc.EncodeDequeue?
  }

  predicate InLookup(pc: Pc) {
    pc.RateAcquireBound? || pc.RateLookup? || pc.BackendAcquireBound? || pc.BackendRead?
  }

  predicate AtCallback(pc: Pc) {
    pc.CallbackAcquire? || pc.InCallback?
  }

  // ---------------------------------------------------------------------
  // What a point holds, and what it waits for
  // ---------------------------------------------------------------------

  predicate HoldsPending(pc: Pc) {
    match pc
    case AddPush(_, _) => true
    case HasScanPending(_) => true
    case RetractRetain(_) => true
    case RetractScanPending(_) => true
    case UsePop(_) => true
    case UseScanPending => true
    case EncodePop(_, _) => true
    case _ => false
  }

  predicate HoldsBound(pc: Pc) {
    match pc
    case HasScanBound(_) => true
    case RetractScanBound(_) => true
    case RetractDegrade(_) => true
    case UseLookup(_) => true
    case UseAcquirePending(_) => true
    case UsePop(_) => true
    case UseInsert(_) => true
    case UseScanBound => true
    case UseAcquirePendingAgain => true
    case UseScanPending => true
    case UseRelease => true
    case EncodeLookup(_, _) => true
    case EncodeAcquirePending(_, _) => true
    case EncodePop(_, _) => true
    case EncodeInsert(_, _) => true
    case RateLookup(_) => true
    case BackendRead(_) => true
    case _ => false
  }

  predicate WantsPending(pc: Pc) {
    match pc
    case AddAcquire(_, _) => true
    case HasAcquirePending(_) => true
    case RetractAcquirePending(_) => true
    case RetractAcquirePendingAgain(_) => true
    case UseAcquirePending(_) => true
    case UseAcquirePendingAgain => true
    case EncodeAcquirePending(_, _) => true
    case _ => false
  }

  predicate WantsBound(pc: Pc) {
    match pc
    case HasAcquireBound(_) => true
    case RetractAcquireBound(_) => true
    case RetractAcquireBoundAgain(_) => true
    case UseAcquireBound(_) => true
    case EncodeAcquireBound(_, _) => true
    case RateAcquireBound(_) => true
    case BackendAcquireBound(_) => true
    case _ => false
  }

  predicate Enabled(s: Shared, t: ThreadId)
    requires t in s.calls
  {
    var pc := s.calls[t];
    && (WantsPending(pc) ==> s.pendingLock.None?)
    && (WantsBound(pc) ==> s.boundLock.None?)
    && (pc.CallbackAcquire? ==> pc.cb !in s.callbackLocks)
  }

  // ---------------------------------------------------------------------
  // Steps
  // ---------------------------------------------------------------------

  function Finish(s: Shared, t: ThreadId): Shared {
    s.(calls := s.calls - {t})
  }

  function Goto(s: Shared, t: ThreadId, pc: Pc): Shared {
    s.(calls := s.calls[t := pc])
  }

  /** Moves on and makes the locks match the new point. */
  function Move(s: Shared, t: ThreadId, pc: Pc): (s': Shared)
    ensures s'.store == s.store && t in s'.calls && s'.calls[t] == pc
  {
    Goto(s, t, pc).(
      pendingLock := if HoldsPending(pc) then Some(t) else if s.pendingLock == Some(t) then None else s.pendingLock,
      boundLock := if HoldsBound(pc) then Some(t) else if s.boundLock == Some(t) then None else s.boundLock)
  }

  /** Returns, dropping whatever locks the call still holds. */
  function Return(s: Shared, t: ThreadId): (s': Shared)
    ensures s'.store == s.store && t !in s'.calls
  {
    Finish(s, t).(
      pendingLock := if s.pendingLock == Some(t) then None else s.pendingLock,
      boundLock := if s.boundLock == Some(t) then None else s.boundLock)
  }

  function With(s: Shared, store: Store): Shared {
    s.(store := store)
  }

  /** After the lookup: the lock is dropped, then the slot does its part. */
  function EncodeWith(s: Shared, t: ThreadId, e: EncoderId, keyFrame: bool): Shared
    requires e in s.store.bound
  {
    var b := s.store.bound[e];
    if b.id.None? then Return(s, t)
    else match b.slot
      case Custom =>
        var rest := Rest(e, b.id.value);
        if keyFrame then Move(s, t, CallbackAcquire(Feedback(b.id.value), Some(rest)))
        else Move(s, t, EncodeDequeue(rest))
      case Inline => Move(s, t, CallbackAcquire(InlineEncoder(b.id.value), None))
      case Builtin(_) => Return(s, t)
  }

  /** What `encode_for` binds on first use: the reservation it took, or the placeholder. */
  function Bound(s: Store, e: EncoderId): Store {
    if s.inFlight.Some? then Insert(s, e) else InsertPlaceholder(s, e)
  }

  function AdvanceAdd(s: Shared, t: ThreadId): Shared
    requires t in s.calls
  {
    match s.calls[t]
    case AddAcquire(track, slot) => Move(s, t, AddPush(track, slot))
    case AddPush(track, slot) => Return(With(s, Reserve(s.store, track, slot)), t)
    case _ => s
  }

  function AdvanceHas(s: Shared, t: ThreadId): Shared
    requires t in s.calls
  {
    match s.calls[t]
    case HasAcquirePending(since) => Move(s, t, HasScanPending(since))
    case HasScanPending(since) =>
      if PendingCustom(s.store.pending) then Move(s, t, HasDone(since, true))
      else Move(s, t, HasAcquireBound(since))
    case HasAcquireBound(since) => Move(s, t, HasScanBound(since))
    case HasScanBound(since) => Move(s, t, HasDone(since, BoundCustom(s.store.bound)))
    case HasDone(_, _) => Return(s, t)
    case _ => s
  }

  function AdvanceRetract(s: Shared, t: ThreadId): Shared
    requires t in s.calls
  {
    match s.calls[t]
    case RetractAcquirePending(track) => Move(s, t, RetractRetain(track))
    case RetractRetain(track) => Move(With(s, Retain(s.store, track)), t, RetractAcquirePendingAgain(track))
    case RetractAcquirePendingAgain(track) => Move(s, t, RetractScanPending(track))
    case RetractScanPending(track) =>
      if PendingCustom(s.store.pending) then Move(s, t, RetractAcquireBoundAgain(track))
      else Move(s, t, RetractAcquireBound(track))
    case RetractAcquireBound(track) => Move(s, t, RetractScanBound(track))
    case RetractScanBound(track) => Move(s, t, RetractAcquireBoundAgain(track))
    case RetractAcquireBoundAgain(track) => Move(s, t, RetractDegrade(track))
    case RetractDegrade(track) => Return(With(s, DegradeTrack(s.store, track)), t)
    case _ => s
  }

  function AdvanceUse(s: Shared, t: ThreadId): Shared
    requires t in s.calls
  {
    match s.calls[t]
    case UseAcquireBound(e) => Move(s, t, UseLookup(e))
    case UseLookup(e) =>
      if e in s.store.bound then Return(s, t) else Move(s, t, UseAcquirePending(e))
    case UseAcquirePending(e) => Move(s, t, UsePop(e))
    case UsePop(e) =>
      if s.store.pending == [] then Move(s, t, UseScanBound)
      else Move(With(s, TakeFirst(s.store)), t, UseInsert(e))
    case UseInsert(e) =>
      if s.store.inFlight.Some? then Return(With(s, Insert(s.store, e)), t) else s
    case UseScanBound =>
      if BoundCustom(s.store.bound) then Move(s, t, UseRelease) else Move(s, t, UseAcquirePendingAgain)
    case UseAcquirePendingAgain => Move(s, t, UseScanPending)
    case UseScanPending => Move(s, t, UseRelease)
    case UseRelease => Return(s, t)
    case _ => s
  }

  function AdvanceEncode(s: Shared, t: ThreadId): Shared
    requires t in s.calls
  {
    match s.calls[t]
    case EncodeAcquireBound(e, keyFrame) => Move(s, t, EncodeLookup(e, keyFrame))
    case EncodeLookup(e, keyFrame) =>
      if e in s.store.bound then EncodeWith(s, t, e, keyFrame)
      else Move(s, t, EncodeAcquirePending(e, keyFrame))
    case EncodeAcquirePending(e, keyFrame) => Move(s, t, EncodePop(e, keyFrame))
    case EncodePop(e, keyFrame) =>
      Move(if s.store.pending == [] then s else With(s, TakeFirst(s.store)), t, EncodeInsert(e, keyFrame))
    case EncodeInsert(e, keyFrame) =>
      EncodeWith(With(s, Bound(s.store, e)), t, e, keyFrame)
    case EncodeDequeue(rest) =>
      if rest.q < |s.store.queues| && rest.q < |s.store.popped|
      then Return(With(s, Dequeue(s.store, rest.e, rest.q)), t) else s
    case _ => s
  }

  function AdvanceOther(s: Shared, t: ThreadId): Shared
    requires t in s.calls
  {
    match s.calls[t]
    case RateAcquireBound(e) => Move(s, t, RateLookup(e))
    case RateLookup(e) =>
      if e in s.store.bound && !s.store.bound[e].slot.Builtin? && s.store.bound[e].id.Some?
      then Move(s, t, CallbackAcquire(Feedback(s.store.bound[e].id.value), None))
      else Return(s, t)
    case BackendAcquireBound(e) => Move(s, t, BackendRead(e))
    case BackendRead(_) => Return(s, t)
    case CallbackAcquire(cb, rest) =>
      Goto(s, t, InCallback(cb, rest)).(callbackLocks := s.callbackLocks[cb := t])
    case InCallback(cb, rest) =>
      var s' := s.(callbackLocks := s.callbackLocks - {cb});
      if rest.Some? then Goto(s', t, EncodeDequeue(rest.value)) else Finish(s', t)
    case _ => s
  }

  function Advance(s: Shared, t: ThreadId): Shared
    requires t in s.calls
  {
    var pc := s.calls[t];
    if !Enabled(s, t) then s
    else if InAdd(pc) then AdvanceAdd(s, t)
    else if InHas(pc) then AdvanceHas(s, t)
    else if InRetract(pc) then AdvanceRetract(s, t)
    else if InEncode(pc) then AdvanceEncode(s, t)
    else if InLookup(pc) || AtCallback(pc) then AdvanceOther(s, t)
    else AdvanceUse(s, t)
  }

  /** The calls a thread can make. */
  datatype Call =
    | AddSlot(track: TrackId, slot: Slot)
    | HasCustom
    | Retract(track: TrackId)
    | UseBuiltinFor(e: EncoderId)
    | EncodeFor(e: EncoderId, keyFrame: bool)
    | RateUpdate(e: EncoderId)
    | BackendFor(e: EncoderId)

  function Entry(s: Shared, call: Call): Pc {
    match call
    case AddSlot(track, slot) => AddAcquire(track, slot)
    case HasCustom => HasAcquirePending(|s.store.reserved|)
    case Retract(track) => RetractAcquirePending(track)
    case UseBuiltinFor(e) => UseAcquireBound(e)
    case EncodeFor(e, keyFrame) => EncodeAcquireBound(e, keyFrame)
    case RateUpdate(e) => RateAcquireBound(e)
    case BackendFor(e) => BackendAcquireBound(e)
  }

  /** A track is retracted when it is dropped, and its slots are reserved before it exists. */
  ghost predicate Sensible(s: Shared, call: Call) {
    match call
    case AddSlot(track, _) => track !in s.store.dead
    case Retract(track) =>
      forall t :: t in s.calls && InAdd(s.calls[t]) ==> s.calls[t].track != track
    case _ => true
  }

  datatype Action =
    | Begin(t: ThreadId, call: Call)
    | Continue(t: ThreadId)
    | PushFrame(q: SlotId, frame: EncodedFrame)

  ghost function Step(s: Shared, a: Action): Shared {
    match a
    case Begin(t, call) =>
      if t in s.calls || !Sensible(s, call) then s
      else
        var s' := Goto(s, t, Entry(s, call));
        if call.Retract? then With(s', MarkDead(s.store, call.track)) else s'
    case Continue(t) => if t in s.calls then Advance(s, t) else s
    case PushFrame(q, f) =>
      if q < |s.store.queues| && q < |s.store.pushed| then With(s, PushTo(s.store, q, f)) else s
  }

  ghost function Run(actions: seq<Action>): Shared
    decreases |actions|
  {
    if actions == [] then INIT
    else Step(Run(actions[..|actions| - 1]), actions[|actions| - 1])
  }

  lemma Extend(actions: seq<Action>, a: Action)
    ensures Run(actions + [a]) == Step(Run(actions), a)
  {
    assert (actions + [a])[..|actions|] == actions;
  }

  // ---------------------------------------------------------------------
  // Locks
  // ---------------------------------------------------------------------

  /** Exactly the calls at points that hold a registry lock are its holders. */
  ghost predicate Mutexes(s: Shared) {
    && (s.pendingLock.Some? ==> s.pendingLock.value in s.calls)
    && (s.boundLock.Some? ==> s.boundLock.value in s.calls)
    && (forall t :: t in s.calls ==> (HoldsPending(s.calls[t]) <==> s.pendingLock == Some(t)))
    && (forall t :: t in s.calls ==> (HoldsBound(s.calls[t]) <==> s.boundLock == Some(t)))
  }

  /** Exactly the calls inside a callback hold that callback's lock. */
  ghost predicate CallbackLocks(s: Shared) {
    && (forall cb :: cb in s.callbackLocks ==>
         && s.callbackLocks[cb] in s.calls
         && s.calls[s.callbackLocks[cb]].InCallback?
         && s.calls[s.callbackLocks[cb]].cb == cb)
    && (forall t :: t in s.calls && s.calls[t].InCallback? ==>
         s.calls[t].cb in s.callbackLocks && s.callbackLocks[s.calls[t].cb] == t)
  }

  ghost predicate Locks(s: Shared) {
    Mutexes(s) && CallbackLocks(s)
  }

  lemma MoveKeepsLocks(s: Shared, t: ThreadId, pc: Pc)
    requires Locks(s) && t in s.calls && !s.calls[t].InCallback? && !pc.InCallback?
    requires HoldsPending(pc) ==> s.pendingLock.None? || s.pendingLock == Some(t)
    requires HoldsBound(pc) ==> s.boundLock.None? || s.boundLock == Some(t)
    ensures Locks(Move(s, t, pc))
  {
    hide HoldsPending, HoldsBound;
  }

  lemma ReturnKeepsLocks(s: Shared, t: ThreadId)
    requires Locks(s) && t in s.calls && !s.calls[t].InCallback?
    ensures Locks(Return(s, t))
  {
    hide HoldsPending, HoldsBound;
  }

  /** A step outside callbacks: data may change, then the call moves on or returns. */
  ghost predicate Proper(s: Shared, t: ThreadId, s': Shared) {
    || s' == s
    || (t !in s'.calls && s' == Return(With(s, s'.store), t))
    || (&& t in s'.calls
        && s' == Move(With(s, s'.store), t, s'.calls[t])
        && !s'.calls[t].InCallback?
        && (HoldsPending(s'.calls[t]) ==> s.pendingLock.None? || s.pendingLock == Some(t))
        && (HoldsBound(s'.calls[t]) ==> s.boundLock.None? || s.boundLock == Some(t)))
  }

  lemma ProperKeepsLocks(s: Shared, t: ThreadId, s': Shared)
    requires Locks(s) && t in s.calls && !s.calls[t].InCallback? && Proper(s, t, s')
    ensures Locks(s')
  {
    var stored := With(s, s'.store);
    assert Locks(stored);
    hide Locks;
    if s' != s {
      if t in s'.calls {
        MoveKeepsLocks(stored, t, s'.calls[t]);
      } else {
        ReturnKeepsLocks(stored, t);
      }
    }
  }

  lemma ShortCallsAreProper(s: Shared, t: ThreadId)
    requires Locks(s) && t in s.calls && Enabled(s, t)
    ensures Proper(s, t, AdvanceAdd(s, t))
    ensures Proper(s, t, AdvanceHas(s, t))
  {
    hide Reserve;
  }

  lemma RetractIsProper(s: Shared, t: ThreadId)
    requires Locks(s) && t in s.calls && Enabled(s, t)
    ensures Proper(s, t, AdvanceRetract(s, t))
  {
    hide Retain, DegradeTrack;
  }

  lemma UseIsProper(s: Shared, t: ThreadId)
    requires Locks(s) && t in s.calls && Enabled(s, t)
    ensures Proper(s, t, AdvanceUse(s, t))
  {
    hide TakeFirst, Insert;
  }

  lemma EncodeWithIsProper(s: Shared, t: ThreadId, e: EncoderId, keyFrame: bool, store: Store)
    requires t in s.calls && e in store.bound
    ensures Proper(s, t, EncodeWith(With(s, store), t, e, keyFrame))
  {
  }

  lemma EncodeIsProper(s: Shared, t: ThreadId)
    requires Locks(s) && t in s.calls && Enabled(s, t)
    ensures Proper(s, t, AdvanceEncode(s, t))
  {
    match s.calls[t]
    case EncodeLookup(e, keyFrame) =>
      assert With(s, s.store) == s;
      if e in s.store.bound {
        EncodeWithIsProper(s, t, e, keyFrame, s.store);
      }
    case EncodeInsert(e, keyFrame) =>
      EncodeWithIsProper(s, t, e, keyFrame, Bound(s.store, e));
    case _ =>
      hide TakeFirst, Dequeue, EncodeWith;
  }

  lemma OtherIsProper(s: Shared, t: ThreadId)
    requires Locks(s) && t in s.calls && Enabled(s, t)
    requires !s.calls[t].CallbackAcquire? && !s.calls[t].InCallback?
    ensures Proper(s, t, AdvanceOther(s, t))
  {
  }

  /** A call that holds no registry lock moves to a point that holds none, or returns. */
  lemma MutexesStay(s: Shared, t: ThreadId, s': Shared)
    requires Mutexes(s) && t in s.calls && !HoldsPending(s.calls[t]) && !HoldsBound(s.calls[t])
    requires s'.pendingLock == s.pendingLock && s'.boundLock == s.boundLock
    requires s'.calls == s.calls - {t}
      || (t in s'.calls && s'.calls == s.calls[t := s'.calls[t]]
          && !HoldsPending(s'.calls[t]) && !HoldsBound(s'.calls[t]))
    ensures Mutexes(s')
  {
    hide HoldsPending, HoldsBound;
  }

  lemma EnterCallbackKeepsLocks(s: Shared, t: ThreadId)
    requires Locks(s) && t in s.calls && Enabled(s, t) && s.calls[t].CallbackAcquire?
    ensures Locks(AdvanceOther(s, t))
  {
    var s' := AdvanceOther(s, t);
    assert !HoldsPending(s.calls[t]) && !HoldsBound(s.calls[t]);
    assert !HoldsPending(s'.calls[t]) && !HoldsBound(s'.calls[t]);
    hide Mutexes, CallbackLocks, HoldsPending, HoldsBound, WantsPending, WantsBound;
    MutexesStay(s, t, s');
    CallbackLocksEntered(s, t, s');
  }

  lemma CallbackLocksEntered(s: Shared, t: ThreadId, s': Shared)
    requires CallbackLocks(s) && t in s.calls && !s.calls[t].InCallback?
    requires t in s'.calls && s'.calls == s.calls[t := s'.calls[t]] && s'.calls[t].InCallback?
    requires var cb := s'.calls[t].cb; cb !in s.callbackLocks && s'.callbackLocks == s.callbackLocks[cb := t]
    ensures CallbackLocks(s')
  {
  }

  lemma LeaveCallbackKeepsLocks(s: Shared, t: ThreadId)
    requires Locks(s) && t in s.calls && s.calls[t].InCallback?
    ensures Locks(AdvanceOther(s, t))
  {
    var s' := AdvanceOther(s, t);
    assert t in s'.calls ==> s'.calls == s.calls[t := s'.calls[t]];
    MutexesStay(s, t, s');
    hide Mutexes, HoldsPending, HoldsBound;
    CallbackLocksLeft(s, t, s');
  }

  lemma CallbackLocksLeft(s: Shared, t: ThreadId, s': Shared)
    requires CallbackLocks(s) && t in s.calls && s.calls[t].InCallback?
    requires s'.callbackLocks == s.callbackLocks - {s.calls[t].cb}
    requires s'.calls == s.calls - {t}
      || (t in s'.calls && s'.calls == s.calls[t := s'.calls[t]] && !s'.calls[t].InCallback?)
    ensures CallbackLocks(s')
  {
    assert s.callbackLocks[s.calls[t].cb] == t;
  }

  lemma AdvanceKeepsLocks(s: Shared, t: ThreadId)
    requires Locks(s) && t in s.calls
    ensures Locks(Advance(s, t))
  {
    if Enabled(s, t) {
      if s.calls[t].CallbackAcquire? {
        EnterCallbackKeepsLocks(s, t);
      } else if s.calls[t].InCallback? {
        LeaveCallbackKeepsLocks(s, t);
      } else {
        ShortCallsAreProper(s, t);
        RetractIsProper(s, t);
        UseIsProper(s, t);
        EncodeIsProper(s, t);
        OtherIsProper(s, t);
        hide AdvanceAdd, AdvanceHas, AdvanceRetract, AdvanceUse, AdvanceEncode, AdvanceOther, Proper;
        ProperKeepsLocks(s, t, Advance(s, t));
      }
    }
  }

  // ---------------------------------------------------------------------
  // What each call knows at each point
  // ---------------------------------------------------------------------

  ghost predicate PcOk(s: Store, pc: Pc) {
    match pc
    case AddAcquire(track, _) => track !in s.dead
    case AddPush(track, _) => track !in s.dead
    case HasAcquirePending(since) => since <= |s.reserved|
    case HasScanPending(since) => since <= |s.reserved|
    case HasAcquireBound(since) => since <= |s.reserved| && PastPending(s, since)
    case HasScanBound(since) => since <= |s.reserved| && PastPending(s, since)
    case HasDone(since, result) => since <= |s.reserved| && (!result ==> NoneLive(s, since))
    case RetractAcquirePending(track) => track in s.dead
    case RetractRetain(track) => track in s.dead
    case RetractAcquirePendingAgain(track) => track in s.dead && NoPending(s, track)
    case RetractScanPending(track) => track in s.dead && NoPending(s, track)
    case RetractAcquireBound(track) => track in s.dead && NoPending(s, track)
    case RetractScanBound(track) => track in s.dead && NoPending(s, track)
    case RetractAcquireBoundAgain(track) => track in s.dead && NoPending(s, track)
    case RetractDegrade(track) => track in s.dead && NoPending(s, track)
    case UseAcquirePending(e) => e !in s.bound && s.inFlight.None?
    case UsePop(e) => e !in s.bound && s.inFlight.None?
    case UseInsert(e) => e !in s.bound && s.inFlight.Some?
    case EncodeAcquirePending(e, _) => e !in s.bound && s.inFlight.None?
    case EncodePop(e, _) => e !in s.bound && s.inFlight.None?
    case EncodeInsert(e, _) => e !in s.bound
    case EncodeDequeue(rest) => BoundTo(s, rest.e, rest.q)
    case CallbackAcquire(_, andThen) => andThen.Some? ==> BoundTo(s, andThen.value.e, andThen.value.q)
    case InCallback(_, andThen) => andThen.Some? ==> BoundTo(s, andThen.value.e, andThen.value.q)
    case _ => true
  }

  predicate Inserting(pc: Pc) {
    pc.UseInsert? || pc.EncodeInsert?
  }

  /** A popped reservation is in the hands of the call that holds `assigned`. */
  ghost predicate InFlightHeld(s: Shared) {
    s.store.inFlight.Some? ==>
      && s.boundLock.Some?
      && s.boundLock.value in s.calls
      && Inserting(s.calls[s.boundLock.value])
  }

  ghost predicate PcsOk(s: Shared) {
    forall t :: t in s.calls ==> PcOk(s.store, s.calls[t])
  }

  ghost predicate Inv(s: Shared) {
    StoreInv(s.store) && Locks(s) && InFlightHeld(s) && PcsOk(s)
  }

  /** What another call's step leaves true. */
  lemma PcOkStays(s: Store, s': Store, pc: Pc)
    requires PcOk(s, pc) && Grows(s, s')
    requires HoldsBound(pc) ==> s'.bound == s.bound && s'.inFlight == s.inFlight
    ensures PcOk(s', pc)
  {
    hide Live;
  }

  /** The data after a step of `t`, and what `t` knows then. */
  ghost predicate GoodStep(s: Shared, t: ThreadId, s': Shared)
    requires t in s.calls
  {
    && StoreInv(s'.store)
    && Grows(s.store, s'.store)
    && (t in s'.calls ==> PcOk(s'.store, s'.calls[t]))
    && (!HoldsBound(s.calls[t]) ==> s'.store.bound == s.store.bound && s'.store.inFlight == s.store.inFlight)
    && (HoldsBound(s.calls[t]) && s'.store.inFlight.Some? ==> t in s'.calls && Inserting(s'.calls[t]))
  }

  lemma GrowsReflexive(s: Store)
    ensures Grows(s, s)
  {
  }

  /** What the invariant gives a call: in particular, whoever holds `assigned`
   away from an insertion sees nothing in flight. */
  lemma Known(s: Shared, t: ThreadId)
    requires Inv(s) && t in s.calls
    ensures StoreInv(s.store) && Placed(s.store) && Grows(s.store, s.store) && PcOk(s.store, s.calls[t])
    ensures HoldsBound(s.calls[t]) && !Inserting(s.calls[t]) ==> s.store.inFlight.None?
  {
    GrowsReflexive(s.store);
    assert Placed(s.store);
    hide StoreInv, Grows, PcOk;
  }

  lemma AddIsGood(s: Shared, t: ThreadId)
    requires Inv(s) && t in s.calls && InAdd(s.calls[t])
    ensures GoodStep(s, t, AdvanceAdd(s, t))
  {
    var pc := s.calls[t];
    hide Inv, StoreInv, Grows, Move, Return, NoneLive, PastPending, NoPending, BoundTo;
    Known(s, t);
    if pc.AddPush? {
      ReserveKeeps(s.store, pc.track, pc.slot);
    }
  }

  lemma ScanPending(s: Store, since: nat)
    requires !PendingCustom(s.pending)
    ensures PastPending(s, since)
  {
  }

  lemma ScanBound(s: Store, since: nat)
    requires PastPending(s, since) && Placed(s) && !BoundCustom(s.bound) && s.inFlight.None?
    ensures NoneLive(s, since)
  {
    hide Ascending;
  }

  lemma HasIsGood(s: Shared, t: ThreadId)
    requires Inv(s) && t in s.calls && InHas(s.calls[t])
    ensures GoodStep(s, t, AdvanceHas(s, t))
  {
    var pc := s.calls[t];
    hide Inv, StoreInv, Grows, Move, Return, Placed, PendingCustom, BoundCustom, PastPending, NoneLive, NoPending, BoundTo;
    Known(s, t);
    if pc.HasScanPending? && !PendingCustom(s.store.pending) {
      ScanPending(s.store, pc.since);
    }
    if pc.HasScanBound? && !BoundCustom(s.store.bound) {
      ScanBound(s.store, pc.since);
    }
  }

  lemma RetractKnows(s: Store, track: TrackId)
    ensures PcOk(s, RetractAcquirePending(track)) == PcOk(s, RetractRetain(track)) == (track in s.dead)
    ensures (track in s.dead && NoPending(s, track))
      == PcOk(s, RetractAcquirePendingAgain(track)) == PcOk(s, RetractScanPending(track))
      == PcOk(s, RetractAcquireBound(track)) == PcOk(s, RetractScanBound(track))
      == PcOk(s, RetractAcquireBoundAgain(track)) == PcOk(s, RetractDegrade(track))
  {
    hide NoPending;
  }

  lemma RetractScans(s: Shared, t: ThreadId)
    requires t in s.calls && PcOk(s.store, s.calls[t]) && RetractLooksOn(s.calls[t])
    ensures var s' := AdvanceRetract(s, t); s'.store == s.store && (t in s'.calls ==> PcOk(s.store, s'.calls[t]))
  {
    hide Move, Return, PendingCustom, NoPending, PcOk;
    RetractKnows(s.store, s.calls[t].track);
  }

  lemma RetractIsGood(s: Shared, t: ThreadId)
    requires Inv(s) && t in s.calls && InRetract(s.calls[t])
    ensures GoodStep(s, t, AdvanceRetract(s, t))
  {
    var pc := s.calls[t];
    assert HoldsBound(RetractDegrade(pc.track)) && !HoldsBound(RetractRetain(pc.track));
    hide Inv, StoreInv, Grows, Move, Return, NoPending, Without, Degraded, PcOk, HoldsBound;
    Known(s, t);
    if pc.RetractRetain? {
      RetractKnows(s.store, pc.track);
      RetainKeeps(s.store, pc.track);
      RetractKnows(Retain(s.store, pc.track), pc.track);
    } else if pc.RetractDegrade? {
      RetractKnows(s.store, pc.track);
      DegradeKeeps(s.store, pc.track);
    } else {
      hide AdvanceRetract;
      RetractScans(s, t);
    }
  }

  lemma UseKnows(s: Store, e: EncoderId)
    ensures PcOk(s, UseLookup(e)) && PcOk(s, UseScanBound) && PcOk(s, UseAcquirePendingAgain)
    ensures PcOk(s, UseScanPending) && PcOk(s, UseRelease)
    ensures PcOk(s, UseAcquirePending(e)) == PcOk(s, UsePop(e)) == (e !in s.bound && s.inFlight.None?)
    ensures PcOk(s, UseInsert(e)) == (e !in s.bound && s.inFlight.Some?)
    ensures HoldsBound(UseLookup(e)) && HoldsBound(UsePop(e)) && HoldsBound(UseInsert(e))
  {
  }

  lemma UsePopIsGood(s: Shared, t: ThreadId)
    requires Inv(s) && t in s.calls && s.calls[t].UsePop?
    ensures GoodStep(s, t, AdvanceUse(s, t))
  {
    hide Inv, StoreInv, Grows, Move, Return, PcOk, HoldsBound;
    Known(s, t);
    UseKnows(s.store, s.calls[t].e);
    if s.store.pending != [] {
      TakeFirstKeeps(s.store);
      UseKnows(TakeFirst(s.store), s.calls[t].e);
    }
  }

  lemma UseInsertIsGood(s: Shared, t: ThreadId)
    requires Inv(s) && t in s.calls && s.calls[t].UseInsert?
    ensures GoodStep(s, t, AdvanceUse(s, t))
  {
    hide Inv, StoreInv, Grows, Move, Return, PcOk, HoldsBound;
    Known(s, t);
    UseKnows(s.store, s.calls[t].e);
    InsertKeeps(s.store, s.calls[t].e);
  }

  lemma UseScans(s: Shared, t: ThreadId)
    requires t in s.calls && PcOk(s.store, s.calls[t]) && UseLooksOn(s.calls[t])
    requires s.calls[t].UseLookup? ==> s.store.inFlight.None?
    ensures var s' := AdvanceUse(s, t); s'.store == s.store && (t in s'.calls ==> PcOk(s.store, s'.calls[t]))
  {
    var pc := s.calls[t];
    hide Move, Return, BoundCustom, PcOk, HoldsBound;
    var e := if pc.UseAcquireBound? || pc.UseLookup? || pc.UseAcquirePending? then pc.e else 0;
    UseKnows(s.store, e);
  }

  lemma UseIsGood(s: Shared, t: ThreadId)
    requires Inv(s) && t in s.calls && UseLooksOn(s.calls[t])
    ensures GoodStep(s, t, AdvanceUse(s, t))
  {
    assert s.calls[t].UseLookup? ==> HoldsBound(s.calls[t]);
    hide Inv, StoreInv, Grows, PcOk, HoldsBound, AdvanceUse;
    Known(s, t);
    UseScans(s, t);
  }

  lemma EncodeWithKnows(s: Shared, t: ThreadId, e: EncoderId, keyFrame: bool)
    requires e in s.store.bound
    ensures var s' := EncodeWith(s, t, e, keyFrame);
      s'.store == s.store && (t in s'.calls ==> PcOk(s'.store, s'.calls[t]))
  {
  }

  lemma BoundIsQueued(s: Store, rest: Rest)
    requires StoreInv(s) && BoundTo(s, rest.e, rest.q)
    ensures rest.q < |s.queues| == |s.popped|
  {
  }

  lemma EncodeKnows(s: Store, e: EncoderId, keyFrame: bool)
    ensures PcOk(s, EncodeLookup(e, keyFrame))
    ensures PcOk(s, EncodeAcquirePending(e, keyFrame)) == PcOk(s, EncodePop(e, keyFrame))
         == (e !in s.bound && s.inFlight.None?)
    ensures PcOk(s, EncodeInsert(e, keyFrame)) == (e !in s.bound)
    ensures HoldsBound(EncodeLookup(e, keyFrame)) && HoldsBound(EncodePop(e, keyFrame))
    ensures HoldsBound(EncodeInsert(e, keyFrame))
  {
  }

  lemma DequeueIsGood(s: Shared, t: ThreadId)
    requires Inv(s) && t in s.calls && s.calls[t].EncodeDequeue?
    ensures GoodStep(s, t, AdvanceEncode(s, t))
  {
    var rest := s.calls[t].rest;
    assert !HoldsBound(EncodeDequeue(rest)) && (PcOk(s.store, EncodeDequeue(rest)) ==> BoundTo(s.store, rest.e, rest.q));
    hide Inv, StoreInv, Grows, Return, PcOk, HoldsBound, BoundTo;
    Known(s, t);
    BoundIsQueued(s.store, rest);
    DequeueKeeps(s.store, rest.e, rest.q);
  }

  lemma EncodeIsGood(s: Shared, t: ThreadId)
    requires Inv(s) && t in s.calls && EncodeLooksOn(s.calls[t])
    ensures GoodStep(s, t, AdvanceEncode(s, t))
  {
    var pc := s.calls[t];
    hide Inv, StoreInv, Grows, Move, Return, EncodeWith, PcOk, HoldsBound;
    Known(s, t);
    EncodeKnows(s.store, pc.e, pc.keyFrame);
    if pc.EncodeLookup? && pc.e in s.store.bound {
      EncodeWithKnows(s, t, pc.e, pc.keyFrame);
    }
  }

  lemma EncodePopIsGood(s: Shared, t: ThreadId)
    requires Inv(s) && t in s.calls && s.calls[t].EncodePop?
    ensures GoodStep(s, t, AdvanceEncode(s, t))
  {
    var pc := s.calls[t];
    hide Inv, StoreInv, Grows, Move, Return, EncodeWith, PcOk, HoldsBound;
    Known(s, t);
    EncodeKnows(s.store, pc.e, pc.keyFrame);
    if s.store.pending != [] {
      TakeFirstKeeps(s.store);
      EncodeKnows(TakeFirst(s.store), pc.e, pc.keyFrame);
    }
  }

  lemma BoundKeeps(s: Store, e: EncoderId)
    requires StoreInv(s) && e !in s.bound
    ensures StoreInv(Bound(s, e)) && Grows(s, Bound(s, e)) && Bound(s, e).inFlight.None? && e in Bound(s, e).bound
  {
    hide StoreInv, Grows;
    if s.inFlight.Some? {
      InsertKeeps(s, e);
    } else {
      InsertPlaceholderKeeps(s, e);
    }
  }

  lemma EncodeInsertIsGood(s: Shared, t: ThreadId)
    requires Inv(s) && t in s.calls && s.calls[t].EncodeInsert?
    ensures GoodStep(s, t, AdvanceEncode(s, t))
  {
    var pc := s.calls[t];
    assert AdvanceEncode(s, t) == EncodeWith(With(s, Bound(s.store, pc.e)), t, pc.e, pc.keyFrame);
    hide Inv, StoreInv, Grows, Move, Return, EncodeWith, PcOk, HoldsBound, Bound, AdvanceEncode;
    Known(s, t);
    EncodeKnows(s.store, pc.e, pc.keyFrame);
    BoundKeeps(s.store, pc.e);
    EncodeWithKnows(With(s, Bound(s.store, pc.e)), t, pc.e, pc.keyFrame);
  }

  lemma CallbackIsGood(s: Shared, t: ThreadId)
    requires Inv(s) && t in s.calls && AtCallback(s.calls[t])
    ensures GoodStep(s, t, AdvanceOther(s, t))
  {
    var pc := s.calls[t];
    hide Inv, StoreInv, Grows, PcOk, HoldsBound;
    Known(s, t);
    RestStaysKnown(s.store, pc.cb, pc.andThen);
    var s' := AdvanceOther(s, t);
    assert s'.store == s.store && (t in s'.calls ==> PcOk(s.store, s'.calls[t]));
    hide AdvanceOther;
  }

  lemma RestStaysKnown(s: Store, cb: Callback, rest: Option<Rest>)
    ensures PcOk(s, CallbackAcquire(cb, rest)) <==> PcOk(s, InCallback(cb, rest))
    ensures rest.Some? ==> (PcOk(s, InCallback(cb, rest)) <==> PcOk(s, EncodeDequeue(rest.value)))
    ensures !HoldsBound(CallbackAcquire(cb, rest)) && !HoldsBound(InCallback(cb, rest))
  {
  }

  lemma OtherKnows(s: Store, e: EncoderId, cb: Callback)
    ensures PcOk(s, RateLookup(e)) && PcOk(s, BackendRead(e)) && PcOk(s, CallbackAcquire(cb, None))
  {
  }

  lemma OtherLooksUp(s: Shared, t: ThreadId)
    requires t in s.calls && InLookup(s.calls[t])
    ensures var s' := AdvanceOther(s, t); s'.store == s.store && (t in s'.calls ==> PcOk(s.store, s'.calls[t]))
  {
    var e := s.calls[t].e;
    hide Move, Return, PcOk;
    OtherKnows(s.store, e,
      Feedback(if e in s.store.bound && s.store.bound[e].id.Some? then s.store.bound[e].id.value else 0));
  }

  lemma OtherIsGood(s: Shared, t: ThreadId)
    requires Inv(s) && t in s.calls && InLookup(s.calls[t])
    ensures GoodStep(s, t, AdvanceOther(s, t))
  {
    hide Inv, StoreInv, Grows, PcOk, HoldsBound, AdvanceOther;
    Known(s, t);
    OtherLooksUp(s, t);
  }

  lemma AdvanceIsGood(s: Shared, t: ThreadId)
    requires Inv(s) && t in s.calls && Enabled(s, t)
    ensures GoodStep(s, t, Advance(s, t))
  {
    hide Inv, GoodStep, AdvanceAdd, AdvanceHas, AdvanceRetract, AdvanceUse, AdvanceEncode, AdvanceOther;
    var pc := s.calls[t];
    if InAdd(pc) {
      AddIsGood(s, t);
    } else if InHas(pc) {
      HasIsGood(s, t);
    } else if InRetract(pc) {
      RetractIsGood(s, t);
    } else if EncodeLooksOn(pc) {
      EncodeIsGood(s, t);
    } else if pc.EncodePop? {
      EncodePopIsGood(s, t);
    } else if pc.EncodeInsert? {
      EncodeInsertIsGood(s, t);
    } else if pc.EncodeDequeue? {
      DequeueIsGood(s, t);
    } else if pc.UsePop? {
      UsePopIsGood(s, t);
    } else if pc.UseInsert? {
      UseInsertIsGood(s, t);
    } else if InLookup(pc) {
      OtherIsGood(s, t);
    } else if AtCallback(pc) {
      CallbackIsGood(s, t);
    } else {
      UseIsGood(s, t);
    }
  }

  /** The other calls are where they were. */
  ghost predicate OthersStay(s: Shared, t: ThreadId, s': Shared) {
    forall u :: u != t ==> (u in s.calls <==> u in s'.calls) && (u in s.calls ==> s'.calls[u] == s.calls[u])
  }

  lemma ProperMovesOne(s: Shared, t: ThreadId, s': Shared)
    requires Proper(s, t, s')
    ensures OthersStay(s, t, s')
  {
  }

  lemma CallbackMovesOne(s: Shared, t: ThreadId)
    requires t in s.calls && AtCallback(s.calls[t])
    ensures OthersStay(s, t, AdvanceOther(s, t))
  {
  }

  lemma AdvanceMovesOne(s: Shared, t: ThreadId)
    requires Locks(s) && t in s.calls
    ensures OthersStay(s, t, Advance(s, t))
  {
    assert OthersStay(s, t, s);
    hide AdvanceAdd, AdvanceHas, AdvanceRetract, AdvanceUse, AdvanceEncode, AdvanceOther, Proper, Locks, OthersStay;
    if Enabled(s, t) {
      if AtCallback(s.calls[t]) {
        CallbackMovesOne(s, t);
      } else {
        ShortCallsAreProper(s, t);
        RetractIsProper(s, t);
        UseIsProper(s, t);
        EncodeIsProper(s, t);
        OtherIsProper(s, t);
        ProperMovesOne(s, t, Advance(s, t));
      }
    }
  }

  /** The lock on `assigned` is what keeps the popped reservation in one pair of hands. */
  lemma InFlightStaysHeld(s: Shared, t: ThreadId, s': Shared)
    requires Locks(s) && InFlightHeld(s) && t in s.calls && Locks(s') && OthersStay(s, t, s') && GoodStep(s, t, s')
    ensures InFlightHeld(s')
  {
    hide StoreInv, Grows, PcOk;
    if s'.store.inFlight.Some? && !HoldsBound(s.calls[t]) {
      var holder := s.boundLock.value;
      assert holder != t && HoldsBound(s'.calls[holder]);
    }
  }

  lemma OthersStayOk(s: Shared, t: ThreadId, s': Shared)
    requires Locks(s) && PcsOk(s) && t in s.calls && OthersStay(s, t, s') && GoodStep(s, t, s')
    ensures PcsOk(s')
  {
    hide StoreInv, Grows, PcOk;
    forall u | u in s'.calls ensures PcOk(s'.store, s'.calls[u]) {
      if u != t {
        assert PcOk(s.store, s.calls[u]);
        assert HoldsBound(s.calls[u]) ==> !HoldsBound(s.calls[t]);
        PcOkStays(s.store, s'.store, s.calls[u]);
      }
    }
  }

  lemma AdvanceKeepsInv(s: Shared, t: ThreadId)
    requires Inv(s) && t in s.calls
    ensures Inv(Advance(s, t)) && Grows(s.store, Advance(s, t).store)
  {
    GrowsReflexive(s.store);
    if Enabled(s, t) {
      hide StoreInv, Grows, PcOk, Locks, PcsOk, InFlightHeld, OthersStay, Advance;
      var s' := Advance(s, t);
      AdvanceKeepsLocks(s, t);
      AdvanceMovesOne(s, t);
      AdvanceIsGood(s, t);
      InFlightStaysHeld(s, t, s');
      OthersStayOk(s, t, s');
    }
  }

  lemma JoinKeepsLocks(s: Shared, t: ThreadId, s': Shared)
    requires Locks(s) && t !in s.calls && t in s'.calls && s'.calls == s.calls[t := s'.calls[t]]
    requires s'.pendingLock == s.pendingLock && s'.boundLock == s.boundLock && s'.callbackLocks == s.callbackLocks
    requires !HoldsPending(s'.calls[t]) && !HoldsBound(s'.calls[t]) && !s'.calls[t].InCallback?
    ensures Locks(s')
  {
    hide HoldsPending, HoldsBound;
  }

  lemma BeginKeepsLocks(s: Shared, t: ThreadId, call: Call)
    requires Locks(s) && t !in s.calls
    ensures Locks(Step(s, Begin(t, call)))
  {
    var s' := Step(s, Begin(t, call));
    var pc := Entry(s, call);
    assert !HoldsPending(pc) && !HoldsBound(pc) && !pc.InCallback?;
    hide Locks, HoldsPending, HoldsBound, Entry;
    if s' != s {
      JoinKeepsLocks(s, t, s');
    }
  }

  lemma DeathLeavesOk(s: Store, track: TrackId, pc: Pc)
    requires PcOk(s, pc) && (InAdd(pc) ==> pc.track != track)
    requires forall q: SlotId :: Live(MarkDead(s, track), q) == Live(s, q)
    ensures PcOk(MarkDead(s, track), pc)
  {
    hide Live;
  }

  lemma BeginKeepsOk(s: Shared, t: ThreadId, call: Call)
    requires StoreInv(s.store) && PcsOk(s) && t !in s.calls && Sensible(s, call)
    ensures StoreInv(Step(s, Begin(t, call)).store) && PcsOk(Step(s, Begin(t, call)))
  {
    var s' := Step(s, Begin(t, call));
    assert call.Retract? || s'.store == s.store;
    if call.Retract? {
      MarkDeadKeeps(s.store, call.track);
    }
    hide StoreInv, Live;
    assert PcOk(s'.store, s'.calls[t]);
    hide PcOk;
    forall u | u in s'.calls ensures PcOk(s'.store, s'.calls[u]) {
      if u != t {
        assert PcOk(s.store, s.calls[u]);
        if call.Retract? {
          DeathLeavesOk(s.store, call.track, s.calls[u]);
        }
      }
    }
  }

  lemma BeginKeepsInv(s: Shared, t: ThreadId, call: Call)
    requires Inv(s)
    ensures Inv(Step(s, Begin(t, call)))
  {
    if t !in s.calls && Sensible(s, call) {
      BeginKeepsLocks(s, t, call);
      BeginKeepsOk(s, t, call);
      hide StoreInv, Locks, PcsOk;
    }
  }

  lemma PushKeepsInv(s: Shared, q: SlotId, f: EncodedFrame)
    requires Inv(s)
    ensures Inv(Step(s, PushFrame(q, f)))
  {
    hide StoreInv, Grows, PcOk;
    if q < |s.store.queues| && q < |s.store.pushed| {
      PushToKeeps(s.store, q, f);
      var store := PushTo(s.store, q, f);
      assert Locks(With(s, store)) && InFlightHeld(With(s, store));
      hide Locks, InFlightHeld;
      forall u | u in s.calls ensures PcOk(store, s.calls[u]) {
        PcOkStays(s.store, store, s.calls[u]);
      }
    }
  }

  lemma StepKeepsInv(s: Shared, a: Action)
    requires Inv(s)
    ensures Inv(Step(s, a))
  {
    match a
    case Begin(t, call) =>
      BeginKeepsInv(s, t, call);
    case Continue(t) =>
      if t in s.calls {
        AdvanceKeepsInv(s, t);
      }
      hide Inv, Advance;
    case PushFrame(q, f) =>
      PushKeepsInv(s, q, f);
  }

  lemma InitKeepsInv()
    ensures Inv(INIT)
  {
  }

  /** However the threads interleave, the invariant holds. */
  lemma {:induction false} EveryRunKeepsInv(actions: seq<Action>)
    ensures Inv(Run(actions))
  {
    InitKeepsInv();
    hide Inv, Step;
    if actions != [] {
      EveryRunKeepsInv(actions[..|actions| - 1]);
      StepKeepsInv(Run(actions[..|actions| - 1]), actions[|actions| - 1]);
    }
  }
}
