/**
 No interleaving of registry calls can get stuck, and user callbacks run
 outside the registry's locks (crates/reactor-webrtc/src/encoded.rs).
 */
module RegistryProgress {
  import opened Wrappers
  import opened Registry
  import opened RegistryStore
  import opened RegistryThreads

  /** Some call can move whenever one is unfinished. */
  lemma NoDeadlock(actions: seq<Action>)
    requires Run(actions).calls != map[]
    ensures exists t :: t in Run(actions).calls && Enabled(Run(actions), t)
  {
    EveryRunKeepsInv(actions);
    SomeCallMoves(Run(actions));
  }

  lemma SomeCallMoves(s: Shared)
    requires Locks(s) && s.calls != map[]
    ensures exists t :: t in s.calls && Enabled(s, t)
  {
    var t :| t in s.calls;
    if s.pendingLock.Some? {
      assert Enabled(s, s.pendingLock.value);
    } else if s.boundLock.Some? {
      assert Enabled(s, s.boundLock.value);
    } else if !Enabled(s, t) {
      assert Enabled(s, s.callbackLocks[s.calls[t].cb]);
    }
  }

  /** Steps a call takes at most from here. */
  function Remaining(pc: Pc): nat {
    match pc
    case AddAcquire(_, _) => 2
    case AddPush(_, _) => 1
    case HasAcquirePending(_) => 5
    case HasScanPending(_) => 4
    case HasAcquireBound(_) => 3
    case HasScanBound(_) => 2
    case HasDone(_, _) => 1
    case RetractAcquirePending(_) => 8
    case RetractRetain(_) => 7
    case RetractAcquirePendingAgain(_) => 6
    case RetractScanPending(_) => 5
    case RetractAcquireBound(_) => 4
    case RetractScanBound(_) => 3
    case RetractAcquireBoundAgain(_) => 2
    case RetractDegrade(_) => 1
    case UseAcquireBound(_) => 8
    case UseLookup(_) => 7
    case UseAcquirePending(_) => 6
    case UsePop(_) => 5
    case UseInsert(_) => 1
    case UseScanBound => 4
    case UseAcquirePendingAgain => 3
    case UseScanPending => 2
    case UseRelease => 1
    case EncodeAcquireBound(_, _) => 8
    case EncodeLookup(_, _) => 7
    case EncodeAcquirePending(_, _) => 6
    case EncodePop(_, _) => 5
    case EncodeInsert(_, _) => 4
    case EncodeDequeue(_) => 1
    case RateAcquireBound(_) => 5
    case RateLookup(_) => 4
    case BackendAcquireBound(_) => 2
    case BackendRead(_) => 1
    case CallbackAcquire(_, _) => 3
    case InCallback(_, _) => 2
  }

  ghost predicate Nearer(s: Shared, t: ThreadId, s': Shared)
    requires t in s.calls
  {
    t in s'.calls ==> Remaining(s'.calls[t]) < Remaining(s.calls[t])
  }

  lemma ShortCallsProgress(s: Shared, t: ThreadId)
    requires t in s.calls
    ensures InAdd(s.calls[t]) ==> Nearer(s, t, AdvanceAdd(s, t))
    ensures InHas(s.calls[t]) ==> Nearer(s, t, AdvanceHas(s, t))
  {
    hide Move, Return, PendingCustom, BoundCustom;
  }

  lemma RetractProgresses(s: Shared, t: ThreadId)
    requires t in s.calls && InRetract(s.calls[t])
    ensures Nearer(s, t, AdvanceRetract(s, t))
  {
    hide Move, Return, PendingCustom, Retain, DegradeTrack;
  }

  lemma UseProgresses(s: Shared, t: ThreadId)
    requires t in s.calls && PcOk(s.store, s.calls[t])
    requires InUse(s.calls[t])
    ensures Nearer(s, t, AdvanceUse(s, t))
  {
    assert s.calls[t].UseInsert? ==> s.store.inFlight.Some?;
    hide Move, Return, PcOk, BoundCustom, TakeFirst, Insert;
  }

  lemma EncodeWithProgresses(s: Shared, t: ThreadId, e: EncoderId, keyFrame: bool)
    requires e in s.store.bound
    ensures var s' := EncodeWith(s, t, e, keyFrame); t in s'.calls ==> Remaining(s'.calls[t]) <= 3
  {
    hide Move, Return;
  }

  lemma SlotCallProgresses(s: Shared, t: ThreadId)
    requires t in s.calls && (s.calls[t].EncodeLookup? || s.calls[t].EncodeInsert?)
    ensures Nearer(s, t, AdvanceEncode(s, t))
  {
    var e, keyFrame := s.calls[t].e, s.calls[t].keyFrame;
    var store := if s.calls[t].EncodeLookup? then s.store else Bound(s.store, e);
    assert With(s, s.store) == s;
    assert s.calls[t].EncodeInsert? ==> e in store.bound;
    hide Move, Return, EncodeWith, With, Bound;
    if e in store.bound {
      EncodeWithProgresses(With(s, store), t, e, keyFrame);
    }
  }

  lemma DequeueProgresses(s: Shared, t: ThreadId)
    requires Inv(s) && t in s.calls && s.calls[t].EncodeDequeue?
    ensures Nearer(s, t, AdvanceEncode(s, t))
  {
    Known(s, t);
    BoundIsQueued(s.store, s.calls[t].rest);
    hide Inv, StoreInv, Grows, PcOk, Return, Dequeue;
  }

  lemma EncodeProgresses(s: Shared, t: ThreadId)
    requires Inv(s) && t in s.calls
    requires InEncode(s.calls[t])
    ensures Nearer(s, t, AdvanceEncode(s, t))
  {
    hide Inv, Move, EncodeWith, TakeFirst;
    if s.calls[t].EncodeLookup? || s.calls[t].EncodeInsert? {
      SlotCallProgresses(s, t);
    } else if s.calls[t].EncodeDequeue? {
      DequeueProgresses(s, t);
    }
  }

  lemma OtherProgresses(s: Shared, t: ThreadId)
    requires t in s.calls
    requires InLookup(s.calls[t]) || AtCallback(s.calls[t])
    ensures Nearer(s, t, AdvanceOther(s, t))
  {
    hide Move, Return;
  }

  /** An enabled call really moves: each of its steps brings it nearer its return. */
  lemma EnabledCallsProgress(s: Shared, t: ThreadId)
    requires Inv(s) && t in s.calls && Enabled(s, t)
    ensures Nearer(s, t, Advance(s, t))
  {
    Known(s, t);
    ShortCallsProgress(s, t);
    hide Inv, StoreInv, Grows, PcOk, Nearer, AdvanceAdd, AdvanceHas, AdvanceRetract, AdvanceUse, AdvanceEncode, AdvanceOther;
    var pc := s.calls[t];
    if InAdd(pc) || InHas(pc) {
    } else if InRetract(pc) {
      RetractProgresses(s, t);
    } else if InEncode(pc) {
      EncodeProgresses(s, t);
    } else if InLookup(pc) || AtCallback(pc) {
      OtherProgresses(s, t);
    } else {
      UseProgresses(s, t);
    }
  }

  ghost function Work(calls: map<ThreadId, Pc>): nat {
    if calls == map[] then 0
    else var t :| t in calls; Remaining(calls[t]) + Work(calls - {t})
  }

  lemma {:induction false} WorkSplits(calls: map<ThreadId, Pc>, t: ThreadId)
    requires t in calls
    ensures Work(calls) == Remaining(calls[t]) + Work(calls - {t})
    decreases |calls|
  {
    hide Remaining;
    var u :| u in calls && Work(calls) == Remaining(calls[u]) + Work(calls - {u});
    if u != t {
      WorkSplits(calls - {u}, t);
      WorkSplits(calls - {t}, u);
      assert calls - {u} - {t} == calls - {t} - {u};
    }
  }

  lemma StepsUseUpWork(s: Shared, t: ThreadId)
    requires Inv(s) && t in s.calls && Enabled(s, t)
    ensures Work(Advance(s, t).calls) < Work(s.calls)
  {
    var s' := Advance(s, t);
    EnabledCallsProgress(s, t);
    AdvanceMovesOne(s, t);
    hide Inv, Advance, Remaining, Work;
    WorkSplits(s.calls, t);
    assert s'.calls - {t} == s.calls - {t};
    if t in s'.calls {
      WorkSplits(s'.calls, t);
    } else {
      assert s'.calls == s.calls - {t};
    }
  }

  lemma SomeStepUsesUpWork(actions: seq<Action>) returns (t: ThreadId)
    requires Run(actions).calls != map[]
    ensures Work(Run(actions + [Continue(t)]).calls) < Work(Run(actions).calls)
  {
    NoDeadlock(actions);
    EveryRunKeepsInv(actions);
    hide Run, Work, Advance, Inv, Enabled;
    var s := Run(actions);
    t :| t in s.calls && Enabled(s, t);
    StepsUseUpWork(s, t);
    Extend(actions, Continue(t));
  }

  /** From every reachable state all unfinished calls can be brought to return, callers doing nothing new. */
  lemma {:induction false} EveryCallCanReturn(actions: seq<Action>) returns (more: seq<Action>)
    ensures forall i :: 0 <= i < |more| ==> more[i].Continue?
    ensures Run(actions + more).calls == map[]
    decreases Work(Run(actions).calls)
  {
    hide Run, Work;
    if Run(actions).calls == map[] {
      more := [];
      assert actions + more == actions;
    } else {
      var t := SomeStepUsesUpWork(actions);
      var rest := EveryCallCanReturn(actions + [Continue(t)]);
      more := [Continue(t)] + rest;
      assert actions + more == actions + [Continue(t)] + rest;
    }
  }

  /** A user callback runs with neither registry lock held by its thread, and one at a time. */
  lemma CallbacksHoldNoLock(actions: seq<Action>, t: ThreadId, u: ThreadId)
    requires t in Run(actions).calls && Run(actions).calls[t].InCallback?
    ensures Run(actions).pendingLock != Some(t) && Run(actions).boundLock != Some(t)
    ensures u != t && u in Run(actions).calls && Run(actions).calls[u].InCallback?
      ==> Run(actions).calls[u].cb != Run(actions).calls[t].cb
  {
    EveryRunKeepsInv(actions);
    hide StoreInv, PcOk, InFlightHeld;
    assert !HoldsPending(Run(actions).calls[t]) && !HoldsBound(Run(actions).calls[t]);
  }
}
