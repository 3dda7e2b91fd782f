/**
 What `has_custom` may answer while slots move, are added and are retracted
 around it (crates/reactor-webrtc/src/encoded.rs, `EncoderRegistry::has_custom`).
 */
module RegistryHasCustom {
  import opened Wrappers
  import opened Registry
  import opened RegistryStore
  import opened RegistryThreads
  import opened RegistryResults

  predicate AskedSince(pc: Pc, since: nat) {
    match pc
    case HasAcquirePending(n) => n == since
    case HasScanPending(n) => n == since
    case HasAcquireBound(n) => n == since
    case HasScanBound(n) => n == since
    case HasDone(n, _) => n == since
    case _ => false
  }

  lemma StaysAsking(s: Shared, t: ThreadId, since: nat, a: Action)
    requires Inv(s) && t in s.calls && AskedSince(s.calls[t], since) && t in Step(s, a).calls
    ensures AskedSince(Step(s, a).calls[t], since)
  {
    assert Locks(s);
    hide Inv, Locks, Move, Return, PendingCustom, BoundCustom;
    match a
    case Continue(u) =>
      if u in s.calls {
        if u != t {
          AdvanceMovesOne(s, u);
          hide Advance;
        }
      }
    case _ =>
  }

  lemma {:induction false} StillAsking(before: seq<Action>, t: ThreadId, during: seq<Action>)
    requires t !in Run(before).calls
    requires forall k :: 0 <= k <= |during| ==> t in Run(before + [Begin(t, HasCustom)] + during[..k]).calls
    ensures var s := Run(before + [Begin(t, HasCustom)] + during);
      t in s.calls && AskedSince(s.calls[t], |Run(before).store.reserved|)
    decreases |during|
  {
    hide Run, Inv;
    var begun := before + [Begin(t, HasCustom)];
    Extend(before, Begin(t, HasCustom));
    if during == [] {
      assert begun + during == begun;
    } else {
      hide Step;
      var shorter, last := during[..|during| - 1], during[|during| - 1];
      forall k | 0 <= k <= |shorter| ensures t in Run(begun + shorter[..k]).calls {
        assert shorter[..k] == during[..k];
      }
      StillAsking(before, t, shorter);
      assert during[..|during|] == during && begun + during == begun + shorter + [last];
      Extend(begun + shorter, last);
      EveryRunKeepsInv(begun + shorter);
      StaysAsking(Run(begun + shorter), t, |Run(before).store.reserved|, last);
    }
  }

  /**
   `has_custom` never misses a slot that was reserved when the call began and is
   still a custom slot - wherever it is - when the call returns, whatever moved
   between the two lists in the meantime.
   */
  lemma HasCustomNeverMisses(before: seq<Action>, t: ThreadId, during: seq<Action>, q: SlotId)
    requires t !in Run(before).calls && q < |Run(before).store.reserved|
    requires forall k :: 0 <= k <= |during| ==> t in Run(before + [Begin(t, HasCustom)] + during[..k]).calls
    requires var s := Run(before + [Begin(t, HasCustom)] + during);
      t in s.calls && s.calls[t].HasDone? && Live(s.store, q)
    ensures Run(before + [Begin(t, HasCustom)] + during).calls[t].result
  {
    StillAsking(before, t, during);
    EveryRunKeepsInv(before + [Begin(t, HasCustom)] + during);
    hide Run, StoreInv, Locks, InFlightHeld, Live;
  }

  lemma SawPending(s: Store)
    requires Placed(s) && PendingCustom(s.pending)
    ensures exists q: SlotId :: Live(s, q)
  {
    var i :| 0 <= i < |s.pending| && !s.pending[i].slot.Builtin?;
    assert Live(s, s.pending[i].id);
  }

  lemma SawBound(s: Store)
    requires Faithful(s) && BoundInOrder(s) && BoundCustom(s.bound)
    ensures exists q: SlotId :: Live(s, q)
  {
    var e :| e in s.bound && !s.bound[e].slot.Builtin?;
    assert Live(s, s.bound[e].id.value);
  }

  /** And it says yes only on seeing a custom slot. */
  lemma HasCustomSawOne(s: Shared, t: ThreadId)
    requires Inv(s) && t in s.calls && (s.calls[t].HasScanPending? || s.calls[t].HasScanBound?)
    requires t in Advance(s, t).calls && Advance(s, t).calls[t].HasDone? && Advance(s, t).calls[t].result
    ensures exists q: SlotId :: Live(s.store, q)
  {
    assert Placed(s.store) && Faithful(s.store) && BoundInOrder(s.store);
    hide Inv, Placed, Faithful, BoundInOrder, BoundCustom, PendingCustom, Live;
    if s.calls[t].HasScanPending? {
      SawPending(s.store);
    } else if s.calls[t].HasScanBound? {
      SawBound(s.store);
    }
  }

  // ---------------------------------------------------------------------
  // When the answer is certain
  // ---------------------------------------------------------------------

  ghost function Asked(before: seq<Action>, t: ThreadId): seq<Action> {
    before + [Begin(t, HasCustom)]
  }

  /** `during` is a call of `has_custom` by `t`, from right after `before` to its answer. */
  ghost predicate IsCall(before: seq<Action>, t: ThreadId, during: seq<Action>) {
    && t !in Run(before).calls
    && (forall k :: 0 <= k <= |during| ==> t in Run(Asked(before, t) + during[..k]).calls)
    && t in Run(Asked(before, t) + during).calls
    && Run(Asked(before, t) + during).calls[t].HasDone?
  }

  ghost predicate Answer(before: seq<Action>, t: ThreadId, during: seq<Action>)
    requires IsCall(before, t, during)
  {
    Run(Asked(before, t) + during).calls[t].result
  }

  lemma LaterThanAsked(before: seq<Action>, t: ThreadId, during: seq<Action>)
    ensures Later(Run(before).store, Run(Asked(before, t) + during).store)
  {
    hide Run, Later;
    RunsOnlyGetLater(before, [Begin(t, HasCustom)] + during);
    assert before + ([Begin(t, HasCustom)] + during) == Asked(before, t) + during;
  }

  /**
   The caller's condition: if some custom slot reserved before the call belongs
   to a track whose retraction has not begun when the call returns, the answer
   is yes.
   */
  lemma AnAttachedSlotIsSeen(before: seq<Action>, t: ThreadId, during: seq<Action>, q: SlotId)
    requires IsCall(before, t, during)
    requires q < |Run(before).store.reserved| && !Run(before).store.reserved[q].slot.Builtin?
    requires Run(before).store.reserved[q].track !in Run(Asked(before, t) + during).store.dead
    ensures Answer(before, t, during)
  {
    hide Run, Inv, Live;
    var end := Asked(before, t) + during;
    LaterThanAsked(before, t, during);
    LivingTracksKeepTheirSlots(end, q);
    CustomInPlaceIsLive(Run(end).store, q);
    assert forall k :: 0 <= k <= |during| ==> t in Run(before + [Begin(t, HasCustom)] + during[..k]).calls;
    HasCustomNeverMisses(before, t, during, q);
  }

  lemma CustomInPlaceIsLive(s: Store, q: SlotId)
    requires q < |s.reserved| && !s.reserved[q].slot.Builtin?
    requires IsPending(s, q) || IsInFlight(s, q) || (IsBound(s, q) && s.bound[s.binder[q]] == Bind(s.reserved[q]))
    ensures Live(s, q)
  {
  }
}
