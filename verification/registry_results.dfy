/**
 What the encoder-slot registry guarantees however its callers interleave
 (crates/reactor-webrtc/src/encoded.rs, `EncoderRegistry`): where slots are,
 where frames go and what a retraction removes.
 */
module RegistryResults {
  import opened Wrappers
  import opened Registry
  import opened RegistryStore
  import opened RegistryThreads

  lemma StoreOfRun(actions: seq<Action>)
    ensures StoreInv(Run(actions).store)
  {
    EveryRunKeepsInv(actions);
    hide Run, StoreInv, PcOk, Locks;
  }

  /**
   Until a track's own retraction begins, each of its reservations is in
   exactly one place - pending, in the hands of a binding call, or bound to one
   encoder id - and is the slot it was made as. No other track's retraction and
   no race touches it.
   */
  lemma LivingTracksKeepTheirSlots(actions: seq<Action>, q: SlotId)
    requires var s := Run(actions).store; q < |s.reserved| && s.reserved[q].track !in s.dead
    ensures var s := Run(actions).store;
      var pending, inFlight, bound := IsPending(s, q), IsInFlight(s, q), IsBound(s, q);
      && (pending || inFlight || bound)
      && !(pending && inFlight) && !(pending && bound) && !(inFlight && bound)
      && (bound ==> s.bound[s.binder[q]] == Bind(s.reserved[q]))
  {
    StoreOfRun(actions);
    hide Run, Routed, Erased, Ascending;
  }

  /** A reservation that is nowhere was retracted, with its own track. */
  lemma OnlyRetractionLosesASlot(actions: seq<Action>, q: SlotId)
    requires var s := Run(actions).store;
      q < |s.reserved| && !IsPending(s, q) && !IsInFlight(s, q) && !IsBound(s, q)
    ensures var s := Run(actions).store; q in s.retracted && s.reserved[q].track in s.dead
  {
    StoreOfRun(actions);
    hide Run, Routed, Erased, Ascending;
  }

  /** No reservation is bound to two encoder ids. */
  lemma OneEncoderPerSlot(actions: seq<Action>, e: EncoderId, f: EncoderId, q: SlotId)
    requires BoundTo(Run(actions).store, e, q) && BoundTo(Run(actions).store, f, q)
    ensures e == f
  {
    StoreOfRun(actions);
    hide Run, Routed, Erased, Ascending, Placed, Accounted;
  }

  /**
   Reservations bind in the order they were made: `order` lists the bound ones
   as they were bound, and an older one that is not among them was retracted.
   */
  lemma SlotsBindInOrder(actions: seq<Action>, j: nat, q: SlotId)
    requires j < |Run(actions).store.order|
    ensures var s := Run(actions).store;
      && (forall i :: 0 <= i < j ==> s.order[i] < s.order[j])
      && (q < s.order[j] ==> q in s.order || q in s.retracted)
  {
    StoreOfRun(actions);
    var s := Run(actions).store;
    hide Run, Routed, Erased, Ascending;
    assert s.order[j] in s.order;
    if q < s.order[j] {
      OlderIsNotPending(s, s.order[j], q);
    }
  }

  lemma OlderIsNotPending(s: Store, b: SlotId, q: SlotId)
    requires Placed(s) && BoundInOrder(s) && b in s.binder && q < b
    ensures q < |s.reserved| && s.reserved[q] !in s.pending && s.inFlight != Some(s.reserved[q])
  {
    hide Ascending;
    assert s.reserved[q].id == q;
    assert forall k :: 0 <= k < |s.pending| ==> b < s.pending[k].id;
  }

  /** The frames returned for an encoder id are a prefix, in order, of what its slot's track pushed. */
  lemma FramesArriveInOrder(actions: seq<Action>, e: EncoderId, q: SlotId)
    requires BoundTo(Run(actions).store, e, q)
    ensures var s := Run(actions).store;
      && q < |s.reserved| == |s.pushed| == |s.queues|
      && Returned(s, e) <= s.pushed[q]
      && s.pushed[q] == Returned(s, e) + s.queues[q]
  {
    StoreOfRun(actions);
    hide Run, Erased, Ascending, Placed, Accounted;
  }

  // ---------------------------------------------------------------------
  // Over further steps
  // ---------------------------------------------------------------------

  /** What stays true of the data from any point of a run on. */
  ghost predicate Later(s: Store, s': Store) {
    && s.reserved <= s'.reserved
    && s.gone <= s'.gone
    && (forall e :: e in s.bound ==> e in s'.bound && s'.bound[e].id == s.bound[e].id
                                     && s'.bound[e].track == s.bound[e].track)
    && (forall q: nat :: q < |s.reserved| && Live(s', q) ==> Live(s, q))
  }

  lemma StepIsLater(s: Shared, a: Action)
    requires Inv(s)
    ensures Later(s.store, Step(s, a).store)
  {
    match a
    case Begin(t, call) =>
      if call.Retract? {
        MarkDeadKeeps(s.store, call.track);
      }
      hide Live, Inv, StoreInv;
    case Continue(t) =>
      if t in s.calls {
        AdvanceKeepsInv(s, t);
      }
      hide Live, Inv, Advance;
    case PushFrame(q, f) =>
      if q < |s.store.queues| {
        PushToKeeps(s.store, q, f);
      }
      hide Live, Inv, StoreInv;
  }

  lemma {:induction false} RunsOnlyGetLater(before: seq<Action>, more: seq<Action>)
    ensures Later(Run(before).store, Run(before + more).store)
    decreases |more|
  {
    if more == [] {
      assert before + more == before;
    } else {
      var shorter := before + more[..|more| - 1];
      var last := more[|more| - 1];
      assert before + more == shorter + [last];
      assert (shorter + [last])[..|shorter|] == shorter;
      RunsOnlyGetLater(before, more[..|more| - 1]);
      EveryRunKeepsInv(shorter);
      StepIsLater(Run(shorter), last);
      assert Run(before + more) == Step(Run(shorter), last);
      hide Run, Step, Inv, Live;
    }
  }

  /** An encoder id keeps its reservation and its owning track for good. */
  lemma BindingsNeverMove(before: seq<Action>, more: seq<Action>, e: EncoderId)
    requires e in Run(before).store.bound
    ensures var b, b' := Run(before).store.bound[e], Run(before + more).store.bound;
      e in b' && b'[e].id == b.id && b'[e].track == b.track
  {
    RunsOnlyGetLater(before, more);
    hide Run, Live;
  }

  /**
   Once a `retract` call returns, no custom slot of its track is pending, in
   flight or bound, then or ever after.
   */
  lemma NothingEscapesRetraction(
    before: seq<Action>, t: ThreadId, track: TrackId, more: seq<Action>, q: SlotId)
    requires t in Run(before).calls && Run(before).calls[t] == RetractDegrade(track)
    requires var s := Run(before + [Continue(t)] + more).store; q < |s.reserved| && s.reserved[q].track == track
    ensures t !in Run(before + [Continue(t)]).calls
    ensures !Live(Run(before + [Continue(t)] + more).store, q)
  {
    var returned := before + [Continue(t)];
    assert returned[..|before|] == before;
    RetractReturns(Run(before), t, track);
    RunsOnlyGetLater(returned, more);
    StoreOfRun(returned + more);
    GoneHasNoSlot(Run(returned + more).store, track, q);
  }

  lemma RetractReturns(s: Shared, t: ThreadId, track: TrackId)
    requires t in s.calls && s.calls[t] == RetractDegrade(track)
    ensures t !in Advance(s, t).calls && track in Advance(s, t).store.gone
  {
  }

  lemma GoneHasNoSlot(s: Store, track: TrackId, q: SlotId)
    requires StoreInv(s) && track in s.gone && q < |s.reserved| && s.reserved[q].track == track
    ensures !Live(s, q)
  {
    hide Routed, Accounted, Ascending;
  }
}
