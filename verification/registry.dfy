/**
 The encoder-slot registry, one call at a time
 (crates/reactor-webrtc/src/encoded.rs, `EncoderRegistry`).

 A slot's queue, callback and listeners are shared objects in the program;
 here the number of the reservation that made them stands for all three.
 */
module Registry {
  import opened Wrappers

  type EncoderId = nat
  type TrackId = nat
  type SlotId = nat

  datatype EncodedFrame = EncodedFrame(
    data: seq<bv8>, isKeyFrame: bool, width: nat, height: nat, rtpTimestamp: nat)

  datatype Backend = Auto | VideoToolbox | OpenH264

  datatype Slot = Custom | Inline | Builtin(pref: Backend)

  datatype Reservation = Reservation(id: SlotId, track: TrackId, slot: Slot)

  /** A bound slot; `id` is `None` for the placeholder of an encoder that found no reservation. */
  datatype Binding = Binding(id: Option<SlotId>, track: TrackId, slot: Slot)

  const PLACEHOLDER := Binding(None, 0, Builtin(Auto))

  function Bind(r: Reservation): Binding {
    Binding(Some(r.id), r.track, r.slot)
  }

  /** `pending` without the reservations of `track`, in order. */
  function Without(pending: seq<Reservation>, track: TrackId): (rest: seq<Reservation>)
    ensures forall r :: r in rest <==> r in pending && r.track != track
  {
    if pending == [] then []
    else if pending[0].track == track then Without(pending[1..], track)
    else [pending[0]] + Without(pending[1..], track)
  }

  function Degrade(b: Binding, track: TrackId): Binding {
    if b.track == track && !b.slot.Builtin? then b.(slot := Builtin(Auto)) else b
  }

  function Degraded(bound: map<EncoderId, Binding>, track: TrackId): map<EncoderId, Binding> {
    map e | e in bound :: Degrade(bound[e], track)
  }

  predicate PendingCustom(pending: seq<Reservation>) {
    exists i :: 0 <= i < |pending| && !pending[i].slot.Builtin?
  }

  predicate BoundCustom(bound: map<EncoderId, Binding>) {
    exists e :: e in bound && !bound[e].slot.Builtin?
  }

  /** Whether a slot other than `track`'s needs the warning a retraction gives. */
  predicate OtherCustom(bound: map<EncoderId, Binding>, track: TrackId) {
    exists e :: e in bound && bound[e].track != track && !bound[e].slot.Builtin?
  }

  predicate TrackCustom(bound: map<EncoderId, Binding>, track: TrackId) {
    exists e :: e in bound && bound[e].track == track && !bound[e].slot.Builtin?
  }

  lemma DegradedChangesOneTrack(bound: map<EncoderId, Binding>, track: TrackId)
    ensures !TrackCustom(Degraded(bound, track), track)
    ensures OtherCustom(Degraded(bound, track), track) <==> OtherCustom(bound, track)
    ensures forall e :: e in bound && bound[e].track != track ==> Degraded(bound, track)[e] == bound[e]
  {
    var bound' := Degraded(bound, track);
    assert forall e :: e in bound ==> bound'[e].track == bound[e].track;
    assert forall e :: e in bound && bound[e].track != track ==> bound'[e] == bound[e];
  }

  lemma WithoutAppend(pending: seq<Reservation>, r: Reservation, track: TrackId)
    ensures Without(pending + [r], track)
         == Without(pending, track) + if r.track == track then [] else [r]
  {
    if pending == [] {
      assert pending + [r] == [r] && [r][1..] == [];
    } else {
      WithoutAppend(pending[1..], r, track);
      assert (pending + [r])[1..] == pending[1..] + [r];
    }
  }

  /** Slot numbers are given out once, in reservation order, and a number is bound at most once. */
  ghost predicate Numbered(
    pending: seq<Reservation>, bound: map<EncoderId, Binding>, made: nat, queues: set<SlotId>)
  {
    && (forall i :: 0 <= i < |pending| ==>
         pending[i].id < made && (pending[i].slot.Custom? ==> pending[i].id in queues))
    && Ascending(pending)
    && (forall e :: e in bound && bound[e].slot.Custom? ==> bound[e].id.Some? && bound[e].id.value in queues)
    && (forall e :: e in bound && bound[e].id.Some? ==> bound[e].id.value < made)
    && (forall e, i :: e in bound && bound[e].id.Some? && 0 <= i < |pending| ==>
         bound[e].id.value < pending[i].id)
    && (forall e, f :: e in bound && f in bound && e != f && bound[e].id.Some? ==>
         bound[e].id != bound[f].id)
  }

  predicate Ascending(pending: seq<Reservation>) {
    forall i, j :: 0 <= i < j < |pending| ==> pending[i].id < pending[j].id
  }

  lemma {:induction false} WithoutAscends(pending: seq<Reservation>, track: TrackId)
    requires Ascending(pending)
    ensures Ascending(Without(pending, track))
  {
    if pending != [] {
      var tail := Without(pending[1..], track);
      WithoutAscends(pending[1..], track);
      if pending[0].track != track {
        forall k | 0 <= k < |tail| ensures pending[0].id < tail[k].id {
          assert tail[k] in pending[1..];
        }
      }
    }
  }

  lemma RetractionKeepsNumbers(
    pending: seq<Reservation>, bound: map<EncoderId, Binding>, made: nat, queues: set<SlotId>, track: TrackId)
    requires Numbered(pending, bound, made, queues)
    ensures Numbered(Without(pending, track), Degraded(bound, track), made, queues)
  {
    WithoutAscends(pending, track);
    var rest, bound' := Without(pending, track), Degraded(bound, track);
    assert forall e :: e in bound' ==> bound'[e].id == bound[e].id;
    assert forall i :: 0 <= i < |rest| ==> rest[i] in pending;
    hide Without, Degraded;
  }

  lemma ReservingKeepsNumbers(
    pending: seq<Reservation>, bound: map<EncoderId, Binding>, made: nat, queues: set<SlotId>, r: Reservation)
    requires Numbered(pending, bound, made, queues) && r.id == made
    ensures !r.slot.Custom? ==> Numbered(pending + [r], bound, made + 1, queues)
    ensures Numbered(pending + [r], bound, made + 1, queues + {made})
  {
  }

  ghost predicate Conserved(
    pushed: map<SlotId, seq<EncodedFrame>>, popped: map<SlotId, seq<EncodedFrame>>,
    queues: map<SlotId, seq<EncodedFrame>>, made: nat)
  {
    && pushed.Keys == popped.Keys == queues.Keys
    && (forall q :: q in queues ==> q < made && pushed[q] == popped[q] + queues[q])
  }

  lemma BindingKeepsNumbers(
    pending: seq<Reservation>, bound: map<EncoderId, Binding>, made: nat, queues: set<SlotId>, e: EncoderId)
    requires Numbered(pending, bound, made, queues) && e !in bound
    ensures pending != [] ==> Numbered(pending[1..], bound[e := Bind(pending[0])], made, queues)
    ensures Numbered(pending, bound[e := PLACEHOLDER], made, queues)
  {
  }

  class EncoderRegistry {
    var pending: seq<Reservation>
    var bound: map<EncoderId, Binding>
    /** Reservations made so far, the next one's number. */
    var made: nat
    /** The queue of each pre-encoded slot, shared with its track. */
    var queues: map<SlotId, seq<EncodedFrame>>
    ghost var pushed: map<SlotId, seq<EncodedFrame>>
    ghost var popped: map<SlotId, seq<EncodedFrame>>

    /** Every queue holds what was pushed and not yet popped. */
    ghost predicate Valid()
      reads this
    {
      && Conserved(pushed, popped, queues, made)
      && Numbered(pending, bound, made, queues.Keys)
    }

    constructor ()
      ensures Valid() && pending == [] && bound == map[] && made == 0
    {
      pending := [];
      bound := map[];
      made := 0;
      queues := map[];
      pushed := map[];
      popped := map[];
    }

    method AddEncodedSlot(track: TrackId) returns (queue: SlotId)
      requires Valid()
      modifies this
      ensures Valid()
      ensures pending == old(pending) + [Reservation(old(made), track, Custom)]
      ensures queue == old(made) && queue !in old(queues)
      ensures queues == old(queues)[queue := []]
      ensures bound == old(bound) && made == old(made) + 1
    {
      hide Numbered;
      ReservingKeepsNumbers(pending, bound, made, queues.Keys, Reservation(made, track, Custom));
      queue := made;
      queues := queues[queue := []];
      pushed := pushed[queue := []];
      popped := popped[queue := []];
      assert queues.Keys == old(queues).Keys + {old(made)};
      pending := pending + [Reservation(queue, track, Custom)];
      made := made + 1;
    }

    method AddRawSlotWithBackend(track: TrackId, backend: Backend)
      requires Valid()
      modifies this`pending, this`made
      ensures Valid()
      ensures pending == old(pending) + [Reservation(old(made), track, Builtin(backend))]
      ensures made == old(made) + 1
    {
      ReservingKeepsNumbers(pending, bound, made, queues.Keys, Reservation(made, track, Builtin(backend)));
      pending := pending + [Reservation(made, track, Builtin(backend))];
      made := made + 1;
    }

    method AddInlineSlot(track: TrackId) returns (listeners: SlotId)
      requires Valid()
      modifies this`pending, this`made
      ensures Valid()
      ensures pending == old(pending) + [Reservation(old(made), track, Inline)]
      ensures listeners == old(made) && made == old(made) + 1
    {
      ReservingKeepsNumbers(pending, bound, made, queues.Keys, Reservation(made, track, Inline));
      listeners := made;
      pending := pending + [Reservation(made, track, Inline)];
      made := made + 1;
    }

    method AnyPendingCustom() returns (any: bool)
      ensures any == PendingCustom(pending)
    {
      for i := 0 to |pending|
        invariant forall j :: 0 <= j < i ==> pending[j].slot.Builtin?
      {
        if !pending[i].slot.Builtin? {
          return true;
        }
      }
      return false;
    }

    /** `values().any(…)`, passing over the slots of `except`. */
    method AnyBoundCustom(except: Option<TrackId>) returns (any: bool)
      ensures any <==> if except.Some? then OtherCustom(bound, except.value) else BoundCustom(bound)
    {
      var left := bound.Keys;
      while left != {}
        invariant left <= bound.Keys
        invariant forall e :: e in bound && e !in left ==>
          bound[e].slot.Builtin? || except == Some(bound[e].track)
        decreases left
      {
        var e :| e in left;
        if except != Some(bound[e].track) && !bound[e].slot.Builtin? {
          return true;
        }
        left := left - {e};
      }
      return false;
    }

    /**
     Nothing of a dead track stays pending, and what was bound is degraded in
     place. `loud` is whether the program warns about it.
     */
    method Retract(track: TrackId) returns (loud: bool)
      requires Valid()
      modifies this`pending, this`bound
      ensures Valid()
      ensures pending == Without(old(pending), track)
      ensures bound == Degraded(old(bound), track)
      ensures forall r :: r in pending ==> r.track != track
      ensures !TrackCustom(bound, track)
      ensures loud <==>
        (PendingCustom(pending) || OtherCustom(bound, track)) && TrackCustom(old(bound), track)
    {
      RetractionKeepsNumbers(pending, bound, made, queues.Keys, track);
      DegradedChangesOneTrack(bound, track);
      hide Numbered, Conserved, Without, Degraded, OtherCustom, TrackCustom, PendingCustom, BoundCustom;
      RetainOthers(track);
      var others := AnyPendingCustom();
      if !others {
        others := AnyBoundCustom(Some(track));
      }
      loud := DegradeSlots(track, others);
    }

    /** `pending.retain(…)`. */
    method RetainOthers(track: TrackId)
      modifies this`pending
      ensures pending == Without(old(pending), track)
    {
      var kept: seq<Reservation> := [];
      for i := 0 to |pending|
        invariant pending == old(pending)
        invariant kept == Without(pending[..i], track)
      {
        WithoutAppend(pending[..i], pending[i], track);
        assert pending[..i] + [pending[i]] == pending[..i + 1];
        if pending[i].track != track {
          kept := kept + [pending[i]];
        }
      }
      assert pending[..|pending|] == pending;
      pending := kept;
    }

    method DegradeSlots(track: TrackId, others: bool) returns (loud: bool)
      modifies this`bound
      ensures bound == Degraded(old(bound), track)
      ensures loud <==> others && TrackCustom(old(bound), track)
    {
      loud := false;
      var left := bound.Keys;
      while left != {}
        invariant left <= bound.Keys == old(bound).Keys
        invariant forall e :: e in bound ==>
          bound[e] == if e in left then old(bound)[e] else Degrade(old(bound)[e], track)
        invariant loud <==> others && exists e ::
          e in old(bound) && e !in left && old(bound)[e].track == track && !old(bound)[e].slot.Builtin?
        decreases left
      {
        var e :| e in left;
        if bound[e].track == track && !bound[e].slot.Builtin? {
          loud := others;
          bound := bound[e := bound[e].(slot := Builtin(Auto))];
        }
        left := left - {e};
      }
    }

    method HasCustom() returns (any: bool)
      ensures any <==> PendingCustom(pending) || BoundCustom(bound)
    {
      any := AnyPendingCustom();
      if !any {
        any := AnyBoundCustom(None);
      }
    }

    /** An encoder id that is new takes the oldest reservation, if there is one. */
    method UseBuiltinFor(e: EncoderId) returns (builtin: bool)
      requires Valid()
      modifies this`pending, this`bound
      ensures Valid()
      ensures e in old(bound) || old(pending) == [] ==> pending == old(pending) && bound == old(bound)
      ensures e !in old(bound) && old(pending) != [] ==>
        pending == old(pending)[1..] && bound == old(bound)[e := Bind(old(pending)[0])]
      ensures builtin <==> (e in bound ==> bound[e].slot.Builtin?)
    {
      if e in bound {
        return bound[e].slot.Builtin?;
      }
      BindingKeepsNumbers(pending, bound, made, queues.Keys, e);
      if pending == [] {
        return true;
      }
      var reservation := pending[0];
      pending := pending[1..];
      bound := bound[e := Bind(reservation)];
      builtin := reservation.slot.Builtin?;
    }

    /** `assigned.entry(encoder_id).or_insert_with(…)`. */
    method BindOnFirstUse(e: EncoderId)
      requires Valid()
      modifies this`pending, this`bound
      ensures Valid()
      ensures e in old(bound) ==> pending == old(pending) && bound == old(bound)
      ensures e !in old(bound) && old(pending) != [] ==>
        pending == old(pending)[1..] && bound == old(bound)[e := Bind(old(pending)[0])]
      ensures e !in old(bound) && old(pending) == [] ==>
        pending == [] && bound == old(bound)[e := PLACEHOLDER]
      ensures e in bound
      ensures bound[e].slot.Custom? ==> bound[e].id.Some? && bound[e].id.value in queues
    {
      if e !in bound {
        BindingKeepsNumbers(pending, bound, made, queues.Keys, e);
        if pending != [] {
          var reservation := pending[0];
          pending := pending[1..];
          bound := bound[e := Bind(reservation)];
        } else {
          bound := bound[e := PLACEHOLDER];
        }
      }
    }

    /** `q.lock().pop_front()`. */
    method PopFrame(q: SlotId) returns (frame: Option<EncodedFrame>)
      requires Valid() && q in queues
      modifies this`queues, this`popped
      ensures Valid()
      ensures if old(queues)[q] == [] then frame == None && queues == old(queues)
              else frame == Some(old(queues)[q][0]) && queues == old(queues)[q := old(queues)[q][1..]]
    {
      hide Numbered;
      frame := None;
      if queues[q] != [] {
        frame := Some(queues[q][0]);
        popped := popped[q := popped[q] + [queues[q][0]]];
        queues := queues[q := queues[q][1..]];
        assert queues.Keys == old(queues).Keys;
      }
    }

    /**
     The next frame for `e`: the queue's oldest, or what the inline callback
     returned. `fired` names the listeners told of a key-frame request.
     */
    method EncodeFor(e: EncoderId, requestKeyFrame: bool, inlineResult: Option<EncodedFrame>)
      returns (frame: Option<EncodedFrame>, fired: Option<SlotId>)
      requires Valid()
      modifies this
      ensures Valid()
      ensures made == old(made) && pushed == old(pushed)
      ensures e in old(bound) ==> pending == old(pending) && bound == old(bound)
      ensures e !in old(bound) && old(pending) != [] ==>
        pending == old(pending)[1..] && bound == old(bound)[e := Bind(old(pending)[0])]
      ensures e !in old(bound) && old(pending) == [] ==>
        pending == [] && bound == old(bound)[e := PLACEHOLDER]
      ensures e in bound
      ensures bound[e].slot.Builtin? ==> frame == None && fired == None && queues == old(queues)
      ensures bound[e].slot.Inline? ==> frame == inlineResult && fired == None && queues == old(queues)
      ensures bound[e].slot.Custom? ==>
        var q := bound[e].id.value;
        && q in old(queues)
        && fired == (if requestKeyFrame then bound[e].id else None)
        && (if old(queues)[q] == [] then frame == None && queues == old(queues)
            else frame == Some(old(queues)[q][0]) && queues == old(queues)[q := old(queues)[q][1..]])
    {
      hide Numbered, Conserved;
      BindOnFirstUse(e);
      var slot := bound[e];
      frame, fired := None, None;
      match slot.slot {
        case Custom =>
          if requestKeyFrame {
            fired := slot.id;
          }
          frame := PopFrame(slot.id.value);
        case Inline =>
          frame := inlineResult;
        case Builtin(_) =>
      }
    }

    /** `push_frame` on the track that holds queue `q`. */
    method PushFrame(q: SlotId, frame: EncodedFrame)
      requires Valid() && q in queues
      modifies this`queues, this`pushed
      ensures Valid()
      ensures queues == old(queues)[q := old(queues)[q] + [frame]]
      ensures pushed == old(pushed)[q := old(pushed)[q] + [frame]]
    {
      queues := queues[q := queues[q] + [frame]];
      pushed := pushed[q := pushed[q] + [frame]];
    }

    /** The listeners a rate update for `e` reaches, if it has any. */
    method RateUpdate(e: EncoderId) returns (fired: Option<SlotId>)
      ensures fired == if e in bound && !bound[e].slot.Builtin? then bound[e].id else None
    {
      if e !in bound {
        return None;
      }
      match bound[e].slot {
        case Custom => fired := bound[e].id;
        case Inline => fired := bound[e].id;
        case Builtin(_) => fired := None;
      }
    }

    method BackendFor(e: EncoderId) returns (backend: Backend)
      ensures backend == if e in bound && bound[e].slot.Builtin? then bound[e].slot.pref else Auto
    {
      if e in bound {
        match bound[e].slot {
          case Builtin(pref) => return pref;
          case _ =>
        }
      }
      return Auto;
    }
  }
}
