/**
 What the registry's critical sections do to its data, with the history that
 says where every reservation went (crates/reactor-webrtc/src/encoded.rs).
 `RegistryThreads` interleaves them.
 */
module RegistryStore {
  import opened Wrappers
  import opened Registry

  datatype Store = Store(
    pending: seq<Reservation>,
    bound: map<EncoderId, Binding>,
    /** Popped from `pending` and not yet inserted into `bound`. */
    inFlight: Option<Reservation>,
    /** Every reservation ever made; its number is its index. */
    reserved: seq<Reservation>,
    /** Reservations a retraction removed while they were pending. */
    retracted: set<SlotId>,
    /** Which encoder id each bound reservation went to, and the order they were bound in. */
    binder: map<SlotId, EncoderId>,
    order: seq<SlotId>,
    /** Per reservation: the queue, everything pushed to it, everything popped. */
    queues: seq<seq<EncodedFrame>>,
    pushed: seq<seq<EncodedFrame>>,
    popped: seq<seq<EncodedFrame>>,
    /** Per encoder id: the queued frames `encode_for` returned for it. */
    returned: map<EncoderId, seq<EncodedFrame>>,
    /** Tracks whose retraction has begun, and those whose retraction has returned. */
    dead: set<TrackId>,
    gone: set<TrackId>)

  const EMPTY := Store([], map[], None, [], {}, map[], [], [], [], [], map[], {}, {})

  function Reserve(s: Store, track: TrackId, slot: Slot): Store {
    var r := Reservation(|s.reserved|, track, slot);
    s.(pending := s.pending + [r], reserved := s.reserved + [r],
       queues := s.queues + [[]], pushed := s.pushed + [[]], popped := s.popped + [[]])
  }

  function Retain(s: Store, track: TrackId): Store {
    s.(pending := Without(s.pending, track),
       retracted := s.retracted + set r | r in s.pending && r.track == track :: r.id)
  }

  function TakeFirst(s: Store): Store
    requires s.pending != []
  {
    s.(pending := s.pending[1..], inFlight := Some(s.pending[0]))
  }

  function Insert(s: Store, e: EncoderId): Store
    requires s.inFlight.Some?
  {
    s.(bound := s.bound[e := Bind(s.inFlight.value)], inFlight := None,
       binder := s.binder[s.inFlight.value.id := e], order := s.order + [s.inFlight.value.id])
  }

  function InsertPlaceholder(s: Store, e: EncoderId): Store {
    s.(bound := s.bound[e := PLACEHOLDER])
  }

  function DegradeTrack(s: Store, track: TrackId): Store {
    s.(bound := Degraded(s.bound, track), gone := s.gone + {track})
  }

  function Returned(s: Store, e: EncoderId): seq<EncodedFrame> {
    if e in s.returned then s.returned[e] else []
  }

  function Dequeue(s: Store, e: EncoderId, q: SlotId): Store
    requires q < |s.queues| && q < |s.popped|
  {
    if s.queues[q] == [] then s
    else s.(queues := s.queues[q := s.queues[q][1..]],
            popped := s.popped[q := s.popped[q] + [s.queues[q][0]]],
            returned := s.returned[e := Returned(s, e) + [s.queues[q][0]]])
  }

  function PushTo(s: Store, q: SlotId, f: EncodedFrame): Store
    requires q < |s.queues| && q < |s.pushed|
  {
    s.(queues := s.queues[q := s.queues[q] + [f]], pushed := s.pushed[q := s.pushed[q] + [f]])
  }

  // ---------------------------------------------------------------------
  // Where a reservation is
  // ---------------------------------------------------------------------

  predicate IsPending(s: Store, q: SlotId) {
    q < |s.reserved| && s.reserved[q] in s.pending
  }

  predicate IsInFlight(s: Store, q: SlotId) {
    q < |s.reserved| && s.inFlight == Some(s.reserved[q])
  }

  predicate BoundTo(s: Store, e: EncoderId, q: SlotId) {
    e in s.bound && s.bound[e].id == Some(q)
  }

  predicate IsBound(s: Store, q: SlotId) {
    q in s.binder && BoundTo(s, s.binder[q], q)
  }

  /** The reservation is a custom slot that is pending, in flight, or bound and not degraded. */
  predicate Live(s: Store, q: SlotId) {
    && q < |s.reserved|
    && !s.reserved[q].slot.Builtin?
    && (IsPending(s, q) || IsInFlight(s, q) || (IsBound(s, q) && !s.bound[s.binder[q]].slot.Builtin?))
  }

  ghost predicate NoPending(s: Store, track: TrackId) {
    forall r :: r in s.pending ==> r.track != track
  }

  /** No custom slot made before `since` is pending. */
  ghost predicate PastPending(s: Store, since: nat) {
    forall r :: r in s.pending && r.id < since ==> r.slot.Builtin?
  }

  ghost predicate NoneLive(s: Store, since: nat) {
    forall q: nat :: q < since ==> !Live(s, q)
  }

  // ---------------------------------------------------------------------
  // The invariant of the data
  // ---------------------------------------------------------------------

  /** Every copy of a reservation is that reservation; older ones have moved on further. */
  ghost predicate Placed(s: Store) {
    && (forall q :: 0 <= q < |s.reserved| ==> s.reserved[q].id == q)
    && (forall i :: 0 <= i < |s.pending| ==>
         s.pending[i].id < |s.reserved| && s.pending[i] == s.reserved[s.pending[i].id])
    && Ascending(s.pending)
    && (s.inFlight.Some? ==>
         && s.inFlight.value.id < |s.reserved|
         && s.inFlight.value == s.reserved[s.inFlight.value.id]
         && forall i :: 0 <= i < |s.pending| ==> s.inFlight.value.id < s.pending[i].id)
  }

  /** A bound slot is its reservation's, unless the track's retraction degraded it. */
  ghost predicate Faithful(s: Store) {
    forall e :: e in s.bound ==>
      match s.bound[e].id
      case None => s.bound[e] == PLACEHOLDER
      case Some(q) =>
        && q < |s.reserved|
        && s.bound[e].track == s.reserved[q].track
        && (s.bound[e].slot == s.reserved[q].slot
            || (s.bound[e].slot == Builtin(Auto) && s.reserved[q].track in s.dead))
  }

  /** Reservations were bound oldest first, each to one encoder id, each encoder id once. */
  ghost predicate BoundInOrder(s: Store) {
    && (forall q :: q in s.binder ==> q < |s.reserved| && BoundTo(s, s.binder[q], q))
    && (forall e :: e in s.bound && s.bound[e].id.Some? ==>
         s.bound[e].id.value in s.binder && s.binder[s.bound[e].id.value] == e)
    && (forall q :: q in s.order <==> q in s.binder)
    && (forall i, j :: 0 <= i < j < |s.order| ==> s.order[i] < s.order[j])
    && (forall q, j :: q in s.binder && 0 <= j < |s.pending| ==> q < s.pending[j].id)
    && (forall q :: q in s.binder && s.inFlight.Some? ==> q < s.inFlight.value.id)
  }

  /** Nothing is lost: what is nowhere else was retracted with its track. */
  ghost predicate Accounted(s: Store) {
    && (forall q :: 0 <= q < |s.reserved| ==>
         s.reserved[q] in s.pending || s.inFlight == Some(s.reserved[q]) || q in s.binder || q in s.retracted)
    && (forall q :: q in s.retracted ==>
         && q < |s.reserved| && s.reserved[q].track in s.dead
         && s.reserved[q] !in s.pending && s.inFlight != Some(s.reserved[q]) && q !in s.binder)
  }

  /** What an encoder id was given is what its slot's queue gave up, in order. */
  ghost predicate Routed(s: Store) {
    && |s.queues| == |s.pushed| == |s.popped| == |s.reserved|
    && (forall q :: 0 <= q < |s.queues| ==> s.pushed[q] == s.popped[q] + s.queues[q])
    && (forall q :: q in s.binder && q < |s.popped| ==> Returned(s, s.binder[q]) == s.popped[q])
    && (forall e :: e in s.returned ==> e in s.bound)
    && (forall q :: 0 <= q < |s.popped| && q !in s.binder ==> s.popped[q] == [])
  }

  /** A retracted track has no custom slot anywhere. */
  ghost predicate Erased(s: Store) {
    && s.gone <= s.dead
    && (forall track :: track in s.gone ==>
         && NoPending(s, track)
         && (s.inFlight.Some? ==> s.inFlight.value.track != track)
         && forall e :: e in s.bound && s.bound[e].track == track ==> s.bound[e].slot.Builtin?)
  }

  ghost predicate StoreInv(s: Store) {
    Placed(s) && Faithful(s) && BoundInOrder(s) && Accounted(s) && Routed(s) && Erased(s)
  }

  /** What no critical section undoes, whoever runs it. */
  ghost predicate Grows(s: Store, s': Store) {
    && s.reserved <= s'.reserved
    && s'.dead == s.dead
    && s.gone <= s'.gone
    && (forall e :: e in s.bound ==> e in s'.bound && s'.bound[e].id == s.bound[e].id
                                     && s'.bound[e].track == s.bound[e].track)
    && (forall r :: r in s'.pending ==>
         r in s.pending || (r.id >= |s.reserved| && r.track !in s.dead))
    && (forall q: nat :: q < |s.reserved| && Live(s', q) ==> Live(s, q))
  }

  /** The invariant in two halves: where reservations are, and what they carry. */
  ghost predicate Places(s: Store) {
    Placed(s) && BoundInOrder(s) && Accounted(s)
  }

  ghost predicate Contents(s: Store) {
    Faithful(s) && Routed(s) && Erased(s)
  }

  lemma ReservePlaced(s: Store, track: TrackId, slot: Slot)
    requires Placed(s)
    ensures Placed(Reserve(s, track, slot))
  {
  }

  lemma ReservePlaces(s: Store, track: TrackId, slot: Slot)
    requires Places(s) && track !in s.dead
    ensures Places(Reserve(s, track, slot))
  {
    var s' := Reserve(s, track, slot);
    assert s'.pending[|s.pending|] == Reservation(|s.reserved|, track, slot);
    ReservePlaced(s, track, slot);
    assert forall i :: 0 <= i < |s'.pending| ==> s'.pending[i].id <= |s.reserved|;
    hide Ascending;
  }

  lemma ReserveGrows(s: Store, track: TrackId, slot: Slot)
    requires Places(s) && track !in s.dead
    ensures Grows(s, Reserve(s, track, slot))
  {
    assert forall q :: 0 <= q < |s.reserved| ==> Reserve(s, track, slot).reserved[q] == s.reserved[q];
    hide BoundInOrder, Accounted, Ascending;
  }

  lemma ReserveContents(s: Store, track: TrackId, slot: Slot)
    requires Contents(s) && BoundInOrder(s) && track !in s.dead
    ensures Contents(Reserve(s, track, slot))
  {
    hide Ascending;
  }

  lemma ReserveKeeps(s: Store, track: TrackId, slot: Slot)
    requires StoreInv(s) && track !in s.dead
    ensures StoreInv(Reserve(s, track, slot)) && Grows(s, Reserve(s, track, slot))
  {
    ReservePlaces(s, track, slot);
    ReserveGrows(s, track, slot);
    ReserveContents(s, track, slot);
    hide Placed, BoundInOrder, Accounted, Grows, Faithful, Routed, Erased;
  }

  lemma RetainPlaces(s: Store, track: TrackId)
    requires Places(s) && track in s.dead
    ensures Places(Retain(s, track))
  {
    hide Without, Accounted;
    var s' := Retain(s, track);
    WithoutAscends(s.pending, track);
    hide Ascending;
    assert forall i :: 0 <= i < |s'.pending| ==> s'.pending[i] in s.pending;
    RetainAccounts(s, track);
  }

  lemma RetainAccounts(s: Store, track: TrackId)
    requires Places(s) && track in s.dead
    ensures Accounted(Retain(s, track)) && Grows(s, Retain(s, track))
  {
    assert forall r :: r in s.pending ==> r.id < |s.reserved| && s.reserved[r.id] == r && r.id !in s.binder;
    hide Placed, BoundInOrder;
  }

  lemma RetainKeeps(s: Store, track: TrackId)
    requires StoreInv(s) && track in s.dead
    ensures StoreInv(Retain(s, track)) && Grows(s, Retain(s, track))
    ensures NoPending(Retain(s, track), track)
  {
    hide Placed, BoundInOrder, Accounted, Grows, Live, Ascending;
    RetainPlaces(s, track);
    RetainAccounts(s, track);
  }

  lemma TakeFirstPlaces(s: Store)
    requires Places(s) && s.pending != [] && s.inFlight.None?
    ensures Places(TakeFirst(s)) && Grows(s, TakeFirst(s))
  {
    assert s.pending == [s.pending[0]] + s.pending[1..];
  }

  lemma TakeFirstKeeps(s: Store)
    requires StoreInv(s) && s.pending != [] && s.inFlight.None?
    ensures StoreInv(TakeFirst(s)) && Grows(s, TakeFirst(s))
  {
    hide Placed, BoundInOrder, Accounted, Grows, Live;
    TakeFirstPlaces(s);
    assert s.pending[0] in s.pending;
    assert forall r :: r in TakeFirst(s).pending ==> r in s.pending;
  }

  lemma InsertAccounts(s: Store, e: EncoderId)
    requires Placed(s) && BoundInOrder(s) && Accounted(s) && s.inFlight.Some? && e !in s.bound
    ensures Accounted(Insert(s, e))
  {
    assert s.inFlight.value.id !in s.binder;
    hide BoundInOrder, Ascending;
  }

  lemma InsertBindsInOrder(s: Store, e: EncoderId)
    requires Placed(s) && BoundInOrder(s) && s.inFlight.Some? && e !in s.bound
    ensures BoundInOrder(Insert(s, e))
  {
    assert s.inFlight.value.id !in s.binder;
    assert forall i :: 0 <= i < |s.order| ==> s.order[i] in s.binder;
    assert BoundTo(Insert(s, e), e, s.inFlight.value.id);
    hide Placed, Ascending;
  }

  lemma InsertPlaces(s: Store, e: EncoderId)
    requires Places(s) && s.inFlight.Some? && e !in s.bound
    ensures Places(Insert(s, e))
  {
    InsertAccounts(s, e);
    InsertBindsInOrder(s, e);
    assert Placed(Insert(s, e)) by { hide BoundInOrder, Accounted; }
    hide Placed, Accounted, Ascending, BoundInOrder;
  }

  lemma InsertGrows(s: Store, e: EncoderId)
    requires Placed(s) && BoundInOrder(s) && s.inFlight.Some? && e !in s.bound
    ensures Grows(s, Insert(s, e))
  {
    assert s.inFlight.value.id !in s.binder;
    hide Ascending;
  }

  lemma InsertContents(s: Store, e: EncoderId)
    requires Placed(s) && BoundInOrder(s) && Contents(s) && s.inFlight.Some? && e !in s.bound
    ensures Contents(Insert(s, e))
  {
    assert s.inFlight.value.id !in s.binder;
    hide Ascending;
  }

  lemma InsertKeeps(s: Store, e: EncoderId)
    requires StoreInv(s) && s.inFlight.Some? && e !in s.bound
    ensures StoreInv(Insert(s, e)) && Grows(s, Insert(s, e))
  {
    InsertPlaces(s, e);
    InsertGrows(s, e);
    InsertContents(s, e);
    hide Placed, BoundInOrder, Accounted, Grows, Faithful, Routed, Erased;
  }

  lemma InsertPlaceholderGrows(s: Store, e: EncoderId)
    requires BoundInOrder(s) && e !in s.bound
    ensures Grows(s, InsertPlaceholder(s, e))
  {
    hide Ascending;
  }

  lemma InsertPlaceholderKeeps(s: Store, e: EncoderId)
    requires StoreInv(s) && e !in s.bound
    ensures StoreInv(InsertPlaceholder(s, e)) && Grows(s, InsertPlaceholder(s, e))
  {
    hide Placed, BoundInOrder, Accounted, Grows;
    InsertPlaceholderGrows(s, e);
    InsertPlaceholderPlaces(s, e);
  }

  lemma InsertPlaceholderPlaces(s: Store, e: EncoderId)
    requires Places(s) && e !in s.bound
    ensures Places(InsertPlaceholder(s, e))
  {
    hide Ascending;
  }

  lemma DegradedBindings(bound: map<EncoderId, Binding>, track: TrackId)
    ensures Degraded(bound, track).Keys == bound.Keys
    ensures forall e :: e in bound ==>
      var b := Degraded(bound, track)[e];
      && b.id == bound[e].id && b.track == bound[e].track
      && (b.track == track ==> b.slot.Builtin?)
      && (b.track != track || bound[e].slot.Builtin? ==> b == bound[e])
      && (b.slot == bound[e].slot || b.slot == Builtin(Auto))
  {
  }

  lemma DegradeKeeps(s: Store, track: TrackId)
    requires StoreInv(s) && track in s.dead && NoPending(s, track) && s.inFlight.None?
    ensures StoreInv(DegradeTrack(s, track)) && Grows(s, DegradeTrack(s, track))
  {
    hide Degraded, Placed, BoundInOrder, Accounted, Grows, Live, Routed;
    DegradedBindings(s.bound, track);
    DegradePlaces(s, track);
    DegradeRoutes(s, track);
  }

  lemma DegradeRoutes(s: Store, track: TrackId)
    requires Routed(s)
    ensures Routed(DegradeTrack(s, track))
  {
    hide Degraded;
    DegradedBindings(s.bound, track);
  }

  lemma DegradePlaces(s: Store, track: TrackId)
    requires Places(s)
    ensures Places(DegradeTrack(s, track)) && Grows(s, DegradeTrack(s, track))
  {
    hide Degraded, Ascending;
    DegradedBindings(s.bound, track);
    var s' := DegradeTrack(s, track);
    assert forall e, q: SlotId :: BoundTo(s', e, q) <==> BoundTo(s, e, q);
  }

  lemma DequeueRoutes(s: Store, e: EncoderId, q: SlotId)
    requires Routed(s) && BoundInOrder(s) && BoundTo(s, e, q) && q < |s.queues|
    ensures Routed(Dequeue(s, e, q))
  {
  }

  /** Moving frames moves no slot. */
  lemma FramesMoveNoSlot(s: Store, s': Store)
    requires StoreInv(s) && Routed(s')
    requires s' == s.(queues := s'.queues, pushed := s'.pushed, popped := s'.popped, returned := s'.returned)
    ensures StoreInv(s') && Grows(s, s')
  {
    hide Routed, Ascending, Without;
    assert Placed(s') && Faithful(s');
    assert BoundInOrder(s') && Accounted(s') && Erased(s');
    assert forall id: SlotId :: Live(s', id) == Live(s, id);
    hide Live, Placed, Faithful, BoundInOrder, Accounted, Erased;
  }

  lemma DequeueKeeps(s: Store, e: EncoderId, q: SlotId)
    requires StoreInv(s) && BoundTo(s, e, q) && q < |s.queues|
    ensures StoreInv(Dequeue(s, e, q)) && Grows(s, Dequeue(s, e, q))
  {
    DequeueRoutes(s, e, q);
    hide Routed, Placed, Faithful, BoundInOrder, Accounted, Erased;
    FramesMoveNoSlot(s, Dequeue(s, e, q));
  }

  lemma PushToKeeps(s: Store, q: SlotId, f: EncodedFrame)
    requires StoreInv(s) && q < |s.queues|
    ensures StoreInv(PushTo(s, q, f)) && Grows(s, PushTo(s, q, f))
  {
    assert Routed(PushTo(s, q, f)) by { hide Placed, Faithful, BoundInOrder, Accounted, Erased; }
    hide Routed, Placed, Faithful, BoundInOrder, Accounted, Erased;
    FramesMoveNoSlot(s, PushTo(s, q, f));
  }

  /** A retraction has begun. */
  function MarkDead(s: Store, track: TrackId): Store {
    s.(dead := s.dead + {track})
  }

  lemma MarkDeadKeeps(s: Store, track: TrackId)
    requires StoreInv(s)
    ensures StoreInv(MarkDead(s, track))
    ensures forall q: SlotId :: Live(MarkDead(s, track), q) == Live(s, q)
  {
    hide Ascending, Without;
    var s' := MarkDead(s, track);
    assert Placed(s') && Faithful(s');
    assert BoundInOrder(s') && Accounted(s') && Erased(s') && Routed(s');
    hide Placed, Faithful, BoundInOrder, Accounted, Erased, Routed;
  }
}
