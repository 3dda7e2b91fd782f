/**
 Schedules that make `has_custom` answer no (crates/reactor-webrtc/src/encoded.rs):
 whatever slots the registry holds and whatever calls are under way, provided
 all of those slots may be retracted before the answer.
 */
module RegistrySuccession {
  import opened Wrappers
  import opened Registry
  import opened RegistryStore
  import opened RegistryThreads
  import opened RegistryProgress
  import opened RegistryResults
  import opened RegistryHasCustom

  // ---------------------------------------------------------------------
  // A helper's calls while the asking thread stands still
  // ---------------------------------------------------------------------

  /** Only `t` is in a call, holding nothing. */
  function One(store: Store, t: ThreadId, pc: Pc): Shared {
    Shared(store, None, None, map[], map[t := pc])
  }

  /** Besides `t`, `u` is at `at`, with the locks that go with it. */
  function Two(store: Store, t: ThreadId, pc: Pc, u: ThreadId, at: Pc): Shared {
    Shared(store, if HoldsPending(at) then Some(u) else None, if HoldsBound(at) then Some(u) else None,
           map[], map[t := pc, u := at])
  }

  lemma UMoves(store: Store, t: ThreadId, pc: Pc, u: ThreadId, at: Pc, to: Pc, store': Store)
    requires t != u
    ensures Move(With(Two(store, t, pc, u, at), store'), u, to) == Two(store', t, pc, u, to)
    ensures Return(With(Two(store, t, pc, u, at), store'), u) == One(store', t, pc)
    ensures With(Two(store, t, pc, u, at), store) == Two(store, t, pc, u, at)
  {
    hide HoldsPending, HoldsBound;
    assert map[t := pc, u := at] - {u} == map[t := pc];
    assert map[t := pc, u := at][u := to] == map[t := pc, u := to];
  }

  lemma UBegins(store: Store, t: ThreadId, pc: Pc, u: ThreadId, call: Call)
    requires t != u && !InAdd(pc) && (call.AddSlot? ==> call.track !in store.dead)
    ensures Step(One(store, t, pc), Begin(u, call)) ==
      Two(if call.Retract? then MarkDead(store, call.track) else store, t, pc, u, Entry(One(store, t, pc), call))
  {
    assert map[t := pc][u := Entry(One(store, t, pc), call)] == map[t := pc, u := Entry(One(store, t, pc), call)];
  }

  lemma NoPointWaitsForWhatItHolds(at: Pc)
    ensures !(WantsPending(at) && HoldsPending(at)) && !(WantsBound(at) && HoldsBound(at))
  {
  }

  /** `u` is never held up: nobody else holds a lock. */
  lemma UIsEnabled(store: Store, t: ThreadId, pc: Pc, u: ThreadId, at: Pc)
    requires t != u && !AtCallback(at)
    ensures u in Two(store, t, pc, u, at).calls && Enabled(Two(store, t, pc, u, at), u)
  {
    NoPointWaitsForWhatItHolds(at);
    hide WantsPending, HoldsPending, WantsBound, HoldsBound;
  }

  lemma AddContinues(store: Store, t: ThreadId, pc: Pc, u: ThreadId, at: Pc)
    requires t != u && InAdd(at)
    ensures
      var s := Two(store, t, pc, u, at);
      u in s.calls && Step(s, Continue(u)) == AdvanceAdd(s, u)
  {
    hide Enabled, AdvanceAdd, HoldsPending, HoldsBound;
    UIsEnabled(store, t, pc, u, at);
  }

  lemma OneOperation(at: Pc)
    requires InUse(at) || InRetract(at)
    ensures !InAdd(at) && !InHas(at) && !InEncode(at) && !InLookup(at) && !AtCallback(at)
    ensures InUse(at) != InRetract(at)
  {
  }

  lemma RetractContinues(store: Store, t: ThreadId, pc: Pc, u: ThreadId, at: Pc)
    requires t != u && InRetract(at)
    ensures
      var s := Two(store, t, pc, u, at);
      u in s.calls && Step(s, Continue(u)) == AdvanceRetract(s, u)
  {
    hide Enabled, AdvanceRetract, HoldsPending, HoldsBound, InAdd, InHas, InRetract, InUse, InEncode, InLookup;
    hide AtCallback;
    OneOperation(at);
    UIsEnabled(store, t, pc, u, at);
  }

  lemma UseContinues(store: Store, t: ThreadId, pc: Pc, u: ThreadId, at: Pc)
    requires t != u && InUse(at)
    ensures
      var s := Two(store, t, pc, u, at);
      u in s.calls && Step(s, Continue(u)) == AdvanceUse(s, u)
  {
    hide Enabled, AdvanceUse, HoldsPending, HoldsBound, InAdd, InHas, InRetract, InUse, InEncode, InLookup;
    hide AtCallback;
    OneOperation(at);
    UIsEnabled(store, t, pc, u, at);
  }

  /** `actions` leads to `s`, and from the `from`th on `t` is in a call throughout. */
  ghost predicate Path(from: nat, actions: seq<Action>, t: ThreadId, s: Shared) {
    && from <= |actions|
    && Run(actions) == s
    && forall k :: from <= k <= |actions| ==> t in Run(actions[..k]).calls
  }

  lemma Go(from: nat, actions: seq<Action>, t: ThreadId, s: Shared, a: Action) returns (on: seq<Action>)
    requires Path(from, actions, t, s) && t in Step(s, a).calls
    ensures actions <= on && Path(from, on, t, Step(s, a))
  {
    hide Run, Step;
    Extend(actions, a);
    on := actions + [a];
    assert on[..|on|] == on;
    forall k | from <= k <= |on| ensures t in Run(on[..k]).calls {
      if k <= |actions| {
        assert on[..k] == actions[..k];
      }
    }
  }

  /** `u` adds a custom slot. */
  lemma AddCall(from: nat, actions: seq<Action>, store: Store, t: ThreadId, pc: Pc, u: ThreadId, track: TrackId)
    returns (on: seq<Action>)
    requires Path(from, actions, t, One(store, t, pc)) && t != u && !InAdd(pc) && track !in store.dead
    ensures actions <= on && Path(from, on, t, One(Reserve(store, track, Custom), t, pc))
  {
    hide Path, Step, Move, Return, Reserve;
    var a, b, store' := AddAcquire(track, Custom), AddPush(track, Custom), Reserve(store, track, Custom);
    UBegins(store, t, pc, u, AddSlot(track, Custom));
    AddContinues(store, t, pc, u, a);
    UMoves(store, t, pc, u, a, b, store);
    AddContinues(store, t, pc, u, b);
    UMoves(store, t, pc, u, b, b, store');
    on := Go(from, actions, t, One(store, t, pc), Begin(u, AddSlot(track, Custom)));
    on := Go(from, on, t, Two(store, t, pc, u, a), Continue(u));
    on := Go(from, on, t, Two(store, t, pc, u, b), Continue(u));
  }

  /** One step of `u` from `at` to `to` that changes the store as told. */
  lemma UGo(from: nat, actions: seq<Action>, store: Store, t: ThreadId, pc: Pc, u: ThreadId, at: Pc, to: Pc, store': Store)
    returns (on: seq<Action>)
    requires Path(from, actions, t, Two(store, t, pc, u, at)) && t != u
    requires Step(Two(store, t, pc, u, at), Continue(u)) == Move(With(Two(store, t, pc, u, at), store'), u, to)
    ensures actions <= on && Path(from, on, t, Two(store', t, pc, u, to))
  {
    hide Path, Step, Move, Return;
    UMoves(store, t, pc, u, at, to, store');
    on := Go(from, actions, t, Two(store, t, pc, u, at), Continue(u));
  }

  lemma UseOpens(store: Store, t: ThreadId, pc: Pc, u: ThreadId, e: EncoderId)
    requires t != u && e !in store.bound
    ensures
      var s, s' := Two(store, t, pc, u, UseAcquireBound(e)), Two(store, t, pc, u, UseLookup(e));
      && Step(s, Continue(u)) == Move(With(s, store), u, UseLookup(e))
      && Step(s', Continue(u)) == Move(With(s', store), u, UseAcquirePending(e))
  {
    hide Step, Move, Return;
    UseContinues(store, t, pc, u, UseAcquireBound(e));
    UseContinues(store, t, pc, u, UseLookup(e));
    UMoves(store, t, pc, u, UseAcquireBound(e), UseLookup(e), store);
    UMoves(store, t, pc, u, UseLookup(e), UseAcquirePending(e), store);
  }

  lemma UseLooksUp(from: nat, actions: seq<Action>, store: Store, t: ThreadId, pc: Pc, u: ThreadId, e: EncoderId)
    returns (on: seq<Action>)
    requires Path(from, actions, t, One(store, t, pc)) && t != u && !InAdd(pc) && e !in store.bound
    ensures actions <= on && Path(from, on, t, Two(store, t, pc, u, UseAcquirePending(e)))
  {
    hide Path, Step, Move, Return, InAdd;
    UBegins(store, t, pc, u, UseBuiltinFor(e));
    on := Go(from, actions, t, One(store, t, pc), Begin(u, UseBuiltinFor(e)));
    UseOpens(store, t, pc, u, e);
    on := UGo(from, on, store, t, pc, u, UseAcquireBound(e), UseLookup(e), store);
    on := UGo(from, on, store, t, pc, u, UseLookup(e), UseAcquirePending(e), store);
  }

  lemma UsePops(from: nat, actions: seq<Action>, store: Store, t: ThreadId, pc: Pc, u: ThreadId, e: EncoderId)
    returns (on: seq<Action>)
    requires Path(from, actions, t, Two(store, t, pc, u, UseAcquirePending(e))) && t != u && store.pending != []
    ensures actions <= on && Path(from, on, t, Two(TakeFirst(store), t, pc, u, UseInsert(e)))
  {
    hide Path, Step, Move, Return, TakeFirst;
    UMoves(store, t, pc, u, UseAcquirePending(e), UsePop(e), store);
    UseContinues(store, t, pc, u, UseAcquirePending(e));
    on := UGo(from, actions, store, t, pc, u, UseAcquirePending(e), UsePop(e), store);
    UseContinues(store, t, pc, u, UsePop(e));
    on := UGo(from, on, store, t, pc, u, UsePop(e), UseInsert(e), TakeFirst(store));
  }

  /** `u` binds a new encoder id to the oldest reservation. */
  lemma UseCall(from: nat, actions: seq<Action>, store: Store, t: ThreadId, pc: Pc, u: ThreadId, e: EncoderId)
    returns (on: seq<Action>)
    requires Path(from, actions, t, One(store, t, pc)) && t != u && !InAdd(pc)
    requires e !in store.bound && store.pending != []
    ensures actions <= on && Path(from, on, t, One(Insert(TakeFirst(store), e), t, pc))
  {
    var taken := TakeFirst(store);
    hide Path, Step, Move, Return, Insert, TakeFirst;
    on := UseLooksUp(from, actions, store, t, pc, u, e);
    on := UsePops(from, on, store, t, pc, u, e);
    UseContinues(taken, t, pc, u, UseInsert(e));
    UMoves(taken, t, pc, u, UseInsert(e), UseInsert(e), Insert(taken, e));
    on := Go(from, on, t, Two(taken, t, pc, u, UseInsert(e)), Continue(u));
  }

  function Retracted(store: Store, track: TrackId): Store {
    DegradeTrack(Retain(MarkDead(store, track), track), track)
  }

  lemma RetractRetains(from: nat, actions: seq<Action>, store: Store, t: ThreadId, pc: Pc, u: ThreadId, track: TrackId)
    returns (on: seq<Action>)
    requires Path(from, actions, t, One(store, t, pc)) && t != u && !InAdd(pc)
    ensures actions <= on
    ensures Path(from, on, t, Two(Retain(MarkDead(store, track), track), t, pc, u, RetractScanPending(track)))
  {
    var dead := MarkDead(store, track);
    var store' := Retain(dead, track);
    hide Path, Step, Move, Return, Retain, MarkDead;
    UBegins(store, t, pc, u, Retract(track));
    on := Go(from, actions, t, One(store, t, pc), Begin(u, Retract(track)));
    RetractContinues(dead, t, pc, u, RetractAcquirePending(track));
    UMoves(dead, t, pc, u, RetractAcquirePending(track), RetractRetain(track), dead);
    on := UGo(from, on, dead, t, pc, u, RetractAcquirePending(track), RetractRetain(track), dead);
    RetractContinues(dead, t, pc, u, RetractRetain(track));
    on := UGo(from, on, dead, t, pc, u, RetractRetain(track), RetractAcquirePendingAgain(track), store');
    RetractContinues(store', t, pc, u, RetractAcquirePendingAgain(track));
    UMoves(store', t, pc, u, RetractAcquirePendingAgain(track), RetractScanPending(track), store');
    on := UGo(from, on, store', t, pc, u, RetractAcquirePendingAgain(track), RetractScanPending(track), store');
  }

  lemma RetractScans(from: nat, actions: seq<Action>, store: Store, t: ThreadId, pc: Pc, u: ThreadId, track: TrackId)
    returns (on: seq<Action>)
    requires Path(from, actions, t, Two(store, t, pc, u, RetractScanPending(track))) && t != u
    ensures actions <= on && Path(from, on, t, Two(store, t, pc, u, RetractAcquireBoundAgain(track)))
  {
    hide Path, Step, Move, Return, PendingCustom;
    var scan, acquire, look, again := RetractScanPending(track), RetractAcquireBound(track),
      RetractScanBound(track), RetractAcquireBoundAgain(track);
    RetractContinues(store, t, pc, u, scan);
    UMoves(store, t, pc, u, scan, again, store);
    if PendingCustom(store.pending) {
      on := UGo(from, actions, store, t, pc, u, scan, again, store);
    } else {
      on := UGo(from, actions, store, t, pc, u, scan, acquire, store);
      RetractContinues(store, t, pc, u, acquire);
      UMoves(store, t, pc, u, acquire, look, store);
      on := UGo(from, on, store, t, pc, u, acquire, look, store);
      RetractContinues(store, t, pc, u, look);
      UMoves(store, t, pc, u, look, again, store);
      on := UGo(from, on, store, t, pc, u, look, again, store);
    }
  }

  /** `u` retracts a track, start to end. */
  lemma RetractCall(from: nat, actions: seq<Action>, store: Store, t: ThreadId, pc: Pc, u: ThreadId, track: TrackId)
    returns (on: seq<Action>)
    requires Path(from, actions, t, One(store, t, pc)) && t != u && !InAdd(pc)
    ensures actions <= on && Path(from, on, t, One(Retracted(store, track), t, pc))
  {
    var kept := Retain(MarkDead(store, track), track);
    hide Path, Step, Move, Return, Retain, MarkDead, DegradeTrack;
    on := RetractRetains(from, actions, store, t, pc, u, track);
    on := RetractScans(from, on, kept, t, pc, u, track);
    RetractContinues(kept, t, pc, u, RetractAcquireBoundAgain(track));
    UMoves(kept, t, pc, u, RetractAcquireBoundAgain(track), RetractDegrade(track), kept);
    on := UGo(from, on, kept, t, pc, u, RetractAcquireBoundAgain(track), RetractDegrade(track), kept);
    RetractContinues(kept, t, pc, u, RetractDegrade(track));
    UMoves(kept, t, pc, u, RetractDegrade(track), RetractDegrade(track), DegradeTrack(kept, track));
    on := Go(from, on, t, Two(kept, t, pc, u, RetractDegrade(track)), Continue(u));
  }

  // ---------------------------------------------------------------------
  // Whole rounds of calls
  // ---------------------------------------------------------------------

  /** Every reservation is bound. */
  lemma {:induction false} BindAll(from: nat, actions: seq<Action>, store: Store, t: ThreadId, pc: Pc, u: ThreadId)
    returns (on: seq<Action>, store': Store)
    requires Path(from, actions, t, One(store, t, pc)) && t != u && !InAdd(pc) && store.inFlight.None?
    ensures actions <= on && Path(from, on, t, One(store', t, pc))
    ensures store'.pending == [] && store'.inFlight.None?
    ensures store'.reserved == store.reserved && store'.dead == store.dead
    ensures forall q: SlotId :: Live(store, q) ==> Live(store', q)
    decreases |store.pending|
  {
    assert Run(actions).store == store;
    hide Path, Run, Live;
    if store.pending == [] {
      on, store' := actions, store;
    } else {
      var e := FreshId(store.bound.Keys);
      StoreOfRun(actions);
      BindingStaysLive(store, e);
      on := UseCall(from, actions, store, t, pc, u, e);
      hide StoreInv;
      on, store' := BindAll(from, on, Insert(TakeFirst(store), e), t, pc, u);
    }
  }

  lemma BindingStaysLive(store: Store, e: EncoderId)
    requires StoreInv(store) && store.pending != [] && store.inFlight.None? && e !in store.bound
    ensures forall q: SlotId :: Live(store, q) ==> Live(Insert(TakeFirst(store), e), q)
  {
    hide Faithful, Accounted, Routed, Erased, Ascending;
    var store' := Insert(TakeFirst(store), e);
    forall q: SlotId | Live(store, q) ensures Live(store', q) {
      if IsPending(store, q) {
        assert store.pending == [store.pending[0]] + store.pending[1..];
        assert store.reserved[q] == store.pending[0] || store.reserved[q] in store.pending[1..];
      }
    }
  }

  lemma ReservingStaysLive(store: Store, track: TrackId)
    ensures forall q: SlotId :: Live(store, q) ==> Live(Reserve(store, track, Custom), q)
    ensures Live(Reserve(store, track, Custom), |store.reserved|)
  {
    var r := Reservation(|store.reserved|, track, Custom);
    assert (store.pending + [r])[|store.pending|] == r;
  }

  /** What retracting `tracks` leaves. */
  ghost predicate Stripped(store: Store, tracks: set<TrackId>, store': Store) {
    && store'.dead == store.dead + tracks && store'.reserved == store.reserved
    && store'.inFlight == store.inFlight
    && (forall r :: r in store'.pending <==> r in store.pending && r.track !in tracks)
    && (forall e :: e in store'.bound && !store'.bound[e].slot.Builtin? ==>
         e in store.bound && store'.bound[e] == store.bound[e] && store.bound[e].track !in tracks)
  }

  lemma RetractedIsStripped(store: Store, track: TrackId)
    ensures Stripped(store, {track}, Retracted(store, track))
  {
    DegradedBindings(store.bound, track);
    hide Degraded, Without;
  }

  lemma StrippedMore(store: Store, tracks: set<TrackId>, store1: Store, track: TrackId, store2: Store)
    requires Stripped(store, tracks, store1) && Stripped(store1, {track}, store2)
    ensures Stripped(store, tracks + {track}, store2)
  {
  }

  lemma {:induction false} RetractAll(from: nat, actions: seq<Action>, store: Store, t: ThreadId, pc: Pc, u: ThreadId,
    tracks: set<TrackId>) returns (on: seq<Action>, store': Store)
    requires Path(from, actions, t, One(store, t, pc)) && t != u && !InAdd(pc)
    ensures actions <= on && Path(from, on, t, One(store', t, pc)) && Stripped(store, tracks, store')
    decreases tracks
  {
    hide Path, Retracted;
    if tracks == {} {
      on, store' := actions, store;
      assert store.dead + {} == store.dead;
    } else {
      var track :| track in tracks;
      hide Stripped;
      var rest;
      on, rest := RetractAll(from, actions, store, t, pc, u, tracks - {track});
      on := RetractCall(from, on, rest, t, pc, u, track);
      store' := Retracted(rest, track);
      RetractedIsStripped(rest, track);
      StrippedMore(store, tracks - {track}, rest, track, store');
      assert tracks - {track} + {track} == tracks;
    }
  }

  // ---------------------------------------------------------------------
  // The schedule
  // ---------------------------------------------------------------------

  /** `t` finds nothing pending. */
  lemma ScansPending(from: nat, actions: seq<Action>, store: Store, t: ThreadId, since: nat) returns (on: seq<Action>)
    requires Path(from, actions, t, One(store, t, HasAcquirePending(since))) && store.pending == []
    ensures actions <= on && Path(from, on, t, One(store, t, HasAcquireBound(since)))
  {
    hide Path, AdvanceAdd, AdvanceUse, AdvanceRetract, AdvanceEncode, AdvanceOther;
    var s := One(store, t, HasAcquirePending(since));
    var s' := Shared(store, Some(t), None, map[], map[t := HasScanPending(since)]);
    assert Step(s, Continue(t)) == s';
    on := Go(from, actions, t, s, Continue(t));
    assert Step(s', Continue(t)) == One(store, t, HasAcquireBound(since));
    on := Go(from, on, t, s', Continue(t));
  }

  /** `t` finds nothing bound. */
  lemma ScansBound(from: nat, actions: seq<Action>, store: Store, t: ThreadId, since: nat) returns (on: seq<Action>)
    requires Path(from, actions, t, One(store, t, HasAcquireBound(since))) && !BoundCustom(store.bound)
    ensures actions <= on && Path(from, on, t, One(store, t, HasDone(since, false)))
  {
    hide Path, AdvanceAdd, AdvanceUse, AdvanceRetract, AdvanceEncode, AdvanceOther, BoundCustom;
    var s := One(store, t, HasAcquireBound(since));
    var s' := Shared(store, None, Some(t), map[], map[t := HasScanBound(since)]);
    assert Step(s, Continue(t)) == s';
    on := Go(from, actions, t, s, Continue(t));
    assert Step(s', Continue(t)) == One(store, t, HasDone(since, false));
    on := Go(from, on, t, s', Continue(t));
  }

  function BoundTracks(store: Store): set<TrackId> {
    set e | e in store.bound && !store.bound[e].slot.Builtin? :: store.bound[e].track
  }

  lemma NoneBoundIsLeft(store: Store, store': Store)
    requires Stripped(store, BoundTracks(store), store')
    ensures !BoundCustom(store'.bound)
  {
  }

  /** A bound custom slot is a live one. */
  lemma BoundTracksAreLive(store: Store, track: TrackId) returns (q: SlotId)
    requires StoreInv(store) && track in BoundTracks(store)
    ensures Live(store, q) && store.reserved[q].track == track
  {
    hide Placed, Accounted, Routed, Erased, Ascending;
    var e :| e in store.bound && !store.bound[e].slot.Builtin? && store.bound[e].track == track;
    q := store.bound[e].id.value;
  }

  /** A track no reservation has, and no retraction was begun for. */
  lemma FreshTrack(store: Store) returns (track: TrackId)
    ensures track !in store.dead && forall q :: 0 <= q < |store.reserved| ==> store.reserved[q].track != track
  {
    var tracks := set q | 0 <= q < |store.reserved| :: store.reserved[q].track;
    track := FreshId(store.dead + tracks);
    assert forall q :: 0 <= q < |store.reserved| ==> store.reserved[q].track in store.dead + tracks;
  }

  /**
   Bind everything, scan what is pending, add, retract everything bound, scan
   what is bound.
   */
  lemma Schedule(from: nat, asked: seq<Action>, t: ThreadId, store: Store, since: nat)
    returns (handover: seq<Action>, on: seq<Action>, added: SlotId)
    requires Path(from, asked, t, One(store, t, HasAcquirePending(since))) && store.inFlight.None?
    ensures asked <= handover <= on
    ensures (forall k :: from <= k <= |on| ==> t in Run(on[..k]).calls) && t in Run(on).calls
    ensures Run(on).calls[t] == HasDone(since, false)
    ensures forall q: SlotId :: Live(store, q) ==> Live(Run(handover).store, q)
    ensures Live(Run(handover).store, added) && Live(Run(on).store, added)
    ensures forall track :: track in Run(on).store.dead && track !in store.dead ==>
      exists q: SlotId :: LiveOf(store, q, {track})
  {
    var rest, u := HasAcquireBound(since), if t == 0 then 1 else 0;
    hide Run, Step, Inv, Live, Reserve, Stripped, BoundTracks, StoreInv, Path;
    PathEnds(from, asked, t, One(store, t, HasAcquirePending(since)));
    var bindings, bound, left;
    bindings, bound := BindAll(from, asked, store, t, HasAcquirePending(since), u);
    PathEnds(from, bindings, t, One(bound, t, HasAcquirePending(since)));
    on := ScansPending(from, bindings, bound, t, since);
    StoreOfRun(bindings);
    var track := FreshTrack(bound);
    on := AddCall(from, on, bound, t, rest, u, track);
    ReservingStaysLive(bound, track);
    var more := Reserve(bound, track, Custom);
    handover, added := on, |bound.reserved|;
    PathEnds(from, handover, t, One(more, t, rest));
    on, left := RetractAll(from, on, more, t, rest, u, BoundTracks(more));
    NoneBoundIsLeft(more, left);
    on := ScansBound(from, on, left, t, since);
    PathEnds(from, on, t, One(left, t, HasDone(since, false)));
    AddedIsSpared(bound, track, left);
    DeadAfter(bound, track, left);
    BoundWereLive(asked, bindings, bound);
  }

  lemma PathEnds(from: nat, actions: seq<Action>, t: ThreadId, s: Shared)
    requires Path(from, actions, t, s)
    ensures Run(actions) == s && from <= |actions| && forall k :: from <= k <= |actions| ==> t in Run(actions[..k]).calls
  {
    hide Run;
  }

  lemma DeadAfter(bound: Store, track: TrackId, left: Store)
    requires Stripped(Reserve(bound, track, Custom), BoundTracks(Reserve(bound, track, Custom)), left)
    ensures left.dead == bound.dead + BoundTracks(bound)
  {
    assert Reserve(bound, track, Custom).bound == bound.bound;
  }

  /** The added slot is pending, and no bound slot has its track. */
  lemma AddedIsSpared(bound: Store, track: TrackId, left: Store)
    requires StoreInv(bound) && forall q :: 0 <= q < |bound.reserved| ==> bound.reserved[q].track != track
    requires Stripped(Reserve(bound, track, Custom), BoundTracks(Reserve(bound, track, Custom)), left)
    ensures Live(left, |bound.reserved|)
  {
    var more := Reserve(bound, track, Custom);
    if track in BoundTracks(more) {
      assert track in BoundTracks(bound);
      var q := BoundTracksAreLive(bound, track);
    }
    assert more.pending[|bound.pending|] == more.reserved[|bound.reserved|];
    assert more.reserved[|bound.reserved|] in left.pending;
  }

  lemma BoundWereLive(before: seq<Action>, later: seq<Action>, bound: Store)
    requires before <= later && Run(later).store == bound && |bound.reserved| == |Run(before).store.reserved|
    ensures forall track :: track in BoundTracks(bound) ==>
      exists q: SlotId :: LiveOf(Run(before).store, q, {track})
  {
    StoreOfRun(later);
    var more := later[|before|..];
    assert before + more == later;
    RunsOnlyGetLater(before, more);
    hide Run, StoreInv, Live, BoundTracks;
    forall track | track in BoundTracks(bound)
      ensures exists q: SlotId :: LiveOf(Run(before).store, q, {track})
    {
      var q := BoundTracksAreLive(bound, track);
      LiveIsReserved(bound, q);
      assert LiveOf(Run(before).store, q, {track});
    }
  }

  lemma LiveIsReserved(s: Store, q: SlotId)
    requires Live(s, q)
    ensures q < |s.reserved| && !s.reserved[q].slot.Builtin?
  {
  }

  ghost predicate SomeLive(s: Store) {
    exists q: SlotId :: Live(s, q)
  }

  /** A custom slot of one of these tracks. */
  predicate LiveOf(s: Store, q: SlotId, tracks: set<TrackId>) {
    Live(s, q) && s.reserved[q].track in tracks
  }

  lemma ScheduleIsCall(before: seq<Action>, t: ThreadId, on: seq<Action>) returns (during: seq<Action>)
    requires t !in Run(before).calls && Asked(before, t) <= on
    requires forall k :: |Asked(before, t)| <= k <= |on| ==> t in Run(on[..k]).calls
    requires t in Run(on).calls && Run(on).calls[t].HasDone?
    ensures Asked(before, t) + during == on && IsCall(before, t, during)
  {
    hide Run;
    var asked := Asked(before, t);
    hide Asked;
    during := on[|asked|..];
    assert asked + during == on;
    forall k | 0 <= k <= |during| ensures t in Run(asked + during[..k]).calls {
      assert asked + during[..k] == on[..|asked| + k];
    }
  }

  // ---------------------------------------------------------------------
  // Calls under way when the question is asked
  // ---------------------------------------------------------------------

  /** About to reserve a custom slot for one of these tracks. */
  predicate Adding(pc: Pc, tracks: set<TrackId>) {
    InAdd(pc) && pc.track in tracks && !pc.slot.Builtin?
  }

  ghost predicate NobodyAdds(s: Shared, tracks: set<TrackId>) {
    forall u :: u in s.calls ==> !Adding(s.calls[u], tracks)
  }

  /** No custom slot of these tracks was reserved from `since` on. */
  ghost predicate NoneAdded(s: Store, tracks: set<TrackId>, since: nat) {
    && since <= |s.reserved|
    && forall q :: since <= q < |s.reserved| ==> s.reserved[q].track in tracks ==> s.reserved[q].slot.Builtin?
  }

  /** What a call that is not adding leaves alone. */
  ghost predicate AddsNothing(s: Shared, u: ThreadId, s': Shared) {
    && s'.store.reserved == s.store.reserved && s'.store.dead == s.store.dead
    && (u in s'.calls ==> !InAdd(s'.calls[u]))
  }

  lemma RetractAddsNothing(s: Shared, u: ThreadId)
    requires u in s.calls && InRetract(s.calls[u])
    ensures AddsNothing(s, u, AdvanceRetract(s, u))
  {
    hide PendingCustom, Without, Degraded;
  }

  lemma HasAddsNothing(s: Shared, u: ThreadId)
    requires u in s.calls && InHas(s.calls[u])
    ensures AddsNothing(s, u, AdvanceHas(s, u))
  {
    hide PendingCustom, BoundCustom;
  }

  lemma UseAddsNothing(s: Shared, u: ThreadId)
    requires u in s.calls && InUse(s.calls[u])
    ensures AddsNothing(s, u, AdvanceUse(s, u))
  {
    hide BoundCustom;
  }

  lemma EncodeAddsNothing(s: Shared, u: ThreadId)
    requires u in s.calls && InEncode(s.calls[u])
    ensures AddsNothing(s, u, AdvanceEncode(s, u))
  {
  }

  lemma OtherAddsNothing(s: Shared, u: ThreadId)
    requires u in s.calls && (InLookup(s.calls[u]) || AtCallback(s.calls[u]))
    ensures AddsNothing(s, u, AdvanceOther(s, u))
  {
  }

  lemma AddAddsItsSlot(s: Shared, u: ThreadId, tracks: set<TrackId>, since: nat)
    requires u in s.calls && InAdd(s.calls[u]) && !Adding(s.calls[u], tracks) && NoneAdded(s.store, tracks, since)
    ensures var s' := AdvanceAdd(s, u);
      && s'.store.dead == s.store.dead && NoneAdded(s'.store, tracks, since)
      && (u in s'.calls ==> !Adding(s'.calls[u], tracks))
  {
  }

  lemma AdvanceAddsNone(s: Shared, u: ThreadId, tracks: set<TrackId>, since: nat)
    requires Inv(s) && u in s.calls && NobodyAdds(s, tracks) && NoneAdded(s.store, tracks, since)
    ensures var s' := Advance(s, u);
      s'.store.dead == s.store.dead && NobodyAdds(s', tracks) && NoneAdded(s'.store, tracks, since)
  {
    AdvanceMovesOne(s, u);
    hide AdvanceAdd, AdvanceHas, AdvanceRetract, AdvanceUse, AdvanceEncode, AdvanceOther, Inv;
    var pc := s.calls[u];
    if InAdd(pc) {
      AddAddsItsSlot(s, u, tracks, since);
    } else if InHas(pc) {
      HasAddsNothing(s, u);
    } else if InRetract(pc) {
      RetractAddsNothing(s, u);
    } else if InEncode(pc) {
      EncodeAddsNothing(s, u);
    } else if InLookup(pc) || AtCallback(pc) {
      OtherAddsNothing(s, u);
    } else {
      UseAddsNothing(s, u);
    }
  }

  /** The asking thread holds up nobody before it starts to scan. */
  lemma SomeOtherMoves(s: Shared, t: ThreadId) returns (u: ThreadId)
    requires Locks(s) && t in s.calls && s.calls[t].HasAcquirePending? && s.calls != map[t := s.calls[t]]
    ensures u != t && u in s.calls && Enabled(s, u)
  {
    assert !HoldsPending(s.calls[t]) && !HoldsBound(s.calls[t]);
    u :| u in s.calls && u != t;
    if s.pendingLock.Some? {
      u := s.pendingLock.value;
    } else if s.boundLock.Some? {
      u := s.boundLock.value;
    } else if !Enabled(s, u) {
      u := s.callbackLocks[s.calls[u].cb];
    }
  }

  /** All others return while `t` waits to begin its scan. */
  lemma {:induction false} OthersReturn(
    from: nat, actions: seq<Action>, t: ThreadId, since: nat, tracks: set<TrackId>) returns (on: seq<Action>)
    requires Path(from, actions, t, Run(actions)) && t in Run(actions).calls
    requires Run(actions).calls[t] == HasAcquirePending(since)
    requires NobodyAdds(Run(actions), tracks) && NoneAdded(Run(actions).store, tracks, since)
    ensures actions <= on && Path(from, on, t, Run(on)) && Run(on).calls == map[t := HasAcquirePending(since)]
    ensures Run(on).store.dead == Run(actions).store.dead && NoneAdded(Run(on).store, tracks, since)
    decreases Work(Run(actions).calls)
  {
    var s := Run(actions);
    EveryRunKeepsInv(actions);
    assert Locks(s);
    hide Run, Path, Inv, Locks, NobodyAdds, NoneAdded, Advance, Work, Enabled;
    if s.calls == map[t := HasAcquirePending(since)] {
      on := actions;
    } else {
      var u := SomeOtherMoves(s, t);
      StepsUseUpWork(s, u);
      AdvanceMovesOne(s, u);
      AdvanceAddsNone(s, u, tracks, since);
      Extend(actions, Continue(u));
      on := Go(from, actions, t, s, Continue(u));
      PathEnds(from, on, t, Advance(s, u));
      on := OthersReturn(from, on, t, since, tracks);
    }
  }

  lemma Alone(s: Shared, t: ThreadId, since: nat)
    requires Inv(s) && s.calls == map[t := HasAcquirePending(since)]
    ensures s == One(s.store, t, HasAcquirePending(since)) && s.store.inFlight.None?
  {
    hide StoreInv, PcOk;
    assert s.callbackLocks == map[];
  }

  lemma Asks(before: seq<Action>, t: ThreadId)
    requires t !in Run(before).calls
    ensures var s, asked := Run(before), Asked(before, t);
      && Path(|asked|, asked, t, Run(asked))
      && Run(asked) == s.(calls := s.calls[t := HasAcquirePending(|s.store.reserved|)])
  {
    Extend(before, Begin(t, HasCustom));
    hide Run;
    assert Asked(before, t)[..|Asked(before, t)|] == Asked(before, t);
  }

  // ---------------------------------------------------------------------
  // The results
  // ---------------------------------------------------------------------

  /**
   Whether the answer is certain, for any tracks known not to be retracted
   before `has_custom` returns: unless a custom slot for one of them is just
   being added, the answer is yes on every schedule exactly when one of them has
   a custom slot when the call begins, whatever else is under way.
   */
  lemma CertainIffASparedSlotExists(before: seq<Action>, t: ThreadId, spared: set<TrackId>)
    requires t !in Run(before).calls && NobodyAdds(Run(before), spared) && spared !! Run(before).store.dead
    ensures
      (forall during :: IsCall(before, t, during) && spared !! Run(Asked(before, t) + during).store.dead ==>
        Answer(before, t, during))
      <==>
      (exists q: SlotId :: LiveOf(Run(before).store, q, spared))
  {
    hide Run, Live, Inv, Answer, IsCall, NobodyAdds;
    var store := Run(before).store;
    if exists q: SlotId :: LiveOf(store, q, spared) {
      var q: SlotId :| LiveOf(store, q, spared);
      LiveIsReserved(store, q);
      forall during | IsCall(before, t, during) && spared !! Run(Asked(before, t) + during).store.dead
        ensures Answer(before, t, during)
      {
        AnAttachedSlotIsSeen(before, t, during, q);
      }
    } else {
      var during := NoIsPossible(before, t, spared);
      assert IsCall(before, t, during) && !Answer(before, t, during);
    }
  }

  /** Everyone else returns first. */
  lemma WaitsForOthers(before: seq<Action>, t: ThreadId, tracks: set<TrackId>) returns (ready: seq<Action>, store: Store)
    requires t !in Run(before).calls && NobodyAdds(Run(before), tracks)
    ensures var asked, since := Asked(before, t), |Run(before).store.reserved|;
      && before <= asked <= ready && Run(ready).store == store && store.inFlight.None?
      && Path(|asked|, ready, t, One(store, t, HasAcquirePending(since)))
      && store.dead == Run(before).store.dead && NoneAdded(store, tracks, since)
  {
    var asked, since := Asked(before, t), |Run(before).store.reserved|;
    Asks(before, t);
    assert before <= asked;
    assert !Adding(HasAcquirePending(since), tracks);
    hide Run, Path, Asked, Adding, Inv;
    ready := OthersReturn(|asked|, asked, t, since, tracks);
    store := Run(ready).store;
    EveryRunKeepsInv(ready);
    Alone(Run(ready), t, since);
  }

  /** Nothing of the spared tracks is live once the others returned, if nothing was before. */
  lemma StillNoneLive(before: seq<Action>, later: seq<Action>, q: SlotId, spared: set<TrackId>)
    requires before <= later && NoneAdded(Run(later).store, spared, |Run(before).store.reserved|)
    requires !LiveOf(Run(before).store, q, spared)
    ensures !LiveOf(Run(later).store, q, spared)
  {
    var more := later[|before|..];
    assert before + more == later;
    RunsOnlyGetLater(before, more);
    hide Run, Live;
    if LiveOf(Run(later).store, q, spared) {
      LiveIsReserved(Run(later).store, q);
    }
  }

  lemma NoIsPossible(before: seq<Action>, t: ThreadId, spared: set<TrackId>) returns (during: seq<Action>)
    requires t !in Run(before).calls && NobodyAdds(Run(before), spared) && spared !! Run(before).store.dead
    requires forall q: SlotId :: !LiveOf(Run(before).store, q, spared)
    ensures IsCall(before, t, during) && !Answer(before, t, during)
    ensures spared !! Run(Asked(before, t) + during).store.dead
  {
    var asked, since := Asked(before, t), |Run(before).store.reserved|;
    hide Run, Live, IsCall, Path, NoneAdded, Asked;
    var ready, store := WaitsForOthers(before, t, spared);
    var handover, on, added := Schedule(|asked|, ready, t, store, since);
    during := ScheduleIsCall(before, t, on);
    forall track | track in Run(on).store.dead ensures track !in spared {
      if track !in store.dead {
        var q: SlotId :| LiveOf(store, q, {track});
        StillNoneLive(before, ready, q, spared);
      }
    }
  }

  ghost predicate Quiet(s: Shared) {
    s.calls == map[]
  }

  /**
   From any registry with no call under way and some custom slot in it, a
   schedule on which a custom slot exists at every moment of the call and the
   answer is no: the slots there from the start are still bound while a new one
   is added to the list already scanned, and then they are retracted.
   */
  lemma HasCustomMissesASuccession(before: seq<Action>, t: ThreadId) returns (during: seq<Action>)
    requires Quiet(Run(before)) && SomeLive(Run(before).store)
    ensures IsCall(before, t, during) && !Answer(before, t, during)
    ensures forall k :: 0 <= k <= |during| ==> SomeLive(Run(Asked(before, t) + during[..k]).store)
  {
    Asks(before, t);
    var asked, store := Asked(before, t), Run(before).store;
    EveryRunKeepsInv(asked);
    hide Run, Live, IsCall, Asked, Inv, Path;
    var first: SlotId :| Live(store, first);
    LiveIsReserved(store, first);
    Alone(Run(asked), t, |store.reserved|);
    var handover, on, added := Schedule(|asked|, asked, t, store, |store.reserved|);
    during := ScheduleIsCall(before, t, on);
    LiveIsReserved(Run(handover).store, added);
    forall k | 0 <= k <= |during| ensures SomeLive(Run(asked + during[..k]).store) {
      var here := asked + during[..k];
      assert here == on[..|here|];
      if |here| <= |handover| {
        LaterThanAsked(before, t, during[..k]);
        LivedSince(here, handover, first);
      } else {
        ReservedSince(handover, here, added);
        LivedSince(here, on, added);
      }
    }
  }

  lemma ReservedSince(before: seq<Action>, later: seq<Action>, q: SlotId)
    requires before <= later && q < |Run(before).store.reserved|
    ensures q < |Run(later).store.reserved|
  {
    var more := later[|before|..];
    assert before + more == later;
    RunsOnlyGetLater(before, more);
    hide Run, Live;
  }

  /** A slot that is live later, and was reserved already, was live all along. */
  lemma LivedSince(before: seq<Action>, later: seq<Action>, q: SlotId)
    requires before <= later && q < |Run(before).store.reserved| && Live(Run(later).store, q)
    ensures Live(Run(before).store, q)
  {
    var more := later[|before|..];
    assert before + more == later;
    RunsOnlyGetLater(before, more);
    hide Run, Live;
  }
}
