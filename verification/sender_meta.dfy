/**
 A track's outgoing metadata, found again by capture millisecond
 (crates/reactor-webrtc/src/media.rs): keys claimed by a compare-and-swap loop
 that any number of pushing threads run at once, and a map of the newest 300
 entries.
 */
module SenderMeta {
  import opened Wrappers
  import opened Metadata

  const SENDER_META_CAP: nat := 300

  /** Division as on i64: towards zero. */
  function Millis(us: int): int {
    if us >= 0 then us / 1000 else -((-us) / 1000)
  }

  /** The map and its eviction queue. */
  datatype Table = Table(entries: map<int, FrameMetadata>, order: seq<int>)

  const EMPTY := Table(map[], [])

  function Evict(t: Table): Table {
    if |t.order| >= SENDER_META_CAP then Table(t.entries - {t.order[0]}, t.order[1..]) else t
  }

  /** An entry that is already there stays as it is. */
  function Inserted(t: Table, key: int, meta: FrameMetadata): Table {
    var t' := Evict(t);
    Table(if key in t'.entries then t'.entries else t'.entries[key := meta], t'.order + [key])
  }

  function Lookup(t: Table, captureMs: int): Option<FrameMetadata> {
    if captureMs <= 0 then None
    else if captureMs in t.entries then Some(t.entries[captureMs])
    else None
  }

  // ---------------------------------------------------------------------
  // One thread at a time
  // ---------------------------------------------------------------------

  /** What stands between a load and the swap after it: another thread's store, or a spurious failure. */
  datatype Interference = Store(value: int) | Spurious

  function Stored(last: int, others: seq<Interference>): int {
    if others == [] then last
    else match others[|others| - 1]
      case Store(value) => value
      case Spurious => Stored(last, others[..|others| - 1])
  }

  class Sender {
    var last: int
    var entries: map<int, FrameMetadata>
    var order: seq<int>

    function Contents(): Table
      reads this
    {
      Table(entries, order)
    }

    constructor ()
      ensures last == 0 && Contents() == EMPTY
    {
      last := 0;
      entries := map[];
      order := [];
    }

    /**
     The swap of attempt `i` meets `others[i]`, and after the last of them
     nothing more interferes. `used` attempts failed.
     */
    method NextUniqueCaptureMs(rawMs: int, others: seq<Interference>) returns (next: int, ghost used: nat)
      modifies this`last
      ensures used <= |others|
      ensures last == next == Max(rawMs, Stored(old(last), others[..used]) + 1)
    {
      var prev := last;
      used := 0;
      var i := 0;
      next := Max(rawMs, prev + 1);
      while i < |others|
        invariant 0 <= i <= |others| && used == i
        invariant prev == last == Stored(old(last), others[..i])
        invariant next == Max(rawMs, prev + 1)
      {
        assert others[..i + 1][..i] == others[..i];
        if others[i].Store? {
          last := others[i].value;
        }
        if last == prev && !others[i].Spurious? {
          // The same value was stored again: the swap cannot tell.
          last := next;
          used := i + 1;
          return;
        }
        prev := last;
        i := i + 1;
        used := i;
        next := Max(rawMs, prev + 1);
      }
      last := next;
    }

    method AllocSendCaptureUs(requested: int, others: seq<Interference>) returns (us: int, ghost used: nat)
      modifies this`last
      ensures used <= |others|
      ensures last == Max(Millis(requested), Stored(old(last), others[..used]) + 1)
      ensures us == last * 1000 && (last >= 0 ==> Millis(us) == last)
    {
      var next;
      next, used := NextUniqueCaptureMs(Millis(requested), others);
      us := next * 1000;
    }

    method InsertSenderMeta(captureMs: int, meta: FrameMetadata)
      modifies this`entries, this`order
      ensures Contents() == Inserted(old(Contents()), captureMs, meta)
    {
      if |order| >= SENDER_META_CAP {
        var oldKey := order[0];
        order := order[1..];
        entries := entries - {oldKey};
      }
      if captureMs !in entries {
        entries := entries[captureMs := meta];
      }
      order := order + [captureMs];
    }

    method Take(captureMs: int) returns (meta: Option<FrameMetadata>)
      ensures meta == Lookup(Contents(), captureMs)
    {
      if captureMs <= 0 {
        return None;
      }
      if captureMs in entries {
        return Some(entries[captureMs]);
      }
      return None;
    }
  }

  // ---------------------------------------------------------------------
  // Any number of threads
  // ---------------------------------------------------------------------

  type ThreadId = nat

  /** Where a push is: before its load, before a swap, between claiming its key and inserting. */
  datatype Pc =
    | Loading(us: int, meta: FrameMetadata)
    | Swapping(us: int, meta: FrameMetadata, prev: int)
    | Inserting(us: int, meta: FrameMetadata, key: int)

  /** A key taken, in the order the swaps succeeded. */
  datatype Claim = Claim(us: int, key: int)

  datatype Entry = Entry(key: int, meta: FrameMetadata)

  datatype State = State(
    last: int,
    table: Table,
    pushes: map<ThreadId, Pc>,
    claims: seq<Claim>,
    /** Every insertion so far, in order. */
    log: seq<Entry>)

  const INIT := State(0, EMPTY, map[], [], [])

  datatype Action =
    | Push(t: ThreadId, us: int, meta: FrameMetadata)
    | Continue(t: ThreadId, spurious: bool)

  function Advance(s: State, t: ThreadId, spurious: bool): State
    requires t in s.pushes
  {
    match s.pushes[t]
    case Loading(us, meta) => s.(pushes := s.pushes[t := Swapping(us, meta, s.last)])
    case Swapping(us, meta, prev) =>
      var next := Max(Millis(us), prev + 1);
      if s.last == prev && !spurious
      then s.(last := next, pushes := s.pushes[t := Inserting(us, meta, next)], claims := s.claims + [Claim(us, next)])
      else s.(pushes := s.pushes[t := Swapping(us, meta, s.last)])
    case Inserting(us, meta, key) =>
      s.(table := Inserted(s.table, key, meta), pushes := s.pushes - {t}, log := s.log + [Entry(key, meta)])
  }

  function Step(s: State, a: Action): State {
    match a
    case Push(t, us, meta) => if t in s.pushes then s else s.(pushes := s.pushes[t := Loading(us, meta)])
    case Continue(t, spurious) => if t in s.pushes then Advance(s, t, spurious) else s
  }

  function Run(actions: seq<Action>): State
    decreases |actions|
  {
    if actions == [] then INIT
    else Step(Run(actions[..|actions| - 1]), actions[|actions| - 1])
  }

  /** The key claimed last before claim `i`. */
  function Before(claims: seq<Claim>, i: nat): int
    requires i <= |claims|
  {
    if i == 0 then 0 else claims[i - 1].key
  }

  /** Each claim is what one thread alone would take after the claims before it. */
  ghost predicate Claimed(last: int, claims: seq<Claim>) {
    && last == Before(claims, |claims|)
    && (forall i {:trigger Before(claims, i)} ::
         0 <= i < |claims| ==> claims[i].key == Max(Millis(claims[i].us), Before(claims, i) + 1))
    && Ascending(claims)
  }

  ghost predicate Ascending(claims: seq<Claim>) {
    forall i, j :: 0 <= i < j < |claims| ==> claims[i].key < claims[j].key
  }

  ghost predicate IsClaim(claims: seq<Claim>, key: int) {
    exists i :: 0 <= i < |claims| && claims[i].key == key
  }

  ghost predicate IsLogged(log: seq<Entry>, key: int) {
    exists i :: 0 <= i < |log| && log[i].key == key
  }

  ghost predicate Distinct(log: seq<Entry>) {
    forall i, j :: 0 <= i < j < |log| ==> log[i].key != log[j].key
  }

  /** A key has one owner: a push still to insert it, or one log entry. */
  ghost predicate Owned(pushes: map<ThreadId, Pc>, claims: seq<Claim>, log: seq<Entry>) {
    && Distinct(log)
    && (forall i :: 0 <= i < |log| ==> IsClaim(claims, log[i].key))
    && (forall t :: t in pushes && pushes[t].Inserting? ==>
         IsClaim(claims, pushes[t].key) && !IsLogged(log, pushes[t].key))
    && (forall t, u :: t in pushes && u in pushes && t != u && pushes[t].Inserting? && pushes[u].Inserting?
         ==> pushes[t].key != pushes[u].key)
  }

  /** The newest entries of the log, 300 at most. */
  function Recent(log: seq<Entry>): seq<Entry> {
    log[|log| - Min(|log|, SENDER_META_CAP)..]
  }

  /** The table holds these entries, in this order, and nothing else. */
  ghost predicate Holds(t: Table, held: seq<Entry>) {
    && |t.order| == |held|
    && (forall i :: 0 <= i < |held| ==>
         t.order[i] == held[i].key && held[i].key in t.entries && t.entries[held[i].key] == held[i].meta)
    && (forall k :: k in t.entries ==> k in t.order)
  }

  ghost predicate Inv(s: State) {
    && Claimed(s.last, s.claims)
    && Owned(s.pushes, s.claims, s.log)
    && Holds(s.table, Recent(s.log))
  }

  lemma ClaimsArePositive(s: State, i: nat)
    requires Claimed(s.last, s.claims) && i < |s.claims|
    ensures s.claims[i].key >= 1
  {
    assert s.claims[0].key >= Before(s.claims, 0) + 1;
    assert i > 0 ==> s.claims[0].key < s.claims[i].key;
  }

  // ---------------------------------------------------------------------
  // The table
  // ---------------------------------------------------------------------

  /** The eviction queue without its oldest key, and the map without that key's entry. */
  lemma DropOldest(t: Table, held: seq<Entry>)
    requires Holds(t, held) && Distinct(held) && held != []
    ensures Holds(Table(t.entries - {t.order[0]}, t.order[1..]), held[1..])
  {
    var first, rest := t.order[0], t.order[1..];
    assert t.order == [first] + rest;
    forall i | 0 <= i < |held| - 1
      ensures rest[i] == held[1..][i].key && rest[i] in t.entries - {first}
      ensures t.entries[rest[i]] == held[1..][i].meta
    {
      assert t.order[i + 1] == held[i + 1].key && held[0].key != held[i + 1].key;
    }
    forall k | k in t.entries - {first} ensures k in rest {
      assert k in [first] + rest;
    }
    hide Holds, Distinct;
    assert Holds(Table(t.entries - {first}, rest), held[1..]) by { HoldsIf(t.entries - {first}, rest, held[1..]); }
  }

  lemma HoldsIf(entries: map<int, FrameMetadata>, order: seq<int>, held: seq<Entry>)
    requires |order| == |held|
    requires forall i :: 0 <= i < |held| ==> order[i] == held[i].key && order[i] in entries
    requires forall i :: 0 <= i < |held| ==> entries[order[i]] == held[i].meta
    requires forall k :: k in entries ==> k in order
    ensures Holds(Table(entries, order), held)
  {
  }

  lemma EvictHolds(t: Table, held: seq<Entry>)
    requires Holds(t, held) && Distinct(held)
    ensures Holds(Evict(t), if |held| >= SENDER_META_CAP then held[1..] else held)
  {
    assert |t.order| == |held|;
    if |held| >= SENDER_META_CAP {
      DropOldest(t, held);
    }
    hide Holds;
  }

  lemma AppendHolds(t: Table, held: seq<Entry>, e: Entry)
    requires Holds(t, held) && forall i :: 0 <= i < |held| ==> held[i].key != e.key
    ensures e.key !in t.entries
    ensures Holds(Table(t.entries[e.key := e.meta], t.order + [e.key]), held + [e])
  {
    var t' := Table(t.entries[e.key := e.meta], t.order + [e.key]);
    assert t'.order[|t.order|] == e.key;
    assert forall k :: k in t.order ==> k in t'.order;
  }

  lemma RecentOf(log: seq<Entry>)
    ensures |Recent(log)| == Min(|log|, SENDER_META_CAP)
    ensures forall i :: 0 <= i < |Recent(log)| ==> Recent(log)[i] == log[|log| - |Recent(log)| + i]
    ensures Distinct(log) ==> Distinct(Recent(log))
  {
  }

  /** The recent entries an insertion keeps. */
  function KeptOf(log: seq<Entry>): seq<Entry> {
    var recent := Recent(log);
    if |recent| >= SENDER_META_CAP then recent[1..] else recent
  }

  lemma RecentAfter(log: seq<Entry>, e: Entry)
    ensures Recent(log + [e]) == KeptOf(log) + [e]
  {
  }

  lemma KeptIsLogged(log: seq<Entry>, key: int)
    requires !IsLogged(log, key)
    ensures forall i :: 0 <= i < |KeptOf(log)| ==> KeptOf(log)[i].key != key
  {
    var kept := KeptOf(log);
    forall i | 0 <= i < |kept| ensures kept[i].key != key {
      assert kept[i] == log[|log| - |kept| + i];
    }
  }

  lemma InsertHolds(t: Table, log: seq<Entry>, e: Entry)
    requires Holds(t, Recent(log)) && Distinct(log) && !IsLogged(log, e.key)
    ensures Holds(Inserted(t, e.key, e.meta), Recent(log + [e]))
  {
    hide Recent, Distinct, Holds, Evict, IsLogged;
    RecentOf(log);
    RecentAfter(log, e);
    EvictHolds(t, Recent(log));
    KeptIsLogged(log, e.key);
    AppendHolds(Evict(t), KeptOf(log), e);
  }

  // ---------------------------------------------------------------------
  // Every step keeps the invariant
  // ---------------------------------------------------------------------

  lemma ClaimNext(last: int, claims: seq<Claim>, us: int)
    requires Claimed(last, claims)
    ensures var next := Max(Millis(us), last + 1);
      && Claimed(next, claims + [Claim(us, next)])
      && !IsClaim(claims, next)
      && IsClaim(claims + [Claim(us, next)], next)
  {
    var next := Max(Millis(us), last + 1);
    var claims' := claims + [Claim(us, next)];
    assert forall i :: 0 <= i <= |claims| ==> Before(claims', i) == Before(claims, i);
    assert claims'[|claims|].key == next;
    hide Millis;
  }

  lemma ClaimsStay(claims: seq<Claim>, more: Claim, key: int)
    requires IsClaim(claims, key)
    ensures IsClaim(claims + [more], key)
  {
    var i :| 0 <= i < |claims| && claims[i].key == key;
    assert (claims + [more])[i].key == key;
  }

  lemma SwapKeepsInv(s: State, t: ThreadId, spurious: bool)
    requires Inv(s) && t in s.pushes && s.pushes[t].Swapping?
    ensures Inv(Advance(s, t, spurious))
  {
    var s' := Advance(s, t, spurious);
    hide Holds, Recent, Millis, Distinct;
    if s'.claims != s.claims {
      ClaimNext(s.last, s.claims, s.pushes[t].us);
      hide Claimed, Max;
      var key := s'.pushes[t].key;
      forall k | IsClaim(s.claims, k) ensures IsClaim(s'.claims, k) {
        ClaimsStay(s.claims, s'.claims[|s.claims|], k);
      }
      assert !IsLogged(s.log, key);
      assert forall u :: u in s.pushes && s.pushes[u].Inserting? ==> s.pushes[u].key != key;
      hide IsClaim, IsLogged;
    } else {
      hide Claimed, IsClaim, IsLogged;
    }
  }

  lemma LogOne(log: seq<Entry>, e: Entry)
    requires Distinct(log) && !IsLogged(log, e.key)
    ensures Distinct(log + [e])
    ensures forall k :: IsLogged(log + [e], k) ==> IsLogged(log, k) || k == e.key
  {
  }

  lemma InsertKeepsInv(s: State, t: ThreadId, spurious: bool)
    requires Inv(s) && t in s.pushes && s.pushes[t].Inserting?
    ensures Inv(Advance(s, t, spurious))
  {
    var s' := Advance(s, t, spurious);
    var e := Entry(s.pushes[t].key, s.pushes[t].meta);
    InsertHolds(s.table, s.log, e);
    LogOne(s.log, e);
    hide Holds, Recent, Claimed, IsClaim, IsLogged, Distinct, Inserted;
  }

  lemma StepKeepsInv(s: State, a: Action)
    requires Inv(s)
    ensures Inv(Step(s, a))
  {
    if a.Continue? && a.t in s.pushes && s.pushes[a.t].Swapping? {
      SwapKeepsInv(s, a.t, a.spurious);
    } else if a.Continue? && a.t in s.pushes && s.pushes[a.t].Inserting? {
      InsertKeepsInv(s, a.t, a.spurious);
    } else {
      hide Holds, Recent, Claimed, IsClaim, IsLogged, Distinct;
    }
  }

  lemma InitIsFine()
    ensures Inv(INIT)
  {
    RecentOf([]);
    hide Recent;
  }

  lemma {:induction false} EveryRunKeepsInv(actions: seq<Action>)
    ensures Inv(Run(actions))
  {
    InitIsFine();
    hide Inv, Step;
    if actions != [] {
      EveryRunKeepsInv(actions[..|actions| - 1]);
      StepKeepsInv(Run(actions[..|actions| - 1]), actions[|actions| - 1]);
    }
  }

  // ---------------------------------------------------------------------
  // What pushes can rely on
  // ---------------------------------------------------------------------

  /**
   Claimed keys are positive, strictly increasing in claiming order and never
   before the millisecond asked for; one that was free is taken as it is.
   */
  lemma KeysAreUnique(actions: seq<Action>, j: nat)
    requires j < |Run(actions).claims|
    ensures var claims := Run(actions).claims;
      && 1 <= claims[j].key
      && claims[j].key >= Millis(claims[j].us)
      && (Before(claims, j) < Millis(claims[j].us) ==> claims[j].key == Millis(claims[j].us))
      && forall i :: 0 <= i < j ==> claims[i].key < claims[j].key
  {
    EveryRunKeepsInv(actions);
    ClaimsArePositive(Run(actions), j);
    hide Run, Owned, Holds, Millis;
    var claims := Run(actions).claims;
    assert claims[j].key == Max(Millis(claims[j].us), Before(claims, j) + 1);
  }

  /** The map holds exactly the keys waiting in its eviction queue, each once. */
  lemma MapAndQueueAgree(actions: seq<Action>)
    ensures var t := Run(actions).table;
      && t.entries.Keys == (set k | k in t.order)
      && |t.order| <= SENDER_META_CAP
      && forall i, j :: 0 <= i < j < |t.order| ==> t.order[i] != t.order[j]
  {
    EveryRunKeepsInv(actions);
    var s := Run(actions);
    RecentOf(s.log);
    hide Run, Claimed, Recent, IsClaim, IsLogged;
    var recent := Recent(s.log);
    assert Distinct(recent) && Holds(s.table, recent);
    hide Owned, Inv;
    forall k ensures k in s.table.entries.Keys <==> k in s.table.order {
    }
  }

  lemma HeldOrNot(t: Table, held: seq<Entry>, key: int)
    requires Holds(t, held)
    ensures key in t.entries <==> IsLogged(held, key)
  {
    if key in t.entries {
      var i :| 0 <= i < |t.order| && t.order[i] == key;
      assert held[i].key == key;
    }
  }

  /**
   A push's key finds that push's own metadata as long as its insertion is among
   the newest 300, and nothing afterwards: never another frame's.
   */
  lemma LookupFindsOwnMetadata(actions: seq<Action>, i: nat)
    requires i < |Run(actions).log|
    ensures var s := Run(actions);
      Lookup(s.table, s.log[i].key) == if i + SENDER_META_CAP >= |s.log| then Some(s.log[i].meta) else None
  {
    EveryRunKeepsInv(actions);
    var s := Run(actions);
    LoggedKeysArePositive(s, i);
    RecentOf(s.log);
    var recent := Recent(s.log);
    HeldOrNot(s.table, recent, s.log[i].key);
    hide Run, Recent, Claimed, IsClaim;
    if i + SENDER_META_CAP >= |s.log| {
      assert recent[i - (|s.log| - |recent|)] == s.log[i];
    }
  }

  lemma LoggedKeysArePositive(s: State, i: nat)
    requires Inv(s) && i < |s.log|
    ensures s.log[i].key >= 1
  {
    hide Claimed, Holds, IsLogged, Distinct;
    assert IsClaim(s.claims, s.log[i].key);
    var c :| 0 <= c < |s.claims| && s.claims[c].key == s.log[i].key;
    ClaimsArePositive(s, c);
  }

  /** A key nobody has inserted yet finds nothing. */
  lemma LookupInventsNothing(actions: seq<Action>, key: int)
    requires !IsLogged(Run(actions).log, key)
    ensures Lookup(Run(actions).table, key) == None
  {
    EveryRunKeepsInv(actions);
    var s := Run(actions);
    RecentOf(s.log);
    HeldOrNot(s.table, Recent(s.log), key);
    hide Run, Claimed, Owned, Recent, Holds;
  }
}
