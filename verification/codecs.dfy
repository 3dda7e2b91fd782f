/**
 Choosing the codec a video sender uses
 (crates/reactor-webrtc-sys/glue/reactor_webrtc.cpp): ordering the endpoint's
 codecs by a list of names before negotiating, and afterwards locking the
 sender to the most preferred codec that was negotiated.
 */
module Codecs {
  import opened Wrappers

  /** A codec capability; `variant` is all that tells two of one name apart. */
  datatype Codec = Codec(name: string, variant: nat)

  /** Where a name first stands in the list, or the list's length. Null entries name nothing. */
  function Rank(names: seq<Option<string>>, name: string): (r: nat)
    ensures r <= |names|
    ensures r < |names| ==> names[r] == Some(name)
    ensures forall k :: 0 <= k < r ==> names[k] != Some(name)
  {
    if names == [] then 0
    else if names[0] == Some(name) then 0
    else 1 + Rank(names[1..], name)
  }

  /** `places[k]` is where the `k`th codec stood, and goes up by rank and then by place. */
  ghost predicate Sorts(caps: seq<Codec>, names: seq<Option<string>>, ordered: seq<Codec>, places: seq<nat>) {
    && |places| == |ordered|
    && (forall k :: 0 <= k < |places| ==> places[k] < |caps| && ordered[k] == caps[places[k]])
    && (forall j, k :: 0 <= j < k < |places| ==> Before(caps, names, places[j], places[k]))
  }

  ghost predicate Before(caps: seq<Codec>, names: seq<Option<string>>, a: nat, b: nat) {
    && a < |caps| && b < |caps|
    && var p, q := Rank(names, caps[a].name), Rank(names, caps[b].name);
       p < q || (p == q && a < b)
  }

  ghost predicate Covers(places: seq<nat>, n: nat) {
    forall j: nat :: j < n ==> j in places
  }

  /**
   The codecs of `caps`, each once: those named first, in the order they are
   named, and otherwise in the order they stood.
   */
  ghost predicate IsPreferenceOrder(caps: seq<Codec>, names: seq<Option<string>>, ordered: seq<Codec>) {
    exists places :: Sorts(caps, names, ordered, places) && Covers(places, |caps|)
  }

  class Transceiver {
    const isVideo: bool
    const capabilities: seq<Codec>
    var preferences: seq<Codec>
    /** What the sender has: the negotiated codecs, and the codec of each encoding once one is set. */
    var hasSender: bool
    var negotiated: seq<Codec>
    var encodings: seq<Option<Codec>>

    constructor (isVideo: bool, capabilities: seq<Codec>)
      ensures this.isVideo == isVideo && this.capabilities == capabilities
      ensures preferences == [] && !hasSender && negotiated == [] && encodings == []
    {
      this.isVideo := isVideo;
      this.capabilities := capabilities;
      preferences := [];
      hasSender := false;
      negotiated := [];
      encodings := [];
    }

    /** `accepted` is libwebrtc's answer to the reordered list. */
    method SetVideoCodecPreferences(names: seq<Option<string>>, accepted: bool) returns (ok: bool)
      modifies this`preferences
      ensures ok <==> isVideo && accepted
      ensures !ok ==> preferences == old(preferences)
      ensures ok ==> IsPreferenceOrder(capabilities, names, preferences)
    {
      if !isVideo {
        return false;
      }
      var ordered := Order(capabilities, names);
      if accepted {
        preferences := ordered;
      }
      return accepted;
    }

    static method Order(caps: seq<Codec>, names: seq<Option<string>>) returns (ordered: seq<Codec>)
      ensures IsPreferenceOrder(caps, names, ordered)
    {
      ordered := [];
      var used := new bool[|caps|](_ => false);
      ghost var places: seq<nat> := [];
      for i := 0 to |names|
        invariant Sorts(caps, names, ordered, places)
        invariant forall k :: 0 <= k < |places| ==> Rank(names, caps[places[k]].name) < i
        invariant forall j: nat :: j < |caps| ==> (used[j] <==> Rank(names, caps[j].name) < i)
        invariant forall j: nat :: j < |caps| && used[j] ==> j in places
      {
        if names[i].Some? {
          ordered, places := TakeNamed(caps, names, i, used, ordered, places);
        }
      }
      for j := 0 to |caps|
        invariant Sorts(caps, names, ordered, places)
        invariant forall k: nat :: k < |caps| ==> (used[k] <==> Rank(names, caps[k].name) < |names|)
        invariant forall k :: 0 <= k < |places| ==> used[places[k]] || places[k] < j
        invariant forall k: nat :: k < |caps| && (used[k] || k < j) ==> k in places
      {
        if !used[j] {
          assert Rank(names, caps[j].name) == |names|;
          forall k | 0 <= k < |places| ensures Before(caps, names, places[k], j) {
            assert used[places[k]] ==> Rank(names, caps[places[k]].name) < |names|;
          }
          AppendSorts(caps, names, ordered, places, j);
          ordered, places := ordered + [caps[j]], places + [j];
        }
      }
      assert Covers(places, |caps|);
    }

    /** The codecs of one name, in the order they stand. */
    static method TakeNamed(caps: seq<Codec>, names: seq<Option<string>>, i: nat, used: array<bool>,
      before: seq<Codec>, ghost placesBefore: seq<nat>)
      returns (ordered: seq<Codec>, ghost places: seq<nat>)
      requires i < |names| && names[i].Some? && used.Length == |caps|
      requires Sorts(caps, names, before, placesBefore)
      requires forall k :: 0 <= k < |placesBefore| ==> Rank(names, caps[placesBefore[k]].name) < i
      requires forall j: nat :: j < |caps| ==> (used[j] <==> Rank(names, caps[j].name) < i)
      requires forall j: nat :: j < |caps| && used[j] ==> j in placesBefore
      modifies used
      ensures Sorts(caps, names, ordered, places)
      ensures forall k :: 0 <= k < |places| ==> Rank(names, caps[places[k]].name) < i + 1
      ensures forall j: nat :: j < |caps| ==> (used[j] <==> Rank(names, caps[j].name) < i + 1)
      ensures forall j: nat :: j < |caps| && used[j] ==> j in places
    {
      ordered, places := before, placesBefore;
      for j := 0 to |caps|
        invariant Sorts(caps, names, ordered, places)
        invariant forall k :: 0 <= k < |places| ==>
          var rank := Rank(names, caps[places[k]].name); rank < i || (rank == i && places[k] < j)
        invariant forall k: nat :: k < |caps| ==>
          var rank := Rank(names, caps[k].name); used[k] <==> rank < i || (rank == i && k < j)
        invariant forall k: nat :: k < |caps| && used[k] ==> k in places
      {
        if !used[j] && caps[j].name == names[i].value {
          AppendSorts(caps, names, ordered, places, j);
          ordered, places := ordered + [caps[j]], places + [j];
          used[j] := true;
        }
      }
    }

    /**
     `accepted` is libwebrtc's answer to the new parameters. The codec set is the
     negotiated one of the earliest preferred name that was negotiated at all.
     */
    method LockNegotiatedSendCodec(accepted: bool) returns (ok: bool)
      modifies this`encodings
      ensures ok <==> hasSender && old(encodings) != [] && accepted && Overlap(preferences, negotiated)
      ensures !ok ==> encodings == old(encodings)
      ensures ok ==> exists c ::
        IsPick(preferences, negotiated, c) && encodings == old(encodings)[0 := Some(c)]
    {
      if preferences == [] || !hasSender || encodings == [] {
        return false;
      }
      for p := 0 to |preferences|
        invariant forall q, n :: 0 <= q < p && 0 <= n < |negotiated| ==> negotiated[n].name != preferences[q].name
      {
        for n := 0 to |negotiated|
          invariant forall m :: 0 <= m < n ==> negotiated[m].name != preferences[p].name
        {
          if negotiated[n].name == preferences[p].name {
            assert PicksAt(preferences, negotiated, negotiated[n], p, n);
            if accepted {
              encodings := encodings[0 := Some(negotiated[n])];
            }
            return accepted;
          }
        }
      }
      return false;
    }
  }

  lemma AppendSorts(caps: seq<Codec>, names: seq<Option<string>>, ordered: seq<Codec>, places: seq<nat>, j: nat)
    requires Sorts(caps, names, ordered, places) && j < |caps|
    requires forall k :: 0 <= k < |places| ==> Before(caps, names, places[k], j)
    ensures Sorts(caps, names, ordered + [caps[j]], places + [j])
  {
  }

  ghost predicate Overlap(preferences: seq<Codec>, negotiated: seq<Codec>) {
    exists p, n :: 0 <= p < |preferences| && 0 <= n < |negotiated| && negotiated[n].name == preferences[p].name
  }

  /** `c` is the first negotiated codec of the first preferred name that has one. */
  ghost predicate PicksAt(preferences: seq<Codec>, negotiated: seq<Codec>, c: Codec, p: nat, n: nat) {
    && p < |preferences| && n < |negotiated|
    && negotiated[n] == c && c.name == preferences[p].name
    && (forall m :: 0 <= m < n ==> negotiated[m].name != c.name)
    && (forall q, m :: 0 <= q < p && 0 <= m < |negotiated| ==> negotiated[m].name != preferences[q].name)
  }

  ghost predicate IsPick(preferences: seq<Codec>, negotiated: seq<Codec>, c: Codec) {
    exists p: nat, n: nat :: PicksAt(preferences, negotiated, c, p, n)
  }

  // ---------------------------------------------------------------------
  // What the order is
  // ---------------------------------------------------------------------

  /** `places` picks every codec of `caps` once. */
  ghost predicate PicksEach(caps: seq<Codec>, ordered: seq<Codec>, places: seq<nat>) {
    && |places| == |ordered|
    && (forall k :: 0 <= k < |places| ==> places[k] < |caps| && ordered[k] == caps[places[k]])
    && (forall j, k :: 0 <= j < k < |places| ==> places[j] != places[k])
    && Covers(places, |caps|)
  }

  lemma PicksRest(caps: seq<Codec>, ordered: seq<Codec>, places: seq<nat>, k: nat)
    requires PicksEach(caps, ordered, places) && k < |places| && places[k] == |caps| - 1
    ensures PicksEach(caps[..|caps| - 1], ordered[..k] + ordered[k + 1..], places[..k] + places[k + 1..])
  {
    var places' := places[..k] + places[k + 1..];
    assert forall i :: 0 <= i < |places'| ==> places'[i] == places[if i < k then i else i + 1];
    forall j: nat | j < |caps| - 1 ensures j in places' {
      assert j in places;
      var i :| 0 <= i < |places| && places[i] == j;
      assert places'[if i < k then i else i - 1] == j;
    }
  }

  lemma PicksNothing(caps: seq<Codec>, ordered: seq<Codec>, places: seq<nat>)
    requires PicksEach(caps, ordered, places)
    ensures caps == [] ==> ordered == []
  {
    assert ordered != [] ==> places[0] < |caps|;
  }

  lemma TakenOut(codecs: seq<Codec>, k: nat)
    requires k < |codecs|
    ensures multiset(codecs) == multiset(codecs[..k] + codecs[k + 1..]) + multiset{codecs[k]}
  {
    assert codecs == codecs[..k] + ([codecs[k]] + codecs[k + 1..]);
  }

  lemma {:induction false} PickedOut(caps: seq<Codec>, ordered: seq<Codec>, places: seq<nat>)
    requires PicksEach(caps, ordered, places)
    ensures multiset(ordered) == multiset(caps)
    decreases |caps|
  {
    if caps == [] {
      PicksNothing(caps, ordered, places);
    } else {
      var last := |caps| - 1;
      assert last in places;
      var k :| 0 <= k < |places| && places[k] == last;
      assert ordered[k] == caps[last];
      PicksRest(caps, ordered, places, k);
      hide PicksEach;
      PickedOut(caps[..last], ordered[..k] + ordered[k + 1..], places[..k] + places[k + 1..]);
      TakenOut(ordered, k);
      TakenOut(caps, last);
      assert caps[..last] + caps[last + 1..] == caps[..last];
    }
  }

  ghost function Upto(n: nat): (s: set<nat>)
    ensures |s| == n && forall j: nat :: j in s <==> j < n
  {
    if n == 0 then {} else Upto(n - 1) + {n - 1}
  }

  ghost function Elements(places: seq<nat>): (s: set<nat>)
    ensures forall x: nat :: x in s <==> x in places
    ensures (forall j, k :: 0 <= j < k < |places| ==> places[j] != places[k]) ==> |s| == |places|
  {
    if places == [] then {}
    else
      var n := |places| - 1;
      assert places == places[..n] + [places[n]];
      Elements(places[..n]) + {places[n]}
  }

  lemma AsManyAsThereWere(caps: seq<Codec>, names: seq<Option<string>>, ordered: seq<Codec>, places: seq<nat>)
    requires Sorts(caps, names, ordered, places) && Covers(places, |caps|)
    ensures |ordered| == |caps|
  {
    assert forall j, k :: 0 <= j < k < |places| ==> Before(caps, names, places[j], places[k]);
    assert Elements(places) == Upto(|caps|);
  }

  /** Nothing is dropped and nothing doubled. */
  lemma OrderIsAPermutation(caps: seq<Codec>, names: seq<Option<string>>, ordered: seq<Codec>)
    requires IsPreferenceOrder(caps, names, ordered)
    ensures multiset(ordered) == multiset(caps)
  {
    var places :| Sorts(caps, names, ordered, places) && Covers(places, |caps|);
    AsManyAsThereWere(caps, names, ordered, places);
    assert forall j, k :: 0 <= j < k < |places| ==> Before(caps, names, places[j], places[k]);
    PickedOut(caps, ordered, places);
  }

  /** There is one preference order. */
  lemma OrderIsUnique(caps: seq<Codec>, names: seq<Option<string>>, one: seq<Codec>, two: seq<Codec>)
    requires IsPreferenceOrder(caps, names, one) && IsPreferenceOrder(caps, names, two)
    ensures one == two
  {
    var p :| Sorts(caps, names, one, p) && Covers(p, |caps|);
    var q :| Sorts(caps, names, two, q) && Covers(q, |caps|);
    AsManyAsThereWere(caps, names, one, p);
    AsManyAsThereWere(caps, names, two, q);
    SamePlaces(caps, names, one, p, two, q, |p|);
  }

  /** What the other order has next is this order's next, or comes behind it. */
  lemma NextIsFirst(caps: seq<Codec>, names: seq<Option<string>>, one: seq<Codec>, p: seq<nat>, q: seq<nat>, k: nat)
    requires Sorts(caps, names, one, p) && k < |p| && k < |q| && p[..k] == q[..k] && q[k] in p
    requires forall i :: 0 <= i < k ==> q[i] != q[k]
    ensures p[k] == q[k] || Before(caps, names, p[k], q[k])
  {
    var j :| 0 <= j < |p| && p[j] == q[k];
    assert forall i :: 0 <= i < k ==> p[i] == p[..k][i] == q[..k][i] == q[i];
    assert j >= k;
  }

  lemma {:induction false} SamePlaces(caps: seq<Codec>, names: seq<Option<string>>,
    one: seq<Codec>, p: seq<nat>, two: seq<Codec>, q: seq<nat>, n: nat)
    requires Sorts(caps, names, one, p) && Covers(p, |caps|) && Sorts(caps, names, two, q) && Covers(q, |caps|)
    requires n <= |p| == |q|
    ensures p[..n] == q[..n]
  {
    if n > 0 {
      var k := n - 1;
      SamePlaces(caps, names, one, p, two, q, k);
      assert forall i :: 0 <= i < k ==> Before(caps, names, p[i], p[k]) && Before(caps, names, q[i], q[k]);
      NextIsFirst(caps, names, one, p, q, k);
      NextIsFirst(caps, names, two, q, p, k);
      assert p[k] == q[k];
      assert p[..n] == p[..k] + [p[k]] && q[..n] == q[..k] + [q[k]];
    }
  }

  // ---------------------------------------------------------------------
  // Preference, then lock
  // ---------------------------------------------------------------------

  lemma PickOutranks(caps: seq<Codec>, names: seq<Option<string>>, preferences: seq<Codec>, places: seq<nat>,
    negotiated: seq<Codec>, c: Codec, p: nat, n: nat, m: nat, j: nat)
    requires Sorts(caps, names, preferences, places) && Covers(places, |caps|)
    requires PicksAt(preferences, negotiated, c, p, n)
    requires m < |negotiated| && j < |caps| && caps[j].name == negotiated[m].name
    ensures Rank(names, c.name) <= Rank(names, negotiated[m].name)
  {
    assert j in places;
    var q :| 0 <= q < |places| && places[q] == j;
    assert preferences[q].name == negotiated[m].name;
    assert q >= p;
    if p < q {
      assert Before(caps, names, places[p], places[q]);
    }
  }

  /**
   A codec locked under the preferences set for `names` is negotiated, is one of
   the endpoint's own, and no negotiated codec the endpoint has is named earlier.
   */
  lemma LockedCodecIsMostPreferred(caps: seq<Codec>, names: seq<Option<string>>, preferences: seq<Codec>,
    negotiated: seq<Codec>, c: Codec, m: nat, j: nat)
    requires IsPreferenceOrder(caps, names, preferences) && IsPick(preferences, negotiated, c)
    requires m < |negotiated| && j < |caps| && caps[j].name == negotiated[m].name
    ensures c in negotiated
    ensures exists i :: 0 <= i < |caps| && caps[i].name == c.name
    ensures Rank(names, c.name) <= Rank(names, negotiated[m].name)
  {
    var places :| Sorts(caps, names, preferences, places) && Covers(places, |caps|);
    var p: nat, n: nat :| PicksAt(preferences, negotiated, c, p, n);
    assert caps[places[p]].name == c.name;
    PickOutranks(caps, names, preferences, places, negotiated, c, p, n, m, j);
  }

  /** A lock finds a codec exactly when the peers share one the endpoint can encode. */
  lemma LockFailsOnlyWithoutASharedCodec(
    caps: seq<Codec>, names: seq<Option<string>>, preferences: seq<Codec>, negotiated: seq<Codec>)
    requires IsPreferenceOrder(caps, names, preferences)
    ensures Overlap(preferences, negotiated) <==> Overlap(caps, negotiated)
  {
    var places :| Sorts(caps, names, preferences, places) && Covers(places, |caps|);
    if Overlap(preferences, negotiated) {
      var p, n :| 0 <= p < |preferences| && 0 <= n < |negotiated| && negotiated[n].name == preferences[p].name;
      assert negotiated[n].name == caps[places[p]].name;
    }
    if Overlap(caps, negotiated) {
      var j, n :| 0 <= j < |caps| && 0 <= n < |negotiated| && negotiated[n].name == caps[j].name;
      assert j in places;
      var k :| 0 <= k < |places| && places[k] == j;
      assert negotiated[n].name == preferences[k].name;
    }
  }
}
