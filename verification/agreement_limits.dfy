/**
 Where the agreement of two peers ends: what a careless move costs, to whom, and
 two runs that end in disagreement though nothing is lost or rewritten
 (crates/reactor-webrtc/src/dc_chunking.rs).
 */
module AgreementLimits {
  import opened Wrappers
  import opened DcChunking
  import opened Agreement
  import Sdp
  import Text

  // ---------------------------------------------------------------------
  // A decision is for good
  // ---------------------------------------------------------------------

  /** The decision is made, and it is not the one the two ends should reach. */
  ghost predicate SettledWrong(p: Peer, right: Option<Sdp.Params>) {
    Kept(p).settled && Kept(p).remote != right
  }

  /** Letting an answer take effect, or stand, whose offer does not settles that end wrongly at once. */
  lemma CarelessVerdictSettlesWrong(p: Peer, q: Peer, m: Move)
    requires Sound(p, q.settings) && Sound(q, p.settings) && (m.Effect? || m.Resolve?)
    requires p.settings.Some? && q.settings.Some? && Possible(p, q.made, m) && !Careful(p, m)
    ensures SettledWrong(MoveOf(p, q.made, m), Agreed(p.settings, q.settings))
  {
    hide Sdp.Parsed, Sdp.HasAttribute;
  }

  /** The end settled on `remote`, and no undo can change it. */
  ghost predicate Holds(p: Peer, remote: Option<Sdp.Params>) {
    Kept(p).settled && p.state.settled && Kept(p).remote == p.state.remote == remote
  }

  /** A settled end keeps what it holds, whatever moves it makes. */
  lemma SettledStays(p: Peer, others: set<SessionDescription>, m: Move, remote: Option<Sdp.Params>)
    requires Holds(p, remote)
    ensures Holds(MoveOf(p, others, m), remote)
  {
    if m.Record? {
      SettledOnce(p.state, Op(m.local, m.description));
    }
    hide After, OfferOf, AnswerOf, Available, Native, Next;
  }

  lemma {:induction false} SettledForGood(
    s: Pair, actions: seq<Action>, ra: Option<Sdp.Params>, rb: Option<Sdp.Params>)
    ensures Holds(s.a, ra) ==> Holds(RunFrom(s, actions).a, ra)
    ensures Holds(s.b, rb) ==> Holds(RunFrom(s, actions).b, rb)
    decreases |actions|
  {
    if actions != [] {
      var before, action := actions[..|actions| - 1], actions[|actions| - 1];
      SettledForGood(s, before, ra, rb);
      var s' := RunFrom(s, before);
      var right := if action.byA then ra else rb;
      hide MoveOf, Holds;
      if Holds(Mover(s', action), right) {
        SettledStays(Mover(s', action), Other(s', action).made, action.move, right);
      }
    }
  }

  // ---------------------------------------------------------------------
  // Runs, one move at a time
  // ---------------------------------------------------------------------

  lemma Extend(s: Pair, actions: seq<Action>, action: Action)
    ensures RunFrom(s, actions + [action]) == Step(RunFrom(s, actions), action)
    ensures CarefulFrom(s, actions + [action]) <==>
      CarefulFrom(s, actions) && CarefulStep(RunFrom(s, actions), action)
  {
    assert (actions + [action])[..|actions|] == actions;
    hide CarefulStep, Step;
  }

  lemma {:induction false} RunOn(s: Pair, first: seq<Action>, then_: seq<Action>)
    ensures RunFrom(s, first + then_) == RunFrom(RunFrom(s, first), then_)
    ensures CarefulFrom(s, first + then_) <==> CarefulFrom(s, first) && CarefulFrom(RunFrom(s, first), then_)
    decreases |then_|
  {
    if then_ == [] {
      assert first + then_ == first;
    } else {
      var n := |then_| - 1;
      RunOn(s, first, then_[..n]);
      assert first + then_ == (first + then_[..n]) + [then_[n]];
      Extend(s, first + then_[..n], then_[n]);
      hide Step, CarefulStep;
    }
  }

  /** No apply times out. */
  predicate Timely(actions: seq<Action>) {
    forall i :: 0 <= i < |actions| ==> actions[i].move != Resolve(Unconfirmed)
  }

  /** An idle end applies a description that libwebrtc accepts. */
  function Apply(byA: bool, local: bool, d: SessionDescription): (actions: seq<Action>)
    ensures Timely(actions)
  {
    [Action(byA, Record(local, d))] + [Action(byA, Effect)] + [Action(byA, Resolve(Accepted))]
  }

  function AppliedAt(p: Peer, local: bool, d: SessionDescription): Peer
    requires Next(p.signalling, local, d.kind).Some?
  {
    Standing(p, local, d.kind).(
      state := if p.settings.None? then p.state else After(p.state, Op(local, d)),
      signalling := Next(p.signalling, local, d.kind).value)
  }

  function With(s: Pair, byA: bool, p: Peer): Pair {
    if byA then s.(a := p) else s.(b := p)
  }

  function One(s: Pair, byA: bool): Peer {
    if byA then s.a else s.b
  }

  predicate Resting(p: Peer) {
    p.flight.None? && p.overdue == []
  }

  /** The offer a final answer belongs to stands, or the answer comes too late to matter. */
  predicate Answerable(p: Peer, local: bool, kind: SdpType) {
    kind.Answer? ==> p.state.settled || (if local then p.remoteOffer else p.localOffer)
  }

  lemma Applies(s: Pair, byA: bool, local: bool, d: SessionDescription)
    requires Resting(One(s, byA)) && Next(One(s, byA).signalling, local, d.kind).Some?
    requires Available(if local then One(s, byA).made else One(s, !byA).made, d)
    ensures RunFrom(s, Apply(byA, local, d)) == With(s, byA, AppliedAt(One(s, byA), local, d))
    ensures Answerable(One(s, byA), local, d.kind) ==> CarefulFrom(s, Apply(byA, local, d))
  {
    var m1, m2, m3 := Action(byA, Record(local, d)), Action(byA, Effect), Action(byA, Resolve(Accepted));
    Extend(s, [], m1);
    Extend(s, [m1], m2);
    Extend(s, [m1] + [m2], m3);
    assert [] + [m1] == [m1];
    StartsAt(s);
    hide RunFrom, CarefulFrom, After, Available;
  }

  lemma StartsAt(s: Pair)
    ensures RunFrom(s, []) == s && CarefulFrom(s, [])
  {
  }

  // ---------------------------------------------------------------------
  // An end that can be misled
  // ---------------------------------------------------------------------

  /** The peer once the apply under way is over: it holds if libwebrtc has the description, and is undone if not. */
  function Over(p: Peer): Peer {
    if p.flight.None? then p else Resolved(p, if p.flight.value.effective then Accepted else Rejected)
  }

  /** Some careful way is left to have libwebrtc accept a remote answer at this end. */
  predicate CanBeAnswered(p: Peer) {
    && !p.signalling.HaveLocalPranswer?
    && (p.signalling.HaveRemotePranswer? ==> Over(p).localOffer)
  }

  /** A remote answer would be accepted, and it would be careful to let it stand. */
  predicate AwaitsAnswer(p: Peer) {
    Resting(p) && p.localOffer && (p.signalling.HaveLocalOffer? || p.signalling.HaveRemotePranswer?)
  }

  const BASE := "s"

  lemma BaseIsNative()
    ensures Native(BASE)
  {
    assert Text.IndexOf(BASE, '\n') == 1;
    assert Text.Lines(BASE) == [BASE];
  }

  lemma OffersAnew(s: Pair, byA: bool) returns (actions: seq<Action>)
    requires Resting(One(s, byA)) && (One(s, byA).signalling.Stable? || One(s, byA).signalling.HaveLocalOffer?)
    ensures CarefulFrom(s, actions) && Timely(actions)
    ensures AwaitsAnswer(One(RunFrom(s, actions), byA)) && One(RunFrom(s, actions), !byA) == One(s, !byA)
    ensures One(RunFrom(s, actions), byA).state.settled == One(s, byA).state.settled
    ensures One(RunFrom(s, actions), byA).settings == One(s, byA).settings
  {
    BaseIsNative();
    var p := One(s, byA);
    var offer := OfferOf(p.settings, SessionDescription(Offer, BASE));
    var make := Action(byA, MakeOffer(BASE));
    var made := p.(made := p.made + {offer});
    hide Native;
    StartsAt(s);
    Extend(s, [], make);
    assert [] + [make] == [make];
    assert Step(s, make) == With(s, byA, made);
    Applies(With(s, byA, made), byA, true, offer);
    RunOn(s, [make], Apply(byA, true, offer));
    hide RunFrom, CarefulFrom, Apply;
    actions := [make] + Apply(byA, true, offer);
  }

  lemma GetsReady(s: Pair, byA: bool) returns (actions: seq<Action>)
    requires Resting(One(s, byA)) && CanBeAnswered(One(s, byA))
    ensures CarefulFrom(s, actions) && Timely(actions)
    ensures AwaitsAnswer(One(RunFrom(s, actions), byA)) && One(RunFrom(s, actions), !byA) == One(s, !byA)
    ensures One(RunFrom(s, actions), byA).state.settled == One(s, byA).state.settled
    ensures One(RunFrom(s, actions), byA).settings == One(s, byA).settings
  {
    var p := One(s, byA);
    if p.signalling.HaveRemotePranswer? {
      StartsAt(s);
      actions := [];
    } else if p.signalling.HaveRemoteOffer? {
      Applies(s, byA, true, ROLLBACK);
      var t := With(s, byA, AppliedAt(p, true, ROLLBACK));
      hide RunFrom, CarefulFrom, Apply;
      var more := OffersAnew(t, byA);
      RunOn(s, Apply(byA, true, ROLLBACK), more);
      actions := Apply(byA, true, ROLLBACK) + more;
    } else {
      hide RunFrom, CarefulFrom;
      actions := OffersAnew(s, byA);
    }
  }

  lemma First(s: Pair, action: Action, rest: seq<Action>)
    requires CarefulStep(s, action)
    ensures RunFrom(s, [action] + rest) == RunFrom(Step(s, action), rest)
    ensures CarefulFrom(s, [action] + rest) <==> CarefulFrom(Step(s, action), rest)
  {
    StartsAt(s);
    Extend(s, [], action);
    assert [] + [action] == [action];
    RunOn(s, [action], rest);
    hide RunFrom, CarefulFrom, CarefulStep, Step;
  }

  /** libwebrtc drops everything it still had to deal with. */
  lemma {:induction false} Drops(s: Pair, byA: bool) returns (actions: seq<Action>)
    requires One(s, byA).flight.None?
    ensures CarefulFrom(s, actions) && Timely(actions)
    ensures RunFrom(s, actions) == With(s, byA, One(s, byA).(overdue := []))
    decreases |One(s, byA).overdue|
  {
    var p := One(s, byA);
    if p.overdue == [] {
      StartsAt(s);
      actions := [];
    } else {
      var drop := Action(byA, LateEffect(false));
      assert Step(s, drop) == With(s, byA, p.(overdue := p.overdue[1..]));
      hide RunFrom, CarefulFrom;
      var rest := Drops(Step(s, drop), byA);
      First(s, drop, rest);
      actions := [drop] + rest;
    }
  }

  /** The apply under way ends as libwebrtc has it. */
  lemma ComesToRest(s: Pair, byA: bool) returns (actions: seq<Action>)
    requires var p := One(s, byA); p.flight.Some? && p.flight.value.effective ==> Answered(p)
    ensures CarefulFrom(s, actions) && Timely(actions)
    ensures RunFrom(s, actions) == With(s, byA, Over(One(s, byA)).(overdue := []))
  {
    var p := One(s, byA);
    if p.flight.None? {
      actions := Drops(s, byA);
    } else {
      var end := Action(byA, Resolve(if p.flight.value.effective then Accepted else Rejected));
      assert Step(s, end) == With(s, byA, Over(p));
      hide RunFrom, CarefulFrom;
      var rest := Drops(Step(s, end), byA);
      First(s, end, rest);
      actions := [end] + rest;
    }
  }

  /** A run from `s` on, of careful moves only and without a timeout, in which the end settles wrongly. */
  ghost predicate Misleads(s: Pair, byA: bool, actions: seq<Action>) {
    && CarefulFrom(s, actions) && Timely(actions)
    && SettledWrong(One(RunFrom(s, actions), byA), Agreed(One(s, byA).settings, One(s, !byA).settings))
  }

  ghost predicate CanBeMisled(s: Pair, byA: bool) {
    exists actions :: Misleads(s, byA, actions)
  }

  lemma RestingIsMisled(s: Pair, byA: bool, d: SessionDescription) returns (actions: seq<Action>)
    requires Resting(One(s, byA)) && CanBeAnswered(One(s, byA)) && !One(s, byA).state.settled
    requires One(s, byA).settings.Some? && One(s, !byA).settings.Some?
    requires d.kind.Answer? && d in One(s, !byA).made && Sdp.Parsed(d.sdp).None?
    ensures Misleads(s, byA, actions)
  {
    var first := GetsReady(s, byA);
    var t := RunFrom(s, first);
    Applies(t, byA, false, d);
    var last := Apply(byA, false, d);
    RunOn(s, first, last);
    hide RunFrom, CarefulFrom, Apply, Sdp.Parsed, Sdp.HasAttribute;
    actions := first + last;
  }

  lemma OverRests(p: Peer)
    ensures var rested := Over(p).(overdue := []);
      && Resting(rested) && rested.state == Kept(p) && rested.settings == p.settings && rested.made == p.made
      && CanBeAnswered(rested) == CanBeAnswered(p)
  {
  }

  lemma BareAnswerMisleads(s: Pair, byA: bool, d: SessionDescription)
    requires var p := One(s, byA);
      && (p.flight.Some? && p.flight.value.effective ==> Answered(p))
      && CanBeAnswered(p) && !Kept(p).settled
    requires One(s, byA).settings.Some? && One(s, !byA).settings.Some?
    requires d.kind.Answer? && d in One(s, !byA).made && Sdp.Parsed(d.sdp).None?
    ensures CanBeMisled(s, byA)
  {
    var rest := ComesToRest(s, byA);
    var t := With(s, byA, Over(One(s, byA)).(overdue := []));
    OverRests(One(s, byA));
    hide RunFrom, CarefulFrom, Sdp.Parsed, Over, CanBeAnswered, Kept, Resting, Answered;
    var last := RestingIsMisled(t, byA, d);
    RunOn(s, rest, last);
    assert Misleads(s, byA, rest + last);
  }

  // ---------------------------------------------------------------------
  // An end that cannot
  // ---------------------------------------------------------------------

  /** Unsettled, and careful moves settle it by its own answer to an offer it knows, or not at all. */
  ghost predicate Stuck(p: Peer, q: Peer) {
    && Informed(p, q.settings) && OffersTrue(q, p.settings)
    && !Kept(p).settled && (forall o :: o in p.overdue ==> !o.kind.Answer?)
    && (p.signalling.HaveLocalPranswer? || p.signalling.HaveRemotePranswer?) && !CanBeAnswered(p)
  }

  lemma MakingChangesNothingElse(p: Peer, others: set<SessionDescription>, m: Move)
    requires m.MakeOffer? || m.DraftAnswer? || m.FinishAnswer?
    ensures var p' := MoveOf(p, others, m);
      && p'.settings == p.settings && p'.signalling == p.signalling && p'.overdue == p.overdue
      && Kept(p') == Kept(p) && CanBeAnswered(p') == CanBeAnswered(p)
  {
    hide Possible, OfferOf, AnswerOf;
  }

  lemma MakingStaysStuck(p: Peer, q: Peer, m: Move)
    requires Stuck(p, q) && Possible(p, q.made, m) && Careful(p, m)
    requires m.MakeOffer? || m.DraftAnswer? || m.FinishAnswer?
    ensures Stuck(MoveOf(p, q.made, m), q)
  {
    hide MoveOf, Kept, CanBeAnswered, Informed, Truthful, Possible, Careful;
    MakingChangesNothingElse(p, q.made, m);
    MakingKeepsInformed(p, q.settings, q.made, m);
  }

  lemma RecordingStaysStuck(p: Peer, q: Peer, m: Move)
    requires Stuck(p, q) && Possible(p, q.made, m) && m.Record?
    ensures Stuck(MoveOf(p, q.made, m), q)
  {
    RecordingKeepsInformed(p, q, m);
    hide After, Informed, OffersTrue, Available;
  }

  lemma EffectSettlesRight(p: Peer, q: Peer)
    requires Stuck(p, q) && p.settings.Some? && q.settings.Some?
    requires Possible(p, q.made, Effect) && Careful(p, Effect)
    ensures var p' := MoveOf(p, q.made, Effect);
      Stuck(p', q) || Holds(p', Agreed(p.settings, q.settings))
  {
    hide Sdp.Parsed, Sdp.HasAttribute;
  }

  lemma DroppingStaysStuck(p: Peer, q: Peer, m: Move)
    requires Stuck(p, q) && Possible(p, q.made, m) && m.LateEffect?
    ensures Stuck(MoveOf(p, q.made, m), q)
  {
    hide Truthful, After, Native;
  }

  lemma VerdictStaysStuck(p: Peer, q: Peer, m: Move)
    requires Stuck(p, q) && Possible(p, q.made, m) && Careful(p, m)
    requires p.settings.Some? && m.Resolve? && !m.verdict.Unconfirmed?
    ensures Stuck(MoveOf(p, q.made, m), q)
  {
    hide Sdp.Parsed, Sdp.HasAttribute, After, Next, Truthful, Native;
    SettledOnce(p.flight.value.before, Op(p.flight.value.local, p.flight.value.description));
    VerdictKeepsKnowing(p, q.settings, m.verdict);
  }

  /** The other end may say anything but an untrue offer. */
  lemma OtherKeepsOffersTrue(p: Peer, q: Option<Settings>, others: set<SessionDescription>, m: Move)
    requires OffersTrue(p, q)
    ensures OffersTrue(MoveOf(p, others, m), q)
  {
    if m.MakeOffer? && Possible(p, others, m) {
      OfferIsTruthful(p, q, m.base);
    }
    OnlyOffersAreMade(p, others, m);
    hide Truthful, Possible, MoveOf, OfferOf;
  }

  lemma OnlyOffersAreMade(p: Peer, others: set<SessionDescription>, m: Move)
    ensures var p' := MoveOf(p, others, m);
      && p'.settings == p.settings
      && forall d :: d in p'.made && d.kind.Offer? && d !in p.made ==>
           m.MakeOffer? && Possible(p, others, m) && d == OfferOf(p.settings, SessionDescription(Offer, m.base))
  {
    hide OfferOf, Possible;
  }

  lemma OwnMoveStaysStuck(p: Peer, q: Peer, m: Move)
    requires Stuck(p, q) && p.settings.Some? && q.settings.Some? && m != Resolve(Unconfirmed)
    requires Possible(p, q.made, m) && Careful(p, m)
    ensures var p' := MoveOf(p, q.made, m);
      Stuck(p', q) || Holds(p', Agreed(p.settings, q.settings))
  {
    hide Stuck, Holds, Possible, Careful, MoveOf;
    match m
    case Record(_, _) => RecordingStaysStuck(p, q, m);
    case Effect => EffectSettlesRight(p, q);
    case Resolve(_) => VerdictStaysStuck(p, q, m);
    case LateEffect(_) => DroppingStaysStuck(p, q, m);
    case _ => MakingStaysStuck(p, q, m);
  }

  /** The end is settled rightly, or never will be settled wrongly. */
  ghost predicate Unharmed(s: Pair, byA: bool) {
    var p, q := One(s, byA), One(s, !byA);
    && p.settings.Some? && q.settings.Some?
    && (Stuck(p, q) || Holds(p, Agreed(p.settings, q.settings)))
  }

  lemma StuckByOther(p: Peer, q: Peer, q': Peer)
    requires Stuck(p, q) && q'.settings == q.settings && OffersTrue(q', p.settings)
    ensures Stuck(p, q')
  {
    hide Informed, CanBeAnswered, Kept, OffersTrue;
  }

  lemma StepLeavesUnharmed(s: Pair, byA: bool, action: Action)
    requires Unharmed(s, byA) && CarefulStep(s, action) && action.move != Resolve(Unconfirmed)
    ensures Unharmed(Step(s, action), byA)
    ensures Step(s, action).a.settings == s.a.settings && Step(s, action).b.settings == s.b.settings
  {
    var p, q, m := One(s, byA), One(s, !byA), action.move;
    var right := Agreed(p.settings, q.settings);
    StepKeepsSettings(s, action);
    assert !Possible(Mover(s, action), Other(s, action).made, m) ==> Step(s, action) == s;
    hide Stuck, Holds, Possible, Careful, MoveOf, OffersTrue;
    if Possible(Mover(s, action), Other(s, action).made, m) {
      if action.byA != byA {
        if Stuck(p, q) {
          StuckKnowsOffers(p, q);
          OtherKeepsOffersTrue(q, p.settings, p.made, m);
          StuckByOther(p, q, MoveOf(q, p.made, m));
        }
      } else if Holds(p, right) {
        SettledStays(p, q.made, m, right);
      } else {
        OwnMoveStaysStuck(p, q, m);
      }
    }
  }

  lemma StuckKnowsOffers(p: Peer, q: Peer)
    requires Stuck(p, q)
    ensures OffersTrue(q, p.settings)
  {
  }

  lemma {:induction false} RunLeavesUnharmed(s: Pair, byA: bool, actions: seq<Action>)
    requires Unharmed(s, byA) && CarefulFrom(s, actions) && Timely(actions)
    ensures Unharmed(RunFrom(s, actions), byA)
    ensures RunFrom(s, actions).a.settings == s.a.settings && RunFrom(s, actions).b.settings == s.b.settings
    decreases |actions|
  {
    hide Unharmed, CarefulStep, Step;
    if actions != [] {
      var before := actions[..|actions| - 1];
      RunLeavesUnharmed(s, byA, before);
      StepLeavesUnharmed(RunFrom(s, before), byA, actions[|actions| - 1]);
    }
  }

  lemma UnharmedIsNotMisled(s: Pair, byA: bool)
    requires Unharmed(s, byA)
    ensures !CanBeMisled(s, byA)
  {
    if CanBeMisled(s, byA) {
      var actions :| Misleads(s, byA, actions);
      RunLeavesUnharmed(s, byA, actions);
      hide RunFrom, CarefulFrom, Informed, CanBeAnswered;
      assert false;
    }
  }

  lemma SoundIsUnharmed(p: Peer, q: Peer)
    requires Sound(p, q.settings) && Sound(q, p.settings) && p.settings.Some?
    ensures Kept(p).settled ==> Holds(p, Agreed(p.settings, q.settings))
    ensures !Kept(p).settled && !CanBeAnswered(p) ==> Stuck(p, q)
    ensures p.flight.Some? && p.flight.value.effective ==> Answered(p)
  {
    KeptIsRight(p, q.settings);
    if p.flight.Some? {
      SettledOnce(p.flight.value.before, Op(p.flight.value.local, p.flight.value.description));
    }
    hide After, Truthful, CanBeAnswered;
  }

  /**
   An answer finished without the offer in sight can mislead the other end,
   however careful everyone is afterwards, exactly when that end has not
   settled and libwebrtc can still be brought to accept an answer there.
   */
  lemma CarelessAnswerMisleadsTheUnsettled(s: Pair, byA: bool, base: string)
    requires Inv(s) && s.a.settings.Some? && s.b.settings.Some?
    requires Possible(One(s, byA), One(s, !byA).made, FinishAnswer(base))
    requires !Careful(One(s, byA), FinishAnswer(base))
    ensures CanBeMisled(Step(s, Action(byA, FinishAnswer(base))), !byA) <==>
            !Kept(One(s, !byA)).settled && CanBeAnswered(One(s, !byA))
  {
    var p, q := One(s, byA), One(s, !byA);
    var t := Step(s, Action(byA, FinishAnswer(base)));
    assert One(t, !byA) == q;
    SoundIsUnharmed(q, p);
    if Kept(q).settled || !CanBeAnswered(q) {
      SoundKnowsOffers(p, q.settings);
      OtherKeepsOffersTrue(p, q.settings, q.made, FinishAnswer(base));
      hide Stuck, Holds, OffersTrue, Sound;
      if !Kept(q).settled {
        StuckByOther(q, p, One(t, byA));
      }
      UnharmedIsNotMisled(t, !byA);
    } else {
      AnswerIsTruthful(p, q.settings, base);
      NativeDeclares(base, 0);
      BareAnswerMisleads(t, !byA, AnswerOf(p.settings, p.state, SessionDescription(Answer, base)));
    }
  }

  lemma SoundKnowsOffers(p: Peer, q: Option<Settings>)
    requires Sound(p, q)
    ensures OffersTrue(p, q)
  {
  }

  // ---------------------------------------------------------------------
  // Two runs in which nothing is lost or rewritten
  // ---------------------------------------------------------------------

  lemma Three(s: Pair, m1: Action, m2: Action, m3: Action)
    ensures RunFrom(s, [m1] + [m2] + [m3]) == Step(Step(Step(s, m1), m2), m3)
  {
    Extend(s, [], m1);
    Extend(s, [m1], m2);
    Extend(s, [m1] + [m2], m3);
    assert [] + [m1] == [m1];
    StartsAt(s);
    hide RunFrom, Step;
  }

  function DeclaredOffer(sa: Settings): SessionDescription {
    OfferOf(Some(sa), SessionDescription(Offer, BASE))
  }

  /** The offer of `a` is in force at both ends. */
  function Offered(sa: Settings, sb: Settings): Pair {
    Pair(
      Idle(Some(sa)).(
        state := UNSETTLED.(localOfferDeclared := true), signalling := HaveLocalOffer,
        made := {DeclaredOffer(sa)}, localOffer := true),
      Idle(Some(sb)).(
        state := UNSETTLED.(pending := Some(Sdp.Local(sa.maxMessageSize))), signalling := HaveRemoteOffer,
        remoteOffer := true))
  }

  /** `a` has made its offer. */
  function OfferMade(sa: Settings, sb: Settings): Pair {
    Pair(Idle(Some(sa)).(made := {DeclaredOffer(sa)}), Idle(Some(sb)))
  }

  lemma OfferIsMade(sa: Settings, sb: Settings)
    ensures Run(Some(sa), Some(sb), [Action(true, MakeOffer(BASE))]) == OfferMade(sa, sb)
  {
    BaseIsNative();
    var start, make := Init(Some(sa), Some(sb)), Action(true, MakeOffer(BASE));
    StartsAt(start);
    Extend(start, [], make);
    assert [] + [make] == [make];
    hide RunFrom, Native, OfferOf;
    assert {} + {DeclaredOffer(sa)} == {DeclaredOffer(sa)};
  }

  lemma OfferIsRecorded(sa: Settings, sb: Settings)
    ensures var d := DeclaredOffer(sa);
      && d.kind.Offer?
      && After(UNSETTLED, Op(true, d)) == Offered(sa, sb).a.state
      && After(UNSETTLED, Op(false, d)) == Offered(sa, sb).b.state
  {
    BaseIsNative();
    NativeDeclares(BASE, sa.maxMessageSize);
    hide Native, Sdp.Parsed, Sdp.HasAttribute, Sdp.Declared;
  }

  lemma OfferTravels(sa: Settings, sb: Settings) returns (actions: seq<Action>)
    ensures Run(Some(sa), Some(sb), actions) == Offered(sa, sb) && Timely(actions)
  {
    var start, make := Init(Some(sa), Some(sb)), Action(true, MakeOffer(BASE));
    var offer, s1 := DeclaredOffer(sa), OfferMade(sa, sb);
    OfferIsMade(sa, sb);
    OfferIsRecorded(sa, sb);
    hide RunFrom, CarefulFrom, Apply, OfferOf, After, DeclaredOffer;
    Applies(s1, true, true, offer);
    var s2 := With(s1, true, AppliedAt(s1.a, true, offer));
    Applies(s2, false, false, offer);
    RunOn(s1, Apply(true, true, offer), Apply(false, false, offer));
    RunOn(start, [make], Apply(true, true, offer) + Apply(false, false, offer));
    actions := [make] + (Apply(true, true, offer) + Apply(false, false, offer));
  }

  lemma AnswerTravels(s: Pair, d: SessionDescription)
    requires Resting(s.a) && s.a.signalling.HaveLocalOffer?
    requires Resting(s.b) && s.b.signalling.HaveRemoteOffer? && d.kind.Answer? && d in s.b.made
    ensures RunFrom(s, Apply(false, true, d) + Apply(true, false, d)) ==
            Pair(AppliedAt(s.a, false, d), AppliedAt(s.b, true, d))
  {
    Applies(s, false, true, d);
    var t := With(s, false, AppliedAt(s.b, true, d));
    Applies(t, true, false, d);
    RunOn(s, Apply(false, true, d), Apply(true, false, d));
    hide RunFrom, Apply, After;
  }

  /** Both ends are done, and decided these. */
  ghost predicate Ends(s: Pair, a: Option<Sdp.Params>, b: Option<Sdp.Params>) {
    && Resting(s.a) && s.a.state.settled && s.a.state.remote == a
    && Resting(s.b) && s.b.state.settled && s.b.state.remote == b
  }

  /** An answer of `b` created while nothing is pending there, applied at both ends. */
  lemma BareAnswerTravels(s: Pair)
    requires Resting(s.a) && s.a.signalling.HaveLocalOffer? && !s.a.state.settled && s.a.settings.Some?
    requires Resting(s.b) && s.b.signalling.HaveRemoteOffer? && s.b.settings.Some?
    requires SessionDescription(Answer, BASE) in s.b.made
    ensures
      var d := SessionDescription(Answer, BASE);
      Ends(RunFrom(s, Apply(false, true, d) + Apply(true, false, d)),
           None, if s.b.state.settled then s.b.state.remote else None)
  {
    BaseIsNative();
    NativeDeclares(BASE, 0);
    AnswerTravels(s, SessionDescription(Answer, BASE));
    hide RunFrom, Apply, Sdp.Parsed, Sdp.HasAttribute, Sdp.Declared;
  }

  function DeclaredAnswer(sa: Settings, sb: Settings): SessionDescription {
    AnswerOf(Some(sb), Offered(sa, sb).b.state, SessionDescription(Answer, BASE))
  }

  lemma AnswerIsRecorded(sa: Settings, sb: Settings)
    ensures var d := DeclaredAnswer(sa, sb);
      && d.kind.Answer?
      && After(Offered(sa, sb).b.state, Op(true, d)) ==
         NegotiationState(Some(Sdp.Local(sa.maxMessageSize)), true, None, false)
  {
    BaseIsNative();
    NativeDeclares(BASE, sb.maxMessageSize);
    hide Native, Sdp.Parsed, Sdp.HasAttribute, Sdp.Declared;
  }

  /** `b` answers, the apply times out, libwebrtc drops the answer later, and another is drafted. */
  lemma AnswerIsLost(sa: Settings, sb: Settings) returns (actions: seq<Action>)
    ensures
      var s, t := Offered(sa, sb), RunFrom(Offered(sa, sb), actions);
      && t.a == s.a && t.b == s.b.(state := t.b.state, made := t.b.made, drafts := {BASE}, remoteOffer := false)
      && t.b.state == NegotiationState(Some(Sdp.Local(sa.maxMessageSize)), true, None, false)
  {
    BaseIsNative();
    AnswerIsRecorded(sa, sb);
    var s, answer := Offered(sa, sb), DeclaredAnswer(sa, sb);
    assert AnswerOf(s.b.settings, s.b.state, SessionDescription(Answer, BASE)) == answer;
    hide RunFrom, CarefulFrom, Native, DeclaredOffer, DeclaredAnswer, AnswerOf, After;
    var draft, finish := Action(false, DraftAnswer(BASE)), Action(false, FinishAnswer(BASE));
    var record, timeout := Action(false, Record(true, answer)), Action(false, Resolve(Unconfirmed));
    var drop := Action(false, LateEffect(false));
    Three(s, draft, finish, record);
    var t := Step(Step(Step(s, draft), finish), record);
    Three(t, timeout, drop, draft);
    RunOn(s, [draft] + [finish] + [record], [timeout] + [drop] + [draft]);
    assert {} + {BASE} - {BASE} + {BASE} == {BASE};
    actions := [draft] + [finish] + [record] + ([timeout] + [drop] + [draft]);
  }

  /**
   The answer times out, libwebrtc drops it later, and the answer created in
   its place finds `pending` consumed: one end chunks and the other does not.
   */
  lemma FreshAnswerAfterTimeoutDisagrees(sa: Settings, sb: Settings) returns (actions: seq<Action>)
    ensures Ends(Run(Some(sa), Some(sb), actions), None, Some(Sdp.Local(sa.maxMessageSize)))
  {
    var first := OfferTravels(sa, sb);
    var start, s := Init(Some(sa), Some(sb)), Offered(sa, sb);
    hide RunFrom, CarefulFrom, Apply, DeclaredOffer, After;
    var middle := AnswerIsLost(sa, sb);
    var u, finish := RunFrom(s, middle), Action(false, FinishAnswer(BASE));
    Extend(s, middle, finish);
    var bare := SessionDescription(Answer, BASE);
    BareAnswerTravels(Step(u, finish));
    var last := Apply(false, true, bare) + Apply(true, false, bare);
    RunOn(s, middle + [finish], last);
    RunOn(start, first, middle + [finish] + last);
    actions := first + (middle + [finish] + last);
  }

  /**
   No timeout at all: an answer is created while a rollback of the offer is
   recorded, the rollback is rejected, and both ends settle on not chunking
   though both take part.
   */
  lemma OverlappingAnswerDisagrees(sa: Settings, sb: Settings) returns (actions: seq<Action>)
    ensures Timely(actions)
    ensures Ends(Run(Some(sa), Some(sb), actions), None, None)
  {
    BaseIsNative();
    var first := OfferTravels(sa, sb);
    var start, s := Init(Some(sa), Some(sb)), Offered(sa, sb);
    hide RunFrom, Apply, Native, Sdp.Parsed, Sdp.HasAttribute, Sdp.Declared, DeclaredOffer;
    var draft, finish := Action(false, DraftAnswer(BASE)), Action(false, FinishAnswer(BASE));
    var record, reject := Action(false, Record(false, ROLLBACK)), Action(false, Resolve(Rejected));
    Three(s, draft, record, finish);
    var middle := [draft] + [record] + [finish];
    var t := Step(Step(Step(s, draft), record), finish);
    Extend(s, middle, reject);
    var bare := SessionDescription(Answer, BASE);
    BareAnswerTravels(Step(t, reject));
    var last := Apply(false, true, bare) + Apply(true, false, bare);
    RunOn(s, middle + [reject], last);
    RunOn(start, first, middle + [reject] + last);
    actions := first + (middle + [reject] + last);
  }
}
