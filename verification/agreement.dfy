/**
 Two peers negotiating chunking: any number of offer/answer rounds, with
 glare, rollbacks, rejections, and descriptions delayed, repeated, reordered or
 lost, but never rewritten (crates/reactor-webrtc/src/dc_chunking.rs).

 The lock around `apply` admits one description at a time at each end (an end
 without settings takes no lock, and its state never moves), so an
 apply is four moves of its peer: the record, libwebrtc taking effect, the
 verdict, and, when the call timed out, what libwebrtc does later. Creating an
 answer takes no lock: libwebrtc's part is one move and the read of `pending`
 another, and applies may come before, between and after them. libwebrtc may
 reject anything, and accepts only what the signalling state of section 3.2 of
 RFC 8829 allows.
 */
module Agreement {
  import opened Wrappers
  import opened DcChunking
  import Sdp

  datatype Signalling =
    | Stable
    | HaveLocalOffer
    | HaveRemoteOffer
    | HaveLocalPranswer
    | HaveRemotePranswer

  /** The signalling state after an accepted description; a remote offer may roll back a local one. */
  function Next(s: Signalling, local: bool, kind: SdpType): Option<Signalling> {
    match kind
    case Offer =>
      if local then
        if s.Stable? || s.HaveLocalOffer? then Some(HaveLocalOffer) else None
      else
        if s.Stable? || s.HaveRemoteOffer? || s.HaveLocalOffer? then Some(HaveRemoteOffer) else None
    case PrAnswer =>
      if local then
        if s.HaveRemoteOffer? || s.HaveLocalPranswer? then Some(HaveLocalPranswer) else None
      else
        if s.HaveLocalOffer? || s.HaveRemotePranswer? then Some(HaveRemotePranswer) else None
    case Answer =>
      if local then
        if s.HaveRemoteOffer? || s.HaveLocalPranswer? then Some(Stable) else None
      else
        if s.HaveLocalOffer? || s.HaveRemotePranswer? then Some(Stable) else None
    case Rollback =>
      if s.HaveLocalOffer? || s.HaveRemoteOffer? then Some(Stable) else None
  }

  /** A description recorded and not yet answered for, with the state it replaced. */
  datatype Flight = Flight(local: bool, description: SessionDescription, before: NegotiationState, effective: bool)

  /** A description whose apply timed out before libwebrtc got to it. */
  datatype Overdue = Overdue(local: bool, kind: SdpType)

  datatype Peer = Peer(
    settings: Option<Settings>,
    state: NegotiationState,
    signalling: Signalling,
    /** Every description this peer created; they may reach the other at any time. */
    made: set<SessionDescription>,
    /** Answers libwebrtc created that have not been given their declaration yet. */
    drafts: set<string>,
    flight: Option<Flight>,
    /** What libwebrtc has still to deal with, in order. */
    overdue: seq<Overdue>,
    /** A remote offer was applied, or timed out, and was neither answered here nor rolled back remotely since. */
    remoteOffer: bool,
    /** A local offer was applied, or timed out, and was not rolled back locally since. */
    localOffer: bool)

  datatype Pair = Pair(a: Peer, b: Peer)

  datatype Move =
    | MakeOffer(base: string)
    /** libwebrtc's part of `create_answer`. */
    | DraftAnswer(base: string)
    /** The rest of it: `pending` is read and the declaration made or not. */
    | FinishAnswer(base: string)
    | Record(local: bool, description: SessionDescription)
    | Effect
    | Resolve(verdict: Outcome)
    /** libwebrtc applies, or drops, a description whose apply timed out. */
    | LateEffect(applied: bool)

  datatype Action = Action(byA: bool, move: Move)

  /** A description libwebrtc creates: not empty, and without the attribute. */
  predicate Native(sdp: string) {
    sdp != "" && !Sdp.HasAttribute(sdp)
  }

  const ROLLBACK := SessionDescription(Rollback, "")

  /** A made description, possibly applied as provisional, or a rollback. */
  predicate Available(made: set<SessionDescription>, d: SessionDescription) {
    || d == ROLLBACK
    || d in made
    || (d.kind.PrAnswer? && d.(kind := Answer) in made)
  }

  predicate Possible(p: Peer, others: set<SessionDescription>, m: Move) {
    match m
    case MakeOffer(base) => Native(base)
    case DraftAnswer(base) =>
      Native(base) && (p.signalling.HaveRemoteOffer? || p.signalling.HaveLocalPranswer?)
    case FinishAnswer(base) => base in p.drafts
    case Record(local, d) => p.flight.None? && Available(if local then p.made else others, d)
    case Effect =>
      && p.flight.Some? && !p.flight.value.effective && p.overdue == []
      && Next(p.signalling, p.flight.value.local, p.flight.value.description.kind).Some?
    case Resolve(v) =>
      p.flight.Some? && (v.Accepted? ==> p.flight.value.effective) && (v.Rejected? ==> !p.flight.value.effective)
    case LateEffect(applied) =>
      p.overdue != [] && (applied ==> Next(p.signalling, p.overdue[0].local, p.overdue[0].kind).Some?)
  }

  /** The offers that stand once a description was not rejected. */
  function Standing(p: Peer, local: bool, kind: SdpType): Peer {
    match kind
    case Offer => if local then p.(localOffer := true) else p.(remoteOffer := true)
    case Answer => if local then p.(remoteOffer := false) else p
    case Rollback => if local then p.(localOffer := false) else p.(remoteOffer := false)
    case PrAnswer => p
  }

  function Resolved(p: Peer, v: Outcome): Peer
    requires p.flight.Some?
  {
    var f := p.flight.value;
    if v.Rejected? then p.(flight := None, state := f.before)
    else
      Standing(p, f.local, f.description.kind).(
        flight := None,
        overdue := if f.effective then p.overdue else p.overdue + [Overdue(f.local, f.description.kind)])
  }

  /** The state no undo can take away any more: libwebrtc has the description under way, or the record before it. */
  function Kept(p: Peer): NegotiationState {
    if p.flight.Some? && !p.flight.value.effective then p.flight.value.before else p.state
  }

  /** One move of `p`, given what the other peer made. */
  function MoveOf(p: Peer, others: set<SessionDescription>, m: Move): Peer {
    if !Possible(p, others, m) then p else
    match m
    case MakeOffer(base) =>
      p.(made := p.made + {OfferOf(p.settings, SessionDescription(Offer, base))})
    case DraftAnswer(base) => p.(drafts := p.drafts + {base})
    case FinishAnswer(base) =>
      p.(drafts := p.drafts - {base},
         made := p.made + {AnswerOf(p.settings, p.state, SessionDescription(Answer, base))})
    case Record(local, d) =>
      p.(flight := Some(Flight(local, d, p.state, false)),
         state := if p.settings.None? then p.state else After(p.state, Op(local, d)))
    case Effect =>
      var f := p.flight.value;
      p.(flight := Some(f.(effective := true)), signalling := Next(p.signalling, f.local, f.description.kind).value)
    case Resolve(v) => Resolved(p, v)
    case LateEffect(applied) =>
      p.(overdue := p.overdue[1..],
         signalling :=
           if applied then Next(p.signalling, p.overdue[0].local, p.overdue[0].kind).value else p.signalling)
  }

  function Step(s: Pair, action: Action): Pair {
    if action.byA then s.(a := MoveOf(s.a, s.b.made, action.move))
    else s.(b := MoveOf(s.b, s.a.made, action.move))
  }

  function Idle(settings: Option<Settings>): Peer {
    Peer(settings, UNSETTLED, Stable, {}, {}, None, [], false, false)
  }

  function Init(a: Option<Settings>, b: Option<Settings>): Pair {
    Pair(Idle(a), Idle(b))
  }

  function RunFrom(s: Pair, actions: seq<Action>): Pair
    decreases |actions|
  {
    if actions == [] then s
    else Step(RunFrom(s, actions[..|actions| - 1]), actions[|actions| - 1])
  }

  function Run(a: Option<Settings>, b: Option<Settings>, actions: seq<Action>): Pair {
    RunFrom(Init(a, b), actions)
  }

  // ---------------------------------------------------------------------
  // When a peer may go wrong
  // ---------------------------------------------------------------------

  /** Whether the read of `pending` sees an offer to answer: the one that stands, but for an apply under way. */
  predicate OfferSeen(p: Peer) {
    if p.flight.None? then p.remoteOffer
    else match p.flight.value.description.kind
      case Offer => if p.flight.value.local then p.remoteOffer else true
      case Answer => if p.flight.value.local then false else p.remoteOffer
      case Rollback => if p.flight.value.local then p.remoteOffer else false
      case PrAnswer => p.remoteOffer
  }

  /** The description under way, if it is an answer, belongs to an offer that stands, or comes too late to matter. */
  predicate Answered(p: Peer) {
    p.flight.Some? && p.flight.value.description.kind.Answer? ==>
      p.flight.value.before.settled || (if p.flight.value.local then p.remoteOffer else p.localOffer)
  }

  /**
   What a caller can see to: it finishes an answer only while the offer stands
   and no apply under way takes it away, and lets an answer take effect, or
   stand after a timeout, only while the offer it belongs to stands.
   */
  predicate Careful(p: Peer, m: Move) {
    match m
    case FinishAnswer(_) => OfferSeen(p)
    case Effect => Answered(p)
    case Resolve(v) => !v.Rejected? ==> Answered(p)
    case _ => true
  }

  function Mover(s: Pair, action: Action): Peer {
    if action.byA then s.a else s.b
  }

  function Other(s: Pair, action: Action): Peer {
    if action.byA then s.b else s.a
  }

  ghost predicate CarefulStep(s: Pair, action: Action) {
    Possible(Mover(s, action), Other(s, action).made, action.move) ==>
      Careful(Mover(s, action), action.move)
  }

  ghost predicate CarefulFrom(s: Pair, actions: seq<Action>)
    decreases |actions|
  {
    actions != [] ==>
      var before := actions[..|actions| - 1];
      CarefulFrom(s, before) && CarefulStep(RunFrom(s, before), actions[|actions| - 1])
  }

  ghost predicate CarefulRun(a: Option<Settings>, b: Option<Settings>, actions: seq<Action>) {
    CarefulFrom(Init(a, b), actions)
  }

  // ---------------------------------------------------------------------
  // The invariant
  // ---------------------------------------------------------------------

  /** What `p` should learn about `q`, were a round to complete between them. */
  function Agreed(p: Option<Settings>, q: Option<Settings>): Option<Sdp.Params> {
    if p.None? || q.None? then None else Some(Sdp.Local(q.value.maxMessageSize))
  }

  /** What a description made by a peer with `p` declares to a peer with `q`. */
  ghost predicate Truthful(p: Option<Settings>, q: Option<Settings>, d: SessionDescription) {
    var declares := p.Some? && (d.kind.Offer? || q.Some?);
    && (d.kind.Offer? || d.kind.Answer?)
    && Sdp.HasAttribute(d.sdp) == declares
    && Sdp.Parsed(d.sdp) == if declares then Some(Sdp.Local(p.value.maxMessageSize)) else None
  }

  /** The state an end is in if the apply under way is rejected, and when none is. */
  function AtRest(p: Peer): NegotiationState {
    if p.flight.Some? then p.flight.value.before else p.state
  }

  ghost predicate KnowsRight(p: Peer, q: Option<Settings>) {
    if p.settings.None? then AtRest(p) == UNSETTLED
    else
      && AtRest(p).pending == (if p.remoteOffer then Agreed(p.settings, q) else None)
      && AtRest(p).localOfferDeclared == p.localOffer
      && AtRest(p).remote == if AtRest(p).settled then Agreed(p.settings, q) else None
  }

  /** What `p` recorded follows from the description, and that tells the truth unless it is a remote answer. */
  ghost predicate FlightKnown(p: Peer, q: Option<Settings>) {
    p.flight.Some? ==>
      var f := p.flight.value;
      && p.state == (if p.settings.None? then f.before else After(f.before, Op(f.local, f.description)))
      && (f.effective ==> Answered(p))
      && (f.local && (f.description.kind.Offer? || f.description.kind.Answer?) ==>
           Truthful(p.settings, q, f.description))
      && (!f.local && f.description.kind.Offer? ==> Truthful(q, p.settings, f.description))
  }

  ghost predicate HeardRight(p: Peer, q: Option<Settings>) {
    p.flight.Some? && !p.flight.value.local && p.flight.value.description.kind.Answer? ==>
      Truthful(q, p.settings, p.flight.value.description)
  }

  /** What `p` knows and has said is right. */
  ghost predicate Informed(p: Peer, q: Option<Settings>) {
    && (forall d :: d in p.made ==> Truthful(p.settings, q, d))
    && (forall base :: base in p.drafts ==> Native(base))
    && KnowsRight(p, q)
    && FlightKnown(p, q)
  }

  /** An answer that timed out settled its end. */
  predicate NoAnswerOwed(p: Peer) {
    p.settings.Some? && !Kept(p).settled ==> forall o :: o in p.overdue ==> !o.kind.Answer?
  }

  ghost predicate Sound(p: Peer, q: Option<Settings>) {
    Informed(p, q) && HeardRight(p, q) && NoAnswerOwed(p)
  }

  ghost predicate Inv(s: Pair) {
    Sound(s.a, s.b.settings) && Sound(s.b, s.a.settings)
  }

  lemma NativeDeclares(base: string, n: Sdp.U64)
    requires Native(base)
    ensures Sdp.Parsed(base) == None
    ensures Sdp.HasAttribute(Sdp.Declared(base, Sdp.Local(n)))
    ensures Sdp.Parsed(Sdp.Declared(base, Sdp.Local(n))) == Some(Sdp.Local(n))
  {
    Sdp.NothingDeclared(base);
    Sdp.ParseOfDeclared(base, Sdp.Local(n));
    Sdp.DeclaredHasAttribute(base, Sdp.Local(n));
  }

  lemma OfferIsTruthful(p: Peer, q: Option<Settings>, base: string)
    requires Native(base)
    ensures Truthful(p.settings, q, OfferOf(p.settings, SessionDescription(Offer, base)))
  {
    NativeDeclares(base, if p.settings.Some? then p.settings.value.maxMessageSize else 0);
    hide Sdp.Parsed, Sdp.HasAttribute, Sdp.Declared;
  }

  /** What the read of `pending` finds. */
  lemma PendingIsSeen(p: Peer, q: Option<Settings>)
    requires KnowsRight(p, q) && FlightKnown(p, q) && p.settings.Some?
    ensures p.state.pending.Some? == (q.Some? && OfferSeen(p))
  {
    hide Sdp.Parsed, Sdp.HasAttribute;
  }

  lemma AnswerIsTruthful(p: Peer, q: Option<Settings>, base: string)
    requires KnowsRight(p, q) && FlightKnown(p, q) && Native(base)
    ensures var d := AnswerOf(p.settings, p.state, SessionDescription(Answer, base));
      && (OfferSeen(p) ==> Truthful(p.settings, q, d))
      && (p.settings.Some? && q.Some? && !OfferSeen(p) ==> !Truthful(p.settings, q, d) && d.sdp == base)
  {
    if p.settings.Some? {
      PendingIsSeen(p, q);
    }
    NativeDeclares(base, if p.settings.Some? then p.settings.value.maxMessageSize else 0);
    hide Sdp.Parsed, Sdp.HasAttribute, Sdp.Declared, OfferSeen, KnowsRight, FlightKnown;
  }

  lemma MakingKeepsInformed(p: Peer, q: Option<Settings>, others: set<SessionDescription>, m: Move)
    requires Informed(p, q) && Possible(p, others, m) && (m.MakeOffer? || m.DraftAnswer? || m.FinishAnswer?)
    ensures Careful(p, m) ==> Informed(MoveOf(p, others, m), q)
    ensures p.settings.Some? && q.Some? && Informed(MoveOf(p, others, m), q) ==> Careful(p, m)
  {
    var p' := MoveOf(p, others, m);
    assert KnowsRight(p', q) == KnowsRight(p, q) && FlightKnown(p', q) == FlightKnown(p, q);
    if m.MakeOffer? {
      OfferIsTruthful(p, q, m.base);
    }
    if m.FinishAnswer? {
      AnswerIsTruthful(p, q, m.base);
      assert AnswerOf(p.settings, p.state, SessionDescription(Answer, m.base)) in p'.made;
    }
    hide Truthful, KnowsRight, FlightKnown, OfferSeen, Native, OfferOf, AnswerOf;
  }

  lemma MakingMovesNothingElse(p: Peer, q: Option<Settings>, others: set<SessionDescription>, m: Move)
    requires m.MakeOffer? || m.DraftAnswer? || m.FinishAnswer?
    ensures HeardRight(MoveOf(p, others, m), q) == HeardRight(p, q)
    ensures NoAnswerOwed(MoveOf(p, others, m)) == NoAnswerOwed(p)
  {
    hide Truthful, Possible, OfferOf, AnswerOf;
  }

  lemma MakingKeepsSound(p: Peer, q: Option<Settings>, others: set<SessionDescription>, m: Move)
    requires Sound(p, q) && Possible(p, others, m) && (m.MakeOffer? || m.DraftAnswer? || m.FinishAnswer?)
    ensures Careful(p, m) ==> Sound(MoveOf(p, others, m), q)
    ensures p.settings.Some? && q.Some? && Sound(MoveOf(p, others, m), q) ==> Careful(p, m)
  {
    hide MoveOf, Informed, Careful, HeardRight, NoAnswerOwed, Possible;
    MakingKeepsInformed(p, q, others, m);
    MakingMovesNothingElse(p, q, others, m);
  }

  /** Whatever moves a peer makes, an answer that timed out settled it. */
  lemma NoAnswerIsEverOwed(p: Peer, others: set<SessionDescription>, m: Move)
    requires NoAnswerOwed(p)
    requires p.flight.Some? && p.settings.Some? ==>
      p.state == After(p.flight.value.before, Op(p.flight.value.local, p.flight.value.description))
    ensures NoAnswerOwed(MoveOf(p, others, m))
  {
    if p.flight.Some? {
      SettledOnce(p.flight.value.before, Op(p.flight.value.local, p.flight.value.description));
    }
    hide After, Possible, Next, OfferOf, AnswerOf;
  }

  ghost predicate OffersTrue(p: Peer, q: Option<Settings>) {
    forall d :: d in p.made && d.kind.Offer? ==> Truthful(p.settings, q, d)
  }

  lemma RecordingKeepsInformed(p: Peer, q: Peer, m: Move)
    requires Informed(p, q.settings) && OffersTrue(q, p.settings) && Possible(p, q.made, m) && m.Record?
    ensures Informed(MoveOf(p, q.made, m), q.settings)
    ensures (forall d :: d in q.made ==> Truthful(q.settings, p.settings, d)) ==>
      HeardRight(MoveOf(p, q.made, m), q.settings)
  {
    hide Truthful, After, Native;
  }

  lemma EffectKeepsInformed(p: Peer, q: Peer, m: Move)
    requires Informed(p, q.settings) && Possible(p, q.made, m) && (m.Effect? || m.LateEffect?)
    ensures Informed(MoveOf(p, q.made, m), q.settings) <==> Careful(p, m)
    ensures HeardRight(p, q.settings) ==> HeardRight(MoveOf(p, q.made, m), q.settings)
  {
    hide Truthful, After, Next, Native;
  }

  lemma ApplyingKeepsInformed(p: Peer, q: Peer, m: Move)
    requires Informed(p, q.settings) && HeardRight(p, q.settings) && Informed(q, p.settings)
    requires Possible(p, q.made, m) && !m.MakeOffer? && !m.DraftAnswer? && !m.FinishAnswer?
    ensures Careful(p, m) ==> Informed(MoveOf(p, q.made, m), q.settings)
    ensures p.settings.Some? && q.settings.Some? && Informed(MoveOf(p, q.made, m), q.settings) ==> Careful(p, m)
    ensures HeardRight(MoveOf(p, q.made, m), q.settings)
  {
    match m
    case Record(_, _) =>
      hide MoveOf, Possible, HeardRight, Truthful;
      RecordingKeepsInformed(p, q, m);
    case Resolve(v) =>
      hide Truthful, After, Native, Answered, KnowsRight, FlightKnown, HeardRight, Resolved;
      VerdictKeepsKnowing(p, q.settings, v);
      ResolvedSaysTheSame(p, v);
    case _ =>
      hide MoveOf, Possible, HeardRight, Informed, Careful;
      EffectKeepsInformed(p, q, m);
  }

  lemma ResolvedSaysTheSame(p: Peer, v: Outcome)
    requires p.flight.Some?
    ensures var p' := Resolved(p, v);
      p'.made == p.made && p'.drafts == p.drafts && p'.settings == p.settings
  {
  }

  lemma ApplyingKeepsSound(p: Peer, q: Peer, m: Move)
    requires Sound(p, q.settings) && Sound(q, p.settings) && Possible(p, q.made, m)
    requires !m.MakeOffer? && !m.DraftAnswer? && !m.FinishAnswer?
    ensures Careful(p, m) ==> Sound(MoveOf(p, q.made, m), q.settings)
    ensures p.settings.Some? && q.settings.Some? && Sound(MoveOf(p, q.made, m), q.settings) ==> Careful(p, m)
  {
    hide MoveOf, Careful, NoAnswerOwed, HeardRight, Truthful, KnowsRight, Possible, After;
    NoAnswerIsEverOwed(p, q.made, m);
    ApplyingKeepsInformed(p, q, m);
    hide Informed;
  }

  lemma VerdictKeepsKnowing(p: Peer, q: Option<Settings>, v: Outcome)
    requires KnowsRight(p, q) && FlightKnown(p, q) && p.flight.Some? && (v.Rejected? || HeardRight(p, q))
    ensures Careful(p, Resolve(v)) ==> KnowsRight(Resolved(p, v), q)
    ensures p.settings.Some? && q.Some? && KnowsRight(Resolved(p, v), q) ==> Careful(p, Resolve(v))
    ensures FlightKnown(Resolved(p, v), q) && HeardRight(Resolved(p, v), q)
  {
    hide Sdp.Parsed, Sdp.HasAttribute;
  }

  /**
   Where both ends take part, being careful is exactly what keeps a peer's
   knowledge, and what it tells the other, right.
   */
  lemma SoundIffCareful(p: Peer, q: Peer, m: Move)
    requires Sound(p, q.settings) && Sound(q, p.settings)
    requires p.settings.Some? && q.settings.Some? && Possible(p, q.made, m)
    ensures Sound(MoveOf(p, q.made, m), q.settings) <==> Careful(p, m)
  {
    hide Sound, Careful, Possible, MoveOf;
    if m.MakeOffer? || m.DraftAnswer? || m.FinishAnswer? {
      MakingKeepsSound(p, q.settings, q.made, m);
    } else {
      ApplyingKeepsSound(p, q, m);
    }
  }

  lemma MoveKeepsSettings(p: Peer, others: set<SessionDescription>, m: Move)
    ensures MoveOf(p, others, m).settings == p.settings
    ensures !Possible(p, others, m) ==> MoveOf(p, others, m) == p
  {
    hide Possible, After, OfferOf, AnswerOf, Next;
  }

  lemma StepKeepsInv(s: Pair, action: Action)
    requires Inv(s) && CarefulStep(s, action)
    ensures Inv(Step(s, action))
  {
    var p, q, m := Mover(s, action), Other(s, action), action.move;
    hide Sound, Careful, Possible, MoveOf;
    MoveKeepsSettings(p, q.made, m);
    if Possible(p, q.made, m) {
      if m.MakeOffer? || m.DraftAnswer? || m.FinishAnswer? {
        MakingKeepsSound(p, q.settings, q.made, m);
      } else {
        ApplyingKeepsSound(p, q, m);
      }
    }
  }

  lemma StepKeepsSettings(s: Pair, action: Action)
    ensures Step(s, action).a.settings == s.a.settings && Step(s, action).b.settings == s.b.settings
  {
    MoveKeepsSettings(Mover(s, action), Other(s, action).made, action.move);
    hide MoveOf;
  }

  lemma {:induction false} CarefulRunsKeepInv(a: Option<Settings>, b: Option<Settings>, actions: seq<Action>)
    requires CarefulRun(a, b, actions)
    ensures Inv(Run(a, b, actions))
    ensures Run(a, b, actions).a.settings == a && Run(a, b, actions).b.settings == b
    decreases |actions|
  {
    if actions != [] {
      var before := actions[..|actions| - 1];
      CarefulRunsKeepInv(a, b, before);
      hide Inv, CarefulStep, Step;
      StepKeepsInv(Run(a, b, before), actions[|actions| - 1]);
      StepKeepsSettings(Run(a, b, before), actions[|actions| - 1]);
    } else {
      hide CarefulStep, Step;
    }
  }

  /** What libwebrtc has cannot be undone any more, and is right already. */
  lemma KeptIsRight(p: Peer, q: Option<Settings>)
    requires KnowsRight(p, q) && FlightKnown(p, q) && HeardRight(p, q)
    ensures Kept(p).remote == if Kept(p).settled then Agreed(p.settings, q) else None
  {
    hide Sdp.Parsed, Sdp.HasAttribute;
  }

  // ---------------------------------------------------------------------
  // When an end does not take part
  // ---------------------------------------------------------------------

  predicate Nothing(s: NegotiationState) {
    s.pending.None? && s.remote.None?
  }

  /** What a peer holds and says when it, or the other, takes no part. */
  ghost predicate Bare(p: Peer) {
    && Nothing(p.state) && Nothing(AtRest(p))
    && (forall base :: base in p.drafts ==> Native(base))
    && (p.settings.None? ==> forall d :: d in p.made ==> Sdp.Parsed(d.sdp).None?)
  }

  lemma MakingStaysBare(p: Peer, others: set<SessionDescription>, m: Move)
    requires Bare(p) && (m.MakeOffer? || m.DraftAnswer? || m.FinishAnswer?)
    ensures Bare(MoveOf(p, others, m))
  {
    if p.settings.None? && !m.DraftAnswer? && Possible(p, others, m) {
      NativeDeclares(m.base, 0);
    }
    hide Sdp.Parsed, Sdp.HasAttribute, Sdp.Declared, Native;
  }

  lemma AfterNothing(s: NegotiationState, op: Op)
    requires Nothing(s)
    requires op.local || op.description.kind.PrAnswer? || op.description.kind.Rollback?
          || Sdp.Parsed(op.description.sdp).None?
    ensures Nothing(After(s, op))
  {
  }

  lemma ApplyingStaysBare(p: Peer, q: Peer, m: Move)
    requires Bare(p) && Bare(q) && (p.settings.None? || q.settings.None?)
    requires !m.MakeOffer? && !m.DraftAnswer? && !m.FinishAnswer?
    ensures Bare(MoveOf(p, q.made, m))
  {
    hide Sdp.Parsed, Sdp.HasAttribute, Next, Native, After, Nothing;
    if m.Record? && p.settings.Some? && Possible(p, q.made, m) {
      AfterNothing(p.state, Op(m.local, m.description));
    }
  }

  lemma BareStaysBare(p: Peer, q: Peer, m: Move)
    requires Bare(p) && Bare(q) && (p.settings.None? || q.settings.None?)
    ensures Bare(MoveOf(p, q.made, m))
  {
    hide Bare, MoveOf;
    if m.MakeOffer? || m.DraftAnswer? || m.FinishAnswer? {
      MakingStaysBare(p, q.made, m);
    } else {
      ApplyingStaysBare(p, q, m);
    }
  }

  /**
   When an end takes no part neither end ever holds anything, in any run: not
   while a description is recorded either, and whatever anyone neglects.
   */
  lemma {:induction false} WithoutAnEndNothingIsAgreed(a: Option<Settings>, b: Option<Settings>, actions: seq<Action>)
    requires a.None? || b.None?
    ensures var s := Run(a, b, actions);
      && s.a.settings == a && s.b.settings == b && Bare(s.a) && Bare(s.b)
    decreases |actions|
  {
    if actions != [] {
      var before, action := actions[..|actions| - 1], actions[|actions| - 1];
      WithoutAnEndNothingIsAgreed(a, b, before);
      var s := Run(a, b, before);
      hide Bare, MoveOf;
      StepKeepsSettings(s, action);
      BareStaysBare(Mover(s, action), Other(s, action), action.move);
    }
  }

  // ---------------------------------------------------------------------
  // Agreement
  // ---------------------------------------------------------------------

  /**
   What the end decided is `right`: what it holds whenever libwebrtc may act on
   it, be the apply still under way, and what a rejection would bring back.
   */
  ghost predicate Decides(p: Peer, right: Option<Sdp.Params>) {
    && (p.flight.None? || p.flight.value.effective ==> p.state.remote == if p.state.settled then right else None)
    && AtRest(p).remote == if AtRest(p).settled then right else None
  }

  lemma SoundDecides(p: Peer, q: Option<Settings>)
    requires Sound(p, q)
    ensures Decides(p, Agreed(p.settings, q))
  {
    KeptIsRight(p, q);
    hide FlightKnown, HeardRight, NoAnswerOwed;
  }

  /**
   Two-peer agreement: an end that settled holds the other end's advertised
   limit exactly when both ends take part, from the moment libwebrtc has the
   answer, and an end that did not settle holds nothing. Care is needed only
   where both ends take part.
   */
  lemma SettledEndsAgree(a: Option<Settings>, b: Option<Settings>, actions: seq<Action>)
    requires a.Some? && b.Some? ==> CarefulRun(a, b, actions)
    ensures Decides(Run(a, b, actions).a, Agreed(a, b))
    ensures Decides(Run(a, b, actions).b, Agreed(b, a))
  {
    hide Run, Decides, Sound;
    var s := Run(a, b, actions);
    if a.Some? && b.Some? {
      CarefulRunsKeepInv(a, b, actions);
      SoundDecides(s.a, b);
      SoundDecides(s.b, a);
    } else {
      WithoutAnEndNothingIsAgreed(a, b, actions);
      BareDecidesNothing(s.a);
      BareDecidesNothing(s.b);
    }
  }

  lemma BareDecidesNothing(p: Peer)
    requires Bare(p)
    ensures Decides(p, None)
  {
  }

  // ---------------------------------------------------------------------
  // Who is careful without trying
  // ---------------------------------------------------------------------

  /** No apply times out, and creating an answer and applying a description never overlap at one end. */
  predicate Orderly(p: Peer, m: Move) {
    && !(m.Resolve? && m.verdict.Unconfirmed?)
    && (m.DraftAnswer? ==> p.flight.None?)
    && (m.Record? ==> p.drafts == {})
  }

  ghost predicate OrderlyRun(a: Option<Settings>, b: Option<Settings>, actions: seq<Action>)
    decreases |actions|
  {
    actions != [] ==>
      var before, action := actions[..|actions| - 1], actions[|actions| - 1];
      && OrderlyRun(a, b, before)
      && (Possible(Mover(Run(a, b, before), action), Other(Run(a, b, before), action).made, action.move) ==>
           Orderly(Mover(Run(a, b, before), action), action.move))
  }

  /** The signalling state knows of every offer that stands, once the description in effect is answered for. */
  predicate Tracks(p: Peer) {
    var f := p.flight;
    var e := if f.Some? && f.value.effective then Standing(p, f.value.local, f.value.description.kind) else p;
    && p.overdue == []
    && (p.signalling.HaveRemoteOffer? || p.signalling.HaveLocalPranswer? ==> e.remoteOffer)
    && (p.signalling.HaveLocalOffer? || p.signalling.HaveRemotePranswer? ==> e.localOffer)
    && (f.Some? && f.value.effective && f.value.description.kind.Answer? ==>
         if f.value.local then p.remoteOffer else p.localOffer)
    && (p.drafts != {} ==> f.None? && p.remoteOffer)
  }

  lemma OrderlyMoveIsCareful(p: Peer, others: set<SessionDescription>, m: Move)
    requires Tracks(p) && (Possible(p, others, m) ==> Orderly(p, m))
    ensures Possible(p, others, m) ==> Careful(p, m)
    ensures Tracks(MoveOf(p, others, m))
  {
    hide After, OfferOf, AnswerOf, Available, Native;
  }

  lemma {:induction false} OrderlyRunsAreCareful(a: Option<Settings>, b: Option<Settings>, actions: seq<Action>)
    requires OrderlyRun(a, b, actions)
    ensures CarefulRun(a, b, actions)
    ensures Tracks(Run(a, b, actions).a) && Tracks(Run(a, b, actions).b)
    decreases |actions|
  {
    if actions != [] {
      var before := actions[..|actions| - 1];
      OrderlyRunsAreCareful(a, b, before);
      var s, action := Run(a, b, before), actions[|actions| - 1];
      OrderlyMoveIsCareful(Mover(s, action), Other(s, action).made, action.move);
      hide Tracks, MoveOf, Possible, Careful, Orderly;
    }
  }

  /**
   When no apply times out and no end creates an answer across an apply of its
   own, the ends agree in every run: any glare, rollback, rejection, delay,
   repetition or loss.
   */
  lemma SettledEndsAgreeInOrderlyRuns(a: Option<Settings>, b: Option<Settings>, actions: seq<Action>)
    requires a.Some? && b.Some? ==> OrderlyRun(a, b, actions)
    ensures Decides(Run(a, b, actions).a, Agreed(a, b))
    ensures Decides(Run(a, b, actions).b, Agreed(b, a))
  {
    if a.Some? && b.Some? {
      OrderlyRunsAreCareful(a, b, actions);
    }
    hide Decides, Run, CarefulRun;
    SettledEndsAgree(a, b, actions);
  }
}
