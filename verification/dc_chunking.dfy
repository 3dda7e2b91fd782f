/**
 The factory-wide chunking settings and one connection's negotiation state
 (crates/reactor-webrtc/src/dc_chunking.rs).
 */
module DcChunking {
  import opened Wrappers
  import opened Frame
  import Send
  import Sdp
  import Transport
  import Recv

  const I32_MAX: nat := 0x7FFF_FFFF

  datatype Settings = Settings(
    maxBurst: nat, maxMessageSize: Sdp.U64, sendBufferLimit: nat, chunkSize: nat)

  datatype SettingsError = BadBurst(burst: nat) | BadConfig(error: Send.ConfigError)

  /** The send-queue configuration for a channel whose peer declared `remote`. */
  function SendConfigFor(s: Settings, remote: Sdp.Params): Send.SendConfig {
    Send.DEFAULT_CONFIG.(
      chunkSize := s.chunkSize,
      queueLimit := s.sendBufferLimit,
      maxMessageSize := Sdp.EffectiveMaxMessageSize(s.maxMessageSize, remote))
  }

  function ValidateSettings(s: Settings): Result<(), SettingsError> {
    if s.maxBurst == 0 || s.maxBurst > I32_MAX then Err(BadBurst(s.maxBurst))
    else
      var config := Send.DEFAULT_CONFIG.(
        chunkSize := s.chunkSize, queueLimit := s.sendBufferLimit, maxMessageSize := s.maxMessageSize);
      match Send.Validate(config)
      case Ok(_) => Ok(())
      case Err(e) => Err(BadConfig(e))
  }

  /**
   Settings that pass validation give every channel a configuration its queue
   accepts, whatever the peer declares, and no larger a limit than either
   side's.
   */
  lemma SettingsComposeWithAnyPeer(s: Settings, remote: Sdp.Params)
    requires ValidateSettings(s).Ok?
    ensures Send.Validate(SendConfigFor(s, remote)).Ok?
    ensures SendConfigFor(s, remote).maxMessageSize <= s.maxMessageSize
    ensures remote.maxMessageSize.Some? ==>
      SendConfigFor(s, remote).maxMessageSize <= remote.maxMessageSize.value
  {
  }

  /**
   A message one validated side accepts for the other is never dropped there:
   the receiver's limit is the one it advertised, and the sender read it from
   the receiver's own description.
   */
  lemma AcceptedMessagesAreNeverDropped(
    sender: Settings, receiver: Settings, base: string, events: seq<Transport.Event>)
    requires ValidateSettings(sender).Ok?
    requires base != "" && !Sdp.HasAttribute(base)
    ensures
      var declared := Sdp.Parsed(Sdp.Declared(base, Sdp.Local(receiver.maxMessageSize)));
      && declared.Some?
      && var c := SendConfigFor(sender, declared.value);
      && Send.Validate(c).Ok?
      && Transport.AllKept(Transport.Run(c, receiver.maxMessageSize, events))
  {
    var remote := Sdp.Local(receiver.maxMessageSize);
    hide Transport.Step, Sdp.Declared, Sdp.Parsed, Sdp.HasAttribute;
    Sdp.ParseOfDeclared(base, remote);
    SettingsComposeWithAnyPeer(sender, remote);
    assert SendConfigFor(sender, remote).maxMessageSize <= receiver.maxMessageSize;
    hide SendConfigFor, Send.Validate, ValidateSettings;
    Transport.NothingDroppedWithinLimit(SendConfigFor(sender, remote), receiver.maxMessageSize, events);
    hide Transport.AllKept;
  }

  // ---------------------------------------------------------------------
  // Negotiation state
  // ---------------------------------------------------------------------

  datatype SdpType = Offer | PrAnswer | Answer | Rollback

  datatype SessionDescription = SessionDescription(kind: SdpType, sdp: string)

  datatype NegotiationState = NegotiationState(
    remote: Option<Sdp.Params>,
    settled: bool,
    pending: Option<Sdp.Params>,
    localOfferDeclared: bool)
  {
    function Settle(params: Option<Sdp.Params>): NegotiationState {
      if settled then this else this.(settled := true, remote := params)
    }

    function AfterLocal(d: SessionDescription): NegotiationState {
      var declares := Sdp.HasAttribute(d.sdp);
      match d.kind
      case Offer => this.(localOfferDeclared := declares)
      case Answer => this.(pending := None).Settle(if declares then pending else None)
      case Rollback => this.(localOfferDeclared := false)
      case PrAnswer => this
    }

    function AfterRemote(d: SessionDescription): NegotiationState {
      var parsed := Sdp.Parsed(d.sdp);
      match d.kind
      case Offer => this.(pending := parsed)
      case Answer => Settle(if localOfferDeclared then parsed else None)
      case Rollback => this.(pending := None)
      case PrAnswer => this
    }
  }

  const UNSETTLED := NegotiationState(None, false, None, false)

  /** A description on its way to libwebrtc: local or remote. */
  datatype Op = Op(local: bool, description: SessionDescription)

  function After(s: NegotiationState, op: Op): NegotiationState {
    if op.local then s.AfterLocal(op.description) else s.AfterRemote(op.description)
  }

  /** Once settled, no description changes the decision; every final answer settles it. */
  lemma SettledOnce(s: NegotiationState, op: Op)
    ensures s.settled ==> After(s, op).settled && After(s, op).remote == s.remote
    ensures op.description.kind.Answer? ==> After(s, op).settled
    ensures !op.description.kind.Answer? ==>
      After(s, op).settled == s.settled && After(s, op).remote == s.remote
  {
  }

  /** How libwebrtc answered an apply. */
  datatype Outcome = Accepted | Rejected | Unconfirmed

  /** What an apply leaves behind: a rejected description leaves no trace. */
  function Applied(s: NegotiationState, op: Op, outcome: Outcome): NegotiationState {
    if outcome.Rejected? then s else After(s, op)
  }

  class DcNegotiation {
    const settings: Option<Settings>
    var state: NegotiationState

    constructor (settings: Option<Settings>)
      ensures this.settings == settings && state == UNSETTLED
    {
      this.settings := settings;
      state := UNSETTLED;
    }

    method Offer(offer: SessionDescription) returns (r: SessionDescription)
      ensures r == OfferOf(settings, offer)
    {
      if settings.None? {
        return offer;
      }
      var sdp := Sdp.Declare(offer.sdp, Sdp.Local(settings.value.maxMessageSize));
      r := offer.(sdp := sdp);
    }

    method Answer(answer: SessionDescription) returns (r: SessionDescription)
      ensures r == AnswerOf(settings, state, answer)
    {
      if settings.None? || state.pending.None? {
        return answer;
      }
      var sdp := Sdp.Declare(answer.sdp, Sdp.Local(settings.value.maxMessageSize));
      r := answer.(sdp := sdp);
    }

    method Settle(params: Option<Sdp.Params>)
      modifies this
      ensures state == old(state).Settle(params)
    {
      if !state.settled {
        state := state.(settled := true);
        state := state.(remote := params);
      }
    }

    method OnLocalDescription(local: SessionDescription)
      modifies this
      ensures state == old(state).AfterLocal(local)
    {
      var declares := Sdp.CheckAttribute(local.sdp);
      match local.kind {
        case Offer =>
          state := state.(localOfferDeclared := declares);
        case Answer =>
          var pending := state.pending;
          state := state.(pending := None);
          Settle(if declares then pending else None);
        case Rollback =>
          state := state.(localOfferDeclared := false);
        case PrAnswer =>
      }
    }

    method OnRemoteDescription(remote: SessionDescription)
      modifies this
      ensures state == old(state).AfterRemote(remote)
    {
      var parsed := Sdp.Parse(remote.sdp);
      match remote.kind {
        case Offer =>
          state := state.(pending := parsed);
        case Answer =>
          var offered := state.localOfferDeclared;
          Settle(if offered then parsed else None);
        case Rollback =>
          state := state.(pending := None);
        case PrAnswer =>
      }
    }

    /**
     Record, hand to libwebrtc, undo on a rejection. `during` is what a channel
     deciding while libwebrtc works would read.
     */
    method Apply(op: Op, outcome: Outcome) returns (during: Option<Sdp.Params>, ok: bool)
      modifies this
      ensures state == if settings.None? then old(state) else Applied(old(state), op, outcome)
      ensures during == (if settings.None? then old(state) else After(old(state), op)).remote
      ensures ok <==> outcome.Accepted?
    {
      if settings.None? {
        return state.remote, outcome == Accepted;
      }
      var before := state;
      if op.local {
        OnLocalDescription(op.description);
      } else {
        OnRemoteDescription(op.description);
      }
      during := state.remote;
      if outcome == Rejected {
        state := before;
      }
      ok := outcome == Accepted;
    }
  }

  function OfferOf(settings: Option<Settings>, d: SessionDescription): SessionDescription {
    if settings.None? then d
    else d.(sdp := Sdp.Declared(d.sdp, Sdp.Local(settings.value.maxMessageSize)))
  }

  function AnswerOf(settings: Option<Settings>, s: NegotiationState, d: SessionDescription): SessionDescription {
    if settings.None? || s.pending.None? then d
    else d.(sdp := Sdp.Declared(d.sdp, Sdp.Local(settings.value.maxMessageSize)))
  }
}
