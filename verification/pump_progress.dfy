/**
 The pump never gets stuck: whatever state the calls have reached, the queue
 can be emptied by the calls under way and libwebrtc's own callback, as long as
 libwebrtc's buffer drains. No new call and no new message is needed.
 */
module PumpProgress {
  import opened Wrappers
  import opened Frame
  import Send
  import opened Pump

  predicate Serving(a: Action) {
    a.Drain? || a.Report? || a.Advance?
  }

  /** Frames that have not reached libwebrtc. */
  function Left(s: Channel): nat {
    |s.toSend| + |InHand(s)|
  }

  /** With the buffer drained and the lock free, how far the request to pump has come. */
  ghost function WakePhase(s: Channel): nat {
    if SomeoneAt(s, TryLock) && s.again then 6
    else if SomeoneAt(s, Ask) then 7
    else if SomeoneAt(s, Recheck) && s.again then 8
    else 9
  }

  /** The steps at most that are left before the next frame is sent. */
  ghost function Phase(c: Send.SendConfig, s: Channel): nat {
    if s.native > 0 then 13
    else match Holder(s)
      case None => WakePhase(s)
      case Some(Native(_, _)) => 1
      case Some(Build(b)) => if b < c.highWater then 2 else 12
      case Some(Measure) => 3
      case Some(Estimate) => 4
      case Some(Record(_)) => 5
      case Some(Swap) => if s.again then 5 else 11
      case Some(_) => 10
  }

  ghost predicate Nearer(c: Send.SendConfig, s: Channel, t: Channel) {
    && t.open && t.pushed == s.pushed
    && (Left(t) < Left(s) || (Left(t) == Left(s) && Phase(c, t) < Phase(c, s)))
  }

  /** The call that holds the pump comes nearer to the next frame with every step. */
  lemma HolderProgresses(c: Send.SendConfig, s: Channel)
    requires Inv(c, s) && s.open && s.native == 0 && Left(s) > 0 && s.lock.Some?
    ensures Nearer(c, s, AdvanceCall(c, s, s.lock.value))
  {
    var id := s.lock.value;
    AdvanceKeepsExclusive(c, s, id);
    assert Holder(s) == Some(s.calls[id]);
    hide Inv, Exclusive, Bounded, Ordered, NoLostWakeup, SomeoneAt;
  }

  /** With the lock free a request is on its way, and comes nearer to taking it. */
  lemma WakerProgresses(c: Send.SendConfig, s: Channel, id: CallId)
    requires Inv(c, s) && s.open && s.native == 0 && Left(s) > 0 && s.lock.None? && id in s.calls
    requires s.calls[id] == if WakePhase(s) == 6 then TryLock else if WakePhase(s) == 7 then Ask else Recheck
    requires WakePhase(s) == 8 ==> s.again
    requires WakePhase(s) < 9
    ensures Nearer(c, s, AdvanceCall(c, s, id))
  {
    var t := AdvanceCall(c, s, id);
    AdvanceKeepsExclusive(c, s, id);
    assert id in t.calls;
    hide Inv, Exclusive, Bounded, Ordered, NoLostWakeup;
  }

  lemma ReportWakes(c: Send.SendConfig, s: Channel, id: CallId)
    requires Inv(c, s) && s.open && s.native == 0 && Left(s) > 0 && s.lock.None? && id !in s.calls
    requires s.events > 0 && WakePhase(s) == 9
    ensures Nearer(c, s, Step(c, s, Report(id)))
  {
    var t := Step(c, s, Report(id));
    assert t.calls[id] == Ask;
    hide Inv, Exclusive, Bounded, Ordered, NoLostWakeup;
  }

  /** In every state with a frame left some step brings the next frame nearer. */
  lemma SomeStepProgresses(c: Send.SendConfig, s: Channel) returns (a: Action)
    requires Inv(c, s) && s.open && Left(s) > 0
    ensures Serving(a) && Nearer(c, s, Step(c, s, a))
  {
    if s.native > 0 {
      a := Drain(0);
    } else if s.lock.Some? {
      HolderProgresses(c, s);
      a := Advance(s.lock.value);
    } else if WakePhase(s) < 9 {
      var pc := if WakePhase(s) == 6 then TryLock else if WakePhase(s) == 7 then Ask else Recheck;
      var id :| id in s.calls && s.calls[id] == pc;
      WakerProgresses(c, s, id);
      a := Advance(id);
    } else {
      assert WakePending(c, s);
      var id := FreshId(s.calls.Keys);
      ReportWakes(c, s, id);
      a := Report(id);
    }
  }

  lemma OneMoreStep(c: Send.SendConfig, actions: seq<Action>) returns (a: Action)
    requires Send.Validate(c).Ok? && Run(c, actions).open && Left(Run(c, actions)) > 0
    ensures Serving(a) && Nearer(c, Run(c, actions), Run(c, actions + [a]))
  {
    EveryRunKeepsInv(c, actions);
    hide Nearer, Left, Inv, Step;
    a := SomeStepProgresses(c, Run(c, actions));
    assert (actions + [a])[..|actions|] == actions;
  }

  lemma {:induction false} Serves(c: Send.SendConfig, actions: seq<Action>) returns (more: seq<Action>)
    requires Send.Validate(c).Ok? && Run(c, actions).open
    ensures forall a :: a in more ==> Serving(a)
    ensures
      var t := Run(c, actions + more);
      t.open && t.pushed == Run(c, actions).pushed && Left(t) == 0
    decreases Left(Run(c, actions)), Phase(c, Run(c, actions))
  {
    hide Run, Phase, Left, Serving;
    if Left(Run(c, actions)) == 0 {
      more := [];
      assert actions + more == actions;
    } else {
      var a := OneMoreStep(c, actions);
      var rest := Serves(c, actions + [a]);
      more := [a] + rest;
      assert actions + more == actions + [a] + rest;
    }
  }

  /**
   From every state of every run on an open channel, the calls under way and
   the low-threshold callback can hand everything queued to libwebrtc, in
   order, without another message or call.
   */
  lemma EveryQueueCanEmpty(c: Send.SendConfig, actions: seq<Action>) returns (more: seq<Action>)
    requires Send.Validate(c).Ok? && Run(c, actions).open
    ensures forall a :: a in more ==> Serving(a)
    ensures Run(c, actions + more).toSend == []
    ensures Run(c, actions + more).handed == Run(c, actions).pushed
  {
    more := Serves(c, actions);
    EveryRunKeepsInv(c, actions + more);
    hide Run;
  }
}
