/**
 Any number of threads applying descriptions on one connection that takes
 part (crates/reactor-webrtc/src/dc_chunking.rs, `DcNegotiation::apply`), with
 libwebrtc answering, refusing or falling silent at any point and channels
 reading the decision whenever they like.
 */
module ApplyThreads {
  import opened Wrappers
  import opened DcChunking
  import Sdp

  type ThreadId = nat

  /** Where a call of `apply` is. `Recorded` on, the thread holds `applying`. */
  datatype Pc =
    | Waiting(op: Op)
    | Locked(op: Op)
    | Recorded(op: Op, before: NegotiationState)
    /** libwebrtc has applied the description but the call has not returned. */
    | Effective(op: Op, before: NegotiationState)
    /** libwebrtc refused it; the record is about to be undone. */
    | Refused(op: Op, before: NegotiationState)
    | Leaving

  datatype Fate = Open | Kept | Dropped

  /** One taking of the `applying` lock, and what became of its description. */
  datatype Entry = Entry(op: Op, fate: Fate)

  datatype Connection = Connection(
    state: NegotiationState,
    lock: Option<ThreadId>,
    calls: map<ThreadId, Pc>,
    /** Every description that got the lock, in the order it did. */
    taken: seq<Entry>,
    /** Answers libwebrtc never answered for: it may apply them at any later time. */
    unconfirmedAnswer: bool,
    /** Whether libwebrtc has applied a final answer. */
    answered: bool,
    associationUp: bool)

  const INIT := Connection(UNSETTLED, None, map[], [], false, false, false)

  datatype Action =
    | Call(id: ThreadId, op: Op)
    | Acquire(id: ThreadId)
    | Record(id: ThreadId)
    /** libwebrtc applies the description. */
    | TakeEffect(id: ThreadId)
    /** libwebrtc refuses it. */
    | Refuse(id: ThreadId)
    /** The native call returns, having applied it, or times out. */
    | Return(id: ThreadId)
    | TimeOut(id: ThreadId)
    | Undo(id: ThreadId)
    | Release(id: ThreadId)
    /** libwebrtc applies, late, an answer whose apply timed out. */
    | TakeEffectLate
    /** The SCTP association comes up. */
    | Associate

  function Set(s: Connection, id: ThreadId, pc: Pc): Connection {
    s.(calls := s.calls[id := pc])
  }

  function Close(taken: seq<Entry>, fate: Fate): seq<Entry> {
    if taken == [] then [] else taken[..|taken| - 1] + [taken[|taken| - 1].(fate := fate)]
  }

  function Step(s: Connection, a: Action): Connection {
    match a
    case Call(id, op) =>
      if id in s.calls then s else Set(s, id, Waiting(op))
    case Acquire(id) =>
      if id in s.calls && s.calls[id].Waiting? && s.lock.None? then
        Set(s.(lock := Some(id), taken := s.taken + [Entry(s.calls[id].op, Open)]),
            id, Locked(s.calls[id].op))
      else s
    case Record(id) =>
      if id in s.calls && s.calls[id].Locked? then
        Set(s.(state := After(s.state, s.calls[id].op)), id, Recorded(s.calls[id].op, s.state))
      else s
    case TakeEffect(id) =>
      if id in s.calls && s.calls[id].Recorded? then
        Set(s.(answered := s.answered || s.calls[id].op.description.kind.Answer?),
            id, Effective(s.calls[id].op, s.calls[id].before))
      else s
    case Refuse(id) =>
      if id in s.calls && s.calls[id].Recorded? then
        Set(s, id, Refused(s.calls[id].op, s.calls[id].before))
      else s
    case Return(id) =>
      if id in s.calls && s.calls[id].Effective? then
        Set(s.(taken := Close(s.taken, Kept)), id, Leaving)
      else s
    case TimeOut(id) =>
      if id in s.calls && s.calls[id].Recorded? then
        Set(s.(taken := Close(s.taken, Kept),
               unconfirmedAnswer := s.unconfirmedAnswer || s.calls[id].op.description.kind.Answer?),
            id, Leaving)
      else if id in s.calls && s.calls[id].Effective? then
        Set(s.(taken := Close(s.taken, Kept)), id, Leaving)
      else s
    case Undo(id) =>
      if id in s.calls && s.calls[id].Refused? then
        Set(s.(state := s.calls[id].before, taken := Close(s.taken, Dropped)), id, Leaving)
      else s
    case Release(id) =>
      if id in s.calls && s.calls[id].Leaving? then
        s.(lock := None, calls := s.calls - {id})
      else s
    case TakeEffectLate => s.(answered := s.answered || s.unconfirmedAnswer)
    case Associate => s.(associationUp := s.associationUp || s.answered)
  }

  function Run(actions: seq<Action>): Connection
    decreases |actions|
  {
    if actions == [] then INIT
    else Step(Run(actions[..|actions| - 1]), actions[|actions| - 1])
  }

  /** The descriptions not rejected, applied one after another. */
  function Fold(taken: seq<Entry>): NegotiationState {
    if taken == [] then UNSETTLED
    else
      var last := taken[|taken| - 1];
      var s := Fold(taken[..|taken| - 1]);
      if last.fate.Dropped? then s else After(s, last.op)
  }

  ghost predicate Exclusive(s: Connection) {
    && (s.lock.Some? ==> s.lock.value in s.calls)
    && (forall id :: id in s.calls ==> (!s.calls[id].Waiting? <==> s.lock == Some(id)))
  }

  /** The state is the fold, up to the one description under the lock. */
  ghost predicate Folded(s: Connection) {
    if s.lock.None? || s.lock.value !in s.calls then s.state == Fold(s.taken)
    else
      match s.calls[s.lock.value]
      case Waiting(_) => true
      case Leaving => s.state == Fold(s.taken)
      case Locked(op) =>
        && s.taken != [] && s.taken[|s.taken| - 1] == Entry(op, Open)
        && s.state == Fold(s.taken[..|s.taken| - 1])
      case _ =>
        var pc := s.calls[s.lock.value];
        && s.taken != [] && s.taken[|s.taken| - 1] == Entry(pc.op, Open)
        && pc.before == Fold(s.taken[..|s.taken| - 1])
        && s.state == After(pc.before, pc.op)
  }

  /** Only a description still under the lock is undecided. */
  ghost predicate Decided(s: Connection) {
    forall i :: 0 <= i < |s.taken| && s.taken[i].fate.Open? ==>
      && i == |s.taken| - 1
      && s.lock.Some? && s.lock.value in s.calls && !s.calls[s.lock.value].Leaving?
  }

  /** Once libwebrtc applied, or may yet apply, an answer, the decision is settled for good. */
  ghost predicate Fixed(s: Connection) {
    s.answered || s.unconfirmedAnswer ==>
      && s.state.settled
      && (s.lock.Some? && s.lock.value in s.calls ==>
           var pc := s.calls[s.lock.value];
           && (pc.Recorded? || pc.Refused? ==> pc.before.settled && pc.before.remote == s.state.remote))
  }

  ghost predicate Inv(s: Connection) {
    && Exclusive(s)
    && Folded(s)
    && Decided(s)
    && Fixed(s)
    && (s.associationUp ==> s.answered)
  }

  lemma StepKeepsLocks(s: Connection, a: Action)
    requires Inv(s)
    ensures Exclusive(Step(s, a)) && Decided(Step(s, a))
  {
    hide After, Fold;
  }

  lemma StepKeepsFold(s: Connection, a: Action)
    requires Inv(s)
    ensures Folded(Step(s, a))
  {
    hide After;
  }

  lemma StepKeepsFixed(s: Connection, a: Action)
    requires Inv(s)
    ensures Fixed(Step(s, a))
    ensures s.answered ==> Step(s, a).state.remote == s.state.remote
  {
    hide After, Fold;
    if a.Record? && a.id in s.calls && s.calls[a.id].Locked? {
      SettledOnce(s.state, s.calls[a.id].op);
    }
    if (a.TakeEffect? || a.TimeOut?) && a.id in s.calls && s.calls[a.id].Recorded? {
      SettledOnce(s.calls[a.id].before, s.calls[a.id].op);
    }
  }

  lemma StepKeepsAnswered(s: Connection, a: Action)
    ensures s.answered ==> Step(s, a).answered
    ensures s.associationUp ==> Step(s, a).associationUp
    ensures Step(s, a).associationUp ==> s.associationUp || s.answered
  {
    hide After, Fold;
  }

  lemma {:induction false} EveryRunKeepsInv(actions: seq<Action>)
    ensures Inv(Run(actions))
    decreases |actions|
  {
    if actions != [] {
      var before := actions[..|actions| - 1];
      EveryRunKeepsInv(before);
      StepKeepsLocks(Run(before), actions[|actions| - 1]);
      StepKeepsFold(Run(before), actions[|actions| - 1]);
      StepKeepsFixed(Run(before), actions[|actions| - 1]);
      StepKeepsAnswered(Run(before), actions[|actions| - 1]);
      hide Exclusive, Folded, Decided, Fixed, Step;
    }
  }

  /**
   Whenever no apply is under way, the state is what the descriptions that
   were not rejected would have left one at a time, in the order they got the
   lock: a rejection erases exactly its own description.
   */
  lemma ApplyIsAtomic(actions: seq<Action>)
    ensures
      var s := Run(actions);
      s.lock.None? ==>
        && s.state == Fold(s.taken)
        && forall i :: 0 <= i < |s.taken| ==> s.taken[i].fate != Open
  {
    EveryRunKeepsInv(actions);
  }

  /**
   What a channel reads once the association is up is what every channel
   reads from then on, whatever is applied, rejected or timed out afterwards.
   */
  lemma {:induction false} DecisionIsStable(actions: seq<Action>, later: seq<Action>)
    requires Run(actions).associationUp
    ensures Run(actions + later).associationUp
    ensures Run(actions + later).state.remote == Run(actions).state.remote
    ensures Run(actions).state.settled
    decreases |later|
  {
    hide After, Fold, Step;
    if later == [] {
      EveryRunKeepsInv(actions);
      hide Run, Exclusive, Folded, Decided;
      assert actions + later == actions;
    } else {
      var last := later[|later| - 1];
      var before := actions + later[..|later| - 1];
      DecisionIsStable(actions, later[..|later| - 1]);
      assert (actions + later)[..|actions + later| - 1] == before;
      assert Run(actions + later) == Step(Run(before), last);
      EveryRunKeepsInv(before);
      StepKeepsFixed(Run(before), last);
      StepKeepsAnswered(Run(before), last);
      hide Run, Exclusive, Folded, Decided, Fixed;
    }
  }
}
