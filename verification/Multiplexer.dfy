/**
 * The hub side of one agent session: many calls share one ordered connection, keyed by request id.
 *
 * The session and every call are tasks that interleave freely. Each lock acquisition of
 * `agent_link.rs` is one label here, and so is each point where a task can be overtaken: a
 * looked-up sender is used in a later step than the one that found it. A run is any sequence of
 * enabled labels.
 */
module Multiplexer {
  import opened Wrappers
  import opened Protocol

  /** `call_streamed`, `call_streaming_reply` and `call_bidi_streamed`. */
  datatype Kind = OneShot | Streaming | Bidi

  /** What the receiving half of a one-shot reply channel can observe. */
  datatype Slot = Empty | Filled(reply: Reply) | Closed

  datatype Outcome = Replied(reply: Reply) | AgentUnavailable | AgentTimeout | Ended

  /** Where a call's own task is; every constructor names what it does next. */
  datatype CallPc =
    | Registering
    | ReadingOutbound
    | Sending
    | Awaiting
    | TimingOut
    | DroppingPending
    | DroppingStream
    | Reading
    | Done(outcome: Outcome)

  /** The background task of a bidirectional call that forwards its outgoing payloads. */
  datatype FeederPc = NoFeeder | Feeding | FeederDroppingPending | FeederDroppingStream | FeederDone

  datatype Call = Call(kind: Kind, pc: CallPc, feeder: FeederPc, slot: Slot, inbox: seq<Reply>)

  /** The session task: it resolves inbound messages one at a time and, once the stream ends, fails what is left. */
  datatype SessionPc =
    | Connecting
    | Idle
    | LookingUp(id: nat, reply: Reply)
    | Forwarding(id: nat, reply: Reply)
    | Taking(id: nat, reply: Reply)
    | Answering(id: nat, reply: Reply)
    | ClearingPending
    | ClearingStreams
    | ClearingOutbound
    | Over

  datatype Link = Link(
    nextId: nat,
    pending: set<nat>,
    streams: set<nat>,
    outbound: bool,
    session: SessionPc,
    calls: map<nat, Call>)

  datatype Label =
    // the session task
    | Connect
    | Receive(id: nat, reply: Reply)
    | LookUpStream(id: nat, reply: Reply)
    | ForwardReply(id: nat, reply: Reply)
    | TakePending(id: nat, reply: Reply)
    | AnswerCall(id: nat, reply: Reply)
    | StreamEnds
    | ClearPending
    | ClearStreams
    | ClearOutbound
    // a call's task
    | Begin(id: nat, kind: Kind)
    | Register(id: nat)
    | ReadOutbound(id: nat)
    | Send(id: nat, ok: bool)
    | AllSent(id: nat)
    | Observe(id: nat)
    | Timeout(id: nat)
    | DropPending(id: nat)
    | DropStream(id: nat)
    | EndStream(id: nat)
    // a bidirectional call's feeder
    | Feed(id: nat, ok: bool)
    | FeedEnds(id: nat)
    | FeederDropsPending(id: nat)
    | FeederDropsStream(id: nat)

  function Init(): Link {
    Link(1, {}, {}, false, Connecting, map[])
  }

  predicate HasCall(s: Link, id: nat, pc: CallPc) {
    id in s.calls && s.calls[id].pc == pc
  }

  predicate HasFeeder(s: Link, id: nat, pc: FeederPc) {
    id in s.calls && s.calls[id].feeder == pc
  }

  predicate Enabled(s: Link, l: Label) {
    match l
    case Connect => s.session == Connecting
    case Receive(_, _) => s.session == Idle
    case LookUpStream(id, reply) => s.session == LookingUp(id, reply)
    case ForwardReply(id, reply) => s.session == Forwarding(id, reply)
    case TakePending(id, reply) => s.session == Taking(id, reply)
    case AnswerCall(id, reply) => s.session == Answering(id, reply)
    case StreamEnds => s.session == Idle
    case ClearPending => s.session == ClearingPending
    case ClearStreams => s.session == ClearingStreams
    case ClearOutbound => s.session == ClearingOutbound
    case Begin(id, _) => id == s.nextId
    case Register(id) => HasCall(s, id, Registering)
    case ReadOutbound(id) => HasCall(s, id, ReadingOutbound)
    case Send(id, _) => HasCall(s, id, Sending)
    case AllSent(id) => HasCall(s, id, Sending) && s.calls[id].kind == OneShot
    case Observe(id) => HasCall(s, id, Awaiting) && s.calls[id].slot != Empty
    case Timeout(id) => HasCall(s, id, Awaiting)
    case DropPending(id) => HasCall(s, id, DroppingPending) || HasCall(s, id, TimingOut)
    case DropStream(id) => HasCall(s, id, DroppingStream)
    case EndStream(id) => HasCall(s, id, Reading)
    case Feed(id, _) => HasFeeder(s, id, Feeding)
    case FeedEnds(id) => HasFeeder(s, id, Feeding)
    case FeederDropsPending(id) => HasFeeder(s, id, FeederDroppingPending)
    case FeederDropsStream(id) => HasFeeder(s, id, FeederDroppingStream)
  }

  /** Dropping a one-shot sender that was never used closes its receiver. */
  function CloseIfEmpty(c: Call): Call {
    if c.slot == Empty then c.(slot := Closed) else c
  }

  function WithCall(s: Link, id: nat, c: Call): Link {
    s.(calls := s.calls[id := c])
  }

  function At(s: Link, id: nat, pc: CallPc): Link
    requires id in s.calls
  {
    WithCall(s, id, s.calls[id].(pc := pc))
  }

  function FeederAt(s: Link, id: nat, pc: FeederPc): Link
    requires id in s.calls
  {
    WithCall(s, id, s.calls[id].(feeder := pc))
  }

  /** Removes one entry of `pending`, dropping its sender. */
  function RemovePending(s: Link, id: nat): Link
    requires id in s.calls
  {
    if id in s.pending
    then WithCall(s, id, CloseIfEmpty(s.calls[id])).(pending := s.pending - {id})
    else s
  }

  function RemoveStream(s: Link, id: nat): Link {
    s.(streams := s.streams - {id})
  }

  function Step(s: Link, l: Label): Link
    requires Enabled(s, l)
  {
    match l
    case Connect => s.(outbound := true, session := Idle)
    case Receive(id, reply) => s.(session := LookingUp(id, reply))
    case LookUpStream(id, reply) =>
      s.(session := if id in s.streams then Forwarding(id, reply) else Taking(id, reply))
    case ForwardReply(id, reply) =>
      (if id in s.calls
       then WithCall(s, id, s.calls[id].(inbox := s.calls[id].inbox + [reply]))
       else s).(session := Idle)
    case TakePending(id, reply) =>
      s.(pending := s.pending - {id}, session := if id in s.pending then Answering(id, reply) else Idle)
    case AnswerCall(id, reply) =>
      (if id in s.calls then WithCall(s, id, s.calls[id].(slot := Filled(reply))) else s).(session := Idle)
    case StreamEnds => s.(session := ClearingPending)
    case ClearPending =>
      s.(pending := {},
         calls := map id | id in s.calls :: if id in s.pending then CloseIfEmpty(s.calls[id]) else s.calls[id],
         session := ClearingStreams)
    case ClearStreams => s.(streams := {}, session := ClearingOutbound)
    case ClearOutbound => s.(outbound := false, session := Over)
    case Begin(id, kind) =>
      WithCall(s, id, Call(kind, Registering, NoFeeder, Empty, [])).(nextId := id + 1)
    case Register(id) =>
      var t := At(s, id, ReadingOutbound);
      if s.calls[id].kind == OneShot then t.(pending := s.pending + {id}) else t.(streams := s.streams + {id})
    case ReadOutbound(id) =>
      if !s.outbound then At(s, id, DroppingPending)
      else if s.calls[id].kind == Bidi then FeederAt(At(s, id, Reading), id, Feeding)
      else At(s, id, Sending)
    case Send(id, ok) =>
      if !ok then At(s, id, DroppingPending)
      else if s.calls[id].kind == Streaming then At(s, id, Reading)
      else s
    case AllSent(id) => At(s, id, Awaiting)
    case Observe(id) =>
      At(s, id, Done(match s.calls[id].slot
                     case Filled(reply) => Replied(reply)
                     case _ => AgentUnavailable))
    case Timeout(id) => At(s, id, TimingOut)
    case DropPending(id) =>
      At(RemovePending(s, id), id, if s.calls[id].pc == TimingOut then Done(AgentTimeout) else DroppingStream)
    case DropStream(id) => At(RemoveStream(s, id), id, Done(AgentUnavailable))
    case EndStream(id) => At(RemoveStream(s, id), id, Done(Ended))
    case Feed(id, ok) => if ok then s else FeederAt(s, id, FeederDroppingPending)
    case FeedEnds(id) => FeederAt(s, id, FeederDone)
    case FeederDropsPending(id) => FeederAt(RemovePending(s, id), id, FeederDroppingStream)
    case FeederDropsStream(id) => FeederAt(RemoveStream(s, id), id, FeederDone)
  }

  /** The state after taking every label of `ls` in turn from `s`, or `None` if one of them is not enabled. */
  function Run(s: Link, ls: seq<Label>): Option<Link> {
    if |ls| == 0 then Some(s) else
    match Run(s, ls[..|ls|-1])
    case None => None
    case Some(t) => if Enabled(t, ls[|ls|-1]) then Some(Step(t, ls[|ls|-1])) else None
  }

  /** The call a label is about; `None` for the steps that touch every call at once. */
  function Target(l: Label): Option<nat> {
    match l
    case Connect => None
    case StreamEnds => None
    case ClearPending => None
    case ClearStreams => None
    case ClearOutbound => None
    case _ => Some(l.id)
  }

  predicate Concerns(l: Label, id: nat) {
    Target(l) == None || Target(l) == Some(id)
  }

  /** What call `id` can see of a run. */
  function Only(ls: seq<Label>, id: nat): seq<Label> {
    if |ls| == 0 then []
    else if Concerns(ls[|ls|-1], id) then Only(ls[..|ls|-1], id) + [ls[|ls|-1]]
    else Only(ls[..|ls|-1], id)
  }
}
