/**
 * The session as one call would like to see it: a channel of its own, with nobody else on it.
 *
 * A channel is the call's own task, two flags saying whether a reply would currently be routed to it,
 * and the session task restricted to the messages that carry this call's id. It shares nothing with
 * any other channel except the five session-wide steps.
 */
module PrivateChannel {
  import opened Wrappers
  import opened Multiplexer

  datatype Channel = Channel(call: Option<Call>, pending: bool, stream: bool, outbound: bool, session: SessionPc)

  function Fresh(): Channel {
    Channel(None, false, false, false, Connecting)
  }

  predicate CallAt(c: Channel, pc: CallPc) {
    c.call.Some? && c.call.value.pc == pc
  }

  predicate FeederIs(c: Channel, pc: FeederPc) {
    c.call.Some? && c.call.value.feeder == pc
  }

  predicate Enabled(c: Channel, l: Label) {
    match l
    case Connect => c.session == Connecting
    case Receive(_, _) => c.session == Idle
    case LookUpStream(id, reply) => c.session == LookingUp(id, reply)
    case ForwardReply(id, reply) => c.session == Forwarding(id, reply)
    case TakePending(id, reply) => c.session == Taking(id, reply)
    case AnswerCall(id, reply) => c.session == Answering(id, reply)
    case StreamEnds => c.session == Idle
    case ClearPending => c.session == ClearingPending
    case ClearStreams => c.session == ClearingStreams
    case ClearOutbound => c.session == ClearingOutbound
    case Begin(_, _) => c.call == None
    case Register(_) => CallAt(c, Registering)
    case ReadOutbound(_) => CallAt(c, ReadingOutbound)
    case Send(_, _) => CallAt(c, Sending)
    case AllSent(_) => CallAt(c, Sending) && c.call.value.kind == OneShot
    case Observe(_) => CallAt(c, Awaiting) && c.call.value.slot != Empty
    case Timeout(_) => CallAt(c, Awaiting)
    case DropPending(_) => CallAt(c, DroppingPending) || CallAt(c, TimingOut)
    case DropStream(_) => CallAt(c, DroppingStream)
    case EndStream(_) => CallAt(c, Reading)
    case Feed(_, _) => FeederIs(c, Feeding)
    case FeedEnds(_) => FeederIs(c, Feeding)
    case FeederDropsPending(_) => FeederIs(c, FeederDroppingPending)
    case FeederDropsStream(_) => FeederIs(c, FeederDroppingStream)
  }

  function Goto(c: Channel, pc: CallPc): Channel
    requires c.call.Some?
  {
    c.(call := Some(c.call.value.(pc := pc)))
  }

  function FeederGoto(c: Channel, pc: FeederPc): Channel
    requires c.call.Some?
  {
    c.(call := Some(c.call.value.(feeder := pc)))
  }

  /** Losing the sender of an unanswered one-shot call closes it. */
  function LosePending(c: Channel): Channel {
    if !c.pending then c
    else c.(pending := false, call := if c.call.Some? then Some(CloseIfEmpty(c.call.value)) else None)
  }

  function Step(c: Channel, l: Label): Channel
    requires Enabled(c, l)
  {
    match l
    case Connect => c.(outbound := true, session := Idle)
    case Receive(id, reply) => c.(session := LookingUp(id, reply))
    case LookUpStream(id, reply) => c.(session := if c.stream then Forwarding(id, reply) else Taking(id, reply))
    case ForwardReply(_, reply) =>
      c.(session := Idle,
         call := if c.call.Some? then Some(c.call.value.(inbox := c.call.value.inbox + [reply])) else None)
    case TakePending(id, reply) =>
      c.(pending := false, session := if c.pending then Answering(id, reply) else Idle)
    case AnswerCall(_, reply) =>
      c.(session := Idle,
         call := if c.call.Some? then Some(c.call.value.(slot := Filled(reply))) else None)
    case StreamEnds => c.(session := ClearingPending)
    case ClearPending => LosePending(c).(session := ClearingStreams)
    case ClearStreams => c.(stream := false, session := ClearingOutbound)
    case ClearOutbound => c.(outbound := false, session := Over)
    case Begin(_, kind) => c.(call := Some(Call(kind, Registering, NoFeeder, Empty, [])))
    case Register(_) =>
      if c.call.value.kind == OneShot
      then Goto(c, ReadingOutbound).(pending := true)
      else Goto(c, ReadingOutbound).(stream := true)
    case ReadOutbound(_) =>
      if !c.outbound then Goto(c, DroppingPending)
      else if c.call.value.kind == Bidi then FeederGoto(Goto(c, Reading), Feeding)
      else Goto(c, Sending)
    case Send(_, ok) =>
      if !ok then Goto(c, DroppingPending)
      else if c.call.value.kind == Streaming then Goto(c, Reading)
      else c
    case AllSent(_) => Goto(c, Awaiting)
    case Observe(_) =>
      Goto(c, Done(match c.call.value.slot
                   case Filled(reply) => Replied(reply)
                   case _ => AgentUnavailable))
    case Timeout(_) => Goto(c, TimingOut)
    case DropPending(_) =>
      Goto(LosePending(c), if CallAt(c, TimingOut) then Done(AgentTimeout) else DroppingStream)
    case DropStream(_) => Goto(c, Done(AgentUnavailable)).(stream := false)
    case EndStream(_) => Goto(c, Done(Ended)).(stream := false)
    case Feed(_, ok) => if ok then c else FeederGoto(c, FeederDroppingPending)
    case FeedEnds(_) => FeederGoto(c, FeederDone)
    case FeederDropsPending(_) => FeederGoto(LosePending(c), FeederDroppingStream)
    case FeederDropsStream(_) => FeederGoto(c, FeederDone).(stream := false)
  }

  function Run(c: Channel, ls: seq<Label>): Option<Channel> {
    if |ls| == 0 then Some(c) else
    match Run(c, ls[..|ls|-1])
    case None => None
    case Some(d) => if Enabled(d, ls[|ls|-1]) then Some(Step(d, ls[|ls|-1])) else None
  }
}
