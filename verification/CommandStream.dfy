/**
 * The agent side of a streamed command: the command writes to a bounded channel, a forwarder task turns
 * what it finds there into replies, and the final result is sent once the forwarder is through.
 *
 * The command may leave a log pump behind that still holds a sender when it returns. Every point where
 * the tasks can overtake each other is one label.
 */
module CommandStream {
  import opened Wrappers
  import opened Protocol

  const CHANNEL_CAPACITY: nat := 64

  /** Why a command failed on the agent. */
  datatype StartError =
    | EngineUnavailable(message: string)
    | EngineStartFailed(message: string)
    | EngineCommandFailed(message: string)

  datatype Forwarder = Waiting | Holding(chunk: Bytes) | Stopped

  /**
   * `working` is whether the command itself still holds a sender and `pumps` how many tasks it handed one
   * to. `produced` is what the channel accepted, `delivered` what the forwarder got through.
   */
  datatype Stream = Stream(
    queue: seq<Bytes>,
    working: bool,
    pumps: nat,
    forwarder: Forwarder,
    outcome: Option<Result<(), StartError>>,
    finished: bool,
    linkUp: bool,
    produced: seq<Bytes>,
    delivered: seq<Bytes>,
    outbox: seq<CommandOutput>)

  datatype Label =
    | HandOver
    | Produce(chunk: Bytes)
    | PumpEnds
    | Return(outcome: Result<(), StartError>)
    | TakeChunk
    | ForwardChunk
    | ForwarderEnds
    | SendFinal
    | LinkFails

  function Init(): Stream {
    Stream([], true, 0, Waiting, None, false, true, [], [], [])
  }

  function ToCommandResult(outcome: Result<(), StartError>): CommandResult {
    match outcome
    case Ok(_) => CommandOk
    case Err(EngineUnavailable(m)) => CommandError(Unavailable, m)
    case Err(EngineStartFailed(m)) => CommandError(StartFailed, m)
    case Err(EngineCommandFailed(m)) => CommandError(CommandFailed, m)
  }

  predicate SenderLeft(s: Stream) {
    s.working || s.pumps > 0
  }

  predicate Enabled(s: Stream, l: Label) {
    match l
    case HandOver => s.working
    case Produce(_) => SenderLeft(s) && s.forwarder != Stopped && |s.queue| < CHANNEL_CAPACITY
    case PumpEnds => s.pumps > 0
    case Return(_) => s.outcome == None
    case TakeChunk => s.forwarder == Waiting && |s.queue| > 0
    case ForwardChunk => s.forwarder.Holding?
    case ForwarderEnds => s.forwarder == Waiting && s.queue == [] && !SenderLeft(s)
    case SendFinal => s.outcome.Some? && s.forwarder == Stopped && !s.finished
    case LinkFails => s.linkUp
  }

  function Step(s: Stream, l: Label): Stream
    requires Enabled(s, l)
  {
    match l
    case HandOver => s.(working := false, pumps := s.pumps + 1)
    case Produce(chunk) => s.(queue := s.queue + [chunk], produced := s.produced + [chunk])
    case PumpEnds => s.(pumps := s.pumps - 1)
    case Return(outcome) => s.(outcome := Some(outcome), working := false)
    case TakeChunk => s.(forwarder := Holding(s.queue[0]), queue := s.queue[1..])
    case ForwardChunk =>
      if s.linkUp
      then s.(forwarder := Waiting, delivered := s.delivered + [s.forwarder.chunk],
              outbox := s.outbox + [Log(Chunk(s.forwarder.chunk, false))])
      else s.(forwarder := Stopped, queue := [])
    case ForwarderEnds => s.(forwarder := Stopped)
    case SendFinal =>
      s.(finished := true,
         outbox := if s.linkUp then s.outbox + [CommandOutput.Result(ToCommandResult(s.outcome.value))] else s.outbox)
    case LinkFails => s.(linkUp := false)
  }

  function Run(s: Stream, ls: seq<Label>): Option<Stream> {
    if |ls| == 0 then Some(s) else
    match Run(s, ls[..|ls|-1])
    case None => None
    case Some(t) => if Enabled(t, ls[|ls|-1]) then Some(Step(t, ls[|ls|-1])) else None
  }

  /** One log reply per chunk. */
  function Logs(chunks: seq<Bytes>): (out: seq<CommandOutput>)
    ensures |out| == |chunks|
  {
    if |chunks| == 0 then [] else Logs(chunks[..|chunks|-1]) + [Log(Chunk(chunks[|chunks|-1], false))]
  }

  lemma {:induction false} LogsAt(chunks: seq<Bytes>, i: nat)
    requires i < |chunks|
    ensures Logs(chunks)[i] == Log(Chunk(chunks[i], false))
  {
    if i < |chunks| - 1 {
      LogsAt(chunks[..|chunks|-1], i);
    }
  }

  function InHand(s: Stream): seq<Bytes> {
    if s.forwarder.Holding? then [s.forwarder.chunk] else []
  }

  /** No chunk is lost or reordered on its way through the channel, unless the link went down under it. */
  predicate Conserved(s: Stream) {
    if s.forwarder == Stopped
    then s.delivered <= s.produced && s.queue == [] && (s.linkUp ==> s.delivered == s.produced && !SenderLeft(s))
    else s.delivered + InHand(s) + s.queue == s.produced
  }

  function FinalReply(s: Stream): seq<CommandOutput> {
    if s.outcome.Some? then [CommandOutput.Result(ToCommandResult(s.outcome.value))] else []
  }

  /** The logs come first, and nothing follows the result. */
  predicate Shaped(s: Stream) {
    s.outbox == Logs(s.delivered) || (s.finished && s.outbox == Logs(s.delivered) + FinalReply(s))
  }

  predicate Ordered(s: Stream) {
    && (s.finished ==> s.forwarder == Stopped && s.outcome.Some?)
    && (s.finished && s.linkUp ==> |s.outbox| == |s.delivered| + 1)
    && (s.outcome.Some? ==> !s.working)
  }

  lemma StepConserves(s: Stream, l: Label)
    requires Conserved(s) && Enabled(s, l)
    ensures Conserved(Step(s, l))
  {
    match l {
      case Produce(chunk) =>
        assert s.delivered + InHand(s) + (s.queue + [chunk]) == s.delivered + InHand(s) + s.queue + [chunk];
      case TakeChunk =>
        assert s.delivered + [s.queue[0]] + s.queue[1..] == s.delivered + [] + s.queue;
      case ForwardChunk =>
        assert s.delivered + [s.forwarder.chunk] + [] + s.queue == s.produced;
        assert s.delivered <= s.produced;
      case ForwarderEnds =>
        assert s.delivered + [] + [] == s.delivered;
      case _ =>
    }
  }

  lemma StepShapes(s: Stream, l: Label)
    requires Shaped(s) && Ordered(s) && Enabled(s, l)
    ensures Shaped(Step(s, l)) && Ordered(Step(s, l))
  {
    if l == ForwardChunk && s.linkUp {
      var more := s.delivered + [s.forwarder.chunk];
      assert more[..|more|-1] == s.delivered;
    }
  }

  lemma {:induction false} RunKeepsReplies(ls: seq<Label>)
    requires Run(Init(), ls).Some?
    ensures var s := Run(Init(), ls).value; Conserved(s) && Shaped(s) && Ordered(s)
  {
    if |ls| > 0 {
      RunKeepsReplies(ls[..|ls|-1]);
      var s := Run(Init(), ls[..|ls|-1]).value;
      StepConserves(s, ls[|ls|-1]);
      StepShapes(s, ls[|ls|-1]);
    }
  }

  lemma DeliveredFirst(s: Stream)
    requires Conserved(s)
    ensures s.delivered <= s.produced
  {
    if s.forwarder != Stopped {
      assert s.delivered + (InHand(s) + s.queue) == s.produced;
    }
  }

  /**
   * Whatever the tasks do, the replies are a log for each of the first chunks produced and then at most
   * one result. With the link up, the result is only sent when every chunk has gone ahead of it, even the
   * chunks of a pump that outlived the command.
   */
  lemma LogsThenOneResult(ls: seq<Label>)
    requires Run(Init(), ls).Some?
    ensures var s := Run(Init(), ls).value;
            && s.delivered <= s.produced
            && (s.outbox == Logs(s.delivered)
                || (s.finished && s.outbox == Logs(s.delivered) + FinalReply(s)))
            && (s.finished && s.linkUp ==>
                  && s.outbox == Logs(s.produced) + FinalReply(s)
                  && s.outcome.Some? && s.delivered == s.produced && !SenderLeft(s))
  {
    RunKeepsReplies(ls);
    DeliveredFirst(Run(Init(), ls).value);
  }

  /** What the tasks still have to do, at most. */
  function ToDo(s: Stream): nat {
    (if s.outcome.None? then 1 else 0) + s.pumps + 3 * |s.queue|
    + (match s.forwarder case Waiting => 1 case Holding(_) => 2 case Stopped => 0) + if s.finished then 0 else 1
  }

  /** A step that brings a command nearer to its end, unless it is there. */
  function NextStep(s: Stream, outcome: Result<(), StartError>): (l: Label)
    requires Conserved(s) && Ordered(s) && s.linkUp && !s.finished
    ensures Enabled(s, l) && ToDo(Step(s, l)) < ToDo(s) && Step(s, l).linkUp && Step(s, l).produced == s.produced
    ensures Step(s, l).outcome == if s.outcome.Some? then s.outcome else Some(outcome)
  {
    if s.outcome.None? then Return(outcome)
    else if s.pumps > 0 then PumpEnds
    else if s.forwarder.Holding? then ForwardChunk
    else if s.forwarder == Stopped then SendFinal
    else if s.queue != [] then TakeChunk
    else ForwarderEnds
  }

  /** While the link is up, every command can come to its end, with all it produced and then its result sent. */
  lemma {:induction false} EveryCommandCanFinish(ls: seq<Label>, s: Stream, outcome: Result<(), StartError>)
      returns (more: seq<Label>, t: Stream)
    requires Run(Init(), ls) == Some(s) && s.linkUp
    ensures Run(Init(), more) == Some(t) && t.linkUp && t.finished && t.produced == s.produced
    ensures t.outcome == if s.outcome.Some? then s.outcome else Some(outcome)
    ensures t.outbox == Logs(s.produced) + [CommandOutput.Result(ToCommandResult(t.outcome.value))]
    decreases ToDo(s)
  {
    RunKeepsReplies(ls);
    if s.finished {
      LogsThenOneResult(ls);
      more, t := ls, s;
    } else {
      var l := NextStep(s, outcome);
      assert (ls + [l])[..|ls|] == ls;
      more, t := EveryCommandCanFinish(ls + [l], Step(s, l), outcome);
    }
  }

  lemma Go(ls: seq<Label>, s: Stream, l: Label) returns (more: seq<Label>, t: Stream)
    requires Run(Init(), ls) == Some(s) && Enabled(s, l)
    ensures more == ls + [l] && t == Step(s, l) && Run(Init(), more) == Some(t)
  {
    more, t := ls + [l], Step(s, l);
    assert more[..|ls|] == ls;
  }

  /** A pump can outlive its command, and what it produces after that still comes before the result. */
  lemma PumpsCanOutliveTheirCommand(early: Bytes, late: Bytes, outcome: Result<(), StartError>)
      returns (ls: seq<Label>, t: Stream)
    ensures Run(Init(), ls) == Some(t) && t.finished
    ensures t.outbox == Logs([early, late]) + [CommandOutput.Result(ToCommandResult(outcome))]
  {
    var before, s := APumpGoesOn(early, late, outcome);
    ls, t := EveryCommandCanFinish(before, s, outcome);
  }

  lemma APumpGoesOn(early: Bytes, late: Bytes, outcome: Result<(), StartError>) returns (ls: seq<Label>, s: Stream)
    ensures Run(Init(), ls) == Some(s) && s.linkUp && s.outcome == Some(outcome) && s.produced == [early, late]
  {
    ls, s := Go([], Init(), Produce(early));
    ls, s := Go(ls, s, HandOver);
    ls, s := Go(ls, s, Return(outcome));
    assert s.produced == [early];
    ls, s := Go(ls, s, Produce(late));
  }

  /** Once the link has failed, neither what is left of the logs nor the result arrives. */
  lemma ALostLinkLosesTheResult(chunk: Bytes, outcome: Result<(), StartError>) returns (ls: seq<Label>, t: Stream)
    ensures Run(Init(), ls) == Some(t) && t.finished && t.produced == [chunk] && t.outbox == []
  {
    ls, t := Go([], Init(), Produce(chunk));
    ls, t := Go(ls, t, LinkFails);
    ls, t := Go(ls, t, TakeChunk);
    ls, t := Go(ls, t, ForwardChunk);
    ls, t := Go(ls, t, Return(outcome));
    ls, t := Go(ls, t, SendFinal);
  }

  /** How an outcome is reported: its kind and its message. */
  lemma OutcomesAreReported(outcome: Result<(), StartError>)
    ensures ToCommandResult(outcome) == CommandOk <==> outcome.Ok?
    ensures outcome.Err? ==>
              && ToCommandResult(outcome).CommandError? && ToCommandResult(outcome).message == outcome.error.message
              && (ToCommandResult(outcome).kind == AgentErrorKind.StartFailed <==> outcome.error.EngineStartFailed?)
              && (ToCommandResult(outcome).kind == AgentErrorKind.CommandFailed <==> outcome.error.EngineCommandFailed?)
              && (ToCommandResult(outcome).kind == AgentErrorKind.Unavailable <==> outcome.error.EngineUnavailable?)
  {
  }

  /** A chunk per read up to the first failed one, then an empty final chunk. */
  predicate RepliesFor(source: seq<Option<Bytes>>, replies: seq<Reply>) {
    && 0 < |replies| <= |source| + 1 && replies[|replies|-1] == StreamContainerLogsChunk(Chunk([], true))
    && (|replies| <= |source| ==> source[|replies|-1].None?)
    && (forall i | 0 <= i < |replies| - 1 ::
          source[i].Some? && replies[i] == StreamContainerLogsChunk(Chunk(source[i].value, false)))
  }

  /** The handler that follows a container's log. */
  method StreamContainerLogs(source: seq<Option<Bytes>>) returns (replies: seq<Reply>)
    ensures RepliesFor(source, replies)
  {
    replies := [];
    var i := 0;
    while i < |source| && source[i].Some?
      invariant i == |replies| <= |source|
      invariant forall j | 0 <= j < i ::
                  source[j].Some? && replies[j] == StreamContainerLogsChunk(Chunk(source[j].value, false))
    {
      replies := replies + [StreamContainerLogsChunk(Chunk(source[i].value, false))];
      i := i + 1;
    }
    replies := replies + [StreamContainerLogsChunk(Chunk([], true))];
  }
}
