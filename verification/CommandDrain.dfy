/** The hub side of a streamed command: draining its replies into a log, and what that makes of the agent's side. */
module CommandDrain {
  import opened Wrappers
  import opened Protocol
  import opened Multiplexer
  import opened AgentLinks
  import opened DeploymentLogs
  import opened CommandStream

  /** What a streamed command can come back with. */
  datatype AppError =
    | ContainerStartFailed(message: string)
    | CommandFailedOn(message: string)
    | ContainerUnavailable(message: string)
    | AgentError(message: string)
    | AgentGone

  const NO_FINAL_RESULT := AgentError("agent closed the stream without a final result")
  const EMPTY_RESULT := AgentError("agent sent an empty command result")

  /** The two streamed commands, told apart by the reply variant they use. */
  datatype Command = StartRun | RunBuild

  function Wrap(command: Command, output: CommandOutput): Reply {
    match command
    case StartRun => StartRunContainerResult(output)
    case RunBuild => RunBuildCommandResult(output)
  }

  function Extract(command: Command, reply: Reply): Option<CommandOutput> {
    match reply
    case StartRunContainerResult(output) => if command == StartRun then Some(output) else None
    case RunBuildCommandResult(output) => if command == RunBuild then Some(output) else None
    case _ => None
  }

  function FromCommandResult(result: CommandResult): Result<(), AppError> {
    match result
    case CommandOk => Ok(())
    case CommandError(StartFailed, m) => Err(ContainerStartFailed(m))
    case CommandError(CommandFailed, m) => Err(CommandFailedOn(m))
    case CommandError(_, m) => Err(ContainerUnavailable(m))
  }

  predicate IsLog(command: Command, reply: Reply) {
    Extract(command, reply).Some? && Extract(command, reply).value.Log?
  }

  predicate AllLogs(command: Command, rx: seq<Reply>) {
    forall i | 0 <= i < |rx| :: IsLog(command, rx[i])
  }

  /** How many log chunks come before the first reply that is something else. */
  function Leading(command: Command, rx: seq<Reply>): (k: nat)
    ensures k <= |rx| && AllLogs(command, rx[..k]) && (k < |rx| ==> !IsLog(command, rx[k]))
  {
    if |rx| == 0 || !IsLog(command, rx[0]) then 0
    else
      var k := Leading(command, rx[1..]) + 1;
      assert rx[..k] == [rx[0]] + rx[1..][..k-1];
      k
  }

  lemma LeadingIs(command: Command, rx: seq<Reply>, k: nat)
    requires k <= |rx| && AllLogs(command, rx[..k]) && (k < |rx| ==> !IsLog(command, rx[k]))
    ensures Leading(command, rx) == k
  {
  }

  function ChunkData(command: Command, rx: seq<Reply>): (chunks: seq<Bytes>)
    requires AllLogs(command, rx)
    ensures |chunks| == |rx|
    ensures forall i | 0 <= i < |rx| :: chunks[i] == Extract(command, rx[i]).value.chunk.data
  {
    seq(|rx|, i requires 0 <= i < |rx| => Extract(command, rx[i]).value.chunk.data)
  }

  /** What the drain makes of the reply that ended it, if there was one. */
  function Concluded(command: Command, last: Option<Reply>): Result<(), AppError> {
    if last.None? || Extract(command, last.value).None? then Err(NO_FINAL_RESULT)
    else match Extract(command, last.value).value
      case Result(result) => FromCommandResult(result)
      case EmptyResult => Err(EMPTY_RESULT)
      case _ => Err(NO_FINAL_RESULT)
  }

  /** What the drain answers: it is up to the first reply that is not a log chunk. */
  function Verdict(command: Command, rx: seq<Reply>): Result<(), AppError> {
    var k := Leading(command, rx);
    Concluded(command, if k < |rx| then Some(rx[k]) else None)
  }

  /** The drain succeeds exactly on a positive result behind nothing but log chunks; anything else is an error. */
  lemma VerdictIsOkIff(command: Command, rx: seq<Reply>)
    ensures Verdict(command, rx).Ok? <==>
            exists k :: && 0 <= k < |rx| && AllLogs(command, rx[..k])
                        && Extract(command, rx[k]) == Some(CommandOutput.Result(CommandOk))
    ensures Verdict(command, rx) == Err(EMPTY_RESULT) <==>
            exists k :: && 0 <= k < |rx| && AllLogs(command, rx[..k])
                        && Extract(command, rx[k]) == Some(CommandOutput.EmptyResult)
    ensures AllLogs(command, rx) ==> Verdict(command, rx) == Err(NO_FINAL_RESULT)
  {
    var k := Leading(command, rx);
    if AllLogs(command, rx) {
      assert rx[..|rx|] == rx;
      LeadingIs(command, rx, |rx|);
    }
    forall i | 0 <= i < |rx| && AllLogs(command, rx[..i]) && !IsLog(command, rx[i])
      ensures i == k
    {
      LeadingIs(command, rx, i);
    }
  }

  /** How the agent's errors read: by their kind, with their message. */
  lemma ErrorsAreRead(kind: AgentErrorKind, m: string)
    ensures FromCommandResult(CommandOk).Ok?
    ensures FromCommandResult(CommandError(kind, m))
            == Err(if kind == AgentErrorKind.StartFailed then ContainerStartFailed(m)
                   else if kind == AgentErrorKind.CommandFailed then CommandFailedOn(m) else ContainerUnavailable(m))
  {
  }

  /** A reply is taken for the command's own only if it is of the command's own kind. */
  lemma OnlyItsOwnReplies(command: Command, other: Command, output: CommandOutput)
    ensures Extract(command, Wrap(command, output)) == Some(output)
    ensures other != command ==> Extract(command, Wrap(other, output)) == None
  {
  }

  /** A log after a list of chunks, where `io` says how each push fares. */
  function PushedAll(kind: LogKind, log: LogFiles, chunks: seq<Bytes>, io: nat -> Io): LogFiles {
    if |chunks| == 0 then log
    else PushTo(kind, PushedAll(kind, log, chunks[..|chunks|-1], io), chunks[|chunks|-1], io(|chunks| - 1))
  }

  function Joined(chunks: seq<Bytes>): Bytes {
    if |chunks| == 0 then [] else Joined(chunks[..|chunks|-1]) + chunks[|chunks|-1]
  }

  /** Every log but the run log starts over, and then holds all that is pushed, however much it is. */
  lemma {:induction false} OtherLogsAreWhole(kind: LogKind, log: LogFiles, chunks: seq<Bytes>)
    requires kind != LogKind.Run
    ensures var after := PushedAll(kind, Open(kind, log), chunks, i => Fine);
            after.open && after.current == Some(Joined(chunks)) && Backlog(kind, after) == Joined(chunks)
  {
    if |chunks| > 0 {
      OtherLogsAreWhole(kind, log, chunks[..|chunks|-1]);
    }
  }

  lemma OneMoreChunk(command: Command, rx: seq<Reply>, i: nat, kind: LogKind, log: LogFiles, io: nat -> Io)
    requires i < |rx| && AllLogs(command, rx[..i]) && IsLog(command, rx[i])
    ensures AllLogs(command, rx[..i+1])
    ensures var chunk := Extract(command, rx[i]).value.chunk.data;
            && ChunkData(command, rx[..i+1]) == ChunkData(command, rx[..i]) + [chunk]
            && PushedAll(kind, log, ChunkData(command, rx[..i+1]), io)
               == PushTo(kind, PushedAll(kind, log, ChunkData(command, rx[..i]), io), chunk, io(i))
  {
    var sofar, more := ChunkData(command, rx[..i]), ChunkData(command, rx[..i+1]);
    assert more[..|more|-1] == sofar;
  }

  /** Everything that changes a pump during a drain: the chunks, in order, and then its end. */
  twostate predicate Pumped(pump: LogPump, chunks: seq<Bytes>, io: nat -> Io)
    reads pump, pump.registry
  {
    && pump.broadcast == old(pump.broadcast) + chunks
    && pump.View() == PushedAll(pump.kind, old(pump.View()), chunks, io)
    && pump.registry.active == old(pump.registry.active) - {pump.id}
  }

  method Conclude(command: Command, last: Option<Reply>) returns (r: Result<(), AppError>)
    ensures r == Concluded(command, last)
  {
    if last.None? {
      return Err(NO_FINAL_RESULT);
    }
    match Extract(command, last.value) {
      case Some(Result(result)) => return FromCommandResult(result);
      case Some(EmptyResult) => return Err(EMPTY_RESULT);
      case _ => return Err(NO_FINAL_RESULT);
    }
  }

  /** The drain's loop: pushes chunks until something else, or the end of the channel, comes. */
  method PumpChunks(rx: seq<Reply>, command: Command, pump: LogPump?, io: nat -> Io) returns (i: nat)
    modifies pump
    ensures i == Leading(command, rx)
    ensures pump != null ==>
              && pump.broadcast == old(pump.broadcast) + ChunkData(command, rx[..i])
              && pump.View() == PushedAll(pump.kind, old(pump.View()), ChunkData(command, rx[..i]), io)
  {
    i := 0;
    while i < |rx| && IsLog(command, rx[i])
      invariant i <= |rx| && AllLogs(command, rx[..i])
      invariant pump != null ==>
                  && pump.broadcast == old(pump.broadcast) + ChunkData(command, rx[..i])
                  && pump.View() == PushedAll(pump.kind, old(pump.View()), ChunkData(command, rx[..i]), io)
    {
      if pump != null {
        OneMoreChunk(command, rx, i, pump.kind, old(pump.View()), io);
        pump.Push(Extract(command, rx[i]).value.chunk.data, io(i));
      }
      i := i + 1;
    }
    LeadingIs(command, rx, i);
  }

  /** `rx` is what arrives until the channel closes; `io` is what each write to the log file runs into. */
  method DrainCommandOutput(link: AgentLink, id: nat, rx: seq<Reply>, command: Command, pump: LogPump?, io: nat -> Io)
    returns (r: Result<(), AppError>)
    requires HasCall(link.View(), id, Reading)
    requires pump != null ==> pump.Live()
    modifies link`streams, link`calls, pump, if pump == null then {} else {pump.registry}
    ensures link.View() == Multiplexer.Step(old(link.View()), Multiplexer.EndStream(id))
    ensures link.streams == old(link.streams) - {id}
    ensures r == Verdict(command, rx)
    ensures pump != null ==> Pumped(pump, ChunkData(command, rx[..Leading(command, rx)]), io)
  {
    var i := PumpChunks(rx, command, pump, io);
    link.EndStream(id);
    r := Conclude(command, if i < |rx| then Some(rx[i]) else None);
    if pump != null {
      pump.Drop();
    }
  }

  /** Where a pump writes: the deployment, its files as they are, and whether the log file can be opened. */
  datatype LogTarget = LogTarget(
    id: string, kind: LogKind, registry: LogRegistry, rotated: Option<Bytes>, current: Option<Bytes>, opens: bool)

  /** What other tasks do while a call reads: steps on the link, and the pumps they leave registered. */
  datatype Meanwhile = Meanwhile(steps: seq<Multiplexer.Label>, pumps: map<string, LogKind>)

  /** The link after such steps, if they are steps that can be taken and leave the call reading. */
  function Later(s: Link, id: nat, steps: seq<Multiplexer.Label>): (t: Link)
    requires HasCall(s, id, Reading)
    ensures HasCall(t, id, Reading)
  {
    var t := Multiplexer.Run(s, steps);
    if t.Some? && HasCall(t.value, id, Reading) then t.value else s
  }

  /** Time passes for a call that reads; a pump of its own stays registered. */
  method LetOthersRun(link: AgentLink, id: nat, registry: LogRegistry?, pump: LogPump?, m: Meanwhile)
    requires HasCall(link.View(), id, Reading)
    requires pump != null ==> pump.Live() && pump.registry == registry
    modifies link, registry
    ensures link.View() == Later(old(link.View()), id, m.steps)
    ensures registry != null ==>
              registry.active == if pump == null then m.pumps else m.pumps[pump.id := pump.kind]
  {
    var t := Later(link.View(), id, m.steps);
    link.nextRequestId, link.pending, link.streams := t.nextId, t.pending, t.streams;
    link.outbound, link.session, link.calls := t.outbound, t.session, t.calls;
    if registry != null {
      registry.active := if pump == null then m.pumps else m.pumps[pump.id := pump.kind];
    }
  }

  /**
   * `start` and `run_build_command`: whatever happens, and whatever others do meanwhile, the call leaves the
   * tables of the link and the log registry as the others made them. `reading` is the link when it starts
   * to read.
   */
  method RunCommand(link: AgentLink, accepted: bool, rx: seq<Reply>, command: Command, target: Option<LogTarget>,
      io: nat -> Io, m: Meanwhile)
    returns (r: Result<(), AppError>, pump: LogPump?, ghost reading: Link)
    requires link.nextRequestId !in link.pending && link.nextRequestId !in link.streams
    modifies link, if target.Some? then {target.value.registry} else {}
    ensures reading.pending == old(link.pending)
    ensures if old(link.outbound) && accepted
            then && HasCall(reading, old(link.nextRequestId), Reading)
                 && reading.streams == old(link.streams) + {old(link.nextRequestId)}
                 && link.View() == Multiplexer.Step(Later(reading, old(link.nextRequestId), m.steps),
                                                    Multiplexer.EndStream(old(link.nextRequestId)))
            else reading.streams == old(link.streams) && link.View() == reading
    ensures target.Some? ==>
              target.value.registry.active
              == if !(old(link.outbound) && accepted) then old(target.value.registry.active)
                 else if pump == null then m.pumps
                 else m.pumps - {target.value.id}
    ensures r == if old(link.outbound) && accepted then Verdict(command, rx) else Err(AgentGone)
    ensures pump != null <==>
              old(link.outbound) && accepted && target.Some? && target.value.id !in old(target.value.registry.active)
    ensures pump != null ==> pump.broadcast == ChunkData(command, rx[..Leading(command, rx)])
  {
    pump := null;
    var id := link.CallStreamingReply(accepted);
    reading := link.View();
    if id.Err? {
      return Err(AgentGone), null, reading;
    }
    var registry := null;
    if target.Some? {
      var t := target.value;
      registry := t.registry;
      pump := TryNew(t.id, t.kind, t.registry, t.rotated, t.current, t.opens);
    }
    LetOthersRun(link, id.value, registry, pump, m);
    r := DrainCommandOutput(link, id.value, rx, command, pump, io);
  }

  // ---- Following a running container -----------------------------------------------------------

  /** How many chunks a follower takes: up to and with the first final one, short of anything that is no chunk. */
  function Followed(rx: seq<Reply>): (k: nat)
    ensures k <= |rx| && (forall i | 0 <= i < k :: rx[i].StreamContainerLogsChunk?)
    ensures forall i | 0 <= i < k - 1 :: !rx[i].logs.isFinal
    ensures k < |rx| ==> !rx[k].StreamContainerLogsChunk? || (k > 0 && rx[k-1].logs.isFinal)
  {
    if |rx| == 0 || !rx[0].StreamContainerLogsChunk? then 0
    else if rx[0].logs.isFinal then 1
    else 1 + Followed(rx[1..])
  }

  function FollowedData(rx: seq<Reply>, k: nat): (chunks: seq<Bytes>)
    requires k <= |rx| && forall i | 0 <= i < k :: rx[i].StreamContainerLogsChunk?
  {
    seq(k, i requires 0 <= i < k => rx[i].logs.data)
  }

  /** What `spawn_run_log_pump` leaves running in the background; `reading` is the link when it starts to read. */
  method FollowRunLog(link: AgentLink, accepted: bool, rx: seq<Reply>, target: LogTarget, io: nat -> Io, m: Meanwhile)
    returns (pump: LogPump?, ghost reading: Link)
    requires link.nextRequestId !in link.pending && link.nextRequestId !in link.streams
    modifies link, target.registry
    ensures reading.pending == old(link.pending)
    ensures if old(link.outbound) && accepted
            then && HasCall(reading, old(link.nextRequestId), Reading)
                 && reading.streams == old(link.streams) + {old(link.nextRequestId)}
                 && link.View() == Multiplexer.Step(Later(reading, old(link.nextRequestId), m.steps),
                                                    Multiplexer.EndStream(old(link.nextRequestId)))
            else reading.streams == old(link.streams) && link.View() == reading
    ensures target.registry.active
            == if !(old(link.outbound) && accepted) then old(target.registry.active)
               else if pump == null then m.pumps
               else m.pumps - {target.id}
    ensures pump != null <==> old(link.outbound) && accepted && target.id !in old(target.registry.active)
    ensures pump != null ==> pump.broadcast == FollowedData(rx, Followed(rx))
  {
    var id := link.CallStreamingReply(accepted);
    reading := link.View();
    if id.Err? {
      return null, reading;
    }
    pump := TryNew(target.id, target.kind, target.registry, target.rotated, target.current, target.opens);
    LetOthersRun(link, id.value, target.registry, pump, m);
    if pump == null {
      link.EndStream(id.value);
      return;
    }
    FollowChunks(rx, pump, io);
    link.EndStream(id.value);
    pump.Drop();
  }

  method FollowChunks(rx: seq<Reply>, pump: LogPump, io: nat -> Io)
    modifies pump
    ensures pump.broadcast == old(pump.broadcast) + FollowedData(rx, Followed(rx))
  {
    var i, final := 0, false;
    while i < |rx| && rx[i].StreamContainerLogsChunk? && !final
      invariant i <= |rx| && (forall j | 0 <= j < i :: rx[j].StreamContainerLogsChunk?)
      invariant (forall j | 0 <= j < i - 1 :: !rx[j].logs.isFinal) && final == (i > 0 && rx[i-1].logs.isFinal)
      invariant pump.broadcast == old(pump.broadcast) + FollowedData(rx, i)
    {
      pump.Push(rx[i].logs.data, io(i));
      final := rx[i].logs.isFinal;
      assert FollowedData(rx, i + 1) == FollowedData(rx, i) + [rx[i].logs.data];
      i := i + 1;
    }
    var k := Followed(rx);
    assert i == k;
  }

  // ---- Both sides together ---------------------------------------------------------------------

  function Wrapped(command: Command, outputs: seq<CommandOutput>): (rx: seq<Reply>)
    ensures |rx| == |outputs|
  {
    if |outputs| == 0 then [] else Wrapped(command, outputs[..|outputs|-1]) + [Wrap(command, outputs[|outputs|-1])]
  }

  /** How the agent's outcome reads at the hub. */
  function AtTheHub(outcome: Result<(), StartError>): Result<(), AppError> {
    match outcome
    case Ok(_) => Ok(())
    case Err(EngineUnavailable(m)) => Err(ContainerUnavailable(m))
    case Err(EngineStartFailed(m)) => Err(ContainerStartFailed(m))
    case Err(EngineCommandFailed(m)) => Err(CommandFailedOn(m))
  }

  lemma {:induction false} WrappedAt(command: Command, outputs: seq<CommandOutput>, i: nat)
    requires i < |outputs|
    ensures Wrapped(command, outputs)[i] == Wrap(command, outputs[i])
  {
    if i < |outputs| - 1 {
      WrappedAt(command, outputs[..|outputs|-1], i);
    }
  }

  /** The reply at `i`, as a log chunk or as what follows the logs. */
  function OutputAt(chunks: seq<Bytes>, last: seq<CommandOutput>, i: nat): CommandOutput
    requires i < |chunks| + |last|
  {
    if i < |chunks| then Log(Chunk(chunks[i], false)) else last[i - |chunks|]
  }

  lemma OutputIs(chunks: seq<Bytes>, last: seq<CommandOutput>, i: nat)
    requires i < |chunks| + |last|
    ensures (Logs(chunks) + last)[i] == OutputAt(chunks, last, i)
  {
    if i < |chunks| {
      LogsAt(chunks, i);
    }
  }

  lemma ReplyAt(command: Command, chunks: seq<Bytes>, last: seq<CommandOutput>, i: nat)
    requires i < |chunks| + |last|
    ensures Wrapped(command, Logs(chunks) + last)[i] == Wrap(command, OutputAt(chunks, last, i))
  {
    WrappedAt(command, Logs(chunks) + last, i);
    OutputIs(chunks, last, i);
  }

  lemma LeadingArrived(command: Command, chunks: seq<Bytes>, rx: seq<Reply>, k: nat)
    requires k <= |rx| && k <= |chunks| && (k < |rx| ==> !IsLog(command, rx[k]))
    requires forall i | 0 <= i < k :: rx[i] == Wrap(command, Log(Chunk(chunks[i], false)))
    ensures Leading(command, rx) == k && ChunkData(command, rx[..k]) == chunks[..k]
  {
    LeadingIs(command, rx, k);
  }

  /** The replies spell out the chunks and then at most one result. */
  ghost predicate Spells(command: Command, all: seq<Reply>, chunks: seq<Bytes>, last: seq<CommandOutput>) {
    && |last| <= 1 && (|last| == 1 ==> last[0].Result?) && |all| == |chunks| + |last|
    && forall i | 0 <= i < |all| :: all[i] == Wrap(command, OutputAt(chunks, last, i))
  }

  lemma RepliesSpell(command: Command, chunks: seq<Bytes>, last: seq<CommandOutput>)
    requires |last| <= 1 && (|last| == 1 ==> last[0].Result?)
    ensures Spells(command, Wrapped(command, Logs(chunks) + last), chunks, last)
  {
    forall i | 0 <= i < |chunks| + |last|
      ensures Wrapped(command, Logs(chunks) + last)[i] == Wrap(command, OutputAt(chunks, last, i))
    {
      ReplyAt(command, chunks, last, i);
    }
  }

  /** Draining the first `n` of a command's replies. */
  lemma DrainOfReplies(command: Command, all: seq<Reply>, chunks: seq<Bytes>, last: seq<CommandOutput>, n: nat)
    requires Spells(command, all, chunks, last) && n <= |all|
    ensures var k := if n <= |chunks| then n else |chunks|;
            && Leading(command, all[..n]) == k && ChunkData(command, all[..n][..k]) == chunks[..k]
            && Verdict(command, all[..n])
               == if n > |chunks| then FromCommandResult(last[0].result) else Err(NO_FINAL_RESULT)
  {
    LeadingArrived(command, chunks, all[..n], if n <= |chunks| then n else |chunks|);
  }

  lemma PrefixOfPrefix(delivered: seq<Bytes>, produced: seq<Bytes>, k: nat)
    requires delivered <= produced && k <= |delivered|
    ensures delivered[..k] <= produced
  {
  }

  lemma OutcomeArrives(outcome: Result<(), StartError>)
    ensures FromCommandResult(ToCommandResult(outcome)) == AtTheHub(outcome)
  {
  }

  /** What the hub makes of the first `n` replies in a state of the agent's side. */
  ghost predicate Arrived(command: Command, s: Stream, n: nat)
    requires n <= |s.outbox|
  {
    var rx := Wrapped(command, s.outbox)[..n];
    var logged := ChunkData(command, rx[..Leading(command, rx)]);
    && logged <= s.produced
    && (Verdict(command, rx) == Err(NO_FINAL_RESULT)
        || (s.outcome.Some? && Verdict(command, rx) == AtTheHub(s.outcome.value)))
    && (s.finished && s.linkUp && n == |s.outbox| ==>
          logged == s.produced && s.outcome.Some? && Verdict(command, rx) == AtTheHub(s.outcome.value))
  }

  lemma LogsArrive(command: Command, s: Stream, n: nat)
    requires n <= |s.outbox| && s.delivered <= s.produced && s.outbox == Logs(s.delivered)
    requires !(s.finished && s.linkUp)
    ensures Arrived(command, s, n)
  {
    assert Logs(s.delivered) + [] == Logs(s.delivered);
    RepliesSpell(command, s.delivered, []);
    DrainOfReplies(command, Wrapped(command, s.outbox), s.delivered, [], n);
    PrefixOfPrefix(s.delivered, s.produced, n);
  }

  lemma ResultArrives(command: Command, s: Stream, n: nat)
    requires n <= |s.outbox| && s.delivered <= s.produced
    requires s.outcome.Some? && s.outbox == Logs(s.delivered) + FinalReply(s)
    requires s.finished && s.linkUp ==> s.delivered == s.produced
    ensures Arrived(command, s, n)
  {
    RepliesSpell(command, s.delivered, FinalReply(s));
    DrainOfReplies(command, Wrapped(command, s.outbox), s.delivered, FinalReply(s), n);
    PrefixOfPrefix(s.delivered, s.produced, if n <= |s.delivered| then n else |s.delivered|);
    OutcomeArrives(s.outcome.value);
  }

  /**
   * From the container to the hub's log: whatever the agent's tasks do and however many replies (`n` of
   * them) arrive before the session ends, the hub logs the first chunks the command produced, in order,
   * and answers with the command's own outcome or says that no result came. If all replies of a finished
   * command arrive, every chunk was logged.
   */
  lemma CommandArrives(command: Command, ls: seq<CommandStream.Label>, n: nat)
    requires CommandStream.Run(CommandStream.Init(), ls).Some?
    requires n <= |CommandStream.Run(CommandStream.Init(), ls).value.outbox|
    ensures var s := CommandStream.Run(CommandStream.Init(), ls).value;
            var rx := Wrapped(command, s.outbox)[..n];
            var logged := ChunkData(command, rx[..Leading(command, rx)]);
            && logged <= s.produced
            && (Verdict(command, rx) == Err(NO_FINAL_RESULT)
                || (s.outcome.Some? && Verdict(command, rx) == AtTheHub(s.outcome.value)))
            && (s.finished && s.linkUp && n == |s.outbox| ==>
                  logged == s.produced && s.outcome.Some? && Verdict(command, rx) == AtTheHub(s.outcome.value))
  {
    LogsThenOneResult(ls);
    var s := CommandStream.Run(CommandStream.Init(), ls).value;
    assert Arrived(command, s, n) by {
      if s.outcome.Some? && s.outbox == Logs(s.delivered) + FinalReply(s) {
        ResultArrives(command, s, n);
      } else {
        LogsArrive(command, s, n);
      }
    }
  }

  /** Following a container's log delivers every chunk read, and the empty final one. */
  lemma LogArrives(source: seq<Option<Bytes>>, replies: seq<Reply>)
    requires RepliesFor(source, replies)
    ensures Followed(replies) == |replies|
    ensures forall i | 0 <= i < |replies| - 1 :: source[i] == Some(FollowedData(replies, |replies|)[i])
  {
    var k := Followed(replies);
    assert k > 0 && !(k < |replies|);
  }
}
