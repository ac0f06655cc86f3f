/**
 * Following a run log while it is being written. A push is two steps, the write and then the broadcast;
 * a reader subscribes first and reads the backlog later. Everything in between may interleave.
 */
module LiveTail {
  import opened Wrappers
  import opened Protocol
  import opened DeploymentLogs

  /**
   * A reader of the log. `pump` is the pump whose broadcasts it receives, `from` how many bytes had been
   * broadcast when it subscribed, `live` what it has received since, and `backlog` what it read from the
   * files, once it has, with how many bytes had been pushed by then.
   */
  datatype Reader = Away | Following(pump: nat, from: nat, live: Bytes, backlog: Option<(Bytes, nat)>)

  /**
   * `sent` counts the bytes broadcast so far; it lags behind `pushed` only in the middle of a push. `ends`
   * says for every pump that has closed how many bytes had been pushed by then.
   */
  datatype Tail = Tail(
    run: RunLog, pushed: Bytes, sent: nat, midPush: bool, pump: nat, ends: map<nat, nat>, reader: Reader)

  datatype Label = Opens | Writes(chunk: Bytes) | Broadcasts | Closes | Subscribes | ReadsBacklog

  function Init(): Tail {
    Tail(NoLog(), [], 0, false, 0, map[], Away)
  }

  predicate Enabled(t: Tail, l: Label) {
    match l
    case Opens => !t.run.pumping
    case Writes(_) => t.run.pumping && !t.midPush
    case Broadcasts => t.midPush && t.sent <= |t.pushed|
    case Closes => t.run.pumping && !t.midPush
    case Subscribes => t.run.pumping && t.reader == Away
    case ReadsBacklog => t.reader.Following? && t.reader.backlog == None
  }

  function Step(t: Tail, l: Label): Tail
    requires Enabled(t, l)
  {
    match l
    case Opens => t.(run := DeploymentLogs.Step(t.run, PumpOpens), pump := t.pump + 1)
    case Writes(chunk) =>
      t.(run := DeploymentLogs.Step(t.run, PumpPushes(chunk)), pushed := t.pushed + chunk, midPush := true)
    case Broadcasts =>
      t.(sent := |t.pushed|, midPush := false,
         reader := if t.reader.Following? && t.reader.pump == t.pump
                   then t.reader.(live := t.reader.live + t.pushed[t.sent..])
                   else t.reader)
    case Closes => t.(run := DeploymentLogs.Step(t.run, PumpCloses), ends := t.ends[t.pump := |t.pushed|])
    case Subscribes => t.(reader := Following(t.pump, t.sent, [], None))
    case ReadsBacklog => t.(reader := t.reader.(backlog := Some((Backlog(LogKind.Run, t.run.log), |t.pushed|))))
  }

  function Run(t: Tail, ls: seq<Label>): Option<Tail> {
    if |ls| == 0 then Some(t) else
    match Run(t, ls[..|ls|-1])
    case None => None
    case Some(u) => if Enabled(u, ls[|ls|-1]) then Some(Step(u, ls[|ls|-1])) else None
  }

  /** `part` is the stretch of `whole` that starts at `from`. */
  predicate Stretch(part: Bytes, whole: Bytes, from: nat) {
    from + |part| <= |whole| && part == whole[from..from + |part|]
  }

  lemma StretchSurvives(part: Bytes, whole: Bytes, more: Bytes, from: nat)
    requires Stretch(part, whole, from)
    ensures Stretch(part, whole + more, from)
  {
    assert (whole + more)[from..from + |part|] == whole[from..from + |part|];
  }

  lemma StretchGrows(part: Bytes, whole: Bytes, from: nat)
    requires Stretch(part, whole, from)
    ensures Stretch(part + whole[from + |part|..], whole, from)
  {
    assert part + whole[from + |part|..] == whole[from..];
  }

  /** The end of a pump is recorded when it closes, and until then there is none. */
  ghost predicate Sending(t: Tail) {
    && t.sent <= |t.pushed| && (!t.midPush ==> t.sent == |t.pushed|) && (t.midPush ==> t.run.pumping)
    && (forall p | p in t.ends :: p <= t.pump)
    && (t.pump in t.ends ==> !t.run.pumping)
  }

  /** Everything the reader's pump has broadcast since the subscription: up to its end, once it has closed. */
  predicate HoldsAll(t: Tail)
    requires t.reader.Following?
  {
    && (t.reader.pump in t.ends ==> t.reader.from + |t.reader.live| == t.ends[t.reader.pump])
    && (t.reader.pump !in t.ends ==>
          t.reader.pump == t.pump && t.run.pumping && t.reader.from + |t.reader.live| == t.sent)
  }

  /** What was received live is a stretch of what was pushed, and nothing is missing from it. */
  ghost predicate LiveOk(t: Tail) {
    t.reader.Following? ==>
      && t.reader.pump <= t.pump && t.reader.from + |t.reader.live| <= t.sent
      && Stretch(t.reader.live, t.pushed, t.reader.from)
      && HoldsAll(t)
  }

  /**
   * The backlog ends with the last byte pushed when it was read, at or after the subscription; it goes back to
   * the first byte or over at least as many as make a log file full.
   */
  ghost predicate BacklogOk(t: Tail) {
    t.reader.Following? && t.reader.backlog.Some? ==>
      var (bytes, upTo) := t.reader.backlog.value;
      && |bytes| <= upTo && t.reader.from <= upTo <= |t.pushed| && Stretch(bytes, t.pushed, upTo - |bytes|)
      && (|bytes| == upTo || |bytes| >= RUN_LOG_ROTATE_BYTES)
  }

  lemma StepKeepsSending(t: Tail, l: Label)
    requires Sending(t) && Enabled(t, l)
    ensures Sending(Step(t, l))
  {
  }

  lemma StepKeepsFiles(t: Tail, l: Label)
    requires Keeps(t.run, t.pushed) && Enabled(t, l)
    ensures Keeps(Step(t, l).run, Step(t, l).pushed)
  {
    assert t.pushed + [] == t.pushed;
    match l {
      case Opens => StepKeeps(t.run, t.pushed, PumpOpens);
      case Closes => StepKeeps(t.run, t.pushed, PumpCloses);
      case Writes(chunk) => StepKeeps(t.run, t.pushed, PumpPushes(chunk));
      case _ =>
    }
  }

  lemma StepKeepsLive(t: Tail, l: Label)
    requires Sending(t) && LiveOk(t) && Enabled(t, l)
    ensures LiveOk(Step(t, l))
  {
    if t.reader.Following? {
      if l.Writes? {
        StretchSurvives(t.reader.live, t.pushed, l.chunk, t.reader.from);
      } else if l.Broadcasts? && t.reader.pump == t.pump {
        StretchGrows(t.reader.live, t.pushed, t.reader.from);
      }
    }
  }

  /** What is in the files at any moment. */
  lemma FilesHoldTheEnd(r: RunLog, pushed: Bytes)
    requires Keeps(r, pushed)
    ensures var backlog := Backlog(LogKind.Run, r.log);
            && |backlog| <= |pushed| && Stretch(backlog, pushed, |pushed| - |backlog|)
            && (|backlog| == |pushed| || |backlog| >= RUN_LOG_ROTATE_BYTES)
  {
  }

  lemma StepKeepsBacklog(t: Tail, l: Label)
    requires Sending(t) && LiveOk(t) && BacklogOk(t) && Keeps(t.run, t.pushed) && Enabled(t, l)
    ensures BacklogOk(Step(t, l))
  {
    if l.ReadsBacklog? {
      FilesHoldTheEnd(t.run, t.pushed);
    } else if t.reader.Following? && t.reader.backlog.Some? && l.Writes? {
      var (bytes, upTo) := t.reader.backlog.value;
      StretchSurvives(bytes, t.pushed, l.chunk, upTo - |bytes|);
    }
  }

  lemma {:induction false} RunKeepsInv(ls: seq<Label>)
    requires Run(Init(), ls).Some?
    ensures var t := Run(Init(), ls).value; Sending(t) && LiveOk(t) && BacklogOk(t) && Keeps(t.run, t.pushed)
  {
    if |ls| > 0 {
      var before, l := ls[..|ls|-1], ls[|ls|-1];
      RunKeepsInv(before);
      var t := Run(Init(), before).value;
      StepKeepsSending(t, l);
      StepKeepsFiles(t, l);
      StepKeepsLive(t, l);
      StepKeepsBacklog(t, l);
    }
  }

  /** Every position from `start` on that has been read or received is in the backlog or in the live stream. */
  ghost predicate NoGap(pushed: Bytes, backlog: Bytes, start: nat, live: Bytes, from: nat) {
    forall i | start <= i < start + |backlog| || start <= i < from + |live| ::
      && i < |pushed|
      && if i < start + |backlog| then backlog[i - start] == pushed[i]
         else from <= i < from + |live| && live[i - from] == pushed[i]
  }

  lemma StretchesMeet(pushed: Bytes, backlog: Bytes, start: nat, live: Bytes, from: nat)
    requires Stretch(backlog, pushed, start) && Stretch(live, pushed, from) && from <= start + |backlog|
    ensures NoGap(pushed, backlog, start, live, from)
  {
  }

  /**
   * A reader that has read its backlog holds no hole: the backlog ends with the last byte pushed when it
   * was read and starts with the first, or a full log file or more before; the live stream starts no later
   * than that end, and it has everything its pump has broadcast so far - or ever did, if the pump has closed.
   */
  ghost predicate HoldsNoGap(t: Tail) {
    t.reader.Following? && t.reader.backlog.Some? ==>
      var (backlog, upTo) := t.reader.backlog.value;
      && |backlog| <= upTo <= |t.pushed| && t.reader.from <= upTo
      && (|backlog| == upTo || |backlog| >= RUN_LOG_ROTATE_BYTES)
      && NoGap(t.pushed, backlog, upTo - |backlog|, t.reader.live, t.reader.from)
      && HoldsAll(t)
  }

  lemma NoGapNow(t: Tail)
    requires LiveOk(t) && BacklogOk(t)
    ensures HoldsNoGap(t)
  {
    if t.reader.Following? && t.reader.backlog.Some? {
      var (backlog, upTo) := t.reader.backlog.value;
      StretchesMeet(t.pushed, backlog, upTo - |backlog|, t.reader.live, t.reader.from);
    }
  }

  /** Under every interleaving, the backlog and the live stream leave no hole between them. */
  lemma LiveTailHasNoGap(ls: seq<Label>)
    requires Run(Init(), ls).Some?
    ensures HoldsNoGap(Run(Init(), ls).value)
  {
    RunKeepsInv(ls);
    NoGapNow(Run(Init(), ls).value);
  }

  /** Where the backlog of a reader starts, in all that was ever pushed. */
  function BacklogStart(t: Tail): int
    requires t.reader.Following? && t.reader.backlog.Some?
  {
    t.reader.backlog.value.1 - |t.reader.backlog.value.0|
  }

  /** The reader has byte `i` of all that was pushed, from its backlog or else live. */
  predicate HasByte(t: Tail, i: nat)
    requires t.reader.Following? && t.reader.backlog.Some?
  {
    var backlog, start := t.reader.backlog.value.0, BacklogStart(t);
    && i < |t.pushed|
    && if start <= i < start + |backlog| then backlog[i - start] == t.pushed[i]
       else t.reader.from <= i < t.reader.from + |t.reader.live| && t.reader.live[i - t.reader.from] == t.pushed[i]
  }

  /**
   * The pump of a reader has closed: at that moment and for ever after, the reader has every byte pushed from
   * the backlog's start to the pump's end, the last ones included.
   */
  lemma NoFinalBytesAreMissed(ls: seq<Label>, i: nat)
    requires Run(Init(), ls).Some?
    requires var t := Run(Init(), ls).value;
             && t.reader.Following? && t.reader.backlog.Some? && t.reader.pump in t.ends
             && BacklogStart(t) <= i < t.ends[t.reader.pump]
    ensures HasByte(Run(Init(), ls).value, i)
  {
    LiveTailHasNoGap(ls);
    EveryByteIsThere(Run(Init(), ls).value, i);
  }

  lemma EveryByteIsThere(t: Tail, i: nat)
    requires HoldsNoGap(t) && t.reader.Following? && t.reader.backlog.Some? && t.reader.pump in t.ends
    requires BacklogStart(t) <= i < t.ends[t.reader.pump]
    ensures HasByte(t, i)
  {
  }
  lemma Go(ls: seq<Label>, t: Tail, l: Label) returns (more: seq<Label>, u: Tail)
    requires Run(Init(), ls) == Some(t) && Enabled(t, l)
    ensures more == ls + [l] && u == Step(t, l) && Run(Init(), more) == Some(u)
  {
    more, u := ls + [l], Step(t, l);
    assert more[..|ls|] == ls;
  }

  /** A reader that comes in the middle of a push has what was written in its backlog and live; then its pump closes. */
  lemma AReaderCanComeMidPush(first: Bytes, later: Bytes) returns (ls: seq<Label>, t: Tail)
    requires |first| < RUN_LOG_ROTATE_BYTES
    ensures Run(Init(), ls) == Some(t) && t.reader.Following? && t.reader.backlog == Some((first, |first|))
    ensures t.reader.live == first + later && t.pushed == first + later
    ensures t.reader.pump in t.ends && t.ends[t.reader.pump] == |first| + |later|
  {
    ls, t := Go([], Init(), Opens);
    ls, t := Go(ls, t, Writes(first));
    assert t.pushed == first && Backlog(LogKind.Run, t.run.log) == first;
    ls, t := Go(ls, t, Subscribes);
    ls, t := Go(ls, t, ReadsBacklog);
    ls, t := Go(ls, t, Broadcasts);
    assert t.reader.live == first;
    ls, t := Go(ls, t, Writes(later));
    assert (first + later)[|first|..] == later;
    ls, t := Go(ls, t, Broadcasts);
    ls, t := Go(ls, t, Closes);
  }
}
