/** A deployment's log files: a pump that writes and broadcasts, rotation of the run log, and the backlog. */
module DeploymentLogs {
  import opened Wrappers
  import opened Protocol

  /** Byte cap of `run.log` before it is rotated. */
  const RUN_LOG_ROTATE_BYTES: nat := 1024 * 1024

  datatype LogKind = Clone | Install | Build | Run

  /** What a write or a rotation runs into. */
  datatype Io = Fine | RotateFails(renamed: bool) | WriteFails(kept: nat)

  /** The files of one kind (`rotated` only ever holds a run log), and the pump's handle on the newer one. */
  datatype LogFiles = LogFiles(rotated: Option<Bytes>, current: Option<Bytes>, open: bool, written: nat)

  function Text(file: Option<Bytes>): Bytes {
    if file.Some? then file.value else []
  }

  function Length(log: LogFiles): nat {
    |Text(log.current)|
  }

  /** A run log is appended to; every other kind starts over. */
  function Open(kind: LogKind, log: LogFiles): LogFiles {
    var current := if kind == Run then Text(log.current) else [];
    log.(current := Some(current), open := true, written := |current|)
  }

  function Rotated(log: LogFiles, io: Io): LogFiles {
    match io
    case RotateFails(renamed) =>
      if renamed then LogFiles(log.current, None, false, 0) else log.(open := false, written := 0)
    case _ => LogFiles(log.current, Some([]), true, 0)
  }

  function PushTo(kind: LogKind, log: LogFiles, chunk: Bytes, io: Io): LogFiles {
    var ready := if log.open && kind == Run && log.written >= RUN_LOG_ROTATE_BYTES then Rotated(log, io) else log;
    if !ready.open then ready
    else match io
      case WriteFails(kept) =>
        ready.(current := Some(Text(ready.current) + if kept <= |chunk| then chunk[..kept] else chunk))
      case _ => ready.(current := Some(Text(ready.current) + chunk), written := ready.written + |chunk|)
  }

  function Backlog(kind: LogKind, log: LogFiles): Bytes {
    (if kind == Run then Text(log.rotated) else []) + Text(log.current)
  }

  /**
   * What a push leaves, for every kind and whatever goes wrong: nothing while the file is not open; else the
   * chunk behind what was there, or as much of it as was written; and a full run log makes way first, or,
   * if it cannot, nothing is written from then on. The counter counts whole chunks of the newer file.
   */
  lemma WhatAPushLeaves(kind: LogKind, log: LogFiles, chunk: Bytes, io: Io)
    ensures var after := PushTo(kind, log, chunk, io);
            var full := kind == Run && log.written >= RUN_LOG_ROTATE_BYTES;
            && (!log.open ==> after == log)
            && (log.open && full && io.RotateFails? ==>
                  && !after.open && after.written == 0
                  && (if io.renamed then after.rotated == log.current && after.current == None
                      else after.rotated == log.rotated && after.current == log.current))
            && (log.open && !(full && io.RotateFails?) ==>
                  var (text, sofar) := if full then ([], 0) else (Text(log.current), log.written);
                  && after.open && after.rotated == (if full then log.current else log.rotated)
                  && text <= Text(after.current) <= text + chunk
                  && (if io.WriteFails?
                      then after.written == sofar
                           && |Text(after.current)| == |text| + (if io.kept <= |chunk| then io.kept else |chunk|)
                      else after.written == sofar + |chunk| && Text(after.current) == text + chunk))
  {
  }

  // ---- The objects -----------------------------------------------------------------------------

  /** Deployments with an active pump. */
  class LogRegistry {
    var active: map<string, LogKind>

    constructor ()
      ensures active == map[]
    {
      active := map[];
    }

    method TryRegister(id: string, kind: LogKind) returns (ok: bool)
      modifies this
      ensures ok <==> id !in old(active)
      ensures active == if ok then old(active)[id := kind] else old(active)
    {
      ok := id !in active;
      if ok {
        active := active[id := kind];
      }
    }

    method Deregister(id: string)
      modifies this
      ensures active == old(active) - {id}
    {
      active := active - {id};
    }
  }

  class LogPump {
    const id: string
    const kind: LogKind
    const registry: LogRegistry
    /** What every subscriber gets, in order. */
    var broadcast: seq<Bytes>
    var rotated: Option<Bytes>
    var current: Option<Bytes>
    var file: bool
    var bytesWritten: nat

    function View(): LogFiles
      reads this
    {
      LogFiles(rotated, current, file, bytesWritten)
    }

    /** The pump's own registration is what keeps a second pump out. */
    predicate Live()
      reads this, registry
    {
      id in registry.active && registry.active[id] == kind
    }

    /** Opens the file for a registered pump; `opens` is whether the file system lets it. */
    constructor (id: string, kind: LogKind, registry: LogRegistry, rotated: Option<Bytes>, current: Option<Bytes>,
        opens: bool)
      requires id in registry.active && registry.active[id] == kind
      ensures this.id == id && this.kind == kind && this.registry == registry && Live()
      ensures View() == if opens then Open(kind, LogFiles(rotated, current, false, 0))
              else LogFiles(rotated, current, false, 0)
      ensures broadcast == []
    {
      this.id, this.kind, this.registry := id, kind, registry;
      this.rotated := rotated;
      var text := if kind == Run then Text(current) else [];
      this.current := if opens then Some(text) else current;
      this.file := opens;
      this.bytesWritten := if opens then |text| else 0;
      this.broadcast := [];
    }

    /** Whatever happens to the file, the chunk still reaches the subscribers. */
    method Push(chunk: Bytes, io: Io)
      modifies this
      ensures View() == PushTo(kind, old(View()), chunk, io)
      ensures broadcast == old(broadcast) + [chunk]
    {
      if file && kind == Run && bytesWritten >= RUN_LOG_ROTATE_BYTES {
        if io.RotateFails? {
          if io.renamed {
            rotated, current := current, None;
          }
          file := false;
        } else {
          rotated, current := current, Some([]);
        }
        bytesWritten := 0;
      }
      if file {
        if io.WriteFails? {
          current := Some(Text(current) + if io.kept <= |chunk| then chunk[..io.kept] else chunk);
        } else {
          current := Some(Text(current) + chunk);
          bytesWritten := bytesWritten + |chunk|;
        }
      }
      broadcast := broadcast + [chunk];
    }

    method Drop()
      requires Live()
      modifies registry
      ensures registry.active == old(registry.active) - {id} && !Live()
    {
      registry.Deregister(id);
    }
  }

  /** `LogPump::try_new`: at most one pump per deployment. */
  method TryNew(id: string, kind: LogKind, registry: LogRegistry, rotated: Option<Bytes>, current: Option<Bytes>,
      opens: bool)
    returns (pump: LogPump?)
    modifies registry
    ensures pump == null <==> id in old(registry.active)
    ensures pump == null ==> registry.active == old(registry.active)
    ensures pump != null ==> fresh(pump) && pump.Live()
    ensures pump != null ==> pump.registry == registry && pump.id == id && pump.kind == kind
    ensures pump != null ==> registry.active == old(registry.active)[id := kind] && pump.broadcast == []
    ensures pump != null ==>
              pump.View() == if opens then Open(kind, LogFiles(rotated, current, false, 0))
                  else LogFiles(rotated, current, false, 0)
  {
    var ok := registry.TryRegister(id, kind);
    if !ok {
      return null;
    }
    pump := new LogPump(id, kind, registry, rotated, current, opens);
  }

  // ---- Retention over the life of a deployment ------------------------------------------------

  /** The life of one deployment's run log when no operation on it fails. */
  datatype Event = PumpOpens | PumpPushes(chunk: Bytes) | PumpCloses

  datatype RunLog = RunLog(log: LogFiles, pumping: bool)

  function NoLog(): RunLog {
    RunLog(LogFiles(None, None, false, 0), false)
  }

  predicate Enabled(r: RunLog, e: Event) {
    match e
    case PumpOpens => !r.pumping
    case PumpPushes(_) => r.pumping
    case PumpCloses => r.pumping
  }

  function Step(r: RunLog, e: Event): RunLog {
    match e
    case PumpOpens => RunLog(Open(Run, r.log), true)
    case PumpPushes(chunk) => r.(log := PushTo(Run, r.log, chunk, Fine))
    case PumpCloses => RunLog(r.log.(open := false), false)
  }

  function After(es: seq<Event>): Option<RunLog> {
    if |es| == 0 then Some(NoLog()) else
    match After(es[..|es|-1])
    case None => None
    case Some(r) => if Enabled(r, es[|es|-1]) then Some(Step(r, es[|es|-1])) else None
  }

  /** Every byte ever pushed, in order. */
  function Pushed(es: seq<Event>): Bytes {
    if |es| == 0 then []
    else if es[|es|-1].PumpPushes? then Pushed(es[..|es|-1]) + es[|es|-1].chunk
    else Pushed(es[..|es|-1])
  }

  predicate ChunksAtMost(es: seq<Event>, largest: nat) {
    forall e | e in es :: e.PumpPushes? ==> |e.chunk| <= largest
  }

  predicate IsSuffix(tail: Bytes, whole: Bytes) {
    |tail| <= |whole| && tail == whole[|whole| - |tail|..]
  }

  /** The counter is right and the backlog is the end of everything pushed, cut only where a full file was dropped. */
  predicate Keeps(r: RunLog, pushed: Bytes) {
    var log := r.log;
    && (r.pumping <==> log.open)
    && (log.open ==> log.written == Length(log) && log.current.Some?)
    && IsSuffix(Backlog(Run, log), pushed)
    && (log.rotated == None ==> Backlog(Run, log) == pushed)
    && (log.rotated.Some? ==> |log.rotated.value| >= RUN_LOG_ROTATE_BYTES)
  }

  predicate Fits(r: RunLog, largest: nat) {
    && Length(r.log) <= RUN_LOG_ROTATE_BYTES - 1 + largest
    && |Text(r.log.rotated)| <= RUN_LOG_ROTATE_BYTES - 1 + largest
  }

  function PushedBy(e: Event): Bytes {
    if e.PumpPushes? then e.chunk else []
  }

  lemma PushKeeps(r: RunLog, pushed: Bytes, chunk: Bytes)
    requires Keeps(r, pushed) && r.pumping
    ensures Keeps(Step(r, PumpPushes(chunk)), pushed + chunk)
  {
    var before, after := Backlog(Run, r.log), Backlog(Run, Step(r, PumpPushes(chunk)).log);
    var cut := |pushed| - |before|;
    assert before + chunk == (pushed + chunk)[cut..];
    if r.log.written >= RUN_LOG_ROTATE_BYTES {
      assert after == r.log.current.value + chunk;
      assert after == (before + chunk)[|Text(r.log.rotated)|..];
      assert (pushed + chunk)[cut..][|Text(r.log.rotated)|..] == (pushed + chunk)[cut + |Text(r.log.rotated)|..];
    } else {
      assert after == before + chunk;
    }
  }

  lemma StepKeeps(r: RunLog, pushed: Bytes, e: Event)
    requires Keeps(r, pushed) && Enabled(r, e)
    ensures Keeps(Step(r, e), pushed + PushedBy(e))
  {
    if e.PumpPushes? {
      PushKeeps(r, pushed, e.chunk);
    } else {
      assert Backlog(Run, Step(r, e).log) == Backlog(Run, r.log);
      assert pushed + [] == pushed;
    }
  }

  lemma StepFits(r: RunLog, pushed: Bytes, e: Event, largest: nat)
    requires Keeps(r, pushed) && Fits(r, largest) && Enabled(r, e) && |PushedBy(e)| <= largest
    ensures Fits(Step(r, e), largest)
  {
  }

  lemma {:induction false} RunKeeps(es: seq<Event>, largest: nat)
    requires After(es).Some? && ChunksAtMost(es, largest)
    ensures Keeps(After(es).value, Pushed(es)) && Fits(After(es).value, largest)
  {
    if |es| > 0 {
      var before, e := es[..|es|-1], es[|es|-1];
      assert forall x | x in before :: x in es;
      RunKeeps(before, largest);
      assert e in es;
      StepKeeps(After(before).value, Pushed(before), e);
      StepFits(After(before).value, Pushed(before), e, largest);
      assert Pushed(es) == Pushed(before) + PushedBy(e);
    }
  }

  /**
   * Over any number of pumps and pushes: the counter is the length of `run.log`, the backlog is the end of
   * everything ever pushed, at least the last megabyte of it (or all of it) is kept, and neither file
   * outgrows the cap by more than one chunk.
   */
  lemma RunLogIsRetained(es: seq<Event>, largest: nat)
    requires After(es).Some? && ChunksAtMost(es, largest)
    ensures var log := After(es).value.log;
            && (After(es).value.pumping ==> log.written == Length(log))
            && IsSuffix(Backlog(Run, log), Pushed(es))
            && (|Backlog(Run, log)| >= |Pushed(es)| || |Backlog(Run, log)| >= 1024 * 1024)
            && Length(log) <= 1024 * 1024 - 1 + largest
            && |Text(log.rotated)| <= 1024 * 1024 - 1 + largest
  {
    RunKeeps(es, largest);
  }
}
