/**
 * `AgentLink` itself. A method that takes one lock does exactly one step of the session's state
 * machine, and one that takes several does them one after another, so what is proved about every
 * interleaving of those steps covers these methods run side by side.
 */
module AgentLinks {
  import opened Wrappers
  import opened Protocol
  import opened Multiplexer
  import T = SessionTheorems

  /** Both removals that `outbound` and `send` make when the connection is gone. */
  function Dropped(s: Link, id: nat): Link
    requires HasCall(s, id, DroppingPending)
  {
    Step(Step(s, DropPending(id)), DropStream(id))
  }

  /** The same two removals made for a bidirectional call by its feeder. */
  function FeederDropped(s: Link, id: nat): Link
    requires HasFeeder(s, id, FeederDroppingPending)
  {
    Step(Step(s, FeederDropsPending(id)), FeederDropsStream(id))
  }

  /** Resolving one message when nothing else interferes: its labels. */
  function ResolveRun(s: Link, id: nat, reply: Reply): seq<Label> {
    if id in s.streams then [Receive(id, reply)] + [LookUpStream(id, reply)] + [ForwardReply(id, reply)]
    else if id in s.pending
    then [Receive(id, reply)] + [LookUpStream(id, reply)] + [TakePending(id, reply)] + [AnswerCall(id, reply)]
    else [Receive(id, reply)] + [LookUpStream(id, reply)] + [TakePending(id, reply)]
  }

  class AgentLink {
    var nextRequestId: nat
    var pending: set<nat>
    var streams: set<nat>
    var outbound: bool
    /** The far ends of the reply channels, with where each caller has got to. */
    var calls: map<nat, Call>
    /** Where the session task has got to; between two messages it is idle. */
    var session: SessionPc

    function View(): Link
      reads this
    {
      Link(nextRequestId, pending, streams, outbound, session, calls)
    }

    constructor ()
      ensures View() == Init()
    {
      nextRequestId, pending, streams, outbound := 1, {}, {}, false;
      calls, session := map[], Connecting;
    }

    method SetOutbound()
      requires session == Connecting
      modifies this
      ensures View() == Step(old(View()), Connect)
    {
      outbound, session := true, Idle;
    }

    /** Routes one inbound message; a message without a payload is dropped. */
    method Resolve(id: nat, payload: Option<Reply>)
      requires session == Idle
      modifies this`pending, this`calls
      ensures session == Idle
      ensures payload.None? ==> View() == old(View())
      ensures payload.Some? ==> Run(old(View()), ResolveRun(old(View()), id, payload.value)) == Some(View())
    {
      if payload.None? {
        return;
      }
      var reply := payload.value;
      ghost var s0 := View();
      ghost var s1 := Step(s0, Receive(id, reply));
      ghost var s2 := Step(s1, LookUpStream(id, reply));
      if id in streams {
        T.Three(s0, Receive(id, reply), LookUpStream(id, reply), ForwardReply(id, reply));
        if id in calls {
          calls := calls[id := calls[id].(inbox := calls[id].inbox + [reply])];
        }
        return;
      }
      T.Three(s0, Receive(id, reply), LookUpStream(id, reply), TakePending(id, reply));
      if id in pending {
        ghost var s3 := Step(s2, TakePending(id, reply));
        T.Extend(s0, [Receive(id, reply)] + [LookUpStream(id, reply)] + [TakePending(id, reply)], s3,
            AnswerCall(id, reply));
        pending := pending - {id};
        if id in calls {
          calls := calls[id := calls[id].(slot := Filled(reply))];
        }
      } else {
        assert pending - {id} == pending;
      }
    }

    /** Removes the entry whoever asks; for the reader of the stream this is the end of its call. */
    method EndStream(id: nat)
      modifies this`streams, this`calls
      ensures streams == old(streams) - {id}
      ensures HasCall(old(View()), id, Reading) ==> View() == Step(old(View()), Multiplexer.EndStream(id))
      ensures !HasCall(old(View()), id, Reading) ==> View() == RemoveStream(old(View()), id)
    {
      streams := streams - {id};
      if id in calls && calls[id].pc == Reading {
        calls := calls[id := calls[id].(pc := Done(Ended))];
      }
    }

    method FailAllPending()
      requires session == ClearingPending
      modifies this
      ensures Run(old(View()), [ClearPending] + [ClearStreams] + [ClearOutbound]) == Some(View())
      ensures session == Over && pending == {} && streams == {} && !outbound
    {
      ghost var s := View();
      T.Three(s, ClearPending, ClearStreams, ClearOutbound);
      calls := map id | id in calls :: if id in pending then CloseIfEmpty(calls[id]) else calls[id];
      pending := {};
      streams := {};
      outbound, session := false, Over;
    }

    method NextRequestId(kind: Kind) returns (id: nat)
      modifies this`nextRequestId, this`calls
      ensures id == old(nextRequestId) && View() == Step(old(View()), Begin(id, kind))
    {
      id := nextRequestId;
      calls := calls[id := Call(kind, Registering, NoFeeder, Empty, [])];
      nextRequestId := nextRequestId + 1;
    }

    method InsertStream(id: nat)
      requires HasCall(View(), id, Registering) && calls[id].kind != OneShot
      modifies this`streams, this`calls
      ensures View() == Step(old(View()), Register(id))
    {
      calls := calls[id := calls[id].(pc := ReadingOutbound)];
      streams := streams + {id};
    }

    method DropEntries(id: nat)
      requires HasCall(View(), id, DroppingPending)
      modifies this`pending, this`streams, this`calls
      ensures View() == Dropped(old(View()), id)
      ensures pending == old(pending) - {id} && streams == old(streams) - {id}
      ensures nextRequestId == old(nextRequestId) && HasCall(View(), id, Done(AgentUnavailable))
      ensures calls[id].kind == old(calls[id].kind)
    {
      if id in pending {
        calls := calls[id := CloseIfEmpty(calls[id])];
        pending := pending - {id};
      }
      streams := streams - {id};
      calls := calls[id := calls[id].(pc := Done(AgentUnavailable))];
    }

    /** Hands out the connection, or takes the caller's own entries back out if there is none. */
    method Outbound(id: nat) returns (ok: bool)
      requires HasCall(View(), id, ReadingOutbound)
      modifies this`pending, this`streams, this`calls
      ensures ok == outbound
      ensures pending == old(pending) - (if ok then {} else {id}) && streams == old(streams) - (if ok then {} else {id})
      ensures nextRequestId == old(nextRequestId) && id in calls && calls[id].kind == old(calls[id].kind)
      ensures calls[id].pc
              == if !ok then Done(AgentUnavailable) else if calls[id].kind == Bidi then Reading else Sending
      ensures ok ==> View() == Step(old(View()), ReadOutbound(id))
      ensures !ok ==> View() == Dropped(Step(old(View()), ReadOutbound(id)), id)
    {
      ok := outbound;
      if !ok {
        calls := calls[id := calls[id].(pc := DroppingPending)];
        DropEntries(id);
      } else if calls[id].kind == Bidi {
        calls := calls[id := calls[id].(pc := Reading)];
        calls := calls[id := calls[id].(feeder := Feeding)];
      } else {
        calls := calls[id := calls[id].(pc := Sending)];
      }
    }

    method DropFedEntries(id: nat)
      requires HasFeeder(View(), id, FeederDroppingPending)
      modifies this`pending, this`streams, this`calls
      ensures View() == FeederDropped(old(View()), id)
      ensures pending == old(pending) - {id} && streams == old(streams) - {id}
    {
      if id in pending {
        calls := calls[id := CloseIfEmpty(calls[id])];
        pending := pending - {id};
      }
      streams := streams - {id};
      calls := calls[id := calls[id].(feeder := FeederDone)];
    }

    /** Sends one payload from a bidirectional call's feeder. */
    method SendFed(id: nat, accepted: bool)
      requires HasFeeder(View(), id, Feeding)
      modifies this`pending, this`streams, this`calls
      ensures accepted ==> View() == Step(old(View()), Feed(id, true))
      ensures !accepted ==> View() == FeederDropped(Step(old(View()), Feed(id, false)), id)
      ensures pending == old(pending) - (if accepted then {} else {id})
      ensures streams == old(streams) - (if accepted then {} else {id})
    {
      if !accepted {
        calls := calls[id := calls[id].(feeder := FeederDroppingPending)];
        DropFedEntries(id);
      }
    }

    /** Sends one payload from the call itself; `accepted` is whether the connection took it. */
    method Send(id: nat, accepted: bool)
      requires HasCall(View(), id, Sending)
      modifies this`pending, this`streams, this`calls
      ensures pending == old(pending) - (if accepted then {} else {id})
      ensures streams == old(streams) - (if accepted then {} else {id})
      ensures nextRequestId == old(nextRequestId) && id in calls && calls[id].kind == old(calls[id].kind)
      ensures calls[id].pc
              == if !accepted then Done(AgentUnavailable) else if calls[id].kind == Streaming then Reading else Sending
      ensures accepted ==> View() == Step(old(View()), Multiplexer.Send(id, true))
      ensures !accepted ==> View() == Dropped(Step(old(View()), Multiplexer.Send(id, false)), id)
    {
      if !accepted {
        calls := calls[id := calls[id].(pc := DroppingPending)];
        DropEntries(id);
      } else if calls[id].kind == Streaming {
        calls := calls[id := calls[id].(pc := Reading)];
      }
    }

    /** A caller gets an id it is registered under, or is refused and leaves the tables as they were. */
    method CallStreamingReply(accepted: bool) returns (r: Result<nat, Outcome>)
      requires nextRequestId !in pending && nextRequestId !in streams
      modifies this`nextRequestId, this`pending, this`streams, this`calls
      ensures r == if outbound && accepted then Ok(old(nextRequestId)) else Err(AgentUnavailable)
      ensures nextRequestId == old(nextRequestId) + 1 && pending == old(pending)
      ensures r.Ok? ==> streams == old(streams) + {r.value} && HasCall(View(), r.value, Reading)
      ensures r.Err? ==> streams == old(streams)
    {
      var id := NextRequestId(Streaming);
      InsertStream(id);
      var ok := Outbound(id);
      if !ok {
        return Err(AgentUnavailable);
      }
      Send(id, accepted);
      if !accepted {
        return Err(AgentUnavailable);
      }
      return Ok(id);
    }

    /**
     * The session, from its connection to its end, with no call in between: it resolves what comes in and
     * then fails what is left. Its own record of labels says that this is a run of the machine.
     */
    method RunSession(messages: seq<(nat, Option<Reply>)>) returns (ghost ls: seq<Label>)
      requires session == Connecting
      modifies this
      ensures Run(old(View()), ls) == Some(View())
      ensures session == Over && pending == {} && streams == {} && !outbound
    {
      ghost var s := View();
      SetOutbound();
      T.One(s, Connect);
      ls := [Connect];
      for i := 0 to |messages|
        invariant session == Idle && Run(s, ls) == Some(View())
      {
        ghost var t := View();
        ghost var more := if messages[i].1.Some? then ResolveRun(t, messages[i].0, messages[i].1.value) else [];
        Resolve(messages[i].0, messages[i].1);
        T.RunJoins(s, ls, more);
        ls := ls + more;
      }
      ghost var t := View();
      session := ClearingPending;
      T.Extend(s, ls, t, StreamEnds);
      ls := ls + [StreamEnds];
      FailAllPending();
      T.RunJoins(s, ls, [ClearPending] + [ClearStreams] + [ClearOutbound]);
      ls := ls + ([ClearPending] + [ClearStreams] + [ClearOutbound]);
    }
  }
}
