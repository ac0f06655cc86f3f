/** What every call on a session comes back with, and that calls of every kind can get through. */
module SessionOutcomes {
  import opened Wrappers
  import opened Protocol
  import opened Multiplexer
  import opened MultiplexerProofs
  import opened SessionTheorems
  import P = PrivateChannel
  import H = ChannelHistory

  // ---- An answer that is there is returned --------------------------------------------------------

  /** What a one-shot caller returns for what it finds in its slot. */
  function Returned(slot: Slot): Outcome
    requires slot != Empty
  {
    if slot.Filled? then Replied(slot.reply) else AgentUnavailable
  }

  /** A one-shot call whose slot is settled: nobody can write to it any more. */
  ghost predicate Settled(c: P.Channel, slot: Slot)
    requires slot != Empty
  {
    && H.Tidy(c) && c.call.Some? && c.call.value.slot == slot
    && (c.call.value.pc == Awaiting || c.call.value.pc == Done(Returned(slot)))
  }

  lemma StepKeepsSettled(c: P.Channel, l: Label, slot: Slot)
    requires slot != Empty && Settled(c, slot) && P.Enabled(c, l) && !l.Timeout?
    ensures Settled(P.Step(c, l), slot)
  {
    H.StepTidy(c, l);
  }

  lemma {:induction false} SettledIsReturned(ls: seq<Label>, more: seq<Label>, id: nat)
    requires Run(Init(), ls).Some? && Run(Run(Init(), ls).value, more).Some? && Timeout(id) !in more
    requires HasCall(Run(Init(), ls).value, id, Awaiting) && Run(Init(), ls).value.calls[id].slot != Empty
    ensures var s, t := Run(Init(), ls).value, Run(Run(Init(), ls).value, more).value;
            Bounded(t) && Settled(Channel(t, id), s.calls[id].slot)
  {
    var s := Run(Init(), ls).value;
    if |more| == 0 {
      RunBounded(ls);
      ChannelAgrees(ls, id);
    } else {
      var l, t := more[|more|-1], Run(s, more[..|more|-1]).value;
      SettledIsReturned(ls, more[..|more|-1], id);
      StepBounded(t, l);
      if Concerns(l, id) {
        StepSimulates(t, l, id);
        StepKeepsSettled(Channel(t, id), l, s.calls[id].slot);
      } else {
        StepStutters(t, l, id);
      }
    }
  }

  /**
   * A caller whose reply is there returns that reply, and one whose channel was closed learns that the agent
   * is gone, whatever else runs - unless its own timeout strikes first.
   */
  lemma AnsweredCallsReturnTheirAnswer(ls: seq<Label>, more: seq<Label>, id: nat)
    requires Run(Init(), ls).Some? && Run(Run(Init(), ls).value, more).Some? && Timeout(id) !in more
    requires HasCall(Run(Init(), ls).value, id, Awaiting) && Run(Init(), ls).value.calls[id].slot != Empty
    ensures var s, t := Run(Init(), ls).value, Run(Run(Init(), ls).value, more).value;
            && id in t.calls && (Enabled(t, Observe(id)) || t.calls[id].pc.Done?)
            && (t.calls[id].pc.Done? ==>
                  && (s.calls[id].slot.Filled? ==> t.calls[id].pc.outcome == Replied(s.calls[id].slot.reply))
                  && (s.calls[id].slot == Closed ==> t.calls[id].pc.outcome == AgentUnavailable))
  {
    SettledIsReturned(ls, more, id);
  }

  // ---- What each outcome says ---------------------------------------------------------------------

  predicate Timed(ls: seq<Label>) {
    exists l | l in ls :: l.Timeout?
  }

  predicate StoppedReading(ls: seq<Label>) {
    exists l | l in ls :: l.EndStream?
  }

  /** The call's own task was told that a send is refused. */
  predicate SendRefused(ls: seq<Label>) {
    exists l | l in ls :: l.Send? && !l.ok
  }

  /** The call's feeder was told that a send is refused. */
  predicate FeedRefused(ls: seq<Label>) {
    exists l | l in ls :: l.Feed? && !l.ok
  }

  /** The call's feeder has taken the entries out of the tables. */
  predicate FeederDropped(ls: seq<Label>) {
    exists l | l in ls :: l.FeederDropsPending? || l.FeederDropsStream?
  }

  predicate Looked(ls: seq<Label>) {
    exists l | l in ls :: l.Observe?
  }

  /** Where a call is says which of these has happened to it. */
  ghost predicate Explains(c: P.Channel, ls: seq<Label>) {
    if c.call.None? then !Timed(ls) && !StoppedReading(ls) && !SendRefused(ls) && !Looked(ls)
    else
      var pc := c.call.value.pc;
      && (Timed(ls) <==> pc == TimingOut || pc == Done(AgentTimeout))
      && (StoppedReading(ls) <==> pc == Done(Ended))
      && (SendRefused(ls) ==> pc in {DroppingPending, DroppingStream, Done(AgentUnavailable)})
      && (Looked(ls) ==> c.call.value.slot != Empty && pc == Done(Returned(c.call.value.slot)))
      && (pc.Done? && pc.outcome.Replied? ==> Looked(ls))
  }

  /** A feeder drops the call's entries exactly if a send of its own was refused; else it just ends. */
  ghost predicate FeederExplains(c: P.Channel, ls: seq<Label>) {
    if c.call.None? then !FeedRefused(ls) && !FeederDropped(ls)
    else
      var feeder := c.call.value.feeder;
      && (feeder in {FeederDroppingPending, FeederDroppingStream} ==> FeedRefused(ls))
      && (FeedRefused(ls) ==> feeder in {FeederDroppingPending, FeederDroppingStream, FeederDone})
      && (FeederDropped(ls) ==> FeedRefused(ls))
      && (FeedRefused(ls) && feeder == FeederDone ==> FeederDropped(ls))
      && (c.call.value.pc in {Registering, ReadingOutbound} ==> feeder == NoFeeder)
      && (feeder == NoFeeder ==> !FeedRefused(ls) && !FeederDropped(ls))
  }

  lemma FeederHappened(ls: seq<Label>, l: Label)
    ensures FeedRefused(ls + [l]) <==> FeedRefused(ls) || (l.Feed? && !l.ok)
    ensures FeederDropped(ls + [l]) <==> FeederDropped(ls) || l.FeederDropsPending? || l.FeederDropsStream?
  {
    assert l in ls + [l];
    assert forall x :: x in ls + [l] <==> x in ls || x == l;
  }

  lemma SessionStepExplainsFeeder(c: P.Channel, ls: seq<Label>, l: Label)
    requires FeederExplains(c, ls) && P.Enabled(c, l) && H.BySession(l)
    ensures FeederExplains(P.Step(c, l), ls + [l])
  {
    FeederHappened(ls, l);
  }

  lemma CallStepExplainsFeeder(c: P.Channel, ls: seq<Label>, l: Label)
    requires FeederExplains(c, ls) && P.Enabled(c, l) && !H.BySession(l)
    ensures FeederExplains(P.Step(c, l), ls + [l])
  {
    FeederHappened(ls, l);
  }

  lemma {:induction false} RunExplainsFeeder(ls: seq<Label>)
    requires P.Run(P.Fresh(), ls).Some?
    ensures FeederExplains(P.Run(P.Fresh(), ls).value, ls)
  {
    if |ls| > 0 {
      RunExplainsFeeder(ls[..|ls|-1]);
      var c := P.Run(P.Fresh(), ls[..|ls|-1]).value;
      if H.BySession(ls[|ls|-1]) {
        SessionStepExplainsFeeder(c, ls[..|ls|-1], ls[|ls|-1]);
      } else {
        CallStepExplainsFeeder(c, ls[..|ls|-1], ls[|ls|-1]);
      }
      assert ls[..|ls|-1] + [ls[|ls|-1]] == ls;
    }
  }

  /**
   * A call's feeder takes its entries out of the tables only if a send of its own was refused, and once it is
   * done it has done so exactly then.
   */
  lemma FeedersDropOnlyIfRefused(ls: seq<Label>, id: nat)
    requires Run(Init(), ls).Some? && id in Run(Init(), ls).value.calls
    ensures FeederDropped(Only(ls, id)) ==> FeedRefused(Only(ls, id))
    ensures Run(Init(), ls).value.calls[id].feeder == FeederDone ==>
              (FeedRefused(Only(ls, id)) <==> FeederDropped(Only(ls, id)))
  {
    SessionRefinesPrivateChannels(ls, id);
    RunExplainsFeeder(Only(ls, id));
  }

  lemma SessionStepExplains(c: P.Channel, ls: seq<Label>, l: Label)
    requires H.Tidy(c) && Explains(c, ls) && P.Enabled(c, l) && H.BySession(l)
    ensures Explains(P.Step(c, l), ls + [l])
  {
    Happened(ls, l);
  }

  lemma CallStepExplains(c: P.Channel, ls: seq<Label>, l: Label)
    requires H.Tidy(c) && Explains(c, ls) && P.Enabled(c, l) && !H.BySession(l)
    ensures Explains(P.Step(c, l), ls + [l])
  {
    Happened(ls, l);
  }

  lemma Happened(ls: seq<Label>, l: Label)
    ensures Timed(ls + [l]) <==> Timed(ls) || l.Timeout?
    ensures StoppedReading(ls + [l]) <==> StoppedReading(ls) || l.EndStream?
    ensures SendRefused(ls + [l]) <==> SendRefused(ls) || (l.Send? && !l.ok)
    ensures Looked(ls + [l]) <==> Looked(ls) || l.Observe?
  {
    assert l in ls + [l];
    assert forall x :: x in ls + [l] <==> x in ls || x == l;
  }

  lemma {:induction false} RunExplains(ls: seq<Label>)
    requires P.Run(P.Fresh(), ls).Some?
    ensures H.Tidy(P.Run(P.Fresh(), ls).value) && Explains(P.Run(P.Fresh(), ls).value, ls)
  {
    if |ls| > 0 {
      var c := P.Run(P.Fresh(), ls[..|ls|-1]).value;
      RunExplains(ls[..|ls|-1]);
      H.StepTidy(c, ls[|ls|-1]);
      if H.BySession(ls[|ls|-1]) {
        SessionStepExplains(c, ls[..|ls|-1], ls[|ls|-1]);
      } else {
        CallStepExplains(c, ls[..|ls|-1], ls[|ls|-1]);
      }
      assert ls[..|ls|-1] + [ls[|ls|-1]] == ls;
    }
  }

  /**
   * What a call returns says what has happened to it: a timeout exactly if its own timer struck, an end
   * exactly if its reader stopped, a reply only if it looked and found one, and unavailable if a send of
   * its own was refused.
   */
  lemma OutcomesAreExplained(ls: seq<Label>, id: nat)
    requires Run(Init(), ls).Some? && id in Run(Init(), ls).value.calls
    requires Run(Init(), ls).value.calls[id].pc.Done?
    ensures var call, own := Run(Init(), ls).value.calls[id], Only(ls, id);
            && (call.pc.outcome == AgentTimeout <==> Timed(own))
            && (call.pc.outcome == Ended <==> StoppedReading(own))
            && (SendRefused(own) ==> call.pc.outcome == AgentUnavailable)
            && (call.pc.outcome.Replied? ==> Looked(own) && call.slot == Filled(call.pc.outcome.reply))
            && (Looked(own) ==> call.slot != Empty && call.pc.outcome == Returned(call.slot))
  {
    SessionRefinesPrivateChannels(ls, id);
    RunExplains(Only(ls, id));
  }

  // ---- Calls of every kind get through -------------------------------------------------------------

  /** Taking labels one after another, each from the state the one before has left. */
  lemma Go(ls: seq<Label>, s: Link, l: Label) returns (more: seq<Label>, t: Link)
    requires Run(Init(), ls) == Some(s) && Enabled(s, l)
    ensures more == ls + [l] && t == Step(s, l) && Run(Init(), more) == Some(t)
  {
    more, t := ls + [l], Step(s, l);
    Extend(Init(), ls, s, l);
  }

  /** A call of any kind begins and registers. */
  lemma ACallRegisters(ls: seq<Label>, s: Link, kind: Kind) returns (more: seq<Label>, t: Link)
    requires Run(Init(), ls) == Some(s)
    ensures ls <= more && Run(Init(), more) == Some(t)
    ensures s.nextId !in s.calls && s.nextId !in s.pending && s.nextId !in s.streams
    ensures HasCall(t, s.nextId, ReadingOutbound)
    ensures t.calls[s.nextId] == Call(kind, ReadingOutbound, NoFeeder, Empty, [])
    ensures t.session == s.session && t.outbound == s.outbound && t.nextId == s.nextId + 1
    ensures t.pending == s.pending + if kind == OneShot then {s.nextId} else {}
    ensures t.streams == s.streams + if kind == OneShot then {} else {s.nextId}
    ensures forall id | id in s.calls :: id in t.calls && t.calls[id] == s.calls[id]
  {
    RunBounded(ls);
    var begun;
    more, begun := Go(ls, s, Begin(s.nextId, kind));
    assert begun.calls == s.calls[s.nextId := Call(kind, Registering, NoFeeder, Empty, [])];
    more, t := Go(more, begun, Register(s.nextId));
  }

  /** A one-shot call that has registered sends all it has to say, and waits. */
  lemma ACallWaits(ls: seq<Label>, s: Link, id: nat) returns (more: seq<Label>, t: Link)
    requires Run(Init(), ls) == Some(s) && s.outbound && HasCall(s, id, ReadingOutbound) && s.calls[id].kind == OneShot
    ensures ls <= more && Run(Init(), more) == Some(t) && t == At(s, id, Awaiting)
  {
    more, t := Go(ls, s, ReadOutbound(id));
    more, t := Go(more, t, Send(id, true));
    more, t := Go(more, t, AllSent(id));
  }

  /** A message for a call that waits puts its reply there, and takes its entry. */
  lemma ACallIsAnswered(ls: seq<Label>, s: Link, id: nat, reply: Reply) returns (more: seq<Label>, t: Link)
    requires Run(Init(), ls) == Some(s) && s.session == Idle && id in s.pending && id !in s.streams && id in s.calls
    ensures ls <= more && Run(Init(), more) == Some(t)
    ensures t == WithCall(s, id, s.calls[id].(slot := Filled(reply))).(pending := s.pending - {id})
  {
    more, t := Go(ls, s, Receive(id, reply));
    more, t := Go(more, t, LookUpStream(id, reply));
    more, t := Go(more, t, TakePending(id, reply));
    more, t := Go(more, t, AnswerCall(id, reply));
  }

  /** From any open session a one-shot call can be made, sent and answered, and it returns its reply. */
  lemma ACallReturnsItsReply(ls: seq<Label>, s: Link, reply: Reply) returns (more: seq<Label>, t: Link)
    requires Run(Init(), ls) == Some(s) && s.session == Idle && s.outbound
    ensures ls <= more && Run(Init(), more) == Some(t) && t.session == Idle && t.outbound
    ensures HasCall(t, s.nextId, Done(Replied(reply))) && t.pending == s.pending && t.streams == s.streams
  {
    more, t := ACallRegisters(ls, s, OneShot);
    more, t := ACallWaits(more, t, s.nextId);
    more, t := ACallIsAnswered(more, t, s.nextId, reply);
    more, t := Go(more, t, Observe(s.nextId));
  }

  /** A call that waits can always give up: it takes its entry with it. */
  lemma ACallCanTimeOut(ls: seq<Label>, s: Link, id: nat) returns (more: seq<Label>, t: Link)
    requires Run(Init(), ls) == Some(s) && HasCall(s, id, Awaiting)
    ensures ls <= more && Run(Init(), more) == Some(t) && HasCall(t, id, Done(AgentTimeout))
    ensures t.pending == s.pending - {id} && t.streams == s.streams
  {
    more, t := Go(ls, s, Timeout(id));
    more, t := Go(more, t, DropPending(id));
  }

  /** A streaming or bidirectional call on an open session gets to read. */
  lemma AStreamOpens(ls: seq<Label>, s: Link, kind: Kind) returns (more: seq<Label>, t: Link)
    requires Run(Init(), ls) == Some(s) && s.session == Idle && s.outbound && kind != OneShot
    ensures ls <= more && Run(Init(), more) == Some(t) && t.session == Idle && t.outbound
    ensures HasCall(t, s.nextId, Reading) && t.streams == s.streams + {s.nextId} && t.pending == s.pending
    ensures t.calls[s.nextId].inbox == [] && t.calls[s.nextId].feeder == if kind == Bidi then Feeding else NoFeeder
  {
    more, t := ACallRegisters(ls, s, kind);
    more, t := Go(more, t, ReadOutbound(s.nextId));
    if kind == Streaming {
      more, t := Go(more, t, Send(s.nextId, true));
    }
  }

  /** A message for a stream that reads is put into its inbox, and nothing else changes. */
  lemma AStreamIsFed(ls: seq<Label>, s: Link, id: nat, reply: Reply) returns (more: seq<Label>, t: Link)
    requires Run(Init(), ls) == Some(s) && s.session == Idle && id in s.streams && HasCall(s, id, Reading)
    ensures ls <= more && Run(Init(), more) == Some(t)
    ensures t == WithCall(s, id, s.calls[id].(inbox := s.calls[id].inbox + [reply]))
  {
    more, t := Go(ls, s, Receive(id, reply));
    more, t := Go(more, t, LookUpStream(id, reply));
    more, t := Go(more, t, ForwardReply(id, reply));
  }

  /** A call that learns it cannot send takes its entries out of both tables, and returns. */
  lemma ACallGivesUp(ls: seq<Label>, s: Link, id: nat) returns (more: seq<Label>, t: Link)
    requires Run(Init(), ls) == Some(s) && HasCall(s, id, DroppingPending)
    ensures ls <= more && Run(Init(), more) == Some(t) && HasCall(t, id, Done(AgentUnavailable))
    ensures t.pending == s.pending - {id} && t.streams == s.streams - {id}
  {
    more, t := Go(ls, s, DropPending(id));
    more, t := Go(more, t, DropStream(id));
  }

  /** Without a connection every call is refused, and leaves the tables as they were. */
  lemma WithoutConnectionACallIsRefused(ls: seq<Label>, s: Link, kind: Kind) returns (more: seq<Label>, t: Link)
    requires Run(Init(), ls) == Some(s) && !s.outbound
    ensures ls <= more && Run(Init(), more) == Some(t)
    ensures HasCall(t, s.nextId, Done(AgentUnavailable)) && t.pending == s.pending && t.streams == s.streams
  {
    more, t := ACallRegisters(ls, s, kind);
    more, t := Go(more, t, ReadOutbound(s.nextId));
    more, t := ACallGivesUp(more, t, s.nextId);
  }

  /** A call whose send is refused is told so, and leaves no entry. */
  lemma ARefusedSendEndsTheCall(ls: seq<Label>, s: Link, id: nat) returns (more: seq<Label>, t: Link)
    requires Run(Init(), ls) == Some(s) && HasCall(s, id, Sending)
    ensures ls <= more && Run(Init(), more) == Some(t) && HasCall(t, id, Done(AgentUnavailable))
    ensures t.pending == s.pending - {id} && t.streams == s.streams - {id}
  {
    more, t := Go(ls, s, Send(id, false));
    more, t := ACallGivesUp(more, t, id);
  }
}
