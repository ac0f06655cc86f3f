/** What a caller of a shared session gets, for every interleaving of every other call. */
module SessionTheorems {
  import opened Wrappers
  import opened Multiplexer
  import opened MultiplexerProofs
  import P = PrivateChannel
  import H = ChannelHistory

  /** The private channel of call `id` after a run, with everything its labels say about it. */
  lemma ChannelAgrees(ls: seq<Label>, id: nat)
    requires Run(Init(), ls).Some? && id in Run(Init(), ls).value.calls
    ensures H.Agrees(Run(Init(), ls).value.calls[id].kind, Channel(Run(Init(), ls).value, id), Only(ls, id))
  {
    SessionRefinesPrivateChannels(ls, id);
    H.RunAgrees(Run(Init(), ls).value.calls[id].kind, Only(ls, id));
  }

  /** Ids in use are below the counter, and no id is both a one-shot call and a stream. */
  lemma IdsAreExclusive(ls: seq<Label>)
    requires Run(Init(), ls).Some?
    ensures var s := Run(Init(), ls).value;
            && s.pending !! s.streams
            && (forall id | id in s.pending + s.streams :: id in s.calls && id < s.nextId)
            && (forall id | id in s.pending :: s.calls[id].kind == OneShot)
            && (forall id | id in s.streams :: s.calls[id].kind != OneShot)
  {
    RunBounded(ls);
    var s := Run(Init(), ls).value;
    forall id | id in s.pending + s.streams
      ensures id in s.pending ==> s.calls[id].kind == OneShot
      ensures id in s.streams ==> s.calls[id].kind != OneShot
    {
      ChannelAgrees(ls, id);
    }
  }

  /** A stream receives, in order, exactly the messages with its id resolved between registration and end. */
  lemma StreamGetsExactlyItsMessages(ls: seq<Label>, id: nat)
    requires Run(Init(), ls).Some? && id in Run(Init(), ls).value.calls
    ensures var s := Run(Init(), ls).value;
            s.calls[id].inbox + H.InHand(Channel(s, id)) == H.StreamMessages(s.calls[id].kind, Only(ls, id))
  {
    ChannelAgrees(ls, id);
  }

  /** A one-shot call takes at most one payload: the first that came for its id after it registered. */
  lemma OneShotGetsTheFirst(ls: seq<Label>, id: nat)
    requires Run(Init(), ls).Some? && id in Run(Init(), ls).value.calls
    ensures var s := Run(Init(), ls).value;
            && |H.Answers(Channel(s, id))| <= 1
            && H.Answers(Channel(s, id)) <= H.Attempts(Only(ls, id))
            && (s.calls[id].pc.Done? && s.calls[id].pc.outcome.Replied? ==>
                  && s.calls[id].kind == OneShot
                  && |H.Attempts(Only(ls, id))| > 0
                  && s.calls[id].pc.outcome.reply == H.Attempts(Only(ls, id))[0])
  {
    ChannelAgrees(ls, id);
  }

  /** Whatever a call returns, it leaves no entry of its own behind. */
  lemma ReturningLeavesNoEntry(ls: seq<Label>, id: nat)
    requires Run(Init(), ls).Some? && id in Run(Init(), ls).value.calls
    requires Run(Init(), ls).value.calls[id].pc.Done?
    ensures id !in Run(Init(), ls).value.pending && id !in Run(Init(), ls).value.streams
  {
    ChannelAgrees(ls, id);
  }

  // ---- The end of a session -------------------------------------------------------------------

  predicate Failing(session: SessionPc) {
    session in {ClearingPending, ClearingStreams, ClearingOutbound, Over}
  }

  /** The two halves of a run. */
  lemma {:induction false} RunSplits(s: Link, ls: seq<Label>, more: seq<Label>)
    requires Run(s, ls + more).Some?
    ensures Run(s, ls).Some? && Run(Run(s, ls).value, more) == Run(s, ls + more)
  {
    if |more| == 0 {
      assert ls + more == ls;
    } else {
      var all := ls + more;
      assert all[..|all|-1] == ls + more[..|more|-1];
      RunSplits(s, ls, more[..|more|-1]);
    }
  }

  lemma {:induction false} OnlySplits(ls: seq<Label>, more: seq<Label>, id: nat)
    ensures Only(ls + more, id) == Only(ls, id) + Only(more, id)
  {
    if |more| == 0 {
      assert ls + more == ls;
    } else {
      var all := ls + more;
      assert all[..|all|-1] == ls + more[..|more|-1];
      OnlySplits(ls, more[..|more|-1], id);
    }
  }

  /** The channel of a call that was registered when the session began to fail, seen at any later moment. */
  predicate ChannelReleasing(c: P.Channel) {
    && Failing(c.session) && c.call.Some? && c.call.value.pc != Registering
    && (c.session == ClearingPending && c.pending ==> c.call.value.slot == Empty)
    && (c.session == ClearingPending && !c.pending && c.call.value.kind == OneShot ==> c.call.value.slot == Closed)
    && (c.session != ClearingPending ==> !c.pending && (c.call.value.kind == OneShot ==> c.call.value.slot == Closed))
    && (c.session in {ClearingOutbound, Over} ==> !c.stream)
    && (c.call.value.pc == Awaiting ==> c.call.value.kind == OneShot)
    && (c.call.value.pc.Done? ==> !c.call.value.pc.outcome.Replied?)
  }

  lemma SessionStepReleasing(c: P.Channel, l: Label)
    requires ChannelReleasing(c) && P.Enabled(c, l) && H.BySession(l)
    ensures ChannelReleasing(P.Step(c, l))
  {
  }

  lemma CallStepReleasing(c: P.Channel, l: Label)
    requires ChannelReleasing(c) && P.Enabled(c, l) && !H.BySession(l)
    ensures ChannelReleasing(P.Step(c, l))
  {
  }

  ghost predicate Releasing(s: Link, id: nat) {
    Bounded(s) && ChannelReleasing(Channel(s, id))
  }

  lemma StepReleasing(s: Link, l: Label, id: nat)
    requires Releasing(s, id) && Enabled(s, l)
    ensures Releasing(Step(s, l), id)
  {
    StepBounded(s, l);
    if !Concerns(l, id) {
      StepStutters(s, l, id);
    } else {
      StepSimulates(s, l, id);
      if H.BySession(l) {
        SessionStepReleasing(Channel(s, id), l);
      } else {
        CallStepReleasing(Channel(s, id), l);
      }
    }
  }

  lemma {:induction false} ReleasingIsKept(s: Link, more: seq<Label>, id: nat)
    requires Releasing(s, id) && Run(s, more).Some?
    ensures Releasing(Run(s, more).value, id)
  {
    if |more| > 0 {
      ReleasingIsKept(s, more[..|more|-1], id);
      StepReleasing(Run(s, more[..|more|-1]).value, more[|more|-1], id);
    }
  }

  /**
   * `fail_all_pending` releases every call registered before it starts, whatever else runs between its
   * three steps: once it is over, a one-shot caller finds its channel closed and can only come back with
   * an error, and a stream has lost its entry, so its receiver sees the end.
   */
  lemma FailAllReleasesTheRegistered(ls: seq<Label>, more: seq<Label>, id: nat)
    requires Run(Init(), ls).Some? && Run(Run(Init(), ls).value, more).Some?
    requires Run(Init(), ls).value.session == ClearingPending
    requires id in Run(Init(), ls).value.pending + Run(Init(), ls).value.streams
    requires Run(Run(Init(), ls).value, more).value.session == Over
    ensures var s := Run(Run(Init(), ls).value, more).value;
            && id !in s.pending && id !in s.streams && id in s.calls
            && (s.calls[id].kind == OneShot ==> s.calls[id].slot == Closed)
            && (s.calls[id].pc.Done? ==> !s.calls[id].pc.outcome.Replied?)
  {
    RunBounded(ls);
    ChannelAgrees(ls, id);
    ReleasingIsKept(Run(Init(), ls).value, more, id);
  }

  /** A call that had not read `outbound` when the session was over. */
  ghost predicate Refusing(s: Link, id: nat) {
    && s.session == Over && !s.outbound && id in s.calls
    && s.calls[id].pc in {Registering, ReadingOutbound, DroppingPending, DroppingStream, Done(AgentUnavailable)}
    && s.calls[id].feeder == NoFeeder
  }

  lemma {:induction false} RefusingIsKept(s: Link, more: seq<Label>, id: nat)
    requires Refusing(s, id) && Bounded(s) && Run(s, more).Some?
    ensures Refusing(Run(s, more).value, id) && Bounded(Run(s, more).value)
  {
    if |more| > 0 {
      RefusingIsKept(s, more[..|more|-1], id);
      StepBounded(Run(s, more[..|more|-1]).value, more[|more|-1]);
    }
  }

  /** A call that reads `outbound` after the session is over never sends, and leaves no entry when it returns. */
  lemma LateCallsAreRefused(ls: seq<Label>, more: seq<Label>, id: nat)
    requires Run(Init(), ls + more).Some? && Run(Init(), ls).Some?
    requires var s := Run(Init(), ls).value;
             s.session == Over && id in s.calls && s.calls[id].pc in {Registering, ReadingOutbound}
    ensures var s := Run(Init(), ls + more).value;
            && Refusing(s, id)
            && (s.calls[id].pc.Done? ==> id !in s.pending && id !in s.streams)
  {
    RunSplits(Init(), ls, more);
    RunBounded(ls);
    RunQuiet(ls, id);
    RefusingIsKept(Run(Init(), ls).value, more, id);
    if Run(Init(), ls + more).value.calls[id].pc.Done? {
      ReturningLeavesNoEntry(ls + more, id);
    }
  }

  lemma StepOutboundGone(s: Link, l: Label)
    requires (s.session == Over ==> !s.outbound) && Enabled(s, l)
    ensures Step(s, l).session == Over ==> !Step(s, l).outbound
  {
  }

  /** A call that has not read `outbound` yet has no feeder. */
  predicate NotFeeding(s: Link, id: nat) {
    id in s.calls && s.calls[id].pc in {Registering, ReadingOutbound} ==> s.calls[id].feeder == NoFeeder
  }

  lemma StepNotFeeding(s: Link, l: Label, id: nat)
    requires NotFeeding(s, id) && Enabled(s, l)
    ensures NotFeeding(Step(s, l), id)
  {
  }

  lemma {:induction false} RunQuiet(ls: seq<Label>, id: nat)
    requires Run(Init(), ls).Some?
    ensures var s := Run(Init(), ls).value; (s.session == Over ==> !s.outbound) && NotFeeding(s, id)
  {
    if |ls| > 0 {
      var before, l := ls[..|ls|-1], ls[|ls|-1];
      RunQuiet(before, id);
      StepOutboundGone(Run(Init(), before).value, l);
      StepNotFeeding(Run(Init(), before).value, l, id);
    }
  }

  // ---- Calls that register while the session is failing ---------------------------------------

  lemma {:induction false} StreamOpenAfterClear(kind: Kind, ls: seq<Label>, more: seq<Label>)
    ensures H.StreamOpen(kind, ls + [ClearStreams] + more) == H.StreamOpen(kind, more)
  {
    var all := ls + [ClearStreams] + more;
    if |more| == 0 {
      assert all[|all|-1] == ClearStreams;
    } else {
      assert all[..|all|-1] == ls + [ClearStreams] + more[..|more|-1];
      StreamOpenAfterClear(kind, ls, more[..|more|-1]);
    }
  }

  lemma {:induction false} PendingOpenAfterClear(kind: Kind, ls: seq<Label>, more: seq<Label>)
    ensures H.PendingOpen(kind, ls + [ClearPending] + more) == H.PendingOpen(kind, more)
  {
    var all := ls + [ClearPending] + more;
    if |more| == 0 {
      assert all[|all|-1] == ClearPending;
    } else {
      assert all[..|all|-1] == ls + [ClearPending] + more[..|more|-1];
      PendingOpenAfterClear(kind, ls, more[..|more|-1]);
    }
  }

  lemma OnlyAround(ls: seq<Label>, l: Label, more: seq<Label>, id: nat)
    requires Target(l) == None
    ensures Only(ls + [l] + more, id) == Only(ls, id) + [l] + Only(more, id)
  {
    OnlySplits(ls + [l], more, id);
    OnlySplits(ls, [l], id);
    assert [l][..0] == [] && Only([l], id) == [l];
  }

  /**
   * Which one-shot entries `fail_all_pending` misses: exactly those of calls that register after its first
   * step has run and have not taken the entry out again.
   */
  lemma OneShotLeftBehindIff(all: seq<Label>, ls: seq<Label>, more: seq<Label>, id: nat)
    requires Run(Init(), all).Some? && id in Run(Init(), all).value.calls
    requires all == ls + [ClearPending] + more
    ensures var s := Run(Init(), all).value;
            id in s.pending <==> H.PendingOpen(s.calls[id].kind, Only(more, id))
  {
    ChannelAgrees(all, id);
    OnlyAround(ls, ClearPending, more, id);
    PendingOpenAfterClear(Run(Init(), all).value.calls[id].kind, Only(ls, id), Only(more, id));
  }

  /** A one-shot call that has registered and has no reply yet is in the table, unless it is being answered. */
  predicate WaitsInTable(c: P.Channel) {
    c.call.Some? && c.call.value.pc in {ReadingOutbound, Sending, Awaiting} && !c.session.Answering? ==>
      (c.call.value.kind == OneShot && c.call.value.slot == Empty ==> c.pending)
  }

  lemma SessionKeepsWaitsInTable(c: P.Channel, l: Label)
    requires WaitsInTable(c) && P.Enabled(c, l) && H.BySession(l)
    ensures WaitsInTable(P.Step(c, l))
  {
  }

  lemma CallKeepsWaitsInTable(c: P.Channel, l: Label)
    requires WaitsInTable(c) && P.Enabled(c, l) && !H.BySession(l)
    ensures WaitsInTable(P.Step(c, l))
  {
  }

  lemma {:induction false} RunWaitsInTable(ls: seq<Label>, id: nat)
    requires Run(Init(), ls).Some?
    ensures WaitsInTable(Channel(Run(Init(), ls).value, id))
  {
    if |ls| > 0 {
      var s, l := Run(Init(), ls[..|ls|-1]).value, ls[|ls|-1];
      RunWaitsInTable(ls[..|ls|-1], id);
      RunBounded(ls[..|ls|-1]);
      if !Concerns(l, id) {
        StepStutters(s, l, id);
      } else {
        StepSimulates(s, l, id);
        if H.BySession(l) {
          SessionKeepsWaitsInTable(Channel(s, id), l);
        } else {
          CallKeepsWaitsInTable(Channel(s, id), l);
        }
      }
    }
  }

  /**
   * Which one-shot callers hang on a session that is over, with nothing but their timeout to release them:
   * exactly those that registered after its pending table was cleared.
   */
  lemma CallerHangsIff(all: seq<Label>, ls: seq<Label>, more: seq<Label>, id: nat)
    requires Run(Init(), all).Some? && all == ls + [ClearPending] + more
    requires Run(Init(), all).value.session == Over && HasCall(Run(Init(), all).value, id, Awaiting)
    ensures var s := Run(Init(), all).value;
            && (s.calls[id].slot == Empty <==> id in s.pending)
            && (s.calls[id].slot == Empty <==> H.PendingOpen(s.calls[id].kind, Only(more, id)))
            && (s.calls[id].slot != Empty <==> Enabled(s, Observe(id)))
  {
    OneShotLeftBehindIff(all, ls, more, id);
    AwaitingIsTidy(all, id);
    RunWaitsInTable(all, id);
    HangsIffPending(Run(Init(), all).value, id);
  }

  lemma AwaitingIsTidy(all: seq<Label>, id: nat)
    requires Run(Init(), all).Some? && id in Run(Init(), all).value.calls
    ensures H.Tidy(Channel(Run(Init(), all).value, id))
  {
    ChannelAgrees(all, id);
  }

  lemma HangsIffPending(s: Link, id: nat)
    requires s.session == Over && HasCall(s, id, Awaiting)
    requires H.Tidy(Channel(s, id)) && WaitsInTable(Channel(s, id))
    ensures s.calls[id].slot == Empty <==> id in s.pending
    ensures s.calls[id].slot != Empty <==> Enabled(s, Observe(id))
  {
  }

  /**
   * Which stream entries `fail_all_pending` misses: exactly those of calls that register after its second
   * step has run and have not removed the entry again.
   */
  lemma StreamLeftBehindIff(all: seq<Label>, ls: seq<Label>, more: seq<Label>, id: nat)
    requires Run(Init(), all).Some? && id in Run(Init(), all).value.calls
    requires all == ls + [ClearStreams] + more
    ensures var s := Run(Init(), all).value;
            id in s.streams <==> H.StreamOpen(s.calls[id].kind, Only(more, id))
  {
    ChannelAgrees(all, id);
    OnlyAround(ls, ClearStreams, more, id);
    StreamOpenAfterClear(Run(Init(), all).value.calls[id].kind, Only(ls, id), Only(more, id));
  }

  /**
   * A stream's reader that has taken everything sees the end exactly when nobody holds a sender of its channel:
   * not the table, and not the session, which clones the one it forwards a message by.
   */
  predicate SeesEnd(s: Link, id: nat) {
    HasCall(s, id, Reading) && id !in s.streams && !(s.session.Forwarding? && s.session.id == id)
  }

  /**
   * Which readers hang on a session that is over: exactly those of calls that registered after its stream
   * table was cleared, and whose entry nobody has removed since.
   */
  lemma ReaderHangsIff(all: seq<Label>, ls: seq<Label>, more: seq<Label>, id: nat)
    requires Run(Init(), all).Some? && all == ls + [ClearStreams] + more
    requires Run(Init(), all).value.session == Over && HasCall(Run(Init(), all).value, id, Reading)
    ensures var s := Run(Init(), all).value;
            && (!SeesEnd(s, id) <==> id in s.streams)
            && (!SeesEnd(s, id) <==> H.StreamOpen(s.calls[id].kind, Only(more, id)))
  {
    StreamLeftBehindIff(all, ls, more, id);
  }

  /** What a reader's channel looks like once it ends. */
  predicate HasEnded(c: P.Channel) {
    && c.call.Some? && (c.call.value.pc == Reading || c.call.value.pc.Done?)
    && !c.stream && !c.session.Forwarding?
  }

  lemma StepKeepsEnded(c: P.Channel, l: Label)
    requires HasEnded(c) && P.Enabled(c, l)
    ensures HasEnded(P.Step(c, l)) && P.Step(c, l).call.value.inbox == c.call.value.inbox
  {
  }

  /** The end is final: nothing is delivered after it, whatever runs. */
  lemma {:induction false} TheEndIsFinal(s: Link, more: seq<Label>, id: nat)
    requires SeesEnd(s, id) && Bounded(s) && Run(s, more).Some?
    ensures var t := Run(s, more).value;
            && Bounded(t) && HasEnded(Channel(t, id)) && id in t.calls && t.calls[id].inbox == s.calls[id].inbox
            && (SeesEnd(t, id) || t.calls[id].pc.Done?)
  {
    if |more| > 0 {
      var t, l := Run(s, more[..|more|-1]).value, more[|more|-1];
      TheEndIsFinal(s, more[..|more|-1], id);
      StepBounded(t, l);
      if Concerns(l, id) {
        StepSimulates(t, l, id);
        StepKeepsEnded(Channel(t, id), l);
      } else {
        StepStutters(t, l, id);
      }
    }
  }

  /** What a hanging reader's channel looks like. */
  predicate Hanging(c: P.Channel) {
    c.session == Over && c.call.Some? && c.call.value.pc == Reading && c.stream
  }

  lemma StepKeepsHanging(c: P.Channel, l: Label)
    requires Hanging(c) && P.Enabled(c, l) && !l.EndStream? && !l.FeederDropsStream?
    ensures Hanging(P.Step(c, l)) && P.Step(c, l).call.value.inbox == c.call.value.inbox
  {
  }

  /** A hanging reader hangs until it gives up itself, or the feeder of its own call finds that it cannot send. */
  lemma {:induction false} HangsUntilGivenUp(s: Link, more: seq<Label>, id: nat)
    requires s.session == Over && HasCall(s, id, Reading) && id in s.streams && Bounded(s)
    requires Run(s, more).Some? && EndStream(id) !in more && FeederDropsStream(id) !in more
    ensures var t := Run(s, more).value;
            && Bounded(t) && Hanging(Channel(t, id)) && id in t.calls && !SeesEnd(t, id)
            && t.calls[id].inbox == s.calls[id].inbox
  {
    if |more| > 0 {
      var t, l := Run(s, more[..|more|-1]).value, more[|more|-1];
      HangsUntilGivenUp(s, more[..|more|-1], id);
      StepBounded(t, l);
      if Concerns(l, id) {
        StepSimulates(t, l, id);
        assert l in more;
        StepKeepsHanging(Channel(t, id), l);
      } else {
        StepStutters(t, l, id);
      }
    }
  }

  lemma Extend(s: Link, ls: seq<Label>, t: Link, l: Label)
    requires Run(s, ls) == Some(t) && Enabled(t, l)
    ensures Run(s, ls + [l]) == Some(Step(t, l))
  {
    assert (ls + [l])[..|ls|] == ls;
  }

  lemma One(s: Link, l: Label)
    requires Enabled(s, l)
    ensures Run(s, [l]) == Some(Step(s, l))
  {
    assert [l][..0] == [];
  }

  lemma Two(s: Link, l0: Label, l1: Label)
    requires Enabled(s, l0) && Enabled(Step(s, l0), l1)
    ensures Run(s, [l0] + [l1]) == Some(Step(Step(s, l0), l1))
  {
    One(s, l0);
    Extend(s, [l0], Step(s, l0), l1);
  }

  /** The session ends and `fail_all_pending` takes its first two steps. */
  lemma ClosingUp(s: Link)
    requires s.session == Idle
    ensures Run(s, [StreamEnds] + [ClearPending] + [ClearStreams]).Some?
    ensures var t := Run(s, [StreamEnds] + [ClearPending] + [ClearStreams]).value;
            && t.session == ClearingOutbound && t.outbound == s.outbound
            && (forall id | id in s.calls ::
                  && id in t.calls && t.calls[id].pc == s.calls[id].pc
                  && t.calls[id].kind == s.calls[id].kind && t.calls[id].feeder == s.calls[id].feeder)
  {
    Two(s, StreamEnds, ClearPending);
    Extend(s, [StreamEnds] + [ClearPending], Step(Step(s, StreamEnds), ClearPending), ClearStreams);
  }

  /** A streaming call registers and sends before `fail_all_pending` takes its third step. */
  lemma SlippingIn(s: Link, id: nat)
    requires s.session == ClearingOutbound && s.outbound
    requires HasCall(s, id, Registering) && s.calls[id].kind == Streaming
    ensures var t := Run(s, [Register(id)] + [ReadOutbound(id)] + [Send(id, true)] + [ClearOutbound]);
            && t.Some? && t.value.session == Over && id in t.value.streams && HasCall(t.value, id, Reading)
            && t.value.calls[id].feeder == s.calls[id].feeder && t.value.calls[id].kind == Streaming
  {
    Two(s, Register(id), ReadOutbound(id));
    var t := Step(Step(s, Register(id)), ReadOutbound(id));
    Extend(s, [Register(id)] + [ReadOutbound(id)], t, Send(id, true));
    Extend(s, [Register(id)] + [ReadOutbound(id)] + [Send(id, true)], Step(t, Send(id, true)), ClearOutbound);
  }

  function LateStream(id: nat): seq<Label> {
    ([StreamEnds] + [ClearPending] + [ClearStreams])
    + ([Register(id)] + [ReadOutbound(id)] + [Send(id, true)] + [ClearOutbound])
  }

  /** From any open session with a streaming call about to register, that call can be left reading a dead session. */
  lemma LateStreamIsStranded(s: Link, id: nat)
    requires s.session == Idle && s.outbound && HasCall(s, id, Registering) && s.calls[id].kind == Streaming
    ensures var t := Run(s, LateStream(id));
            && t.Some? && t.value.session == Over && id in t.value.streams && HasCall(t.value, id, Reading)
            && t.value.calls[id].feeder == s.calls[id].feeder && t.value.calls[id].kind == Streaming
  {
    var first, second := [StreamEnds] + [ClearPending] + [ClearStreams],
                         [Register(id)] + [ReadOutbound(id)] + [Send(id, true)] + [ClearOutbound];
    ClosingUp(s);
    var t := Run(s, first).value;
    SlippingIn(t, id);
    RunJoins(s, first, second);
  }

  lemma {:induction false} RunJoins(s: Link, ls: seq<Label>, more: seq<Label>)
    requires Run(s, ls).Some? && Run(Run(s, ls).value, more).Some?
    ensures Run(s, ls + more) == Run(Run(s, ls).value, more)
  {
    if |more| == 0 {
      assert ls + more == ls;
    } else {
      var all := ls + more;
      assert all[..|all|-1] == ls + more[..|more|-1];
      RunJoins(s, ls, more[..|more|-1]);
    }
  }

  /** A stream whose session is over and which nobody feeds. */
  predicate Stranded(s: Link, id: nat) {
    && s.session == Over && id in s.streams
    && HasCall(s, id, Reading) && s.calls[id].kind == Streaming && s.calls[id].feeder == NoFeeder
  }

  lemma StrandedOnlyEnds(c: P.Channel, l: Label)
    requires c.session == Over && c.call.Some? && P.Enabled(c, l)
    requires c.call.value.pc == Reading && c.call.value.kind == Streaming && c.call.value.feeder == NoFeeder
    ensures l.EndStream? || l.Begin?
  {
  }

  lemma StepKeepsStranded(s: Link, l: Label, id: nat)
    requires Stranded(s, id) && Bounded(s) && Enabled(s, l) && l != EndStream(id)
    ensures Stranded(Step(s, l), id) && Step(s, l).calls[id] == s.calls[id] && Bounded(Step(s, l))
  {
    StepBounded(s, l);
    if Concerns(l, id) {
      StepIsEnabled(s, l, id);
      StrandedOnlyEnds(Channel(s, id), l);
    } else {
      StepStutters(s, l, id);
      assert Channel(s, id).call == Some(s.calls[id]) && Channel(s, id).stream;
    }
  }

  /** Nothing that happens later closes a stranded stream or brings it anything: only its own reader can end it. */
  lemma {:induction false} StrandedForEver(s: Link, more: seq<Label>, id: nat)
    requires Stranded(s, id) && Bounded(s) && Run(s, more).Some? && EndStream(id) !in more
    ensures var t := Run(s, more).value; Stranded(t, id) && t.calls[id] == s.calls[id] && Bounded(t)
  {
    if |more| > 0 {
      StrandedForEver(s, more[..|more|-1], id);
      StepKeepsStranded(Run(s, more[..|more|-1]).value, more[|more|-1], id);
    }
  }

  /**
   * The window is real: a reachable session can end and leave a stream registered that nothing in any later
   * run will ever close.
   */
  lemma StreamCanBeLeftBehind()
    ensures exists ls: seq<Label> ::
              && Run(Init(), ls).Some? && Stranded(Run(Init(), ls).value, 1)
              && forall more: seq<Label> | Run(Run(Init(), ls).value, more).Some? && EndStream(1) !in more ::
                   Stranded(Run(Run(Init(), ls).value, more).value, 1)
  {
    var first := [Connect] + [Begin(1, Streaming)];
    Two(Init(), Connect, Begin(1, Streaming));
    var t := Step(Step(Init(), Connect), Begin(1, Streaming));
    LateStreamIsStranded(t, 1);
    RunJoins(Init(), first, LateStream(1));
    var ls := first + LateStream(1);
    var s := Run(Init(), ls).value;
    RunBounded(ls);
    forall more: seq<Label> | Run(s, more).Some? && EndStream(1) !in more
      ensures Stranded(Run(s, more).value, 1)
    {
      StrandedForEver(s, more, 1);
    }
    assert Run(Init(), ls).Some? && Stranded(Run(Init(), ls).value, 1);
  }

  // ---- The same window for one-shot calls -------------------------------------------------------

  /** A one-shot call that waits on a session that is over, with its sender still in the table. */
  predicate Waiting(s: Link, id: nat) {
    && s.session == Over && id in s.pending
    && HasCall(s, id, Awaiting) && s.calls[id].kind == OneShot && s.calls[id].slot == Empty
  }

  /** What can still become of its channel: it waits, or its timeout strikes. */
  predicate OnlyTimesOut(c: P.Channel) {
    && c.session == Over && c.call.Some? && c.call.value.kind == OneShot && c.call.value.feeder == NoFeeder
    && (c.call.value.pc == Awaiting ==> c.pending && c.call.value.slot == Empty)
    && c.call.value.pc in {Awaiting, TimingOut, Done(AgentTimeout)}
  }

  lemma StepOnlyTimesOut(c: P.Channel, l: Label)
    requires OnlyTimesOut(c) && P.Enabled(c, l)
    ensures OnlyTimesOut(P.Step(c, l)) && (c.call.value.pc == Awaiting ==> l.Timeout?)
  {
  }

  /** A waiting call is never answered and never told that the agent is gone: it waits until its timeout. */
  lemma {:induction false} WaitingEndsInTimeout(s: Link, more: seq<Label>, id: nat)
    requires Waiting(s, id) && s.calls[id].feeder == NoFeeder && Bounded(s) && Run(s, more).Some?
    ensures var t := Run(s, more).value;
            && Bounded(t) && OnlyTimesOut(Channel(t, id))
            && (Timeout(id) !in more ==> Waiting(t, id))
            && (t.calls[id].pc.Done? ==> t.calls[id].pc.outcome == AgentTimeout)
  {
    if |more| > 0 {
      var l, t := more[|more|-1], Run(s, more[..|more|-1]).value;
      WaitingEndsInTimeout(s, more[..|more|-1], id);
      StepBounded(t, l);
      if Concerns(l, id) {
        StepSimulates(t, l, id);
        StepOnlyTimesOut(Channel(t, id), l);
      } else {
        StepStutters(t, l, id);
      }
    }
  }

  lemma Three(s: Link, l0: Label, l1: Label, l2: Label)
    requires Enabled(s, l0) && Enabled(Step(s, l0), l1) && Enabled(Step(Step(s, l0), l1), l2)
    ensures Run(s, [l0] + [l1] + [l2]) == Some(Step(Step(Step(s, l0), l1), l2))
  {
    Two(s, l0, l1);
    Extend(s, [l0] + [l1], Step(Step(s, l0), l1), l2);
  }

  /** A one-shot call registers and sends between the first and the second clearing step. */
  lemma OneShotSlipsIn(s: Link, id: nat)
    requires s.session == ClearingStreams && s.outbound
    requires HasCall(s, id, Registering) && s.calls[id].kind == OneShot && s.calls[id].slot == Empty
    ensures var t := Run(s, [Register(id)] + [ReadOutbound(id)] + [Send(id, true)]);
            && t.Some? && t.value.session == ClearingStreams && id in t.value.pending && HasCall(t.value, id, Sending)
            && t.value.calls[id] == s.calls[id].(pc := Sending)
  {
    Three(s, Register(id), ReadOutbound(id), Send(id, true));
  }

  /** Then it starts to wait, and the last two clearing steps pass it by. */
  lemma OneShotIsPassedBy(s: Link, id: nat)
    requires s.session == ClearingStreams && id in s.pending
    requires HasCall(s, id, Sending) && s.calls[id].kind == OneShot && s.calls[id].slot == Empty
    ensures var t := Run(s, [AllSent(id)] + [ClearStreams] + [ClearOutbound]);
            t.Some? && Waiting(t.value, id) && t.value.calls[id] == s.calls[id].(pc := Awaiting)
  {
    Three(s, AllSent(id), ClearStreams, ClearOutbound);
  }

  function LateOneShot(id: nat): seq<Label> {
    ([StreamEnds] + [ClearPending])
    + (([Register(id)] + [ReadOutbound(id)] + [Send(id, true)]) + ([AllSent(id)] + [ClearStreams] + [ClearOutbound]))
  }

  /** From any open session with a one-shot call about to register, that call can be left waiting on a dead session. */
  lemma LateOneShotWaits(s: Link, id: nat)
    requires s.session == Idle && s.outbound && id !in s.pending
    requires HasCall(s, id, Registering) && s.calls[id].kind == OneShot && s.calls[id].slot == Empty
    ensures var t := Run(s, LateOneShot(id));
            t.Some? && Waiting(t.value, id) && t.value.calls[id].feeder == s.calls[id].feeder
  {
    var second := [Register(id)] + [ReadOutbound(id)] + [Send(id, true)];
    var third := [AllSent(id)] + [ClearStreams] + [ClearOutbound];
    Two(s, StreamEnds, ClearPending);
    var t := Step(Step(s, StreamEnds), ClearPending);
    OneShotSlipsIn(t, id);
    OneShotIsPassedBy(Run(t, second).value, id);
    RunJoins(t, second, third);
    RunJoins(s, [StreamEnds] + [ClearPending], second + third);
  }

  /** The window is real for one-shot calls too: such a call can only come back with a timeout, long after the end. */
  lemma OneShotCanBeLeftWaiting()
    ensures exists ls: seq<Label> ::
              && Run(Init(), ls).Some? && Waiting(Run(Init(), ls).value, 1)
              && forall more: seq<Label> | Run(Run(Init(), ls).value, more).Some? && Timeout(1) !in more ::
                   Waiting(Run(Run(Init(), ls).value, more).value, 1)
  {
    var first := [Connect] + [Begin(1, OneShot)];
    Two(Init(), Connect, Begin(1, OneShot));
    var t := Step(Step(Init(), Connect), Begin(1, OneShot));
    LateOneShotWaits(t, 1);
    RunJoins(Init(), first, LateOneShot(1));
    var ls := first + LateOneShot(1);
    var s := Run(Init(), ls).value;
    RunBounded(ls);
    forall more: seq<Label> | Run(s, more).Some? && Timeout(1) !in more
      ensures Waiting(Run(s, more).value, 1)
    {
      WaitingEndsInTimeout(s, more, 1);
    }
    assert Run(Init(), ls).Some? && Waiting(Run(Init(), ls).value, 1);
  }
}
