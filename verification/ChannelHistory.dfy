/** What one call is entitled to, read off the labels of its private channel alone. */
module ChannelHistory {
  import opened Wrappers
  import opened Protocol
  import opened Multiplexer
  import P = PrivateChannel

  predicate ClosesStream(l: Label) {
    l.DropStream? || l.EndStream? || l.FeederDropsStream? || l.ClearStreams?
  }

  predicate ClosesPending(l: Label) {
    l.DropPending? || l.FeederDropsPending? || l.TakePending? || l.ClearPending?
  }

  /** A call of kind `kind` has a stream entry: it registered and nothing has removed the entry since. */
  predicate StreamOpen(kind: Kind, ls: seq<Label>) {
    |ls| > 0 &&
    if ls[|ls|-1].Register? then kind != OneShot
    else !ClosesStream(ls[|ls|-1]) && StreamOpen(kind, ls[..|ls|-1])
  }

  predicate PendingOpen(kind: Kind, ls: seq<Label>) {
    |ls| > 0 &&
    if ls[|ls|-1].Register? then kind == OneShot
    else !ClosesPending(ls[|ls|-1]) && PendingOpen(kind, ls[..|ls|-1])
  }

  predicate Registered(ls: seq<Label>) {
    exists l | l in ls :: l.Register?
  }

  /** The messages resolved between registration and end of stream, in order. */
  function StreamMessages(kind: Kind, ls: seq<Label>): seq<Reply> {
    if |ls| == 0 then []
    else if ls[|ls|-1].LookUpStream? && StreamOpen(kind, ls[..|ls|-1])
    then StreamMessages(kind, ls[..|ls|-1]) + [ls[|ls|-1].reply]
    else StreamMessages(kind, ls[..|ls|-1])
  }

  /** Every message that came looking for a one-shot caller once the call had registered, in order. */
  function Attempts(ls: seq<Label>): seq<Reply> {
    if |ls| == 0 then []
    else if ls[|ls|-1].TakePending? && Registered(ls[..|ls|-1])
    then Attempts(ls[..|ls|-1]) + [ls[|ls|-1].reply]
    else Attempts(ls[..|ls|-1])
  }

  /** The message found by the stream lookup but not yet pushed onto the channel. */
  function InHand(c: P.Channel): seq<Reply> {
    if c.session.Forwarding? then [c.session.reply] else []
  }

  /** The replies that have been taken for a one-shot call: none or one. */
  function Answers(c: P.Channel): seq<Reply> {
    if c.session.Answering? then [c.session.reply]
    else if c.call.Some? && c.call.value.slot.Filled? then [c.call.value.slot.reply]
    else []
  }

  ghost predicate RegistrationAgrees(c: P.Channel, ls: seq<Label>) {
    Registered(ls) <==> c.call.Some? && c.call.value.pc != Registering
  }

  /** The two routing flags say what the labels say. */
  ghost predicate FlagsAgree(kind: Kind, c: P.Channel, ls: seq<Label>) {
    && (c.call.Some? ==> c.call.value.kind == kind)
    && c.stream == StreamOpen(kind, ls)
    && c.pending == PendingOpen(kind, ls)
    && RegistrationAgrees(c, ls)
  }

  /** A stream holds exactly its messages, in order. */
  ghost predicate StreamAgrees(kind: Kind, c: P.Channel, ls: seq<Label>) {
    && (c.call.None? ==> InHand(c) == [] && StreamMessages(kind, ls) == [])
    && (c.call.Some? ==> c.call.value.inbox + InHand(c) == StreamMessages(kind, ls))
  }

  /** A one-shot call's answer, if any, is the first attempt on it. */
  ghost predicate AnswerAgrees(c: P.Channel, ls: seq<Label>) {
    && Answers(c) <= Attempts(ls)
    && (c.pending || !Registered(ls) ==> Attempts(ls) == [])
  }

  ghost predicate Agrees(kind: Kind, c: P.Channel, ls: seq<Label>) {
    Tidy(c) && FlagsAgree(kind, c, ls) && StreamAgrees(kind, c, ls) && AnswerAgrees(c, ls)
  }

  /** Which task positions may still own an entry, and what the reply slot says about it. */
  predicate Tidy(c: P.Channel) {
    && (c.session.Answering? ==> c.call.Some? && !c.pending && c.call.value.slot == Empty)
    && (c.session.Forwarding? ==> c.call.Some? && c.call.value.kind != OneShot)
    && (c.pending ==>
          && c.call.Some? && c.call.value.kind == OneShot && c.call.value.slot == Empty
          && c.call.value.pc in {ReadingOutbound, Sending, Awaiting, TimingOut, DroppingPending})
    && (c.stream ==>
          && c.call.Some? && c.call.value.kind != OneShot
          && c.call.value.pc in {ReadingOutbound, Sending, Reading, DroppingPending, DroppingStream})
    && (c.call.Some? ==>
          && (c.call.value.kind == OneShot ==> c.call.value.inbox == [] && c.call.value.pc != Reading)
          && (c.call.value.kind != OneShot ==>
                && c.call.value.slot == Empty && !c.session.Answering?
                && c.call.value.pc !in {Awaiting, TimingOut, Done(AgentTimeout)} && !ReplyReturned(c))
          && (ReplyReturned(c) ==> c.call.value.slot == Filled(c.call.value.pc.outcome.reply))
          && (c.call.value.pc == Registering ==> c.call.value.slot == Empty && !c.session.Answering?))
  }

  predicate ReplyReturned(c: P.Channel) {
    c.call.Some? && c.call.value.pc.Done? && c.call.value.pc.outcome.Replied?
  }

  /** The session's own steps. */
  predicate BySession(l: Label) {
    l.Connect? || l.Receive? || l.LookUpStream? || l.ForwardReply? || l.TakePending? || l.AnswerCall?
    || l.StreamEnds? || l.ClearPending? || l.ClearStreams? || l.ClearOutbound?
  }

  lemma SessionTidy(c: P.Channel, l: Label)
    requires Tidy(c) && P.Enabled(c, l) && BySession(l)
    ensures Tidy(P.Step(c, l))
  {
  }

  lemma CallTidy(c: P.Channel, l: Label)
    requires Tidy(c) && P.Enabled(c, l) && !BySession(l)
    ensures Tidy(P.Step(c, l))
  {
  }

  lemma StepTidy(c: P.Channel, l: Label)
    requires Tidy(c) && P.Enabled(c, l)
    ensures Tidy(P.Step(c, l))
  {
    if BySession(l) {
      SessionTidy(c, l);
    } else {
      CallTidy(c, l);
    }
  }

  lemma StepRegistrationAgrees(c: P.Channel, ls: seq<Label>, l: Label)
    requires RegistrationAgrees(c, ls) && P.Enabled(c, l)
    ensures RegistrationAgrees(P.Step(c, l), ls + [l])
  {
    assert Registered(ls + [l]) <==> Registered(ls) || l.Register?;
  }

  lemma StepFlagsAgree(kind: Kind, c: P.Channel, ls: seq<Label>, l: Label)
    requires Tidy(c) && FlagsAgree(kind, c, ls) && P.Enabled(c, l)
    requires l.Begin? ==> l.kind == kind
    ensures FlagsAgree(kind, P.Step(c, l), ls + [l])
  {
    assert (ls + [l])[..|ls|] == ls;
    StepRegistrationAgrees(c, ls, l);
  }

  lemma StepStreamAgrees(kind: Kind, c: P.Channel, ls: seq<Label>, l: Label)
    requires Tidy(c) && FlagsAgree(kind, c, ls) && StreamAgrees(kind, c, ls) && P.Enabled(c, l)
    ensures StreamAgrees(kind, P.Step(c, l), ls + [l])
  {
    assert (ls + [l])[..|ls|] == ls;
    if l.LookUpStream? && c.stream {
      assert c.session.LookingUp? && InHand(c) == [];
      assert c.call.value.inbox + [] == c.call.value.inbox;
    }
  }

  lemma CallKeepsAnswers(c: P.Channel, l: Label)
    requires Tidy(c) && P.Enabled(c, l) && !BySession(l)
    ensures Answers(P.Step(c, l)) == Answers(c) && (P.Step(c, l).pending ==> c.pending || l.Register?)
  {
  }

  lemma SessionKeepsAnswers(c: P.Channel, l: Label)
    requires Tidy(c) && P.Enabled(c, l) && BySession(l) && !l.TakePending?
    ensures Answers(P.Step(c, l)) == Answers(c) && (P.Step(c, l).pending ==> c.pending)
  {
  }

  lemma TakingAnswers(c: P.Channel, l: Label)
    requires Tidy(c) && P.Enabled(c, l) && l.TakePending?
    ensures Answers(P.Step(c, l)) == (if c.pending then [l.reply] else Answers(c)) && !P.Step(c, l).pending
  {
  }

  lemma AttemptsOfMore(ls: seq<Label>, l: Label)
    ensures Registered(ls + [l]) <==> Registered(ls) || l.Register?
    ensures Attempts(ls + [l]) == Attempts(ls) + if l.TakePending? && Registered(ls) then [l.reply] else []
  {
    assert (ls + [l])[..|ls|] == ls;
  }

  /** From a channel to the next, given how its answers and its registration moved. */
  lemma AnswersStillAgree(c: P.Channel, d: P.Channel, ls: seq<Label>, l: Label)
    requires AnswerAgrees(c, ls) && (c.pending ==> Registered(ls)) && (!Registered(ls) ==> Answers(c) == [])
    requires Answers(d) == if l.TakePending? && c.pending then [l.reply] else Answers(c)
    requires d.pending ==> !l.TakePending? && (c.pending || (l.Register? && !Registered(ls)))
    ensures AnswerAgrees(d, ls + [l])
  {
    AttemptsOfMore(ls, l);
  }

  lemma StepAnswerAgrees(c: P.Channel, ls: seq<Label>, l: Label)
    requires Tidy(c) && RegistrationAgrees(c, ls) && AnswerAgrees(c, ls) && P.Enabled(c, l)
    ensures AnswerAgrees(P.Step(c, l), ls + [l])
  {
    if l.TakePending? {
      TakingAnswers(c, l);
    } else if BySession(l) {
      SessionKeepsAnswers(c, l);
    } else {
      CallKeepsAnswers(c, l);
    }
    AnswersStillAgree(c, P.Step(c, l), ls, l);
  }

  lemma StepAgrees(kind: Kind, c: P.Channel, ls: seq<Label>, l: Label)
    requires Agrees(kind, c, ls) && P.Enabled(c, l)
    requires l.Begin? ==> l.kind == kind
    ensures Agrees(kind, P.Step(c, l), ls + [l])
  {
    StepTidy(c, l);
    StepFlagsAgree(kind, c, ls, l);
    StepStreamAgrees(kind, c, ls, l);
    StepAnswerAgrees(c, ls, l);
  }

  /** A call keeps the kind it was begun with. */
  lemma StepKeepsKind(c: P.Channel, l: Label)
    requires P.Enabled(c, l)
    ensures c.call.Some? ==> P.Step(c, l).call.Some? && P.Step(c, l).call.value.kind == c.call.value.kind
    ensures l.Begin? ==> P.Step(c, l).call.Some? && P.Step(c, l).call.value.kind == l.kind
  {
  }

  /** Every run of a private channel keeps the labels and the channel's contents in step. */
  lemma {:induction false} RunAgrees(kind: Kind, ls: seq<Label>)
    requires P.Run(P.Fresh(), ls).Some?
    requires P.Run(P.Fresh(), ls).value.call.Some? ==> P.Run(P.Fresh(), ls).value.call.value.kind == kind
    ensures Agrees(kind, P.Run(P.Fresh(), ls).value, ls)
  {
    if |ls| > 0 {
      var before, l := ls[..|ls|-1], ls[|ls|-1];
      var c := P.Run(P.Fresh(), before).value;
      StepKeepsKind(c, l);
      RunAgrees(kind, before);
      StepAgrees(kind, c, before, l);
      assert before + [l] == ls;
    }
  }
}
