/** The shared session refines one private channel per call, under every interleaving. */
module MultiplexerProofs {
  import opened Wrappers
  import opened Multiplexer
  import P = PrivateChannel

  /** The session task as call `id` sees it: while another call's message is in hand it looks idle. */
  function Seen(session: SessionPc, id: nat): SessionPc {
    match session
    case LookingUp(j, _) => if j == id then session else Idle
    case Forwarding(j, _) => if j == id then session else Idle
    case Taking(j, _) => if j == id then session else Idle
    case Answering(j, _) => if j == id then session else Idle
    case _ => session
  }

  /** The part of the shared session that belongs to call `id`. */
  function Channel(s: Link, id: nat): P.Channel {
    P.Channel(
      if id in s.calls then Some(s.calls[id]) else None,
      id in s.pending, id in s.streams, s.outbound, Seen(s.session, id))
  }

  /** Ids are handed out in order, so everything registered is below the counter. */
  ghost predicate Bounded(s: Link) {
    forall id | id in s.calls || id in s.pending || id in s.streams :: id in s.calls && id < s.nextId
  }

  lemma StepIsEnabled(s: Link, l: Label, id: nat)
    requires Bounded(s) && Enabled(s, l) && Concerns(l, id)
    ensures P.Enabled(Channel(s, id), l)
  {
  }

  lemma StepSimulates(s: Link, l: Label, id: nat)
    requires Bounded(s) && Enabled(s, l) && Concerns(l, id)
    ensures P.Enabled(Channel(s, id), l)
    ensures Channel(Step(s, l), id) == P.Step(Channel(s, id), l)
  {
    StepIsEnabled(s, l, id);
  }

  lemma StepStutters(s: Link, l: Label, id: nat)
    requires Enabled(s, l) && !Concerns(l, id)
    ensures Channel(Step(s, l), id) == Channel(s, id)
  {
  }

  lemma StepBounded(s: Link, l: Label)
    requires Bounded(s) && Enabled(s, l)
    ensures Bounded(Step(s, l)) && Step(s, l).nextId >= s.nextId
  {
  }

  lemma {:induction false} RunBounded(ls: seq<Label>)
    requires Run(Init(), ls).Some?
    ensures Bounded(Run(Init(), ls).value)
  {
    if |ls| > 0 {
      RunBounded(ls[..|ls|-1]);
      StepBounded(Run(Init(), ls[..|ls|-1]).value, ls[|ls|-1]);
    }
  }

  /** For every interleaving and every id, the shared session restricted to that id is a run of a private channel. */
  lemma {:induction false} SessionRefinesPrivateChannels(ls: seq<Label>, id: nat)
    requires Run(Init(), ls).Some?
    ensures P.Run(P.Fresh(), Only(ls, id)) == Some(Channel(Run(Init(), ls).value, id))
  {
    if |ls| > 0 {
      var before, l := ls[..|ls|-1], ls[|ls|-1];
      SessionRefinesPrivateChannels(before, id);
      RunBounded(before);
      var s := Run(Init(), before).value;
      if Concerns(l, id) {
        StepSimulates(s, l, id);
        assert Only(ls, id)[..|Only(ls, id)|-1] == Only(before, id);
      } else {
        StepStutters(s, l, id);
      }
    }
  }
}
