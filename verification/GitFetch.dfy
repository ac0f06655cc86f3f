/**
 * Git deployments: each is a task that hands its fetch permit to a blocking clone thread it cannot kill,
 * waits for it with a timeout, and works in a staging directory of its own. Any number run at once.
 */
module GitFetch {
  import opened Wrappers

  const MAX_CONCURRENT_GIT_FETCHES: nat := 2

  datatype Mode = StaticMode | BuildMode | RunMode

  datatype Outcome = Cloned | CloneFailed | Panicked

  /** The blocking thread. It owns the permit until it exits, whatever its task has done meanwhile. */
  datatype Thread = NoThread | Queued | Cloning | Exited(outcome: Outcome)

  datatype Pc =
    | FindingApp
    | Acquiring
    | Spawning
    | Awaiting
    | Joining
    | Building
    | Finishing
    | Shipping
    | Activating
    | Marking
    | Cleaning
    | Done(ok: bool)

  /** `staged` is whether the job's staging directory exists, `interrupt` the flag the clone polls. */
  datatype Job = Job(mode: Mode, pc: Pc, thread: Thread, staged: bool, interrupt: bool)

  datatype Action =
    // the job itself
    | Find(ok: bool)
    | Acquire(ok: bool)
    | Spawn
    | Joined
    | TimesOut
    | JoinedLate
    | Build(ok: bool)
    | Finish(ok: bool)
    | Ship(ok: bool)
    | Activate(ok: bool)
    | Mark(ok: bool)
    | Clean
    // its clone thread
    | CreateStaging(ok: bool)
    | Exit(outcome: Outcome)

  predicate Active(thread: Thread) {
    thread == Queued || thread == Cloning
  }

  predicate CanAct(job: Job, permits: nat, a: Action) {
    match a
    case Find(_) => job.pc == FindingApp
    case Acquire(ok) => job.pc == Acquiring && (ok ==> permits > 0)
    case Spawn => job.pc == Spawning
    case Joined => job.pc == Awaiting && job.thread.Exited?
    case TimesOut => job.pc == Awaiting
    case JoinedLate => job.pc == Joining && job.thread.Exited?
    case Build(_) => job.pc == Building
    case Finish(_) => job.pc == Finishing
    case Ship(_) => job.pc == Shipping
    case Activate(_) => job.pc == Activating
    case Mark(_) => job.pc == Marking
    case Clean => job.pc == Cleaning
    case CreateStaging(_) => job.thread == Queued
    case Exit(_) => job.thread == Cloning
  }

  /** One step of a job and its thread, with what becomes of the free permits. Removals succeed. */
  function Act(job: Job, permits: nat, a: Action): (Job, nat)
    requires CanAct(job, permits, a)
  {
    match a
    case Find(ok) => (job.(pc := if ok then Acquiring else Done(false)), permits)
    case Acquire(ok) => if ok then (job.(pc := Spawning), permits - 1) else (job.(pc := Done(false)), permits)
    case Spawn => (job.(pc := Awaiting, thread := Queued), permits)
    case Joined =>
      (job.(pc := if job.thread.outcome != Cloned then Cleaning
                  else if job.mode == BuildMode then Building
                  else Finishing),
       permits)
    case TimesOut => (job.(pc := Joining, interrupt := true), permits)
    case JoinedLate => (job.(pc := Cleaning), permits)
    case Build(ok) => (job.(pc := if ok then Finishing else Cleaning), permits)
    case Finish(ok) =>
      (if !ok then job.(pc := Cleaning)
       else job.(pc := if job.mode == RunMode then Shipping else Activating, staged := false),
       permits)
    case Ship(ok) => (job.(pc := if ok then Activating else Done(false)), permits)
    case Activate(ok) => (job.(pc := if ok then Marking else Done(false)), permits)
    case Mark(ok) => (job.(pc := Done(ok)), permits)
    case Clean => (job.(pc := Done(false), staged := false), permits)
    case CreateStaging(ok) =>
      if ok
      then (job.(thread := Cloning, staged := true), permits)
      else (job.(thread := Exited(CloneFailed)), permits + 1)
    case Exit(outcome) => (job.(thread := Exited(outcome)), permits + 1)
  }

  datatype System = System(permits: nat, jobs: map<nat, Job>, next: nat)

  datatype Label = Start(mode: Mode) | On(j: nat, action: Action)

  function Init(): System {
    System(MAX_CONCURRENT_GIT_FETCHES, map[], 0)
  }

  predicate Enabled(s: System, l: Label) {
    l.On? ==> l.j in s.jobs && CanAct(s.jobs[l.j], s.permits, l.action)
  }

  function Step(s: System, l: Label): System
    requires Enabled(s, l)
  {
    match l
    case Start(mode) => s.(jobs := s.jobs[s.next := Job(mode, FindingApp, NoThread, false, false)], next := s.next + 1)
    case On(j, a) =>
      var (job, permits) := Act(s.jobs[j], s.permits, a);
      s.(jobs := s.jobs[j := job], permits := permits)
  }

  function Run(s: System, ls: seq<Label>): Option<System> {
    if |ls| == 0 then Some(s) else
    match Run(s, ls[..|ls|-1])
    case None => None
    case Some(t) => if Enabled(t, ls[|ls|-1]) then Some(Step(t, ls[|ls|-1])) else None
  }

  // ---- What every step keeps ----------------------------------------------------------------------

  /** A job owns a permit from the moment it got one until its thread exits. */
  predicate Holds(job: Job) {
    job.pc == Spawning || Active(job.thread)
  }

  predicate JobOk(job: Job) {
    && (job.pc in {FindingApp, Acquiring, Spawning} ==> job.thread == NoThread)
    && (job.pc in {Awaiting, Joining} ==> job.thread != NoThread)
    && (job.pc in {Building, Finishing, Shipping, Activating, Marking, Done(true)} ==>
          job.thread == Exited(Cloned) && !job.interrupt)
    && (job.pc in {Cleaning, Done(false)} ==> !Active(job.thread))
    && (job.thread in {NoThread, Queued} ==> !job.staged)
    && (job.pc in {Shipping, Activating, Marking} || job.pc.Done? ==> !job.staged)
    && (job.interrupt ==> job.pc in {Joining, Cleaning, Done(false)})
  }

  lemma ActKeepsJob(job: Job, permits: nat, a: Action)
    requires JobOk(job) && CanAct(job, permits, a)
    ensures JobOk(Act(job, permits, a).0)
  {
  }

  /** A permit changes hands but is never made or lost. */
  lemma ActKeepsPermits(job: Job, permits: nat, a: Action)
    requires JobOk(job) && CanAct(job, permits, a)
    ensures var (after, left) := Act(job, permits, a);
            left + (if Holds(after) then 1 else 0) == permits + if Holds(job) then 1 else 0
  {
  }

  function Holders(s: System): set<nat> {
    set j | j in s.jobs && Holds(s.jobs[j])
  }

  ghost predicate JobsOk(s: System) {
    forall j | j in s.jobs :: j < s.next && JobOk(s.jobs[j])
  }

  ghost predicate PermitsOk(s: System) {
    s.permits + |Holders(s)| == MAX_CONCURRENT_GIT_FETCHES
  }

  lemma HoldersAfter(jobs: map<nat, Job>, j: nat, job: Job, s: System, t: System)
    requires s.jobs == jobs && t.jobs == jobs[j := job]
    ensures Holders(t) == if Holds(job) then Holders(s) + {j} else Holders(s) - {j}
  {
  }

  lemma StepKeepsJobs(s: System, l: Label)
    requires JobsOk(s) && Enabled(s, l)
    ensures JobsOk(Step(s, l))
  {
    if l.On? {
      ActKeepsJob(s.jobs[l.j], s.permits, l.action);
    }
  }

  lemma CountsMatch(holders: set<nat>, j: nat, has: bool, permits: nat, left: nat)
    requires left + (if has then 1 else 0) == permits + (if j in holders then 1 else 0)
    ensures left + |if has then holders + {j} else holders - {j}| == permits + |holders|
  {
    if has && j in holders {
      assert holders + {j} == holders;
    } else if !has && j !in holders {
      assert holders - {j} == holders;
    }
  }

  lemma StepKeepsPermits(s: System, l: Label)
    requires JobsOk(s) && PermitsOk(s) && Enabled(s, l)
    ensures PermitsOk(Step(s, l))
  {
    match l {
      case Start(mode) =>
        HoldersAfter(s.jobs, s.next, Job(mode, FindingApp, NoThread, false, false), s, Step(s, l));
        assert Holders(s) - {s.next} == Holders(s);
      case On(j, a) =>
        var job := s.jobs[j];
        var (after, left) := Act(job, s.permits, a);
        ActKeepsPermits(job, s.permits, a);
        HoldersAfter(s.jobs, j, after, s, Step(s, l));
        CountsMatch(Holders(s), j, Holds(after), s.permits, left);
    }
  }

  lemma {:induction false} RunKeepsInv(ls: seq<Label>)
    requires Run(Init(), ls).Some?
    ensures JobsOk(Run(Init(), ls).value) && PermitsOk(Run(Init(), ls).value)
  {
    if |ls| == 0 {
      assert Holders(Init()) == {};
    } else {
      RunKeepsInv(ls[..|ls|-1]);
      StepKeepsJobs(Run(Init(), ls[..|ls|-1]).value, ls[|ls|-1]);
      StepKeepsPermits(Run(Init(), ls[..|ls|-1]).value, ls[|ls|-1]);
    }
  }

  // ---- Theorems -------------------------------------------------------------------------------------

  function CloneThreads(s: System): set<nat> {
    set j | j in s.jobs && Active(s.jobs[j].thread)
  }

  lemma SubsetSize(a: set<nat>, b: set<nat>)
    requires a <= b
    ensures |a| <= |b|
  {
    assert a + (b - a) == b;
  }

  /** At most two clone threads exist at any moment, however many jobs have timed out. */
  lemma AtMostTwoCloneThreads(ls: seq<Label>)
    requires Run(Init(), ls).Some?
    ensures |CloneThreads(Run(Init(), ls).value)| <= 2
  {
    RunKeepsInv(ls);
    SubsetSize(CloneThreads(Run(Init(), ls).value), Holders(Run(Init(), ls).value));
  }

  /** Whatever a job returns, its permit is back, its thread is gone and its staging directory is too. */
  lemma EveryExitIsClean(ls: seq<Label>, j: nat)
    requires Run(Init(), ls).Some? && j in Run(Init(), ls).value.jobs && Run(Init(), ls).value.jobs[j].pc.Done?
    ensures var s := Run(Init(), ls).value;
            && !Active(s.jobs[j].thread) && !s.jobs[j].staged && j !in Holders(s)
            && (s.jobs[j].pc.ok ==> s.jobs[j].thread == Exited(Cloned) && !s.jobs[j].interrupt)
  {
    RunKeepsInv(ls);
  }

  /** The permits not held by a job are free: when every job has returned, all of them are. */
  lemma PermitsAreConserved(ls: seq<Label>)
    requires Run(Init(), ls).Some?
    ensures var s := Run(Init(), ls).value;
            && s.permits + |Holders(s)| == MAX_CONCURRENT_GIT_FETCHES
            && ((forall j | j in s.jobs :: s.jobs[j].pc.Done?) ==> s.permits == MAX_CONCURRENT_GIT_FETCHES)
  {
    RunKeepsInv(ls);
    var s := Run(Init(), ls).value;
    if forall j | j in s.jobs :: s.jobs[j].pc.Done? {
      assert Holders(s) == {};
    }
  }

  /** No step removes a staging directory whose clone thread is still there. */
  lemma StagingOutlivesItsThread(ls: seq<Label>, l: Label, j: nat)
    requires Run(Init(), ls).Some? && Enabled(Run(Init(), ls).value, l)
    requires var s := Run(Init(), ls).value; j in s.jobs && s.jobs[j].staged && !Step(s, l).jobs[j].staged
    ensures Run(Init(), ls).value.jobs[j].thread.Exited?
  {
    RunKeepsInv(ls);
  }
  // ---- The way a job goes -------------------------------------------------------------------------

  predicate ByThread(a: Action) {
    a.CreateStaging? || a.Exit?
  }

  /** What job `j` itself has done, in order; what its clone thread has done is left out. */
  function Own(ls: seq<Label>, j: nat): seq<Action> {
    if |ls| == 0 then []
    else
      var before, l := Own(ls[..|ls|-1], j), ls[|ls|-1];
      if l.On? && l.j == j && !ByThread(l.action) then before + [l.action] else before
  }

  /** What its clone thread has done, in order. */
  function CloneSteps(ls: seq<Label>, j: nat): seq<Action> {
    if |ls| == 0 then []
    else
      var before, l := CloneSteps(ls[..|ls|-1], j), ls[|ls|-1];
      if l.On? && l.j == j && ByThread(l.action) then before + [l.action] else before
  }

  /** Where a clone thread is says what it has done. */
  predicate ThreadOnItsWay(job: Job, cloned: seq<Action>) {
    match job.thread
    case Cloning => cloned == [CreateStaging(true)]
    case Exited(outcome) =>
      cloned == [CreateStaging(true), Exit(outcome)] || (outcome == CloneFailed && cloned == [CreateStaging(false)])
    case _ => cloned == []
  }

  lemma ActKeepsThreadsWay(job: Job, permits: nat, a: Action, cloned: seq<Action>)
    requires JobOk(job) && ThreadOnItsWay(job, cloned) && CanAct(job, permits, a)
    ensures ThreadOnItsWay(Act(job, permits, a).0, if ByThread(a) then cloned + [a] else cloned)
  {
  }

  lemma {:induction false} RunKeepsThreadsWay(ls: seq<Label>, j: nat)
    requires Run(Init(), ls).Some?
    ensures if j in Run(Init(), ls).value.jobs then ThreadOnItsWay(Run(Init(), ls).value.jobs[j], CloneSteps(ls, j))
            else CloneSteps(ls, j) == []
  {
    if |ls| > 0 {
      var s, l := Run(Init(), ls[..|ls|-1]).value, ls[|ls|-1];
      RunKeepsThreadsWay(ls[..|ls|-1], j);
      RunKeepsInv(ls[..|ls|-1]);
      if l.On? && l.j == j {
        ActKeepsThreadsWay(s.jobs[j], s.permits, l.action, CloneSteps(ls[..|ls|-1], j));
      }
    }
  }

  function Started(): seq<Action> {
    [Find(true), Acquire(true), Spawn]
  }

  /** A finished clone, built if the mode is to build. */
  function Fetched(mode: Mode): seq<Action> {
    Started() + [Joined] + if mode == BuildMode then [Build(true)] else []
  }

  /** Moved into place, and shipped to the agent if the mode is to run. */
  function Delivered(mode: Mode): seq<Action> {
    Fetched(mode) + [Finish(true)] + if mode == RunMode then [Ship(true)] else []
  }

  predicate IsFailure(a: Action) {
    a == TimesOut || ((a.Find? || a.Acquire? || a.Build? || a.Finish? || a.Ship? || a.Activate? || a.Mark?) && !a.ok)
  }

  /** Something went wrong: an own step, the clone, or time ran out. */
  predicate Failed(job: Job, own: seq<Action>) {
    || (exists a :: a in own && IsFailure(a))
    || (job.thread.Exited? && job.thread.outcome != Cloned)
  }

  /** Where a job is says what it has done. */
  predicate OnItsWay(job: Job, own: seq<Action>) {
    match job.pc
    case FindingApp => own == []
    case Acquiring => own == [Find(true)]
    case Spawning => own == [Find(true), Acquire(true)]
    case Awaiting => own == Started()
    case Building => job.mode == BuildMode && own == Started() + [Joined]
    case Finishing => own == Fetched(job.mode)
    case Shipping => job.mode == RunMode && own == Fetched(job.mode) + [Finish(true)]
    case Activating => own == Delivered(job.mode)
    case Marking => own == Delivered(job.mode) + [Activate(true)]
    case Done(ok) =>
      if ok then own == Delivered(job.mode) + [Activate(true)] + [Mark(true)] else Failed(job, own)
    case _ => Failed(job, own)
  }

  /** A job tells its clone to stop exactly if its time has run out. */
  predicate InterruptsOnTime(job: Job, own: seq<Action>) {
    job.interrupt <==> TimesOut in own
  }

  lemma ActKeepsWay(job: Job, permits: nat, a: Action, own: seq<Action>)
    requires JobOk(job) && OnItsWay(job, own) && InterruptsOnTime(job, own) && CanAct(job, permits, a)
    ensures OnItsWay(Act(job, permits, a).0, if ByThread(a) then own else own + [a])
    ensures InterruptsOnTime(Act(job, permits, a).0, if ByThread(a) then own else own + [a])
  {
    if x :| x in own && IsFailure(x) {
      assert x in own + [a];
    }
    assert a in own + [a];
  }

  lemma {:induction false} RunKeepsWay(ls: seq<Label>, j: nat)
    requires Run(Init(), ls).Some? && j in Run(Init(), ls).value.jobs
    ensures OnItsWay(Run(Init(), ls).value.jobs[j], Own(ls, j))
    ensures InterruptsOnTime(Run(Init(), ls).value.jobs[j], Own(ls, j))
  {
    if |ls| > 0 {
      var s, l := Run(Init(), ls[..|ls|-1]).value, ls[|ls|-1];
      RunKeepsInv(ls[..|ls|-1]);
      if j in s.jobs {
        RunKeepsWay(ls[..|ls|-1], j);
        if l.On? && l.j == j {
          ActKeepsWay(s.jobs[j], s.permits, l.action, Own(ls[..|ls|-1], j));
        }
      } else {
        NothingBefore(ls[..|ls|-1], j);
      }
    }
  }

  lemma {:induction false} NothingBefore(ls: seq<Label>, j: nat)
    requires Run(Init(), ls).Some? && j !in Run(Init(), ls).value.jobs
    ensures Own(ls, j) == []
  {
    if |ls| > 0 {
      NothingBefore(ls[..|ls|-1], j);
    }
  }

  /**
   * A job that reports success has gone the whole way in order: its clone finished, its build if it is to be
   * built, its files in place, shipped if it is to run, activated, and marked ready. One that reports
   * failure has met one.
   */
  lemma SuccessIsTheWholeWay(ls: seq<Label>, j: nat)
    requires Run(Init(), ls).Some? && j in Run(Init(), ls).value.jobs && Run(Init(), ls).value.jobs[j].pc.Done?
    ensures var job, own := Run(Init(), ls).value.jobs[j], Own(ls, j);
            if job.pc.ok
            then && own == [Find(true), Acquire(true), Spawn, Joined]
                           + (if job.mode == BuildMode then [Build(true)] else []) + [Finish(true)]
                           + (if job.mode == RunMode then [Ship(true)] else []) + [Activate(true)] + [Mark(true)]
                 && CloneSteps(ls, j) == [CreateStaging(true), Exit(Cloned)]
            else Failed(job, own)
    ensures Run(Init(), ls).value.jobs[j].interrupt <==> TimesOut in Own(ls, j)
  {
    RunKeepsWay(ls, j);
    RunKeepsThreadsWay(ls, j);
    RunKeepsInv(ls);
    assert Started() + [Joined] == [Find(true), Acquire(true), Spawn, Joined];
  }

  lemma Go(ls: seq<Label>, s: System, j: nat, a: Action) returns (more: seq<Label>, t: System)
    requires Run(Init(), ls) == Some(s) && j in s.jobs && CanAct(s.jobs[j], s.permits, a)
    ensures more == ls + [On(j, a)] && t == Step(s, On(j, a)) && Run(Init(), more) == Some(t)
    ensures j in t.jobs && (t.jobs[j], t.permits) == Act(s.jobs[j], s.permits, a)
  {
    more, t := ls + [On(j, a)], Step(s, On(j, a));
    assert more[..|ls|] == ls;
  }

  /** The clone of a job that has found its app while a permit is free can finish. */
  lemma CloningIsPossible(ls: seq<Label>, s: System, j: nat) returns (more: seq<Label>, t: System)
    requires Run(Init(), ls) == Some(s) && j in s.jobs && s.permits > 0
    requires s.jobs[j].pc == FindingApp && s.jobs[j].thread == NoThread
    ensures Run(Init(), more) == Some(t) && j in t.jobs && t.permits == s.permits
    ensures t.jobs[j] == s.jobs[j].(pc := Awaiting, thread := Exited(Cloned), staged := true)
  {
    more, t := Go(ls, s, j, Find(true));
    more, t := Go(more, t, j, Acquire(true));
    more, t := Go(more, t, j, Spawn);
    more, t := Go(more, t, j, CreateStaging(true));
    more, t := Go(more, t, j, Exit(Cloned));
  }

  /** A job whose clone takes too long tells it to stop, waits for it, and fails; nothing of it is left. */
  lemma TimingOutIsPossible(mode: Mode) returns (ls: seq<Label>, s: System)
    ensures Run(Init(), ls) == Some(s) && 0 in s.jobs && TimesOut in Own(ls, 0)
    ensures s.jobs[0] == Job(mode, Done(false), Exited(CloneFailed), false, true)
  {
    ls, s := [Start(mode)], Step(Init(), Start(mode));
    assert ls[..0] == [];
    ls, s := Go(ls, s, 0, Find(true));
    ls, s := Go(ls, s, 0, Acquire(true));
    ls, s := Go(ls, s, 0, Spawn);
    ls, s := Go(ls, s, 0, CreateStaging(true));
    ls, s := Go(ls, s, 0, TimesOut);
    ls, s := Go(ls, s, 0, Exit(CloneFailed));
    ls, s := Go(ls, s, 0, JoinedLate);
    ls, s := Go(ls, s, 0, Clean);
    RunKeepsWay(ls, 0);
  }

  /** A job of every mode can succeed. */
  lemma SuccessIsPossible(mode: Mode) returns (ls: seq<Label>, s: System)
    ensures Run(Init(), ls) == Some(s) && 0 in s.jobs && s.jobs[0].mode == mode && s.jobs[0].pc == Done(true)
  {
    ls, s := [Start(mode)], Step(Init(), Start(mode));
    assert ls[..0] == [];
    ls, s := CloningIsPossible(ls, s, 0);
    ls, s := Go(ls, s, 0, Joined);
    if mode == BuildMode {
      ls, s := Go(ls, s, 0, Build(true));
    }
    ls, s := Go(ls, s, 0, Finish(true));
    if mode == RunMode {
      ls, s := Go(ls, s, 0, Ship(true));
    }
    ls, s := Go(ls, s, 0, Activate(true));
    ls, s := Go(ls, s, 0, Mark(true));
  }
}
