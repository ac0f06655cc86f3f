/** The agent's container operations: what each call to the engine leaves behind, whether or not it succeeds. */
module Containers {
  import opened Wrappers

  datatype Status = Running | Stopped

  /** The containers of one host by name. */
  type Engine = map<string, Status>

  /** How a call that changes a container ends: a lost reply is an error whose effect took place. */
  datatype EngineReply = Done | Refused | LostReply

  datatype StartError = Unavailable | StartFailed | CommandFailed

  /** How the wait for a command's container ends. */
  datatype Wait = ExitedZero | ExitedNonZero | WaitFails | TimesOut(stop: EngineReply)

  datatype CommandFaults = CommandFaults(image: bool, create: EngineReply, start: EngineReply, wait: Wait)

  datatype StartFaults = StartFaults(
    inspects: bool, reinspects: bool, image: bool, install: CommandFaults, create: EngineReply, start: EngineReply)

  datatype StopFaults = StopFaults(stop: EngineReply, remove: EngineReply)

  predicate IsRunning(e: Engine, name: string) {
    name in e && e[name] == Running
  }

  predicate SameAt(e: Engine, f: Engine, name: string) {
    (name in e <==> name in f) && (name in e ==> e[name] == f[name])
  }

  function CreateContainer(e: Engine, name: string, reply: EngineReply): (Engine, bool) {
    if name in e then (e, false) else (if reply == Refused then e else e[name := Stopped], reply == Done)
  }

  function StartContainer(e: Engine, name: string, reply: EngineReply): (Engine, bool) {
    if name !in e then (e, false) else (if reply == Refused then e else e[name := Running], reply == Done)
  }

  function StopContainer(e: Engine, name: string, reply: EngineReply): (Engine, bool) {
    if name !in e then (e, false) else (if reply == Refused then e else e[name := Stopped], reply == Done)
  }

  function RemoveContainer(e: Engine, name: string, reply: EngineReply): (Engine, bool) {
    (if reply == Refused then e else e - {name}, reply == Done || name !in e)
  }

  function InstallContainerName(name: string): string {
    name + "-install"
  }

  /** The states an engine has been in so far, oldest first. */
  type History = seq<Engine>

  function Now(h: History): Engine
    requires |h| > 0
  {
    h[|h|-1]
  }

  /** What an operation makes of a history, and its result. */
  datatype Trail = Trail(h: History, r: Result<(), StartError>)

  function CommandTrail(h: History, name: string, f: CommandFaults): (t: Trail)
    requires |h| > 0
    ensures h <= t.h
  {
    if !f.image then Trail(h, Err(StartFailed)) else
    var (created, ok) := CreateContainer(Now(h), name, f.create);
    if !ok then Trail(h + [created], Err(StartFailed)) else
    var (started, up) := StartContainer(created, name, f.start);
    if !up then Trail(h + [created] + [started], Err(StartFailed)) else
    match f.wait
    case ExitedZero => Trail(h + [created] + [started] + [started[name := Stopped]], Ok(()))
    case ExitedNonZero => Trail(h + [created] + [started] + [started[name := Stopped]], Err(CommandFailed))
    case WaitFails => Trail(h + [created] + [started], Err(StartFailed))
    case TimesOut(stop) => Trail(h + [created] + [started] + [StopContainer(started, name, stop).0], Err(CommandFailed))
  }

  /** Whether a start gets as far as its install command. */
  predicate Installs(e: Engine, name: string, installs: bool, f: StartFaults) {
    f.inspects && f.reinspects && f.image && installs && name !in e
  }

  /** Whether a command gets as far as waiting for its container, whose removal is scheduled afterwards. */
  predicate Waits(e: Engine, name: string, f: CommandFaults) {
    f.image && name !in e && f.create == Done && f.start == Done
  }

  /** Creating and starting the container proper, once whatever comes before it went well. */
  function LaunchTrail(h: History, name: string, f: StartFaults): (t: Trail)
    requires |h| > 0
    ensures h <= t.h
  {
    var (created, ok) := CreateContainer(Now(h), name, f.create);
    if !ok then Trail(h + [created], Err(StartFailed)) else
    var (started, up) := StartContainer(created, name, f.start);
    Trail(h + [created] + [started], if up then Ok(()) else Err(StartFailed))
  }

  function StartTrail(h: History, name: string, installs: bool, f: StartFaults): (t: Trail)
    requires |h| > 0
    ensures h <= t.h
  {
    if !f.inspects then Trail(h, Err(Unavailable))
    else if IsRunning(Now(h), name) then Trail(h, Ok(()))
    else if !f.reinspects then Trail(h, Err(Unavailable))
    else if name in Now(h) then
      var (started, up) := StartContainer(Now(h), name, f.start);
      Trail(h + [started], if up then Ok(()) else Err(StartFailed))
    else if !f.image then Trail(h, Err(StartFailed))
    else if !installs then LaunchTrail(h, name, f)
    else
      var installed := CommandTrail(h, InstallContainerName(name), f.install);
      if installed.r.Err? then installed else LaunchTrail(installed.h, name, f)
  }

  /** A container that is already gone counts as stopped and removed. */
  function StopTrail(h: History, name: string, f: StopFaults): (t: Trail)
    requires |h| > 0
    ensures h <= t.h
  {
    if name !in Now(h) then Trail(h, Ok(())) else
    var (stopped, ok) := StopContainer(Now(h), name, f.stop);
    if !ok then Trail(h + [stopped], Err(Unavailable)) else
    var (removed, gone) := RemoveContainer(stopped, name, f.remove);
    Trail(h + [stopped] + [removed], if gone then Ok(()) else Err(Unavailable))
  }

  // ---- The operations ---------------------------------------------------------------------------

  /** The engine, with a record of every state it has been in. */
  class Docker {
    var containers: Engine
    /** Containers of finished commands, to be removed after a grace period unless the agent stops first. */
    var cleanups: set<string>
    ghost var history: History

    ghost predicate Valid()
      reads this
    {
      |history| > 0 && Now(history) == containers
    }

    constructor (containers: Engine)
      ensures Valid() && history == [containers] && cleanups == {}
    {
      this.containers, history, cleanups := containers, [containers], {};
    }

    method Create(name: string, reply: EngineReply) returns (ok: bool)
      requires Valid()
      modifies this`containers, this`history
      ensures Valid() && (containers, ok) == CreateContainer(old(containers), name, reply)
      ensures history == old(history) + [containers]
    {
      ok := name !in containers && reply == Done;
      if name !in containers && reply != Refused {
        containers := containers[name := Stopped];
      }
      history := history + [containers];
    }

    method Start(name: string, reply: EngineReply) returns (ok: bool)
      requires Valid()
      modifies this`containers, this`history
      ensures Valid() && (containers, ok) == StartContainer(old(containers), name, reply)
      ensures history == old(history) + [containers]
    {
      ok := name in containers && reply == Done;
      if name in containers && reply != Refused {
        containers := containers[name := Running];
      }
      history := history + [containers];
    }

    method Stop(name: string, reply: EngineReply) returns (ok: bool)
      requires Valid()
      modifies this`containers, this`history
      ensures Valid() && (containers, ok) == StopContainer(old(containers), name, reply)
      ensures history == old(history) + [containers]
    {
      ok := name in containers && reply == Done;
      if name in containers && reply != Refused {
        containers := containers[name := Stopped];
      }
      history := history + [containers];
    }

    method Remove(name: string, reply: EngineReply) returns (ok: bool)
      requires Valid()
      modifies this`containers, this`history
      ensures Valid() && (containers, ok) == RemoveContainer(old(containers), name, reply)
      ensures history == old(history) + [containers]
    {
      ok := name !in containers || reply == Done;
      if reply != Refused {
        containers := containers - {name};
      }
      history := history + [containers];
    }

    /** The command's own process ends, and its container with it. */
    method Exit(name: string)
      requires Valid()
      modifies this`containers, this`history
      ensures Valid() && containers == old(containers)[name := Stopped] && history == old(history) + [containers]
    {
      containers := containers[name := Stopped];
      history := history + [containers];
    }

    method ScheduleCleanup(name: string)
      modifies this`cleanups
      ensures cleanups == old(cleanups) + {name}
    {
      cleanups := cleanups + {name};
    }

    /** The grace period of one scheduled removal is over; a failing removal is ignored. */
    method CleanUp(name: string, reply: EngineReply)
      requires Valid() && name in cleanups
      modifies this
      ensures Valid() && cleanups == old(cleanups) - {name} && history == old(history) + [containers]
      ensures containers == RemoveContainer(old(containers), name, reply).0
    {
      cleanups := cleanups - {name};
      var _ := Remove(name, reply);
    }
  }

  method RunCommandToCompletion(docker: Docker, name: string, f: CommandFaults) returns (r: Result<(), StartError>)
    requires docker.Valid()
    modifies docker
    ensures docker.Valid() && Trail(docker.history, r) == CommandTrail(old(docker.history), name, f)
    ensures docker.cleanups == old(docker.cleanups) + if Waits(old(docker.containers), name, f) then {name} else {}
  {
    if !f.image {
      return Err(StartFailed);
    }
    var ok := docker.Create(name, f.create);
    if !ok {
      return Err(StartFailed);
    }
    ok := docker.Start(name, f.start);
    if !ok {
      return Err(StartFailed);
    }
    match f.wait {
      case ExitedZero =>
        docker.Exit(name);
        r := Ok(());
      case ExitedNonZero =>
        docker.Exit(name);
        r := Err(CommandFailed);
      case WaitFails =>
        r := Err(StartFailed);
      case TimesOut(stop) =>
        ok := docker.Stop(name, stop);
        r := Err(CommandFailed);
    }
    docker.ScheduleCleanup(name);
  }

  method Launch(docker: Docker, name: string, f: StartFaults) returns (r: Result<(), StartError>)
    requires docker.Valid()
    modifies docker
    ensures docker.Valid() && Trail(docker.history, r) == LaunchTrail(old(docker.history), name, f)
    ensures docker.cleanups == old(docker.cleanups)
  {
    var ok := docker.Create(name, f.create);
    if !ok {
      return Err(StartFailed);
    }
    ok := docker.Start(name, f.start);
    return if ok then Ok(()) else Err(StartFailed);
  }

  method StartRunContainer(docker: Docker, name: string, installs: bool, f: StartFaults)
    returns (r: Result<(), StartError>)
    requires docker.Valid()
    modifies docker
    ensures docker.Valid() && Trail(docker.history, r) == StartTrail(old(docker.history), name, installs, f)
    ensures docker.cleanups == old(docker.cleanups)
                               + if Installs(old(docker.containers), name, installs, f)
                                    && Waits(old(docker.containers), InstallContainerName(name), f.install)
                                 then {InstallContainerName(name)} else {}
  {
    if !f.inspects {
      return Err(Unavailable);
    }
    if name in docker.containers && docker.containers[name] == Running {
      return Ok(());
    }
    if !f.reinspects {
      return Err(Unavailable);
    }
    if name in docker.containers {
      var ok := docker.Start(name, f.start);
      return if ok then Ok(()) else Err(StartFailed);
    }
    if !f.image {
      return Err(StartFailed);
    }
    if installs {
      r := RunCommandToCompletion(docker, InstallContainerName(name), f.install);
      if r.Err? {
        return;
      }
    }
    r := Launch(docker, name, f);
  }

  method StopAndRemove(docker: Docker, name: string, f: StopFaults) returns (r: Result<(), StartError>)
    requires docker.Valid()
    modifies docker
    ensures docker.Valid() && Trail(docker.history, r) == StopTrail(old(docker.history), name, f)
    ensures docker.cleanups == old(docker.cleanups)
  {
    if name !in docker.containers {
      return Ok(());
    }
    var ok := docker.Stop(name, f.stop);
    if !ok {
      return Err(Unavailable);
    }
    ok := docker.Remove(name, f.remove);
    return if ok then Ok(()) else Err(Unavailable);
  }

  // ---- What the operations promise ---------------------------------------------------------------

  lemma InstallNameDiffers(name: string)
    ensures InstallContainerName(name) != name
  {
    assert |InstallContainerName(name)| == |name| + 8;
  }

  /** A refused call changes nothing, and a lost reply hides that the call took effect. */
  lemma LostRepliesTakeEffect(e: Engine, name: string)
    ensures CreateContainer(e, name, Refused) == (e, false) && StartContainer(e, name, Refused) == (e, false)
    ensures StopContainer(e, name, Refused) == (e, false) && RemoveContainer(e, name, Refused) == (e, name !in e)
    ensures forall reply | reply != Refused ::
              && CreateContainer(e, name, reply) == (if name in e then e else e[name := Stopped],
                                                     name !in e && reply == Done)
              && StartContainer(e, name, reply) == (if name in e then e[name := Running] else e,
                                                    name in e && reply == Done)
              && StopContainer(e, name, reply) == (if name in e then e[name := Stopped] else e,
                                                   name in e && reply == Done)
              && name !in RemoveContainer(e, name, reply).0 && (RemoveContainer(e, name, reply).1 <==>
                                                                name !in e || reply == Done)
  {
  }

  /** What a command run to its end says, and what it leaves of its container. */
  lemma CommandEnds(h: History, name: string, f: CommandFaults)
    requires |h| > 0
    ensures var t, e := CommandTrail(h, name, f), Now(h);
            var began := name !in e && f.image && f.create == Done && f.start == Done;
            && (t.r.Ok? <==> began && f.wait == ExitedZero)
            && (t.r == Err(CommandFailed) <==> began && (f.wait == ExitedNonZero || f.wait.TimesOut?))
            && t.r != Err(Unavailable)
            && (began ==>
                  Now(t.h)
                  == e[name := if f.wait == WaitFails || f.wait == TimesOut(Refused) then Running else Stopped])
            && (name in e ==> Now(t.h) == e)
  {
  }

  /**
   * A command's container that is left behind is scheduled for removal, except if the engine lost the reply to
   * its creation, or did not confirm its start.
   */
  lemma LeftBehindUnscheduledIff(h: History, name: string, f: CommandFaults)
    requires |h| > 0 && name !in Now(h)
    ensures name in Now(CommandTrail(h, name, f).h) && !Waits(Now(h), name, f) <==>
            f.image && (f.create == LostReply || (f.create == Done && f.start != Done))
  {
  }

  /** From a history to a longer one, everything about `other` stays as it last was. */
  predicate Untouched(h: History, t: History, other: string)
    requires 0 < |h| <= |t|
  {
    forall i | |h| <= i < |t| :: SameAt(t[i], Now(h), other)
  }

  lemma UntouchedTwice(h: History, t: History, u: History, other: string)
    requires |h| > 0 && h <= t <= u && Untouched(h, t, other) && Untouched(t, u, other)
    ensures Untouched(h, u, other)
  {
    assert forall i | 0 <= i < |t| :: u[i] == t[i];
  }

  lemma CommandTouchesOnly(h: History, name: string, f: CommandFaults, other: string)
    requires |h| > 0 && other != name
    ensures Untouched(h, CommandTrail(h, name, f).h, other)
  {
  }

  lemma LaunchTouchesOnly(h: History, name: string, f: StartFaults, other: string)
    requires |h| > 0 && other != name
    ensures Untouched(h, LaunchTrail(h, name, f).h, other)
  {
  }

  lemma LaunchSucceeds(h: History, name: string, f: StartFaults)
    requires |h| > 0
    ensures var t := LaunchTrail(h, name, f); t.r != Err(CommandFailed) && (t.r.Ok? ==> IsRunning(Now(t.h), name))
  {
  }

  lemma StartTouchesOnly(h: History, name: string, installs: bool, f: StartFaults, other: string)
    requires |h| > 0 && other != name && other != InstallContainerName(name)
    ensures Untouched(h, StartTrail(h, name, installs, f).h, other)
  {
    var installed := CommandTrail(h, InstallContainerName(name), f.install);
    CommandTouchesOnly(h, InstallContainerName(name), f.install, other);
    LaunchTouchesOnly(h, name, f, other);
    LaunchTouchesOnly(installed.h, name, f, other);
    UntouchedTwice(h, installed.h, LaunchTrail(installed.h, name, f).h, other);
  }

  /** Every reply a start can need to succeed. */
  predicate Cooperates(e: Engine, name: string, installs: bool, f: StartFaults) {
    f.inspects &&
    (IsRunning(e, name) ||
     (f.reinspects && f.start == Done &&
      (name in e ||
       (f.image && f.create == Done &&
        (installs ==>
           f.install.image && f.install.create == Done && f.install.start == Done && f.install.wait == ExitedZero)))))
  }

  /** The names a start needs are free: an install container left over from before blocks it. */
  predicate Unblocked(e: Engine, name: string, installs: bool) {
    name in e || !installs || InstallContainerName(name) !in e
  }

  /** A start succeeds exactly if every call it needs does and no install container is in its way. */
  lemma StartSucceedsIff(h: History, name: string, installs: bool, f: StartFaults)
    requires |h| > 0
    ensures StartTrail(h, name, installs, f).r.Ok? <==>
            Cooperates(Now(h), name, installs, f) && Unblocked(Now(h), name, installs)
  {
    InstallNameDiffers(name);
  }

  /** What a start that fails says: which error, exactly when. */
  lemma StartErrorsAre(h: History, name: string, installs: bool, f: StartFaults)
    requires |h| > 0
    ensures var r, e := StartTrail(h, name, installs, f).r, Now(h);
            && (r == Err(Unavailable) <==> !f.inspects || (!IsRunning(e, name) && !f.reinspects))
            && (r == Err(CommandFailed) <==>
                  && f.inspects && f.reinspects && name !in e && f.image && installs
                  && InstallContainerName(name) !in e && f.install.image
                  && f.install.create == Done && f.install.start == Done
                  && (f.install.wait == ExitedNonZero || f.install.wait.TimesOut?))
  {
    InstallNameDiffers(name);
    CommandEnds(h, InstallContainerName(name), f.install);
    LaunchSucceeds(h, name, f);
    LaunchSucceeds(CommandTrail(h, InstallContainerName(name), f.install).h, name, f);
    LaunchFails(h, name, f);
    LaunchFails(CommandTrail(h, InstallContainerName(name), f.install).h, name, f);
  }

  lemma LaunchFails(h: History, name: string, f: StartFaults)
    requires |h| > 0
    ensures LaunchTrail(h, name, f).r in {Ok(()), Err(StartFailed)}
  {
  }

  /** When stopping succeeds, and what it leaves of the container. */
  lemma StopEnds(h: History, name: string, f: StopFaults)
    requires |h| > 0
    ensures var t, e := StopTrail(h, name, f), Now(h);
            && (t.r.Ok? <==> name !in e || f == StopFaults(Done, Done)) && (t.r.Err? ==> t.r == Err(Unavailable))
            && (name in Now(t.h) <==> name in e && !(f.stop == Done && f.remove != Refused))
            && (IsRunning(Now(t.h), name) <==> IsRunning(e, name) && f.stop == Refused)
  {
  }

  /** A blocked start is unblocked by the delayed removal of the old install container, if that goes through. */
  lemma CleanupUnblocksIff(e: Engine, name: string, installs: bool, reply: EngineReply)
    requires !Unblocked(e, name, installs)
    ensures Unblocked(RemoveContainer(e, InstallContainerName(name), reply).0, name, installs) <==> reply != Refused
    ensures name !in RemoveContainer(e, InstallContainerName(name), reply).0
  {
  }

  const WORKS := StartFaults(true, true, true, CommandFaults(true, Done, Done, ExitedZero), Done, Done)

  /** What a start does when no call fails: all of it, or, if it is blocked, nothing. */
  lemma StartWithoutFaults(h: History, name: string, installs: bool)
    requires |h| > 0
    ensures var t, e := StartTrail(h, name, installs, WORKS), Now(h);
            && (t.r.Ok? <==> Unblocked(e, name, installs))
            && (t.r.Err? ==> Now(t.h) == e)
            && (t.r.Ok? ==>
                  Now(t.h) == if installs && name !in e then e[InstallContainerName(name) := Stopped][name := Running]
                              else e[name := Running])
  {
    InstallNameDiffers(name);
    StartSucceedsIff(h, name, installs, WORKS);
    assert IsRunning(Now(h), name) ==> Now(h)[name := Running] == Now(h);
  }

  /** Starting never takes a running container down, and only reports success with the container up. */
  lemma StartSucceeds(h: History, name: string, installs: bool, f: StartFaults)
    requires |h| > 0
    ensures var t := StartTrail(h, name, installs, f);
            && (IsRunning(Now(h), name) ==> t.h == h)
            && (t.r.Ok? ==> IsRunning(Now(t.h), name))
  {
    LaunchSucceeds(h, name, f);
    LaunchSucceeds(CommandTrail(h, InstallContainerName(name), f.install).h, name, f);
  }

  /** If installing fails, nothing of that name is ever there. */
  lemma FailedInstallLeavesNothing(h: History, name: string, installs: bool, f: StartFaults)
    requires |h| > 0 && StartTrail(h, name, installs, f).r == Err(CommandFailed)
    ensures name !in Now(h) && Untouched(h, StartTrail(h, name, installs, f).h, name)
  {
    InstallNameDiffers(name);
    LaunchSucceeds(h, name, f);
    LaunchSucceeds(CommandTrail(h, InstallContainerName(name), f.install).h, name, f);
    CommandTouchesOnly(h, InstallContainerName(name), f.install, name);
  }

  /** Stopping touches only the container named, and reports success only when it is gone. */
  lemma StopIsSafe(h: History, name: string, f: StopFaults, other: string)
    requires |h| > 0
    ensures var t := StopTrail(h, name, f);
            && (other != name ==> Untouched(h, t.h, other))
            && (t.r.Ok? ==> name !in Now(t.h))
            && (t.r.Err? ==> name in Now(h))
  {
  }

  /** Once up, starting again is a success that changes nothing; once gone, so is stopping again. */
  lemma RepeatingIsHarmless(h: History, name: string, installs: bool, f: StartFaults, g: StartFaults, p: StopFaults,
      q: StopFaults)
    requires |h| > 0
    ensures var up := StartTrail(h, name, installs, f);
            up.r.Ok? && g.inspects ==> StartTrail(up.h, name, installs, g) == up
    ensures var down := StopTrail(h, name, p);
            down.r.Ok? ==> StopTrail(down.h, name, q) == down
  {
    StartSucceeds(h, name, installs, f);
    StopIsSafe(h, name, p, name);
  }
}
