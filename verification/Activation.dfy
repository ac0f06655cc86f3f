/**
 * Activating a deployment: for an app that runs, the new container comes up before the old one is touched,
 * and the pointer moves last. Ids are text, as clients spell them; rows are keyed by their canonical form.
 */
module Activation {
  import opened Wrappers
  import opened Containers

  /** Length of a canonical id (section 4 of RFC 9562). */
  const UUID_TEXT_LENGTH: nat := 36

  /** Turns text into the canonical text of the id it spells. */
  type Parser = string -> Option<string>

  predicate Canonical(parse: Parser, text: string) {
    parse(text) == Some(text)
  }

  datatype App = App(runs: bool, installs: bool, active: Option<string>)

  datatype Deployment = Deployment(app: string, container: Option<string>)

  datatype World = World(apps: map<string, App>, deployments: map<string, Deployment>)

  function ContainerName(app: string, deployment: string): string {
    "berth-" + app + "-" + deployment
  }

  /** How a request to the agent ends for the hub: it may never have been sent, or its reply may be lost. */
  datatype Rpc = Delivered | NotSent | ReplyLost

  /** What goes wrong along the way; `updates` and the `reads` are the database's. */
  datatype ActivateFaults = ActivateFaults(
    decrypts: bool, startRpc: Rpc, start: StartFaults,
    readsActive: bool, readsPrevious: bool, stopRpc: Rpc, stop: StopFaults,
    updates: bool)

  datatype ActivateError = AppNotFound | DeploymentNotFound | NoContainerName | CorruptData | NotStarted | Db

  predicate Knows(parse: Parser, w: World, app: string) {
    parse(app).Some? && parse(app).value in w.apps
  }

  predicate Has(parse: Parser, w: World, app: string, dep: string) {
    && Knows(parse, w, app) && parse(dep).Some?
    && parse(dep).value in w.deployments && w.deployments[parse(dep).value].app == parse(app).value
  }

  /** What the request to start does to the engine, and whether the hub hears of success. */
  function Starting(h: History, name: string, installs: bool, f: ActivateFaults): (s: (History, bool))
    requires |h| > 0
    ensures h <= s.0
  {
    if f.startRpc == NotSent then (h, false)
    else
      var t := StartTrail(h, name, installs, f.start);
      (t.h, f.startRpc == Delivered && t.r.Ok?)
  }

  /** The container to take down: the active deployment's, unless its id is the very text given. */
  function Previous(parse: Parser, w: World, app: string, dep: string, f: ActivateFaults): Option<string>
    requires Knows(parse, w, app)
  {
    var active := w.apps[parse(app).value].active;
    if !f.readsActive || active.None? || active.value == dep then None
    else if !f.readsPrevious || !Has(parse, w, app, active.value) then None
    else w.deployments[parse(active.value).value].container
  }

  function Stopping(h: History, previous: Option<string>, f: ActivateFaults): (t: History)
    requires |h| > 0
    ensures h <= t
  {
    if previous.None? || f.stopRpc == NotSent then h else StopTrail(h, previous.value, f.stop).h
  }

  /** Moving the pointer, when the deployment is still there. */
  function Flipped(parse: Parser, w: World, app: string, dep: string, f: ActivateFaults)
    : (map<string, App>, Result<(), ActivateError>)
  {
    if !Knows(parse, w, app) then (w.apps, Err(AppNotFound))
    else if !Has(parse, w, app, dep) then (w.apps, Err(DeploymentNotFound))
    else if !f.updates then (w.apps, Err(Db))
    else (w.apps[parse(app).value := w.apps[parse(app).value].(active := parse(dep))], Ok(()))
  }

  /** The new container up, then the previous one down. */
  function Swap(h: History, name: string, installs: bool, previous: Option<string>, f: ActivateFaults)
    : (s: (History, bool))
    requires |h| > 0
    ensures h <= s.0
  {
    var (up, started) := Starting(h, name, installs, f);
    if started then (Stopping(up, previous, f), true) else (up, false)
  }

  /** What an activation makes of the engine's history and of the pointers, and its result. */
  datatype Activated = Activated(h: History, apps: map<string, App>, r: Result<(), ActivateError>)

  function Activate(parse: Parser, w: World, h: History, app: string, dep: string, f: ActivateFaults): (done: Activated)
    requires |h| > 0
    ensures h <= done.h
    ensures done.r.Err? ==> done.apps == w.apps
    ensures Knows(parse, w, app) && !w.apps[parse(app).value].runs ==> done.h == h
  {
    if !Knows(parse, w, app) then Activated(h, w.apps, Err(AppNotFound))
    else if !w.apps[parse(app).value].runs then
      Activated(h, Flipped(parse, w, app, dep, f).0, Flipped(parse, w, app, dep, f).1)
    else if !Has(parse, w, app, dep) then Activated(h, w.apps, Err(DeploymentNotFound))
    else
      var name := w.deployments[parse(dep).value].container;
      if name.None? then Activated(h, w.apps, Err(NoContainerName))
      else if !f.decrypts then Activated(h, w.apps, Err(CorruptData))
      else
        var previous, installs := Previous(parse, w, app, dep, f), w.apps[parse(app).value].installs;
        var (after, started) := Swap(h, name.value, installs, previous, f);
        if !started then Activated(after, w.apps, Err(NotStarted))
        else Activated(after, Flipped(parse, w, app, dep, f).0, Flipped(parse, w, app, dep, f).1)
  }

  // ---- The object ---------------------------------------------------------------------------------

  class Hub {
    const parse: Parser
    const docker: Docker
    const deployments: map<string, Deployment>
    var apps: map<string, App>

    constructor (parse: Parser, docker: Docker, w: World)
      ensures this.parse == parse && this.docker == docker && View() == w
    {
      this.parse, this.docker, this.deployments, this.apps := parse, docker, w.deployments, w.apps;
    }

    function View(): World
      reads this
    {
      World(apps, deployments)
    }

    method ActivateDeployment(app: string, dep: string, f: ActivateFaults) returns (r: Result<(), ActivateError>)
      modifies this
      ensures (apps, r) == Flipped(parse, old(View()), app, dep, f)
    {
      var a, d := parse(app), parse(dep);
      if a.None? || a.value !in apps {
        return Err(AppNotFound);
      }
      if d.None? || d.value !in deployments || deployments[d.value].app != a.value {
        return Err(DeploymentNotFound);
      }
      if !f.updates {
        return Err(Db);
      }
      apps := apps[a.value := apps[a.value].(active := d)];
      return Ok(());
    }

    /** Asks the agent to start the container; a request that is not sent or not answered is a failure. */
    method StartNew(name: string, installs: bool, f: ActivateFaults) returns (ok: bool)
      requires docker.Valid()
      modifies docker
      ensures docker.Valid() && (docker.history, ok) == Starting(old(docker.history), name, installs, f)
    {
      if f.startRpc == NotSent {
        return false;
      }
      var started := StartRunContainer(docker, name, installs, f.start);
      ok := started.Ok? && f.startRpc == Delivered;
    }

    /** Takes the previously active deployment's container down; failing at it is only worth a warning. */
    method StopPrevious(app: string, dep: string, f: ActivateFaults)
      requires docker.Valid() && Knows(parse, View(), app)
      modifies docker
      ensures docker.Valid() && docker.history == Stopping(old(docker.history), Previous(parse, View(), app, dep, f), f)
    {
      var active := apps[parse(app).value].active;
      if !f.readsActive || active.None? || active.value == dep {
        return;
      }
      var d := parse(active.value);
      if !f.readsPrevious || d.None? || d.value !in deployments || deployments[d.value].app != parse(app).value {
        return;
      }
      var container := deployments[d.value].container;
      if container.Some? && f.stopRpc != NotSent {
        var _ := StopAndRemove(docker, container.value, f.stop);
      }
    }

    method ActivateWithContainers(app: string, dep: string, f: ActivateFaults) returns (r: Result<(), ActivateError>)
      requires docker.Valid()
      modifies this, docker
      ensures docker.Valid()
      ensures Activated(docker.history, apps, r) == Activate(parse, old(View()), old(docker.history), app, dep, f)
    {
      var a := parse(app);
      if a.None? || a.value !in apps {
        return Err(AppNotFound);
      }
      if apps[a.value].runs {
        var d := parse(dep);
        if d.None? || d.value !in deployments || deployments[d.value].app != a.value {
          return Err(DeploymentNotFound);
        }
        var name := deployments[d.value].container;
        if name.None? {
          return Err(NoContainerName);
        }
        if !f.decrypts {
          return Err(CorruptData);
        }
        var started := StartNew(name.value, apps[a.value].installs, f);
        if !started {
          return Err(NotStarted);
        }
        StopPrevious(app, dep, f);
      }
      r := ActivateDeployment(app, dep, f);
    }
  }

  // ---- Names ----------------------------------------------------------------------------------------

  /** Container names are told apart by app and deployment, and no run container has an install container's name. */
  lemma NamesAreDistinct(a: string, d: string, b: string, c: string)
    requires |a| == |b| == |d| == |c| == UUID_TEXT_LENGTH
    ensures ContainerName(a, d) == ContainerName(b, c) <==> a == b && d == c
    ensures ContainerName(a, d) != InstallContainerName(ContainerName(b, c))
  {
    var x, y := ContainerName(a, d), ContainerName(b, c);
    assert x[6..6 + UUID_TEXT_LENGTH] == a && x[7 + UUID_TEXT_LENGTH..] == d;
    assert y[6..6 + UUID_TEXT_LENGTH] == b && y[7 + UUID_TEXT_LENGTH..] == c;
    assert |InstallContainerName(y)| == |y| + 8;
  }

  /** Rows are keyed by canonical ids, pointers hold them, and a container is named after its deployment. */
  predicate NamesOk(parse: Parser, w: World) {
    && (forall a | a in w.apps ::
          |a| == UUID_TEXT_LENGTH && (w.apps[a].active.Some? ==> Canonical(parse, w.apps[a].active.value)))
    && (forall d | d in w.deployments ::
          && |d| == UUID_TEXT_LENGTH && |w.deployments[d].app| == UUID_TEXT_LENGTH && Canonical(parse, d)
          && (w.deployments[d].container.Some? ==>
                w.deployments[d].container.value == ContainerName(w.deployments[d].app, d)))
  }

  /** The container of a deployment of an app. */
  predicate Serves(w: World, a: string, d: string, name: string) {
    a in w.apps && d in w.deployments && w.deployments[d].app == a && w.deployments[d].container == Some(name)
  }

  lemma ContainersDiffer(parse: Parser, w: World, a: string, d: string, n: string, b: string, c: string, m: string)
    requires NamesOk(parse, w) && Serves(w, a, d, n) && Serves(w, b, c, m)
    ensures n == m <==> a == b && d == c
    ensures n != InstallContainerName(m)
  {
    NamesAreDistinct(a, d, b, c);
  }

  // ---- Starting and stopping ---------------------------------------------------------------------

  lemma StartingIsSafe(h: History, name: string, installs: bool, f: ActivateFaults, other: string)
    requires |h| > 0
    ensures var (up, ok) := Starting(h, name, installs, f);
            && (other != name && other != InstallContainerName(name) ==> Untouched(h, up, other))
            && (IsRunning(Now(h), name) ==> up == h)
            && (ok ==> IsRunning(Now(up), name))
  {
    if f.startRpc != NotSent {
      StartSucceeds(h, name, installs, f.start);
      if other != name && other != InstallContainerName(name) {
        StartTouchesOnly(h, name, installs, f.start, other);
      }
    }
  }

  lemma StoppingIsSafe(h: History, previous: Option<string>, f: ActivateFaults, other: string)
    requires |h| > 0 && previous != Some(other)
    ensures Untouched(h, Stopping(h, previous, f), other)
  {
    if previous.Some? && f.stopRpc != NotSent {
      StopIsSafe(h, previous.value, f.stop, other);
    }
  }

  /** A swap that gets past its start ends with the new container up, unless that is what it then takes down. */
  lemma SwapEnds(h: History, name: string, installs: bool, previous: Option<string>, f: ActivateFaults)
    requires |h| > 0 && Swap(h, name, installs, previous, f).1
    ensures IsRunning(Now(Swap(h, name, installs, previous, f).0), name) <==>
            !(previous == Some(name) && f.stopRpc != NotSent && f.stop.stop != Refused)
  {
    var up := Starting(h, name, installs, f).0;
    StartingIsSafe(h, name, installs, f, name);
    if previous != Some(name) {
      StoppingIsSafe(up, previous, f, name);
    }
  }

  /** From a history to a longer one, one of the two containers is always up. */
  predicate OneIsUp(h: History, t: History, n: string, m: string) {
    forall i | |h| <= i < |t| :: IsRunning(t[i], n) || IsRunning(t[i], m)
  }

  lemma SwapKeepsOneUp(h: History, name: string, installs: bool, previous: Option<string>, f: ActivateFaults,
      last: string)
    requires |h| > 0 && IsRunning(Now(h), last) && last != InstallContainerName(name) && previous != Some(name)
    ensures OneIsUp(h, Swap(h, name, installs, previous, f).0, last, name)
  {
    var (up, ok) := Starting(h, name, installs, f);
    StartingIsSafe(h, name, installs, f, last);
    if ok {
      StoppingIsSafe(up, previous, f, name);
    }
  }

  // ---- Theorems --------------------------------------------------------------------------------------

  /** An activation that gets as far as its container. */
  predicate Reaches(parse: Parser, w: World, app: string, dep: string, name: string, f: ActivateFaults) {
    && Has(parse, w, app, dep) && w.apps[parse(app).value].runs && f.decrypts
    && w.deployments[parse(dep).value].container == Some(name)
  }

  /** For every app, with or without a container: success moves the one pointer, and nothing else ever does. */
  lemma SuccessMovesThePointer(parse: Parser, w: World, h: History, app: string, dep: string, f: ActivateFaults)
    requires |h| > 0
    ensures var done := Activate(parse, w, h, app, dep, f);
            && (done.r.Ok? ==>
                  && parse(app).Some? && parse(app).value in w.apps
                  && parse(dep).Some? && parse(dep).value in w.deployments
                  && w.deployments[parse(dep).value].app == parse(app).value
                  && done.apps == w.apps[parse(app).value := w.apps[parse(app).value].(active := parse(dep))])
            && (done.r.Err? ==> done.apps == w.apps)
  {
  }

  /** What the start of an activation needs: the name, the variables, the request, and all that the engine is asked. */
  predicate ComesUp(w: World, d: string, e: Engine, f: ActivateFaults)
    requires d in w.deployments && w.deployments[d].app in w.apps
  {
    var name, installs := w.deployments[d].container, w.apps[w.deployments[d].app].installs;
    && name.Some? && f.decrypts && f.startRpc == Delivered
    && Cooperates(e, name.value, installs, f.start) && Unblocked(e, name.value, installs)
  }

  /** Which answer an activation gives: exactly when it succeeds, and what each error says. */
  lemma ActivationAnswers(parse: Parser, w: World, h: History, app: string, dep: string, f: ActivateFaults)
    requires |h| > 0
    ensures var r := Activate(parse, w, h, app, dep, f).r;
            && (r == Err(AppNotFound) <==> !Knows(parse, w, app))
            && (r == Err(DeploymentNotFound) <==> Knows(parse, w, app) && !Has(parse, w, app, dep))
            && (Has(parse, w, app, dep) ==>
                  var a, d := w.apps[parse(app).value], parse(dep).value;
                  && (r.Ok? <==> f.updates && (a.runs ==> ComesUp(w, d, Now(h), f)))
                  && (r == Err(NoContainerName) <==> a.runs && w.deployments[d].container == None)
                  && (r == Err(CorruptData) <==> a.runs && w.deployments[d].container.Some? && !f.decrypts)
                  && (r == Err(Db) <==> !f.updates && (a.runs ==> ComesUp(w, d, Now(h), f)))
                  && (!a.runs ==> Activate(parse, w, h, app, dep, f).h == h))
  {
    if Has(parse, w, app, dep) && w.deployments[parse(dep).value].container.Some? {
      StartSucceedsIff(h, w.deployments[parse(dep).value].container.value, w.apps[parse(app).value].installs, f.start);
    }
  }

  /** A failed start leaves the pointer where it was and every other container as it was, at every step. */
  lemma FailedStartChangesNothingElse(parse: Parser, w: World, h: History, app: string, dep: string, f: ActivateFaults,
                                      name: string, other: string)
    requires |h| > 0 && Reaches(parse, w, app, dep, name, f)
    requires !Starting(h, name, w.apps[parse(app).value].installs, f).1
    requires other != name && other != InstallContainerName(name)
    ensures var done := Activate(parse, w, h, app, dep, f);
            done.r == Err(NotStarted) && done.apps == w.apps && Untouched(h, done.h, other)
  {
    StartingIsSafe(h, name, w.apps[parse(app).value].installs, f, other);
  }

  /** Spelled otherwise, the id of the active deployment gets its own container taken down. */
  predicate TakesItselfDown(parse: Parser, w: World, app: string, dep: string)
    requires Knows(parse, w, app)
  {
    parse(dep).Some? && w.apps[parse(app).value].active == parse(dep) && !Canonical(parse, dep)
  }

  lemma PreviousIsItselfIff(parse: Parser, w: World, app: string, dep: string, f: ActivateFaults, name: string)
    requires NamesOk(parse, w) && Reaches(parse, w, app, dep, name, f)
    ensures Previous(parse, w, app, dep, f) == Some(name) <==>
            TakesItselfDown(parse, w, app, dep) && f.readsActive && f.readsPrevious
  {
    var active := w.apps[parse(app).value].active;
    if Previous(parse, w, app, dep, f) == Some(name) {
      ContainersDiffer(parse, w, parse(app).value, parse(dep).value, name, parse(app).value, active.value, name);
    }
  }

  /** Success moves the pointer, and with a canonical id the new container is up at the end. */
  lemma SuccessServesTheNew(parse: Parser, w: World, h: History, app: string, dep: string, f: ActivateFaults,
      name: string)
    requires |h| > 0 && NamesOk(parse, w) && Reaches(parse, w, app, dep, name, f) && Canonical(parse, dep)
    requires Activate(parse, w, h, app, dep, f).r.Ok?
    ensures var done := Activate(parse, w, h, app, dep, f);
            && IsRunning(Now(done.h), name)
            && done.apps == w.apps[parse(app).value := w.apps[parse(app).value].(active := Some(dep))]
  {
    PreviousIsItselfIff(parse, w, app, dep, f, name);
    SwapEnds(h, name, w.apps[parse(app).value].installs, Previous(parse, w, app, dep, f), f);
  }

  /**
   * An activation with a canonical id never drops both containers: if the container of some deployment of
   * the app, such as the active one, was running, then at every step that one or the new one is.
   */
  lemma NeverBothDown(parse: Parser, w: World, h: History, app: string, dep: string, f: ActivateFaults, name: string,
                      last: string, lastName: string)
    requires |h| > 0 && NamesOk(parse, w) && Reaches(parse, w, app, dep, name, f) && Canonical(parse, dep)
    requires Serves(w, parse(app).value, last, lastName) && IsRunning(Now(h), lastName)
    ensures OneIsUp(h, Activate(parse, w, h, app, dep, f).h, lastName, name)
  {
    PreviousIsItselfIff(parse, w, app, dep, f, name);
    ContainersDiffer(parse, w, parse(app).value, last, lastName, parse(app).value, dep, name);
    SwapKeepsOneUp(h, name, w.apps[parse(app).value].installs, Previous(parse, w, app, dep, f), f, lastName);
  }

  /**
   * A successful activation leaves the new container running, whatever goes wrong on the way - if and only
   * if it does not re-activate the active deployment under another spelling of its id, or one of the reads
   * or the request that would then stop the container fails before it has that effect.
   */
  lemma SuccessServesTheNewIff(parse: Parser, w: World, h: History, app: string, dep: string, f: ActivateFaults,
      name: string)
    requires |h| > 0 && NamesOk(parse, w) && Reaches(parse, w, app, dep, name, f)
    requires Activate(parse, w, h, app, dep, f).r.Ok?
    ensures IsRunning(Now(Activate(parse, w, h, app, dep, f).h), name) <==>
            !(TakesItselfDown(parse, w, app, dep)
              && f.readsActive && f.readsPrevious && f.stopRpc != NotSent && f.stop.stop != Refused)
  {
    PreviousIsItselfIff(parse, w, app, dep, f, name);
    SwapEnds(h, name, w.apps[parse(app).value].installs, Previous(parse, w, app, dep, f), f);
  }

  /**
   * After a success, the container that the app was served from is gone - exactly if the two reads and the
   * stop succeed as far as it takes.
   */
  lemma SuccessStopsThePrevious(parse: Parser, w: World, h: History, app: string, dep: string, f: ActivateFaults,
      name: string, last: string, lastName: string)
    requires |h| > 0 && NamesOk(parse, w) && Reaches(parse, w, app, dep, name, f)
    requires Activate(parse, w, h, app, dep, f).r.Ok?
    requires w.apps[parse(app).value].active == Some(last) && last != dep && parse(dep) != Some(last)
    requires Serves(w, parse(app).value, last, lastName) && lastName in Now(h)
    ensures lastName !in Now(Activate(parse, w, h, app, dep, f).h) <==>
            f.readsActive && f.readsPrevious && f.stopRpc != NotSent && f.stop.stop == Done && f.stop.remove != Refused
  {
    ContainersDiffer(parse, w, parse(app).value, parse(dep).value, name, parse(app).value, last, lastName);
    ContainersDiffer(parse, w, parse(app).value, last, lastName, parse(app).value, parse(dep).value, name);
    var up := Starting(h, name, w.apps[parse(app).value].installs, f).0;
    StartingIsSafe(h, name, w.apps[parse(app).value].installs, f, lastName);
    UntouchedNow(h, up, lastName);
  }

  lemma UntouchedNow(h: History, t: History, other: string)
    requires 0 < |h| && h <= t && Untouched(h, t, other)
    ensures SameAt(Now(t), Now(h), other)
  {
  }

  /** A caller that spells the active deployment's id otherwise is told "ok" and left with nothing running. */
  lemma ReactivatingCanTakeItselfDown(parse: Parser, a: string, d: string, spelled: string)
    requires |a| == |d| == UUID_TEXT_LENGTH && Canonical(parse, a) && Canonical(parse, d)
    requires parse(spelled) == Some(d) && spelled != d
    ensures var name := ContainerName(a, d);
            var w := World(map[a := App(true, false, Some(d))], map[d := Deployment(a, Some(name))]);
            var f := ActivateFaults(true, Delivered, WORKS, true, true, Delivered, StopFaults(Done, Done), true);
            var done := Activate(parse, w, [map[name := Running]], a, spelled, f);
            done.r.Ok? && name !in Now(done.h)
  {
    var name := ContainerName(a, d);
    StopIsSafe([map[name := Running]], name, StopFaults(Done, Done), name);
  }
}
