/**
 * Deleting a deployment that may have a container: first the row and the hub's directory, then the
 * container and the agent's directory. The row is found by the id, the directories by the text given.
 */
module Deletion {
  import opened Wrappers
  import opened Containers
  import opened Activation
  import AgentFs
  import Store
  import Storages

  datatype DeleteError = AppMissing | DeploymentMissing | DeleteActiveDeployment | Failed

  /** What the agent manages of removing a directory: there is a `tmp/`, it moves there, and it goes from there. */
  datatype DirFaults = DirFaults(tmp: bool, moves: bool, removes: bool)

  const ALL_GOES: DirFaults := DirFaults(true, true, true)

  /**
   * What goes wrong: deleting the row, moving the hub's directory away and removing it from there, and the
   * two requests to the agent with what comes of them.
   */
  datatype DeleteFaults = DeleteFaults(
    deletes: bool, moves: bool, clears: bool, stopRpc: Rpc, stop: StopFaults, dirRpc: Rpc, dir: DirFaults)

  /** The hub's rows and deployment directories, and the agent's directories. */
  datatype Estate = Estate(w: World, hubDirs: set<(string, string)>, agentDirs: set<string>)

  datatype Deleted = Deleted(e: Estate, h: History, r: Result<(), DeleteError>)

  predicate IsActive(parse: Parser, w: World, app: string, dep: string) {
    Knows(parse, w, app) && w.apps[parse(app).value].active == Some(dep)
  }

  function ContainerOf(parse: Parser, w: World, app: string, dep: string): Option<string> {
    if Has(parse, w, app, dep) then w.deployments[parse(dep).value].container else None
  }

  /** The part on the hub. */
  function DeleteOnHub(parse: Parser, e: Estate, app: string, dep: string, f: DeleteFaults)
    : (Estate, Result<(), DeleteError>)
  {
    var w := e.w;
    if !Knows(parse, w, app) then (e, Err(AppMissing))
    else if IsActive(parse, w, app, dep) then (e, Err(DeleteActiveDeployment))
    else if !Has(parse, w, app, dep) then (e, Err(DeploymentMissing))
    else if !f.deletes then (e, Err(Failed))
    else
      var rowGone := e.(w := w.(deployments := w.deployments - {parse(dep).value}));
      if (parse(app).value, dep) !in e.hubDirs then (rowGone, Err(DeploymentMissing))
      else if !f.moves then (rowGone, Err(Failed))
      else (rowGone.(hubDirs := e.hubDirs - {(parse(app).value, dep)}), if f.clears then Ok(()) else Err(Failed))
  }

  /** The agent's half of removing a directory: what is left of its directories, and whether it reports success. */
  function DirRemoved(dirs: set<string>, dep: string, d: DirFaults): (set<string>, bool) {
    (if d.tmp && d.moves then dirs - {dep} else dirs, d.tmp && (dep !in dirs || (d.moves && d.removes)))
  }

  /** The requests to the agent; a request that is not sent or whose reply is lost ends the deletion. */
  function DeleteOnAgent(e: Estate, h: History, name: string, dep: string, f: DeleteFaults): (done: Deleted)
    requires |h| > 0
    ensures h <= done.h
  {
    if f.stopRpc == NotSent then Deleted(e, h, Err(Failed))
    else
      var t := StopTrail(h, name, f.stop);
      if f.stopRpc == ReplyLost || t.r.Err? then Deleted(e, t.h, Err(Failed))
      else if f.dirRpc == NotSent then Deleted(e, t.h, Err(Failed))
      else
        var (dirs, gone) := DirRemoved(e.agentDirs, dep, f.dir);
        Deleted(e.(agentDirs := dirs), t.h, if gone && f.dirRpc == Delivered then Ok(()) else Err(Failed))
  }

  function Delete(parse: Parser, e: Estate, h: History, app: string, dep: string, f: DeleteFaults): (done: Deleted)
    requires |h| > 0
    ensures h <= done.h
  {
    var name := ContainerOf(parse, e.w, app, dep);
    var (rest, r) := DeleteOnHub(parse, e, app, dep, f);
    if r.Err? || name.None? then Deleted(rest, h, r) else DeleteOnAgent(rest, h, name.value, dep, f)
  }

  /** What the agent's own model makes of the request. */
  method RemoveOnAgent(dirs: set<string>, dep: string, d: DirFaults) returns (left: set<string>, gone: bool)
    ensures (left, gone) == DirRemoved(dirs, dep, d)
  {
    var agent := new AgentFs.AgentStore();
    agent.deployments := map name | name in dirs :: None;
    assert agent.deployments.Keys == dirs;
    gone := agent.DeleteDeploymentDir(dep, d.tmp, d.moves, d.removes);
    left := agent.deployments.Keys;
    assert left == if d.tmp && d.moves then dirs - {dep} else dirs;
  }

  // ---- The object ---------------------------------------------------------------------------------

  class Hub {
    const parse: Parser
    const docker: Docker
    const apps: map<string, App>
    var deployments: map<string, Deployment>
    var hubDirs: set<(string, string)>
    var agentDirs: set<string>

    constructor (parse: Parser, docker: Docker, e: Estate)
      ensures this.parse == parse && this.docker == docker && View() == e
    {
      this.parse, this.docker, apps := parse, docker, e.w.apps;
      deployments, hubDirs, agentDirs := e.w.deployments, e.hubDirs, e.agentDirs;
    }

    function View(): Estate
      reads this
    {
      Estate(World(apps, deployments), hubDirs, agentDirs)
    }

    method DeleteDeployment(app: string, dep: string, f: DeleteFaults) returns (r: Result<(), DeleteError>)
      modifies this
      ensures (View(), r) == DeleteOnHub(parse, old(View()), app, dep, f)
    {
      var a, d := parse(app), parse(dep);
      if a.None? || a.value !in apps {
        return Err(AppMissing);
      }
      if apps[a.value].active == Some(dep) {
        return Err(DeleteActiveDeployment);
      }
      if d.None? || d.value !in deployments || deployments[d.value].app != a.value {
        return Err(DeploymentMissing);
      }
      if !f.deletes {
        return Err(Failed);
      }
      deployments := deployments - {d.value};
      if (a.value, dep) !in hubDirs {
        return Err(DeploymentMissing);
      }
      if !f.moves {
        return Err(Failed);
      }
      hubDirs := hubDirs - {(a.value, dep)};
      if !f.clears {
        return Err(Failed);
      }
      return Ok(());
    }

    method DeleteDeploymentWithContainers(app: string, dep: string, f: DeleteFaults)
      returns (r: Result<(), DeleteError>)
      requires docker.Valid()
      modifies this, docker
      ensures docker.Valid()
      ensures Deleted(View(), docker.history, r) == Delete(parse, old(View()), old(docker.history), app, dep, f)
    {
      var a, d := parse(app), parse(dep);
      if a.None? || a.value !in apps {
        return Err(AppMissing);
      }
      var name := None;
      if d.Some? && d.value in deployments && deployments[d.value].app == a.value {
        name := deployments[d.value].container;
      }
      r := DeleteDeployment(app, dep, f);
      if r.Err? || name.None? {
        return;
      }
      if f.stopRpc == NotSent {
        return Err(Failed);
      }
      var stopped := StopAndRemove(docker, name.value, f.stop);
      if f.stopRpc == ReplyLost || stopped.Err? || f.dirRpc == NotSent {
        return Err(Failed);
      }
      var gone;
      agentDirs, gone := RemoveOnAgent(agentDirs, dep, f.dir);
      return if gone && f.dirRpc == Delivered then Ok(()) else Err(Failed);
    }
  }

  // ---- Theorems --------------------------------------------------------------------------------------

  /** Directories are named after rows' ids, that is canonically, and pointers name existing deployments. */
  ghost predicate EstateOk(parse: Parser, e: Estate) {
    && NamesOk(parse, e.w)
    && (forall p | p in e.hubDirs :: Canonical(parse, p.1))
    && (forall a | a in e.w.apps && e.w.apps[a].active.Some? ::
          e.w.apps[a].active.value in e.w.deployments && e.w.deployments[e.w.apps[a].active.value].app == a)
  }

  /** A success leaves no row, no container and no directory of the deployment, on either side. */
  lemma SuccessLeavesNothing(parse: Parser, e: Estate, h: History, app: string, dep: string, f: DeleteFaults)
    requires |h| > 0 && EstateOk(parse, e) && Delete(parse, e, h, app, dep, f).r.Ok?
    ensures var done := Delete(parse, e, h, app, dep, f);
            && Has(parse, e.w, app, dep) && Canonical(parse, dep) && !IsActive(parse, e.w, app, dep)
            && done.e.w == e.w.(deployments := e.w.deployments - {dep})
            && done.e.hubDirs == e.hubDirs - {(parse(app).value, dep)}
            && (e.w.deployments[dep].container.Some? ==>
                  && e.w.deployments[dep].container.value !in Now(done.h)
                  && done.e.agentDirs == e.agentDirs - {dep})
  {
    assert (parse(app).value, dep) in e.hubDirs;
    if ContainerOf(parse, e.w, app, dep).Some? {
      StopIsSafe(h, ContainerOf(parse, e.w, app, dep).value, f.stop, "");
    }
  }

  /** However a deletion ends, the active deployment's container is left alone, and so is every other one. */
  lemma OnlyItsOwnContainerIsTouched(parse: Parser, e: Estate, h: History, app: string, dep: string, f: DeleteFaults,
      other: string)
    requires |h| > 0 && EstateOk(parse, e)
    requires ContainerOf(parse, e.w, app, dep) != Some(other)
             || (Knows(parse, e.w, app) && e.w.apps[parse(app).value].active == parse(dep))
    ensures Untouched(h, Delete(parse, e, h, app, dep, f).h, other)
  {
    var name := ContainerOf(parse, e.w, app, dep);
    if name.Some? && DeleteOnHub(parse, e, app, dep, f).1.Ok? {
      assert (parse(app).value, dep) in e.hubDirs;
      StopIsSafe(h, name.value, f.stop, other);
    }
  }

  /** What a deletion that fails says: which error, exactly when. */
  lemma DeletionErrorsAre(parse: Parser, e: Estate, h: History, app: string, dep: string, f: DeleteFaults)
    requires |h| > 0
    ensures var r := Delete(parse, e, h, app, dep, f).r;
            && (r == Err(AppMissing) <==> parse(app).None? || parse(app).value !in e.w.apps)
            && (r == Err(DeleteActiveDeployment) <==>
                  parse(app).Some? && parse(app).value in e.w.apps && e.w.apps[parse(app).value].active == Some(dep))
            && (r == Err(DeploymentMissing) <==>
                  && parse(app).Some? && parse(app).value in e.w.apps && e.w.apps[parse(app).value].active != Some(dep)
                  && (!Has(parse, e.w, app, dep) || (f.deletes && (parse(app).value, dep) !in e.hubDirs)))
  {
  }

  /** A refusal by the guard, or for want of a row, changes nothing. */
  lemma RefusalChangesNothing(parse: Parser, e: Estate, h: History, app: string, dep: string, f: DeleteFaults)
    requires |h| > 0 && (IsActive(parse, e.w, app, dep) || !Has(parse, e.w, app, dep))
    ensures var done := Delete(parse, e, h, app, dep, f); done.r.Err? && done.e == e && done.h == h
  {
  }

  /**
   * Exactly when a deletion leaves no container behind: the row goes as soon as its own deletion succeeds,
   * the container only if the id is spelled canonically, the hub's directory can be moved and removed, and
   * the agent gets the request and carries it out.
   */
  lemma ContainerGoesIff(parse: Parser, e: Estate, h: History, app: string, dep: string, f: DeleteFaults, name: string)
    requires |h| > 0 && EstateOk(parse, e) && Has(parse, e.w, app, dep) && name in Now(h)
    requires e.w.deployments[parse(dep).value].container == Some(name)
    requires !IsActive(parse, e.w, app, dep) && (parse(app).value, parse(dep).value) in e.hubDirs
    ensures var done := Delete(parse, e, h, app, dep, f);
            && (parse(dep).value !in done.e.w.deployments <==> f.deletes)
            && (name !in Now(done.h) <==>
                  && Canonical(parse, dep) && f.deletes && f.moves && f.clears
                  && f.stopRpc != NotSent && f.stop.stop == Done && f.stop.remove != Refused)
            && (done.r.Ok? <==>
                  && Canonical(parse, dep) && f.deletes && f.moves && f.clears
                  && f.stopRpc == Delivered && f.stop == StopFaults(Done, Done)
                  && f.dirRpc == Delivered && f.dir.tmp && (dep !in e.agentDirs || (f.dir.moves && f.dir.removes)))
            && (forall d | d in e.agentDirs ::
                  d !in done.e.agentDirs <==>
                  && d == dep && Canonical(parse, dep) && f.deletes && f.moves && f.clears
                  && f.stopRpc == Delivered && f.stop == StopFaults(Done, Done)
                  && f.dirRpc != NotSent && f.dir.tmp && f.dir.moves)
            && (forall p | p in e.hubDirs ::
                  p !in done.e.hubDirs <==>
                  p == (parse(app).value, dep) && Canonical(parse, dep) && f.deletes && f.moves)
  {
    if (parse(app).value, dep) in e.hubDirs {
      assert Canonical(parse, dep);
    }
  }

  /** The same for a deployment that has no container: its row, its directory on the hub, and the answer. */
  lemma DirectoryGoesIff(parse: Parser, e: Estate, h: History, app: string, dep: string, f: DeleteFaults)
    requires |h| > 0 && EstateOk(parse, e) && Has(parse, e.w, app, dep)
    requires e.w.deployments[parse(dep).value].container == None
    requires !IsActive(parse, e.w, app, dep) && (parse(app).value, parse(dep).value) in e.hubDirs
    ensures var done := Delete(parse, e, h, app, dep, f);
            && done.h == h && done.e.agentDirs == e.agentDirs
            && (parse(dep).value !in done.e.w.deployments <==> f.deletes)
            && ((parse(app).value, parse(dep).value) !in done.e.hubDirs <==>
                  Canonical(parse, dep) && f.deletes && f.moves)
            && (done.r.Ok? <==> Canonical(parse, dep) && f.deletes && f.moves && f.clears)
  {
    if (parse(app).value, dep) in e.hubDirs {
      assert Canonical(parse, dep);
    }
  }

  /** Once the row is gone there is no second chance: every retry is refused and changes nothing. */
  lemma RetryingFindsNothing(parse: Parser, e: Estate, h: History, app: string, dep: string, f: DeleteFaults,
      g: DeleteFaults)
    requires |h| > 0 && Has(parse, e.w, app, dep) && !IsActive(parse, e.w, app, dep) && f.deletes
    ensures var done := Delete(parse, e, h, app, dep, f);
            Delete(parse, done.e, done.h, app, dep, g) == Deleted(done.e, done.h, Err(DeploymentMissing))
  {
  }

  /** The agent is not connected when a deployment with a running container is deleted: the container is stranded. */
  lemma DeletionWithoutAgentStrandsTheContainer(parse: Parser, a: string, d: string)
    requires |a| == |d| == UUID_TEXT_LENGTH && Canonical(parse, a) && Canonical(parse, d)
    ensures var name := ContainerName(a, d);
            var w := World(map[a := App(true, false, None)], map[d := Deployment(a, Some(name))]);
            var e := Estate(w, {(a, d)}, {d});
            var f := DeleteFaults(true, true, true, NotSent, StopFaults(Done, Done), NotSent, ALL_GOES);
            var done := Delete(parse, e, [map[name := Running]], a, d, f);
            && EstateOk(parse, e) && done.r == Err(Failed)
            && done.e.w.deployments == map[] && IsRunning(Now(done.h), name)
  {
  }

  /** One app with an old deployment still running: deleting it by another spelling of its id strands its container. */
  lemma DeletionCanStrandAContainer(parse: Parser, a: string, d: string, spelled: string)
    requires |a| == |d| == UUID_TEXT_LENGTH && Canonical(parse, a) && Canonical(parse, d)
    requires parse(spelled) == Some(d) && spelled != d
    ensures var name := ContainerName(a, d);
            var w := World(map[a := App(true, false, None)], map[d := Deployment(a, Some(name))]);
            var e := Estate(w, {(a, d)}, {d});
            var f := DeleteFaults(true, true, true, Delivered, StopFaults(Done, Done), Delivered, ALL_GOES);
            var done := Delete(parse, e, [map[name := Running]], a, spelled, f);
            && EstateOk(parse, e) && done.r == Err(DeploymentMissing)
            && done.e.w.deployments == map[] && IsRunning(Now(done.h), name)
  {
  }

  // ---- The same deletion in the store ----------------------------------------------------------------

  /** A text id as the store sees it, given a numbering of ids. */
  function AsId(parse: Parser, number: string -> Store.Uuid, text: string): Store.IdText {
    if parse(text).None? then Store.Garbage else Store.Spelled(number(parse(text).value), Canonical(parse, text))
  }

  function NumberOf(number: string -> Store.Uuid, id: Option<string>): Option<Store.Uuid> {
    if id.Some? then Some(number(id.value)) else None
  }

  /** Rows keyed by text and rows keyed by number say the same. */
  ghost predicate SameRows(number: string -> Store.Uuid, w: World, db: Store.Db) {
    && (forall a: string :: a in w.apps <==> number(a) in db.apps)
    && (forall a | a in w.apps :: db.apps[number(a)].active == NumberOf(number, w.apps[a].active))
    && (forall d: string :: d in w.deployments <==> number(d) in db.deployments)
    && (forall d | d in w.deployments :: db.deployments[number(d)].app == number(w.deployments[d].app))
  }

  ghost predicate Injective(number: string -> Store.Uuid) {
    forall x, y :: number(x) == number(y) ==> x == y
  }

  lemma LookupsAgree(parse: Parser, number: string -> Store.Uuid, w: World, db: Store.Db, app: string, dep: string)
    requires Injective(number) && SameRows(number, w, db)
    ensures Knows(parse, w, app) <==> Store.FindsApp(db, AsId(parse, number, app))
    ensures Knows(parse, w, app) ==>
              (Has(parse, w, app, dep) <==>
               Store.FindsDeployment(db, number(parse(app).value), AsId(parse, number, dep)))
  {
  }

  lemma GuardsAgree(parse: Parser, number: string -> Store.Uuid, w: World, db: Store.Db, app: string, dep: string)
    requires NamesOk(parse, w) && Injective(number) && SameRows(number, w, db) && Knows(parse, w, app)
    ensures number(parse(app).value) in db.apps
    ensures IsActive(parse, w, app, dep) <==> Store.IsActiveText(db, number(parse(app).value), AsId(parse, number, dep))
  {
    if w.apps[parse(app).value].active.Some? && parse(dep).Some? {
      assert number(w.apps[parse(app).value].active.value) == number(parse(dep).value) <==>
             w.apps[parse(app).value].active.value == parse(dep).value;
    }
  }

  lemma RowGoesFromBoth(number: string -> Store.Uuid, w: World, db: Store.Db, d: string)
    requires Injective(number) && SameRows(number, w, db)
    ensures SameRows(number, w.(deployments := w.deployments - {d}), db.(deployments := db.deployments - {number(d)}))
  {
  }

  /** Deleting by text here is deleting by id in the store: the same rows go. */
  lemma DeletionsAgree(parse: Parser, number: string -> Store.Uuid, e: Estate, db: Store.Db, app: string, dep: string,
      f: DeleteFaults)
    requires NamesOk(parse, e.w) && Injective(number) && SameRows(number, e.w, db) && f.deletes
    ensures SameRows(number, DeleteOnHub(parse, e, app, dep, f).0.w,
                     Storages.AfterDelete(db, AsId(parse, number, app), AsId(parse, number, dep)))
  {
    LookupsAgree(parse, number, e.w, db, app, dep);
    if Knows(parse, e.w, app) {
      GuardsAgree(parse, number, e.w, db, app, dep);
      if Has(parse, e.w, app, dep) {
        RowGoesFromBoth(number, e.w, db, parse(dep).value);
      }
    }
  }
}
