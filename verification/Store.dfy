/**
 * The deployment store: rows in the database, directories on disk, one write lock, and any number of
 * requests in flight. Every directory operation, row operation and transaction, and every acquire and
 * release of the lock, is a step of its own; a crash can fall between any two of them.
 */
module Store {
  import opened Wrappers

  type Uuid = nat

  /** An id as a client spells it. `canonical` says the text is exactly what `Uuid::to_string` prints. */
  datatype IdText = Garbage | Spelled(uuid: Uuid, canonical: bool)

  datatype Status = Pending | Ready | Failed

  datatype AppRow = AppRow(name: string, git: bool, active: Option<Uuid>)

  datatype DeploymentRow = DeploymentRow(app: Uuid, status: Status, gitInfo: bool)

  datatype Db = Db(apps: map<Uuid, AppRow>, deployments: map<Uuid, DeploymentRow>)

  /** The directories `apps/<a>`, the directories `apps/<a>/deployments/<d>` as pairs, and the entries of `tmp/`. */
  datatype Disk = Disk(apps: set<Uuid>, deployments: set<(Uuid, Uuid)>, tmp: set<nat>)

  /** What `set_deployment_status` and `finish_git_deployment` write into a row. */
  datatype Change = ToReady | ToFailed | RecordGit

  /**
   * Where one request has got to. A request creates at most one id and one temporary path, and both
   * are fresh, so its own number stands for either.
   */
  datatype Task =
    // create_app
    | AppLock(name: string, git: bool)
    | AppCheck(name: string, git: bool)
    | AppStage(name: string, git: bool)
    | AppStageInner(name: string, git: bool)
    | AppPlace(name: string, git: bool)
    | AppUnstage
    | AppInsert(name: string, git: bool)
    // delete_app
    | GoneLock(app: IdText)
    | GoneFind(app: IdText)
    | GoneCommit(a: Uuid)
    | GoneMove(a: Uuid)
    | GoneRemove
    // create_deployment
    | UpStage(app: IdText)
    | UpDiscard
    | UpLock(app: IdText)
    | UpFind(app: IdText)
    | UpMove(app: IdText, a: Uuid)
    | UpUnstage
    | UpInsert(app: IdText, a: Uuid)
    | UpUndo(a: Uuid)
    | UpUnlock(app: IdText)
    // create_pending_git_deployment
    | PendLock(app: IdText)
    | PendFind(app: IdText)
    | PendCheck(a: Uuid)
    | PendMkdir(a: Uuid)
    | PendInsert(a: Uuid)
    // set_deployment_status, finish_git_deployment
    | EditFindApp(app: IdText, dep: IdText, change: Change)
    | EditFindDep(a: Uuid, dep: IdText, change: Change)
    | EditRow(d: Uuid, change: Change)
    // activate_deployment
    | ActLock(app: IdText, dep: IdText)
    | ActFindApp(app: IdText, dep: IdText)
    | ActFindDep(a: Uuid, dep: IdText)
    | ActUpdate(a: Uuid, d: Uuid)
    // delete_deployment
    | DelLock(app: IdText, dep: IdText)
    | DelFindApp(app: IdText, dep: IdText)
    | DelFindDep(a: Uuid, dep: IdText)
    | DelRow(a: Uuid, d: Uuid, dep: IdText)
    | DelUnlock(a: Uuid, dep: IdText)
    | DelMove(a: Uuid, dep: IdText)
    | DelRemove
    // the end of every locked section that has nothing more to do
    | Unlock

  predicate Initial(task: Task) {
    task.AppLock? || task.GoneLock? || task.UpStage? || task.PendLock?
    || task.EditFindApp? || task.ActLock? || task.DelLock?
  }

  predicate Acquires(task: Task) {
    task.AppLock? || task.GoneLock? || task.UpLock? || task.PendLock? || task.ActLock? || task.DelLock?
  }

  predicate Releases(task: Task) {
    task.Unlock? || task.UpUnlock? || task.DelUnlock?
  }

  /** The steps taken while holding the write lock, its release included. */
  predicate Critical(task: Task) {
    !Acquires(task) && !task.UpStage? && !task.UpDiscard?
    && !task.EditFindApp? && !task.EditFindDep? && !task.EditRow? && !task.DelMove? && !task.DelRemove?
  }

  predicate FindsApp(db: Db, app: IdText) {
    app.Spelled? && app.uuid in db.apps
  }

  predicate FindsDeployment(db: Db, a: Uuid, dep: IdText) {
    dep.Spelled? && dep.uuid in db.deployments && db.deployments[dep.uuid].app == a
  }

  predicate HasPending(db: Db, a: Uuid) {
    exists d | d in db.deployments :: db.deployments[d].app == a && db.deployments[d].status == Pending
  }

  function WithoutApp(db: Db, a: Uuid): Db {
    Db(db.apps - {a}, map d | d in db.deployments && db.deployments[d].app != a :: db.deployments[d])
  }

  function RemoveAppDir(disk: Disk, a: Uuid): Disk {
    disk.(apps := disk.apps - {a}, deployments := set p | p in disk.deployments && p.0 != a)
  }

  function Edited(row: DeploymentRow, change: Change): DeploymentRow {
    match change
    case ToReady => row.(status := Ready)
    case ToFailed => row.(status := Failed)
    case RecordGit => row.(gitInfo := true)
  }

  /** What is left after one step of a request; `next` is `None` once it has returned. */
  datatype After = After(db: Db, disk: Disk, next: Option<Task>)

  /** One step of request `t`. `ok` is whether the operation the step performs succeeds. */
  function Act(db: Db, disk: Disk, t: nat, task: Task, ok: bool): After {
    match task
    case AppLock(name, git) => After(db, disk, Some(AppCheck(name, git)))
    case AppCheck(name, git) =>
      var free := forall a | a in db.apps :: db.apps[a].name != name;
      After(db, disk, Some(if ok && free then AppStage(name, git) else Unlock))
    case AppStage(name, git) =>
      if ok
      then After(db, disk.(tmp := disk.tmp + {t}), Some(AppStageInner(name, git)))
      else After(db, disk, Some(Unlock))
    case AppStageInner(name, git) => After(db, disk, Some(if ok then AppPlace(name, git) else Unlock))
    case AppPlace(name, git) =>
      if ok then After(db, disk.(tmp := disk.tmp - {t}, apps := disk.apps + {t}), Some(AppInsert(name, git)))
      else After(db, disk, Some(AppUnstage))
    case AppUnstage => After(db, if ok then disk.(tmp := disk.tmp - {t}) else disk, Some(Unlock))
    case AppInsert(name, git) =>
      After(if ok then db.(apps := db.apps[t := AppRow(name, git, None)]) else db, disk, Some(Unlock))

    case GoneLock(app) => After(db, disk, Some(GoneFind(app)))
    case GoneFind(app) => After(db, disk, Some(if ok && FindsApp(db, app) then GoneCommit(app.uuid) else Unlock))
    case GoneCommit(a) =>
      if ok then After(WithoutApp(db, a), disk, Some(GoneMove(a))) else After(db, disk, Some(Unlock))
    case GoneMove(a) =>
      if ok && a in disk.apps
      then After(db, RemoveAppDir(disk, a).(tmp := disk.tmp + {t}), Some(GoneRemove))
      else After(db, disk, Some(Unlock))
    case GoneRemove => After(db, if ok then disk.(tmp := disk.tmp - {t}) else disk, Some(Unlock))

    case UpStage(app) => After(db, disk.(tmp := disk.tmp + {t}), Some(if ok then UpLock(app) else UpDiscard))
    case UpDiscard => After(db, if ok then disk.(tmp := disk.tmp - {t}) else disk, None)
    case UpLock(app) => After(db, disk, Some(UpFind(app)))
    case UpFind(app) => After(db, disk, Some(if ok && FindsApp(db, app) then UpMove(app, app.uuid) else UpUnstage))
    case UpMove(app, a) =>
      if ok && a in disk.apps
      then After(db, disk.(tmp := disk.tmp - {t}, deployments := disk.deployments + {(a, t)}), Some(UpInsert(app, a)))
      else After(db, disk, Some(UpUnstage))
    case UpUnstage => After(db, if ok then disk.(tmp := disk.tmp - {t}) else disk, Some(Unlock))
    case UpInsert(app, a) =>
      if ok
      then After(db.(deployments := db.deployments[t := DeploymentRow(a, Ready, false)]), disk, Some(UpUnlock(app)))
      else After(db, disk, Some(UpUndo(a)))
    case UpUndo(a) => After(db, if ok then disk.(deployments := disk.deployments - {(a, t)}) else disk, Some(Unlock))
    case UpUnlock(app) => After(db, disk, Some(ActLock(app, Spelled(t, true))))

    case PendLock(app) => After(db, disk, Some(PendFind(app)))
    case PendFind(app) =>
      After(db, disk, Some(if ok && FindsApp(db, app) && db.apps[app.uuid].git then PendCheck(app.uuid) else Unlock))
    case PendCheck(a) => After(db, disk, Some(if ok && !HasPending(db, a) then PendMkdir(a) else Unlock))
    case PendMkdir(a) =>
      if ok && a in disk.apps
      then After(db, disk.(deployments := disk.deployments + {(a, t)}), Some(PendInsert(a)))
      else After(db, disk, Some(Unlock))
    case PendInsert(a) =>
      After(if ok then db.(deployments := db.deployments[t := DeploymentRow(a, Pending, false)]) else db,
            disk, Some(Unlock))

    case EditFindApp(app, dep, change) =>
      After(db, disk, if ok && FindsApp(db, app) then Some(EditFindDep(app.uuid, dep, change)) else None)
    case EditFindDep(a, dep, change) =>
      After(db, disk, if ok && FindsDeployment(db, a, dep) then Some(EditRow(dep.uuid, change)) else None)
    case EditRow(d, change) =>
      After(if ok && d in db.deployments
            then db.(deployments := db.deployments[d := Edited(db.deployments[d], change)])
            else db,
            disk, None)

    case ActLock(app, dep) => After(db, disk, Some(ActFindApp(app, dep)))
    case ActFindApp(app, dep) =>
      After(db, disk, Some(if ok && FindsApp(db, app) then ActFindDep(app.uuid, dep) else Unlock))
    case ActFindDep(a, dep) =>
      After(db, disk, Some(if ok && FindsDeployment(db, a, dep) then ActUpdate(a, dep.uuid) else Unlock))
    case ActUpdate(a, d) =>
      After(if ok && a in db.apps then db.(apps := db.apps[a := db.apps[a].(active := Some(d))]) else db,
            disk, Some(Unlock))

    case DelLock(app, dep) => After(db, disk, Some(DelFindApp(app, dep)))
    case DelFindApp(app, dep) =>
      After(db, disk, Some(
        if ok && FindsApp(db, app) && !IsActiveText(db, app.uuid, dep) then DelFindDep(app.uuid, dep) else Unlock))
    case DelFindDep(a, dep) =>
      After(db, disk, Some(if ok && FindsDeployment(db, a, dep) then DelRow(a, dep.uuid, dep) else Unlock))
    case DelRow(a, d, dep) =>
      if ok then After(db.(deployments := db.deployments - {d}), disk, Some(DelUnlock(a, dep)))
      else After(db, disk, Some(Unlock))
    case DelUnlock(a, dep) => After(db, disk, Some(DelMove(a, dep)))
    case DelMove(a, dep) =>
      // The path is built from the text, so only a canonical spelling names a directory.
      if ok && dep.Spelled? && dep.canonical && (a, dep.uuid) in disk.deployments
      then After(db, disk.(deployments := disk.deployments - {(a, dep.uuid)}, tmp := disk.tmp + {t}), Some(DelRemove))
      else After(db, disk, None)
    case DelRemove => After(db, if ok then disk.(tmp := disk.tmp - {t}) else disk, None)

    case Unlock => After(db, disk, None)
  }

  /** The active id printed as text equals the text given. */
  predicate IsActiveText(db: Db, a: Uuid, dep: IdText)
    requires a in db.apps
  {
    dep.Spelled? && dep.canonical && db.apps[a].active == Some(dep.uuid)
  }

  datatype Mode = Starting | Serving

  datatype System = System(db: Db, disk: Disk, mode: Mode, lock: Option<nat>, tasks: map<nat, Task>, next: nat)

  datatype Label =
    | Spawn(task: Task)
    | Advance(t: nat, ok: bool)
    | Crash
    // startup
    | SweepTmp
    | SweepDeployment(a: Uuid, d: Uuid)
    | SweepApp(a: Uuid)
    | Serve

  predicate BackedApp(db: Db, a: Uuid) {
    a in db.apps
  }

  predicate BackedDeployment(db: Db, a: Uuid, d: Uuid) {
    d in db.deployments && db.deployments[d].app == a
  }

  /** The directories are exactly the rows', and nothing is left in `tmp/`. */
  predicate Clean(db: Db, disk: Disk) {
    && disk.tmp == {}
    && disk.apps == db.apps.Keys
    && disk.deployments == set d | d in db.deployments :: (db.deployments[d].app, d)
  }

  function Init(): System {
    System(Db(map[], map[]), Disk({}, {}, {}), Starting, None, map[], 0)
  }

  predicate Enabled(s: System, l: Label) {
    match l
    case Spawn(task) => s.mode == Serving && Initial(task)
    case Advance(t, _) => t in s.tasks && (Acquires(s.tasks[t]) ==> s.lock == None)
    case Crash => true
    case SweepTmp => s.mode == Starting
    case SweepDeployment(a, d) =>
      s.mode == Starting && (a, d) in s.disk.deployments && (!BackedApp(s.db, a) || !BackedDeployment(s.db, a, d))
    case SweepApp(a) => s.mode == Starting && a in s.disk.apps && !BackedApp(s.db, a)
    case Serve => s.mode == Starting && Clean(s.db, s.disk)
  }

  function Step(s: System, l: Label): System
    requires Enabled(s, l)
  {
    match l
    case Spawn(task) => s.(tasks := s.tasks[s.next := task], next := s.next + 1)
    case Advance(t, ok) =>
      var task := s.tasks[t];
      var after := Act(s.db, s.disk, t, task, ok);
      s.(db := after.db, disk := after.disk,
         lock := if Acquires(task) then Some(t) else if Releases(task) then None else s.lock,
         tasks := if after.next.Some? then s.tasks[t := after.next.value] else s.tasks - {t})
    case Crash => s.(mode := Starting, lock := None, tasks := map[])
    case SweepTmp => s.(disk := s.disk.(tmp := {}))
    case SweepDeployment(a, d) => s.(disk := s.disk.(deployments := s.disk.deployments - {(a, d)}))
    case SweepApp(a) => s.(disk := RemoveAppDir(s.disk, a))
    case Serve => s.(mode := Serving)
  }

  /** The state after taking every label of `ls` in turn, or `None` if one of them is not enabled. */
  function Run(s: System, ls: seq<Label>): Option<System> {
    if |ls| == 0 then Some(s) else
    match Run(s, ls[..|ls|-1])
    case None => None
    case Some(u) => if Enabled(u, ls[|ls|-1]) then Some(Step(u, ls[|ls|-1])) else None
  }
}
