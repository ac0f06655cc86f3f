/**
 * What each request of the store does when it runs to its end with nothing failing and nothing in between, from
 * any reachable state of a hub that serves and whose lock is free. And that startup gets through.
 */
module StoreRequests {
  import opened Wrappers
  import opened Store
  import opened StoreProofs
  import opened Storages

  // ---- Running alone ------------------------------------------------------------------------------

  /** How many steps of a request are still to come, at most. */
  function Left(task: Task): nat {
    match task
    case AppLock(_, _) => 7
    case AppCheck(_, _) => 6
    case AppStage(_, _) => 5
    case AppStageInner(_, _) => 4
    case AppPlace(_, _) => 3
    case AppUnstage => 2
    case AppInsert(_, _) => 2
    case GoneLock(_) => 6
    case GoneFind(_) => 5
    case GoneCommit(_) => 4
    case GoneMove(_) => 3
    case GoneRemove => 2
    case UpStage(_) => 12
    case UpDiscard => 1
    case UpLock(_) => 11
    case UpFind(_) => 10
    case UpMove(_, _) => 9
    case UpUnstage => 2
    case UpInsert(_, _) => 8
    case UpUndo(_) => 2
    case UpUnlock(_) => 7
    case PendLock(_) => 6
    case PendFind(_) => 5
    case PendCheck(_) => 4
    case PendMkdir(_) => 3
    case PendInsert(_) => 2
    case EditFindApp(_, _, _) => 3
    case EditFindDep(_, _, _) => 2
    case EditRow(_, _) => 1
    case ActLock(_, _) => 6
    case ActFindApp(_, _) => 5
    case ActFindDep(_, _) => 4
    case ActUpdate(_, _) => 3
    case DelLock(_, _) => 7
    case DelFindApp(_, _) => 6
    case DelFindDep(_, _) => 5
    case DelRow(_, _, _) => 4
    case DelUnlock(_, _) => 3
    case DelMove(_, _) => 2
    case DelRemove => 1
    case Unlock => 1
  }

  lemma CreatingRunsOut(db: Db, disk: Disk, t: nat, task: Task, ok: bool)
    requires Creating(task)
    ensures var next := Act(db, disk, t, task, ok).next; next.Some? ==> Left(next.value) < Left(task)
  {
  }

  lemma OtherRunsOut(db: Db, disk: Disk, t: nat, task: Task, ok: bool)
    requires !Creating(task)
    ensures var next := Act(db, disk, t, task, ok).next; next.Some? ==> Left(next.value) < Left(task)
  {
  }

  /** Every request comes to an end, whatever fails. */
  lemma StepsRunOut(db: Db, disk: Disk, t: nat, task: Task, ok: bool)
    ensures var next := Act(db, disk, t, task, ok).next; next.Some? ==> Left(next.value) < Left(task)
  {
    if Creating(task) {
      CreatingRunsOut(db, disk, t, task, ok);
    } else {
      OtherRunsOut(db, disk, t, task, ok);
    }
  }

  /** Every step goes well, except perhaps the one named. */
  predicate GoesWell(task: Task, bad: Option<Task>) {
    bad != Some(task)
  }

  /** What request `t` leaves, run from `task` to its end with nothing in between and no failure but `bad`. */
  function Alone(db: Db, disk: Disk, t: nat, task: Task, bad: Option<Task>): (Db, Disk)
    decreases Left(task)
  {
    var after := Act(db, disk, t, task, GoesWell(task, bad));
    StepsRunOut(db, disk, t, task, GoesWell(task, bad));
    if after.next.None? then (after.db, after.disk) else Alone(after.db, after.disk, t, after.next.value, bad)
  }

  lemma Then(db: Db, disk: Disk, t: nat, task: Task, bad: Option<Task>, more: Db, left: Disk, next: Task)
    requires Act(db, disk, t, task, GoesWell(task, bad)) == After(more, left, Some(next))
    ensures Alone(db, disk, t, task, bad) == Alone(more, left, t, next, bad)
  {
  }

  lemma Finally(db: Db, disk: Disk, t: nat, task: Task, bad: Option<Task>, more: Db, left: Disk)
    requires Act(db, disk, t, task, GoesWell(task, bad)) in {After(more, left, None), After(more, left, Some(Unlock))}
    ensures Alone(db, disk, t, task, bad) == (more, left)
  {
    assert Alone(more, left, t, Unlock, bad) == (more, left);
  }

  // ---- Requests one by one ------------------------------------------------------------------------

  lemma ClaimAndPlace(db: Db, disk: Disk, t: nat, name: string, git: bool)
    requires t !in disk.tmp
    ensures Alone(db, disk, t, AppStage(name, git), None)
            == (db.(apps := db.apps[t := AppRow(name, git, None)]), disk.(apps := disk.apps + {t}))
  {
    var staged, placed := disk.(tmp := disk.tmp + {t}), disk.(apps := disk.apps + {t});
    Then(db, disk, t, AppStage(name, git), None, db, staged, AppStageInner(name, git));
    Then(db, staged, t, AppStageInner(name, git), None, db, staged, AppPlace(name, git));
    assert staged.tmp - {t} == disk.tmp;
    Then(db, staged, t, AppPlace(name, git), None, db, placed, AppInsert(name, git));
    Finally(db, placed, t, AppInsert(name, git), None, db.(apps := db.apps[t := AppRow(name, git, None)]), placed);
  }

  /** Creating an app adds its row and its directory, if the name is free. */
  lemma CreateAppAlone(db: Db, disk: Disk, t: nat, name: string, git: bool)
    requires t !in disk.tmp
    ensures Alone(db, disk, t, AppLock(name, git), None)
            == if forall a | a in db.apps :: db.apps[a].name != name
               then (db.(apps := db.apps[t := AppRow(name, git, None)]), disk.(apps := disk.apps + {t}))
               else (db, disk)
  {
    Then(db, disk, t, AppLock(name, git), None, db, disk, AppCheck(name, git));
    if forall a | a in db.apps :: db.apps[a].name != name {
      Then(db, disk, t, AppCheck(name, git), None, db, disk, AppStage(name, git));
      ClaimAndPlace(db, disk, t, name, git);
    } else {
      Finally(db, disk, t, AppCheck(name, git), None, db, disk);
    }
  }

  lemma CommitAndRemove(db: Db, disk: Disk, t: nat, a: Uuid)
    requires t !in disk.tmp && a in disk.apps
    ensures Alone(db, disk, t, GoneCommit(a), None) == (WithoutApp(db, a), RemoveAppDir(disk, a))
  {
    var gone := RemoveAppDir(disk, a);
    Then(db, disk, t, GoneCommit(a), None, WithoutApp(db, a), disk, GoneMove(a));
    Then(WithoutApp(db, a), disk, t, GoneMove(a), None, WithoutApp(db, a), gone.(tmp := disk.tmp + {t}), GoneRemove);
    assert disk.tmp + {t} - {t} == disk.tmp;
    Finally(WithoutApp(db, a), gone.(tmp := disk.tmp + {t}), t, GoneRemove, None, WithoutApp(db, a), gone);
  }

  /** Deleting an app takes its row, the rows of its deployments, and its directory with all in it. */
  lemma DeleteAppAlone(db: Db, disk: Disk, t: nat, app: IdText)
    requires t !in disk.tmp && (app.Spelled? && app.uuid in db.apps ==> app.uuid in disk.apps)
    ensures Alone(db, disk, t, GoneLock(app), None)
            == if app.Spelled? && app.uuid in db.apps
               then (Db(db.apps - {app.uuid},
                        (map d | d in db.deployments && db.deployments[d].app != app.uuid :: db.deployments[d])),
                     Disk(disk.apps - {app.uuid}, (set p | p in disk.deployments && p.0 != app.uuid), disk.tmp))
               else (db, disk)
  {
    Then(db, disk, t, GoneLock(app), None, db, disk, GoneFind(app));
    if FindsApp(db, app) {
      Then(db, disk, t, GoneFind(app), None, db, disk, GoneCommit(app.uuid));
      CommitAndRemove(db, disk, t, app.uuid);
    } else {
      Finally(db, disk, t, GoneFind(app), None, db, disk);
    }
  }

  function Pointed(db: Db, a: Uuid, d: Uuid): Db
    requires a in db.apps
  {
    db.(apps := db.apps[a := db.apps[a].(active := Some(d))])
  }

  lemma FindAndPoint(db: Db, disk: Disk, t: nat, a: Uuid, dep: IdText)
    requires a in db.apps
    ensures Alone(db, disk, t, ActFindDep(a, dep), None)
            == (if FindsDeployment(db, a, dep) then Pointed(db, a, dep.uuid) else db, disk)
  {
    if FindsDeployment(db, a, dep) {
      Then(db, disk, t, ActFindDep(a, dep), None, db, disk, ActUpdate(a, dep.uuid));
      Finally(db, disk, t, ActUpdate(a, dep.uuid), None, Pointed(db, a, dep.uuid), disk);
    } else {
      Finally(db, disk, t, ActFindDep(a, dep), None, db, disk);
    }
  }

  /** Activating moves the one pointer, if there is such a deployment, and else does nothing. */
  lemma ActivateAlone(db: Db, disk: Disk, t: nat, app: IdText, dep: IdText)
    ensures Alone(db, disk, t, ActLock(app, dep), None)
            == (if && app.Spelled? && app.uuid in db.apps
                   && dep.Spelled? && dep.uuid in db.deployments && db.deployments[dep.uuid].app == app.uuid
                then db.(apps := db.apps[app.uuid := db.apps[app.uuid].(active := Some(dep.uuid))])
                else db, disk)
  {
    Then(db, disk, t, ActLock(app, dep), None, db, disk, ActFindApp(app, dep));
    if FindsApp(db, app) {
      Then(db, disk, t, ActFindApp(app, dep), None, db, disk, ActFindDep(app.uuid, dep));
      FindAndPoint(db, disk, t, app.uuid, dep);
    } else {
      Finally(db, disk, t, ActFindApp(app, dep), None, db, disk);
    }
  }

  lemma MoveAndInsert(db: Db, disk: Disk, t: nat, app: IdText, a: Uuid)
    requires t !in disk.tmp && a in disk.apps
    ensures Alone(db, disk.(tmp := disk.tmp + {t}), t, UpMove(app, a), None)
            == Alone(db.(deployments := db.deployments[t := DeploymentRow(a, Ready, false)]),
                     disk.(deployments := disk.deployments + {(a, t)}), t, ActLock(app, Spelled(t, true)), None)
  {
    var staged, placed := disk.(tmp := disk.tmp + {t}), disk.(deployments := disk.deployments + {(a, t)});
    var added := db.(deployments := db.deployments[t := DeploymentRow(a, Ready, false)]);
    assert staged.tmp - {t} == disk.tmp;
    Then(db, staged, t, UpMove(app, a), None, db, placed, UpInsert(app, a));
    Then(db, placed, t, UpInsert(app, a), None, added, placed, UpUnlock(app));
    Then(added, placed, t, UpUnlock(app), None, added, placed, ActLock(app, Spelled(t, true)));
  }

  /** An upload adds a ready deployment with its directory, and makes it the active one. */
  lemma UploadAlone(db: Db, disk: Disk, t: nat, app: IdText)
    requires t !in disk.tmp && (app.Spelled? && app.uuid in db.apps ==> app.uuid in disk.apps)
    ensures Alone(db, disk, t, UpStage(app), None)
            == if app.Spelled? && app.uuid in db.apps
               then (Db(db.apps[app.uuid := db.apps[app.uuid].(active := Some(t))],
                        db.deployments[t := DeploymentRow(app.uuid, Ready, false)]),
                     disk.(deployments := disk.deployments + {(app.uuid, t)}))
               else (db, disk)
  {
    var staged := disk.(tmp := disk.tmp + {t});
    Then(db, disk, t, UpStage(app), None, db, staged, UpLock(app));
    Then(db, staged, t, UpLock(app), None, db, staged, UpFind(app));
    if FindsApp(db, app) {
      UploadFinds(db, disk, t, app);
    } else {
      UploadFindsNothing(db, disk, t, app);
    }
  }

  lemma UploadFindsNothing(db: Db, disk: Disk, t: nat, app: IdText)
    requires t !in disk.tmp && !FindsApp(db, app)
    ensures Alone(db, disk.(tmp := disk.tmp + {t}), t, UpFind(app), None) == (db, disk)
  {
    var staged := disk.(tmp := disk.tmp + {t});
    Then(db, staged, t, UpFind(app), None, db, staged, UpUnstage);
    assert staged.tmp - {t} == disk.tmp;
    Finally(db, staged, t, UpUnstage, None, db, disk);
  }

  lemma UploadFinds(db: Db, disk: Disk, t: nat, app: IdText)
    requires t !in disk.tmp && FindsApp(db, app) && app.uuid in disk.apps
    ensures Alone(db, disk.(tmp := disk.tmp + {t}), t, UpFind(app), None)
            == (Db(db.apps[app.uuid := db.apps[app.uuid].(active := Some(t))],
                   db.deployments[t := DeploymentRow(app.uuid, Ready, false)]),
                disk.(deployments := disk.deployments + {(app.uuid, t)}))
  {
    var staged := disk.(tmp := disk.tmp + {t});
    Then(db, staged, t, UpFind(app), None, db, staged, UpMove(app, app.uuid));
    MoveAndInsert(db, disk, t, app, app.uuid);
    ActivateAlone(db.(deployments := db.deployments[t := DeploymentRow(app.uuid, Ready, false)]),
                  disk.(deployments := disk.deployments + {(app.uuid, t)}), t, app, Spelled(t, true));
  }

  lemma CheckAndInsert(db: Db, disk: Disk, t: nat, a: Uuid)
    requires a in disk.apps
    ensures Alone(db, disk, t, PendCheck(a), None)
            == if exists d | d in db.deployments :: db.deployments[d].app == a && db.deployments[d].status == Pending
               then (db, disk)
               else (db.(deployments := db.deployments[t := DeploymentRow(a, Pending, false)]),
                     disk.(deployments := disk.deployments + {(a, t)}))
  {
    if HasPending(db, a) {
      Finally(db, disk, t, PendCheck(a), None, db, disk);
    } else {
      var placed := disk.(deployments := disk.deployments + {(a, t)});
      Then(db, disk, t, PendCheck(a), None, db, disk, PendMkdir(a));
      Then(db, disk, t, PendMkdir(a), None, db, placed, PendInsert(a));
      Finally(db, placed, t, PendInsert(a), None,
              db.(deployments := db.deployments[t := DeploymentRow(a, Pending, false)]), placed);
    }
  }

  /** A pending deployment is created for an app that is deployed from git and has none. */
  lemma CreatePendingAlone(db: Db, disk: Disk, t: nat, app: IdText)
    requires app.Spelled? && app.uuid in db.apps ==> app.uuid in disk.apps
    ensures Alone(db, disk, t, PendLock(app), None)
            == if && app.Spelled? && app.uuid in db.apps && db.apps[app.uuid].git
                  && !(exists d | d in db.deployments ::
                         db.deployments[d].app == app.uuid && db.deployments[d].status == Pending)
               then (db.(deployments := db.deployments[t := DeploymentRow(app.uuid, Pending, false)]),
                     disk.(deployments := disk.deployments + {(app.uuid, t)}))
               else (db, disk)
  {
    Then(db, disk, t, PendLock(app), None, db, disk, PendFind(app));
    if FindsApp(db, app) && db.apps[app.uuid].git {
      Then(db, disk, t, PendFind(app), None, db, disk, PendCheck(app.uuid));
      CheckAndInsert(db, disk, t, app.uuid);
    } else {
      Finally(db, disk, t, PendFind(app), None, db, disk);
    }
  }

  /** The row that a change leaves. */
  predicate IsChanged(row: DeploymentRow, now: DeploymentRow, change: Change) {
    && now.app == row.app
    && (change == ToReady ==> now.status == Ready && now.gitInfo == row.gitInfo)
    && (change == ToFailed ==> now.status == Failed && now.gitInfo == row.gitInfo)
    && (change == RecordGit ==> now.status == row.status && now.gitInfo)
  }

  /** The one row is changed, if it is there, and nothing else. */
  ghost predicate OnlyChanged(before: Db, after: Db, found: bool, d: Uuid, change: Change) {
    && after.apps == before.apps && after.deployments.Keys == before.deployments.Keys
    && forall e | e in before.deployments ::
         if found && e == d then IsChanged(before.deployments[e], after.deployments[e], change)
         else after.deployments[e] == before.deployments[e]
  }

  lemma FindAndEdit(db: Db, disk: Disk, t: nat, a: Uuid, dep: IdText, change: Change)
    ensures var (after, left) := Alone(db, disk, t, EditFindDep(a, dep, change), None);
            && left == disk
            && OnlyChanged(db, after, FindsDeployment(db, a, dep), if dep.Spelled? then dep.uuid else 0, change)
  {
    if FindsDeployment(db, a, dep) {
      var changed := db.(deployments := db.deployments[dep.uuid := Edited(db.deployments[dep.uuid], change)]);
      Then(db, disk, t, EditFindDep(a, dep, change), None, db, disk, EditRow(dep.uuid, change));
      Finally(db, disk, t, EditRow(dep.uuid, change), None, changed, disk);
    } else {
      Finally(db, disk, t, EditFindDep(a, dep, change), None, db, disk);
    }
  }

  /** Marking a deployment ready or failed, or recording its commit, changes that of the one row and nothing else. */
  lemma EditAlone(db: Db, disk: Disk, t: nat, app: IdText, dep: IdText, change: Change)
    ensures var (after, left) := Alone(db, disk, t, EditFindApp(app, dep, change), None);
            && left == disk && after.apps == db.apps && after.deployments.Keys == db.deployments.Keys
            && forall d | d in db.deployments ::
                 if && app.Spelled? && app.uuid in db.apps && db.deployments[d].app == app.uuid
                    && dep.Spelled? && dep.uuid == d
                 then IsChanged(db.deployments[d], after.deployments[d], change)
                 else after.deployments[d] == db.deployments[d]
  {
    if FindsApp(db, app) {
      Then(db, disk, t, EditFindApp(app, dep, change), None, db, disk, EditFindDep(app.uuid, dep, change));
      FindAndEdit(db, disk, t, app.uuid, dep, change);
    } else {
      Finally(db, disk, t, EditFindApp(app, dep, change), None, db, disk);
    }
  }

  lemma MoveAndBury(db: Db, disk: Disk, t: nat, a: Uuid, dep: IdText)
    requires t !in disk.tmp && dep.Spelled?
    ensures Alone(db, disk, t, DelMove(a, dep), None)
            == (db, if dep.canonical then disk.(deployments := disk.deployments - {(a, dep.uuid)}) else disk)
  {
    if dep.canonical && (a, dep.uuid) in disk.deployments {
      var gone := disk.(deployments := disk.deployments - {(a, dep.uuid)});
      Then(db, disk, t, DelMove(a, dep), None, db, gone.(tmp := disk.tmp + {t}), DelRemove);
      assert disk.tmp + {t} - {t} == disk.tmp;
      Finally(db, gone.(tmp := disk.tmp + {t}), t, DelRemove, None, db, gone);
    } else {
      assert disk.deployments - {(a, dep.uuid)} == disk.deployments || dep.canonical == false;
      Finally(db, disk, t, DelMove(a, dep), None, db, disk);
    }
  }

  lemma BuryFound(db: Db, disk: Disk, t: nat, a: Uuid, dep: IdText)
    requires t !in disk.tmp && FindsDeployment(db, a, dep)
    ensures Alone(db, disk, t, DelFindDep(a, dep), None)
            == (db.(deployments := db.deployments - {dep.uuid}),
                if dep.canonical then disk.(deployments := disk.deployments - {(a, dep.uuid)}) else disk)
  {
    var after := db.(deployments := db.deployments - {dep.uuid});
    Then(db, disk, t, DelFindDep(a, dep), None, db, disk, DelRow(a, dep.uuid, dep));
    Then(db, disk, t, DelRow(a, dep.uuid, dep), None, after, disk, DelUnlock(a, dep));
    Then(after, disk, t, DelUnlock(a, dep), None, after, disk, DelMove(a, dep));
    MoveAndBury(after, disk, t, a, dep);
  }

  lemma FindAndBury(db: Db, disk: Disk, t: nat, a: Uuid, dep: IdText)
    requires t !in disk.tmp
    ensures Alone(db, disk, t, DelFindDep(a, dep), None)
            == if FindsDeployment(db, a, dep)
               then (db.(deployments := db.deployments - {dep.uuid}),
                     if dep.canonical then disk.(deployments := disk.deployments - {(a, dep.uuid)}) else disk)
               else (db, disk)
  {
    if FindsDeployment(db, a, dep) {
      BuryFound(db, disk, t, a, dep);
    } else {
      Finally(db, disk, t, DelFindDep(a, dep), None, db, disk);
    }
  }

  /**
   * A deletion takes the row, unless the text given is that of the active deployment, and then the directory
   * that the text names.
   */
  lemma DeleteDeploymentAlone(db: Db, disk: Disk, t: nat, app: IdText, dep: IdText)
    requires t !in disk.tmp
    ensures Alone(db, disk, t, DelLock(app, dep), None)
            == if && app.Spelled? && app.uuid in db.apps
                  && dep.Spelled? && dep.uuid in db.deployments && db.deployments[dep.uuid].app == app.uuid
                  && !(dep.canonical && db.apps[app.uuid].active == Some(dep.uuid))
               then (db.(deployments := db.deployments - {dep.uuid}),
                     if dep.canonical then disk.(deployments := disk.deployments - {(app.uuid, dep.uuid)}) else disk)
               else (db, disk)
  {
    Then(db, disk, t, DelLock(app, dep), None, db, disk, DelFindApp(app, dep));
    if !FindsApp(db, app) || IsActiveText(db, app.uuid, dep) {
      Finally(db, disk, t, DelFindApp(app, dep), None, db, disk);
    } else {
      Then(db, disk, t, DelFindApp(app, dep), None, db, disk, DelFindDep(app.uuid, dep));
      FindAndBury(db, disk, t, app.uuid, dep);
    }
  }

  // ---- Requests that fail --------------------------------------------------------------------------

  /** An upload that fails before its row is in leaves nothing. */
  lemma FailedUploadLeavesNothing(db: Db, disk: Disk, t: nat, app: IdText, bad: Task)
    requires t !in disk.tmp && FindsApp(db, app) && app.uuid in disk.apps && (app.uuid, t) !in disk.deployments
    requires bad in {UpStage(app), UpFind(app), UpMove(app, app.uuid), UpInsert(app, app.uuid)}
    ensures Alone(db, disk, t, UpStage(app), Some(bad)) == (db, disk)
  {
    var staged := disk.(tmp := disk.tmp + {t});
    assert staged.tmp - {t} == disk.tmp;
    if bad == UpStage(app) {
      Then(db, disk, t, UpStage(app), Some(bad), db, staged, UpDiscard);
      Finally(db, staged, t, UpDiscard, Some(bad), db, disk);
    } else {
      Then(db, disk, t, UpStage(app), Some(bad), db, staged, UpLock(app));
      Then(db, staged, t, UpLock(app), Some(bad), db, staged, UpFind(app));
      FailedUploadUndoes(db, disk, t, app, bad);
    }
  }

  lemma FailedUploadUndoes(db: Db, disk: Disk, t: nat, app: IdText, bad: Task)
    requires t !in disk.tmp && FindsApp(db, app) && app.uuid in disk.apps && (app.uuid, t) !in disk.deployments
    requires bad in {UpFind(app), UpMove(app, app.uuid), UpInsert(app, app.uuid)}
    ensures Alone(db, disk.(tmp := disk.tmp + {t}), t, UpFind(app), Some(bad)) == (db, disk)
  {
    var a, staged := app.uuid, disk.(tmp := disk.tmp + {t});
    assert staged.tmp - {t} == disk.tmp;
    if bad == UpFind(app) {
      Then(db, staged, t, UpFind(app), Some(bad), db, staged, UpUnstage);
      Finally(db, staged, t, UpUnstage, Some(bad), db, disk);
    } else {
      Then(db, staged, t, UpFind(app), Some(bad), db, staged, UpMove(app, a));
      FailedMoveUndoes(db, disk, t, app, a, bad);
    }
  }

  lemma FailedMoveUndoes(db: Db, disk: Disk, t: nat, app: IdText, a: Uuid, bad: Task)
    requires t !in disk.tmp && a in disk.apps && (a, t) !in disk.deployments
    requires bad in {UpMove(app, a), UpInsert(app, a)}
    ensures Alone(db, disk.(tmp := disk.tmp + {t}), t, UpMove(app, a), Some(bad)) == (db, disk)
  {
    var staged, placed := disk.(tmp := disk.tmp + {t}), disk.(deployments := disk.deployments + {(a, t)});
    assert staged.tmp - {t} == disk.tmp && placed.deployments - {(a, t)} == disk.deployments;
    if bad == UpMove(app, a) {
      Then(db, staged, t, UpMove(app, a), Some(bad), db, staged, UpUnstage);
      Finally(db, staged, t, UpUnstage, Some(bad), db, disk);
    } else {
      Then(db, staged, t, UpMove(app, a), Some(bad), db, placed, UpInsert(app, a));
      Then(db, placed, t, UpInsert(app, a), Some(bad), db, placed, UpUndo(a));
      Finally(db, placed, t, UpUndo(a), Some(bad), db, disk);
    }
  }

  /** A creation that fails adds no row; its directory stays for the sweep only if the row is what fails. */
  lemma FailedCreationAddsNoRow(db: Db, disk: Disk, t: nat, name: string, git: bool, bad: Task)
    requires t !in disk.tmp
    requires bad in {AppStage(name, git), AppStageInner(name, git), AppPlace(name, git), AppInsert(name, git)}
    ensures Alone(db, disk, t, AppStage(name, git), Some(bad))
            == (db, if bad.AppStageInner? then disk.(tmp := disk.tmp + {t})
                    else if bad.AppInsert? then disk.(apps := disk.apps + {t}) else disk)
  {
    var staged, placed := disk.(tmp := disk.tmp + {t}), disk.(apps := disk.apps + {t});
    assert staged.tmp - {t} == disk.tmp;
    if bad.AppStage? {
      Finally(db, disk, t, AppStage(name, git), Some(bad), db, disk);
    } else {
      Then(db, disk, t, AppStage(name, git), Some(bad), db, staged, AppStageInner(name, git));
      if bad.AppStageInner? {
        Finally(db, staged, t, AppStageInner(name, git), Some(bad), db, staged);
      } else {
        Then(db, staged, t, AppStageInner(name, git), Some(bad), db, staged, AppPlace(name, git));
        FailedPlacing(db, disk, t, name, git, bad);
      }
    }
  }

  lemma FailedPlacing(db: Db, disk: Disk, t: nat, name: string, git: bool, bad: Task)
    requires t !in disk.tmp && bad in {AppPlace(name, git), AppInsert(name, git)}
    ensures Alone(db, disk.(tmp := disk.tmp + {t}), t, AppPlace(name, git), Some(bad))
            == (db, if bad.AppInsert? then disk.(apps := disk.apps + {t}) else disk)
  {
    var staged, placed := disk.(tmp := disk.tmp + {t}), disk.(apps := disk.apps + {t});
    assert staged.tmp - {t} == disk.tmp;
    if bad.AppPlace? {
      Then(db, staged, t, AppPlace(name, git), Some(bad), db, staged, AppUnstage);
      Finally(db, staged, t, AppUnstage, Some(bad), db, disk);
    } else {
      Then(db, staged, t, AppPlace(name, git), Some(bad), db, placed, AppInsert(name, git));
      Finally(db, placed, t, AppInsert(name, git), Some(bad), db, placed);
    }
  }

  /** A pending deployment that fails leaves nothing, or its directory if it is the row that cannot be added. */
  lemma FailedPending(db: Db, disk: Disk, t: nat, a: Uuid, bad: Task)
    requires a in disk.apps && bad in {PendMkdir(a), PendInsert(a)}
    ensures Alone(db, disk, t, PendMkdir(a), Some(bad))
            == (db, if bad.PendInsert? then disk.(deployments := disk.deployments + {(a, t)}) else disk)
  {
    if bad.PendMkdir? {
      Finally(db, disk, t, PendMkdir(a), Some(bad), db, disk);
    } else {
      var placed := disk.(deployments := disk.deployments + {(a, t)});
      Then(db, disk, t, PendMkdir(a), Some(bad), db, placed, PendInsert(a));
      Finally(db, placed, t, PendInsert(a), Some(bad), db, placed);
    }
  }

  /** An app whose rows cannot be deleted stays; after them, the directory may stay, or its remains. */
  lemma FailedAppDeletion(db: Db, disk: Disk, t: nat, a: Uuid, bad: Task)
    requires t !in disk.tmp && a in disk.apps && bad in {GoneCommit(a), GoneMove(a), GoneRemove}
    ensures var (after, left) := Alone(db, disk, t, GoneCommit(a), Some(bad));
            && (bad.GoneCommit? ==> after == db && left == disk)
            && (!bad.GoneCommit? ==> after.apps == db.apps - {a})
            && (bad.GoneMove? ==> left == disk)
            && (bad.GoneRemove? ==> left.apps == disk.apps - {a} && left.tmp == disk.tmp + {t})
  {
    if bad.GoneCommit? {
      Finally(db, disk, t, GoneCommit(a), Some(bad), db, disk);
    } else {
      var after, gone := WithoutApp(db, a), RemoveAppDir(disk, a).(tmp := disk.tmp + {t});
      Then(db, disk, t, GoneCommit(a), Some(bad), after, disk, GoneMove(a));
      if bad.GoneMove? {
        Finally(after, disk, t, GoneMove(a), Some(bad), after, disk);
      } else {
        Then(after, disk, t, GoneMove(a), Some(bad), after, gone, GoneRemove);
        Finally(after, gone, t, GoneRemove, Some(bad), after, gone);
      }
    }
  }

  /** A pointer or a row that cannot be written stays as it is. */
  lemma FailedWrites(db: Db, disk: Disk, t: nat, a: Uuid, d: Uuid, change: Change)
    ensures Alone(db, disk, t, ActUpdate(a, d), Some(ActUpdate(a, d))) == (db, disk)
    ensures Alone(db, disk, t, EditRow(d, change), Some(EditRow(d, change))) == (db, disk)
  {
    Finally(db, disk, t, ActUpdate(a, d), Some(ActUpdate(a, d)), db, disk);
    Finally(db, disk, t, EditRow(d, change), Some(EditRow(d, change)), db, disk);
  }

  /** A deletion whose row cannot be deleted does nothing; after the row, the directory stays, or its remains. */
  lemma FailedDeletion(db: Db, disk: Disk, t: nat, a: Uuid, dep: IdText, bad: Task)
    requires t !in disk.tmp && FindsDeployment(db, a, dep) && dep.canonical && (a, dep.uuid) in disk.deployments
    requires bad in {DelRow(a, dep.uuid, dep), DelMove(a, dep), DelRemove}
    ensures Alone(db, disk, t, DelRow(a, dep.uuid, dep), Some(bad))
            == (if bad.DelRow? then db else db.(deployments := db.deployments - {dep.uuid}),
                if bad.DelRemove?
                then disk.(deployments := disk.deployments - {(a, dep.uuid)}, tmp := disk.tmp + {t}) else disk)
  {
    var d, after := dep.uuid, db.(deployments := db.deployments - {dep.uuid});
    if bad.DelRow? {
      Finally(db, disk, t, DelRow(a, d, dep), Some(bad), db, disk);
    } else {
      Then(db, disk, t, DelRow(a, d, dep), Some(bad), after, disk, DelUnlock(a, dep));
      Then(after, disk, t, DelUnlock(a, dep), Some(bad), after, disk, DelMove(a, dep));
      FailedBurial(after, disk, t, a, dep, bad);
    }
  }

  lemma FailedBurial(db: Db, disk: Disk, t: nat, a: Uuid, dep: IdText, bad: Task)
    requires dep.Spelled? && dep.canonical && (a, dep.uuid) in disk.deployments && bad in {DelMove(a, dep), DelRemove}
    ensures Alone(db, disk, t, DelMove(a, dep), Some(bad))
            == (db, if bad.DelRemove?
                    then disk.(deployments := disk.deployments - {(a, dep.uuid)}, tmp := disk.tmp + {t}) else disk)
  {
    if bad.DelMove? {
      Finally(db, disk, t, DelMove(a, dep), Some(bad), db, disk);
    } else {
      var gone := disk.(deployments := disk.deployments - {(a, dep.uuid)}, tmp := disk.tmp + {t});
      Then(db, disk, t, DelMove(a, dep), Some(bad), db, gone, DelRemove);
      Finally(db, gone, t, DelRemove, Some(bad), db, gone);
    }
  }

  // ---- On the machine -----------------------------------------------------------------------------

  lemma Extend(ls: seq<Label>, s: System, l: Label) returns (more: seq<Label>, u: System)
    requires Run(Init(), ls) == Some(s) && Enabled(s, l)
    ensures more == ls + [l] && u == Step(s, l) && Run(Init(), more) == Some(u)
  {
    more, u := ls + [l], Step(s, l);
    assert more[..|ls|] == ls;
  }

  /** The hub serves and its lock is free. */
  ghost predicate Listening(ls: seq<Label>, s: System) {
    Run(Init(), ls) == Some(s) && s.mode == Serving && s.lock == None
  }

  lemma {:induction false} GoesToItsEnd(ls: seq<Label>, s: System, t: nat) returns (more: seq<Label>, u: System)
    requires Run(Init(), ls) == Some(s) && s.mode == Serving && t in s.tasks
    requires s.lock == if Critical(s.tasks[t]) then Some(t) else None
    ensures Listening(more, u) && u.next == s.next && u.tasks == s.tasks - {t}
    ensures (u.db, u.disk) == Alone(s.db, s.disk, t, s.tasks[t], None)
    decreases Left(s.tasks[t])
  {
    var task := s.tasks[t];
    if Creating(task) {
      CreatingPhases(s.db, s.disk, t, task, true);
    } else {
      OtherPhases(s.db, s.disk, t, task, true);
    }
    StepsRunOut(s.db, s.disk, t, task, true);
    more, u := Extend(ls, s, Advance(t, true));
    if t in u.tasks {
      more, u := GoesToItsEnd(more, u, t);
    }
  }

  /** `Alone` is a run: a request that comes while the lock is free can go through like that, and frees the lock. */
  lemma RequestsGoThrough(ls: seq<Label>, s: System, task: Task) returns (more: seq<Label>, u: System)
    requires Listening(ls, s) && Initial(task)
    ensures Listening(more, u) && u.tasks == s.tasks && u.next == s.next + 1
    ensures (u.db, u.disk) == Alone(s.db, s.disk, s.next, task, None)
  {
    RunKeepsInv(ls);
    more, u := Extend(ls, s, Spawn(task));
    more, u := GoesToItsEnd(more, u, s.next);
    assert s.tasks[s.next := task] - {s.next} == s.tasks;
  }

  lemma ActKeepsTmp(db: Db, disk: Disk, t: nat, task: Task, ok: bool)
    ensures Act(db, disk, t, task, ok).disk.tmp <= disk.tmp + {t}
  {
  }

  /** Temporary paths are named after requests that have come, so the next one's is free. */
  lemma {:induction false} NextPathIsFree(ls: seq<Label>, s: System)
    requires Run(Init(), ls) == Some(s)
    ensures forall t | t in s.disk.tmp || t in s.tasks :: t < s.next
  {
    if |ls| > 0 {
      var before, l := Run(Init(), ls[..|ls|-1]).value, ls[|ls|-1];
      NextPathIsFree(ls[..|ls|-1], before);
      if l.Advance? {
        ActKeepsTmp(before.db, before.disk, l.t, before.tasks[l.t], l.ok);
      }
    }
  }

  // ---- Startup gets through -----------------------------------------------------------------------

  /** The sweeps of single directories, as far as it takes, leave the directories that have rows. */
  lemma {:induction false} SweepsGetThrough(ls: seq<Label>, s: System) returns (more: seq<Label>, u: System)
    requires Run(Init(), ls) == Some(s) && s.mode == Starting && Nested(s.disk)
    ensures Run(Init(), more) == Some(u) && u == s.(disk := Swept(s.db, s.disk))
    decreases |s.disk.apps| + |s.disk.deployments|
  {
    if p :| p in s.disk.deployments && !(BackedApp(s.db, p.0) && BackedDeployment(s.db, p.0, p.1)) {
      more, u := Extend(ls, s, SweepDeployment(p.0, p.1));
      assert Swept(s.db, u.disk) == Swept(s.db, s.disk);
      more, u := SweepsGetThrough(more, u);
    } else if a :| a in s.disk.apps && !BackedApp(s.db, a) {
      more, u := Extend(ls, s, SweepApp(a));
      assert u.disk.deployments == s.disk.deployments;
      assert Swept(s.db, u.disk) == Swept(s.db, s.disk);
      more, u := SweepsGetThrough(more, u);
    } else {
      more, u := ls, s;
      assert Swept(s.db, s.disk) == s.disk;
    }
  }

  /** Wherever the hub has stopped, it can be started again: then it serves, with the same rows and a clean tree. */
  lemma StartupGetsThrough(ls: seq<Label>, s: System) returns (more: seq<Label>, u: System)
    requires Run(Init(), ls) == Some(s)
    ensures Listening(more, u) && u.tasks == map[] && u.db == s.db && Clean(u.db, u.disk)
  {
    RunKeepsInv(ls);
    RunKeepsNested(ls);
    var cleared := s.(mode := Starting, lock := None, tasks := map[], disk := s.disk.(tmp := {}));
    more, u := Extend(ls, s, Crash);
    more, u := Extend(more, u, SweepTmp);
    more, u := SweepsGetThrough(more, cleared);
    SweptIsClean(cleared.db, cleared.disk);
    more, u := Extend(more, u, Serve);
  }
}
