/** Every row and every change of a row goes back to a request that asked for it, under every interleaving. */
module StoreOrigins {
  import opened Wrappers
  import opened Store
  import opened StoreProofs

  /** The requests of a run in the order in which they came; request `t` is the one at `t`. */
  function Asked(ls: seq<Label>): seq<Task> {
    if |ls| == 0 then []
    else if ls[|ls|-1].Spawn? then Asked(ls[..|ls|-1]) + [ls[|ls|-1].task]
    else Asked(ls[..|ls|-1])
  }

  predicate Spells(text: IdText, id: Uuid) {
    text.Spelled? && text.uuid == id
  }

  /** A request to activate deployment `d` of app `a`; an upload is one, for what it has created. */
  predicate AsksToActivate(origin: Task, t: nat, a: Uuid, d: Uuid) {
    || (origin.ActLock? && Spells(origin.app, a) && Spells(origin.dep, d))
    || (origin.UpStage? && Spells(origin.app, a) && d == t)
  }

  /** What creating and deleting apps, and uploading, have of their request. */
  predicate StemsCreating(origin: Task, task: Task) {
    match task
    case AppLock(name, git) => origin == AppLock(name, git)
    case AppCheck(name, git) => origin == AppLock(name, git)
    case AppStage(name, git) => origin == AppLock(name, git)
    case AppStageInner(name, git) => origin == AppLock(name, git)
    case AppPlace(name, git) => origin == AppLock(name, git)
    case AppInsert(name, git) => origin == AppLock(name, git)
    case AppUnstage => origin.AppLock?
    case GoneLock(app) => origin == GoneLock(app)
    case GoneFind(app) => origin == GoneLock(app)
    case GoneCommit(a) => origin.GoneLock? && Spells(origin.app, a)
    case GoneMove(a) => origin.GoneLock? && Spells(origin.app, a)
    case GoneRemove => origin.GoneLock?
    case UpStage(app) => origin == UpStage(app)
    case UpLock(app) => origin == UpStage(app)
    case UpFind(app) => origin == UpStage(app)
    case UpMove(app, a) => origin == UpStage(app) && Spells(app, a)
    case UpInsert(app, a) => origin == UpStage(app) && Spells(app, a)
    case UpUnlock(app) => origin == UpStage(app)
    case UpUndo(a) => origin.UpStage? && Spells(origin.app, a)
    case UpUnstage => origin.UpStage?
    case UpDiscard => origin.UpStage?
    case _ => true
  }

  /** What the other requests have of theirs. */
  predicate StemsOther(origin: Task, t: nat, task: Task) {
    match task
    case PendLock(app) => origin == PendLock(app)
    case PendFind(app) => origin == PendLock(app)
    case PendCheck(a) => origin.PendLock? && Spells(origin.app, a)
    case PendMkdir(a) => origin.PendLock? && Spells(origin.app, a)
    case PendInsert(a) => origin.PendLock? && Spells(origin.app, a)
    case EditFindApp(app, dep, change) => origin == EditFindApp(app, dep, change)
    case EditFindDep(a, dep, change) =>
      origin.EditFindApp? && Spells(origin.app, a) && origin.dep == dep && origin.change == change
    case EditRow(d, change) => origin.EditFindApp? && Spells(origin.dep, d) && origin.change == change
    case ActLock(app, dep) => origin == ActLock(app, dep) || (origin == UpStage(app) && dep == Spelled(t, true))
    case ActFindApp(app, dep) => origin == ActLock(app, dep) || (origin == UpStage(app) && dep == Spelled(t, true))
    case ActFindDep(a, dep) => dep.Spelled? ==> AsksToActivate(origin, t, a, dep.uuid)
    case ActUpdate(a, d) => AsksToActivate(origin, t, a, d)
    case DelLock(app, dep) => origin == DelLock(app, dep)
    case DelFindApp(app, dep) => origin == DelLock(app, dep)
    case DelFindDep(a, dep) => origin.DelLock? && Spells(origin.app, a) && origin.dep == dep
    case DelRow(a, d, dep) => origin.DelLock? && Spells(origin.app, a) && origin.dep == dep && Spells(dep, d)
    case DelUnlock(a, dep) => origin.DelLock? && Spells(origin.app, a) && origin.dep == dep
    case DelMove(a, dep) => origin.DelLock? && Spells(origin.app, a) && origin.dep == dep
    case DelRemove => origin.DelLock?
    case _ => true
  }

  predicate Stems(origin: Task, t: nat, task: Task) {
    StemsCreating(origin, task) && StemsOther(origin, t, task)
  }

  ghost predicate Edits(asked: seq<Task>, d: Uuid, change: Change) {
    exists t :: 0 <= t < |asked| && asked[t].EditFindApp? && Spells(asked[t].dep, d) && asked[t].change == change
  }

  ghost predicate Activates(asked: seq<Task>, a: Uuid, d: Uuid) {
    exists t :: 0 <= t < |asked| && AsksToActivate(asked[t], t, a, d)
  }

  /** An app's row is as its creation asked, and its pointer was asked for. */
  ghost predicate AppIsAsked(asked: seq<Task>, a: Uuid, row: AppRow) {
    && a < |asked| && asked[a] == AppLock(row.name, row.git)
    && (row.active.Some? ==> Activates(asked, a, row.active.value))
  }

  /** A deployment's row is of the app its creation named, and its status and git info were asked for. */
  ghost predicate DeploymentIsAsked(asked: seq<Task>, d: Uuid, row: DeploymentRow) {
    && d < |asked| && (asked[d].UpStage? || asked[d].PendLock?) && Spells(asked[d].app, row.app)
    && (row.status == Pending ==> asked[d].PendLock?)
    && (row.status == Ready ==> asked[d].UpStage? || Edits(asked, d, ToReady))
    && (row.status == Failed ==> Edits(asked, d, ToFailed))
    && (row.gitInfo ==> Edits(asked, d, RecordGit))
  }

  ghost predicate RowsAreAsked(asked: seq<Task>, db: Db) {
    && (forall a | a in db.apps :: AppIsAsked(asked, a, db.apps[a]))
    && (forall d | d in db.deployments :: DeploymentIsAsked(asked, d, db.deployments[d]))
  }

  ghost predicate AllAsked(s: System, asked: seq<Task>) {
    && s.next == |asked| && RowsAreAsked(asked, s.db)
    && forall t | t in s.tasks :: t < |asked| && Stems(asked[t], t, s.tasks[t])
  }

  lemma ActStems(db: Db, disk: Disk, t: nat, task: Task, ok: bool, origin: Task)
    requires Stems(origin, t, task) && Act(db, disk, t, task, ok).next.Some?
    ensures Stems(origin, t, Act(db, disk, t, task, ok).next.value)
  {
    if Uploading(task) {
      UploadingStems(db, disk, t, task, ok, origin);
    } else if Creating(task) {
      CreatingStems(db, disk, t, task, ok, origin);
    } else if Deleting(task) {
      DeletingStems(db, disk, t, task, ok, origin);
    } else {
      OtherStems(db, disk, t, task, ok, origin);
    }
  }

  predicate Uploading(task: Task) {
    task.UpStage? || task.UpDiscard? || task.UpLock? || task.UpFind? || task.UpMove? || task.UpUnstage?
    || task.UpInsert? || task.UpUndo? || task.UpUnlock?
  }

  lemma UploadingStems(db: Db, disk: Disk, t: nat, task: Task, ok: bool, origin: Task)
    requires Uploading(task) && StemsCreating(origin, task) && Act(db, disk, t, task, ok).next.Some?
    ensures Stems(origin, t, Act(db, disk, t, task, ok).next.value)
  {
  }

  lemma CreatingStems(db: Db, disk: Disk, t: nat, task: Task, ok: bool, origin: Task)
    requires Creating(task) && !Uploading(task) && StemsCreating(origin, task) && Act(db, disk, t, task, ok).next.Some?
    ensures Stems(origin, t, Act(db, disk, t, task, ok).next.value)
  {
  }

  predicate Deleting(task: Task) {
    task.DelLock? || task.DelFindApp? || task.DelFindDep? || task.DelRow? || task.DelUnlock? || task.DelMove?
    || task.DelRemove?
  }

  lemma DeletingStems(db: Db, disk: Disk, t: nat, task: Task, ok: bool, origin: Task)
    requires Deleting(task) && StemsOther(origin, t, task) && Act(db, disk, t, task, ok).next.Some?
    ensures Stems(origin, t, Act(db, disk, t, task, ok).next.value)
  {
  }

  lemma OtherStems(db: Db, disk: Disk, t: nat, task: Task, ok: bool, origin: Task)
    requires !Creating(task) && !Deleting(task) && StemsOther(origin, t, task) && Act(db, disk, t, task, ok).next.Some?
    ensures Stems(origin, t, Act(db, disk, t, task, ok).next.value)
  {
  }

  lemma ActAsksApps(db: Db, disk: Disk, t: nat, task: Task, ok: bool, asked: seq<Task>, a: Uuid)
    requires t < |asked| && Stems(asked[t], t, task) && RowsAreAsked(asked, db)
    requires a in Act(db, disk, t, task, ok).db.apps
    ensures AppIsAsked(asked, a, Act(db, disk, t, task, ok).db.apps[a])
  {
    if task.ActUpdate? {
      assert AsksToActivate(asked[t], t, task.a, task.d);
      assert Activates(asked, task.a, task.d);
    }
  }

  lemma ActAsksDeployments(db: Db, disk: Disk, t: nat, task: Task, ok: bool, asked: seq<Task>, d: Uuid)
    requires t < |asked| && Stems(asked[t], t, task) && RowsAreAsked(asked, db)
    requires d in Act(db, disk, t, task, ok).db.deployments
    ensures DeploymentIsAsked(asked, d, Act(db, disk, t, task, ok).db.deployments[d])
  {
    if task.EditRow? {
      assert Edits(asked, task.d, task.change);
    }
  }

  lemma MoreAreAsked(asked: seq<Task>, more: Task, db: Db)
    requires RowsAreAsked(asked, db)
    ensures RowsAreAsked(asked + [more], db)
  {
    var all := asked + [more];
    assert forall t | 0 <= t < |asked| :: all[t] == asked[t];
    assert forall d, change | Edits(asked, d, change) :: Edits(all, d, change);
    assert forall a, d | Activates(asked, a, d) :: Activates(all, a, d);
  }

  lemma AdvanceIsAsked(s: System, t: nat, ok: bool, asked: seq<Task>)
    requires AllAsked(s, asked) && Enabled(s, Advance(t, ok))
    ensures AllAsked(Step(s, Advance(t, ok)), asked)
  {
    var task, after := s.tasks[t], Act(s.db, s.disk, t, s.tasks[t], ok);
    forall a | a in after.db.apps
      ensures AppIsAsked(asked, a, after.db.apps[a])
    {
      ActAsksApps(s.db, s.disk, t, task, ok, asked, a);
    }
    forall d | d in after.db.deployments
      ensures DeploymentIsAsked(asked, d, after.db.deployments[d])
    {
      ActAsksDeployments(s.db, s.disk, t, task, ok, asked, d);
    }
    if after.next.Some? {
      ActStems(s.db, s.disk, t, task, ok, asked[t]);
    }
  }

  lemma SpawnIsAsked(s: System, task: Task, asked: seq<Task>)
    requires AllAsked(s, asked) && Enabled(s, Spawn(task))
    ensures AllAsked(Step(s, Spawn(task)), asked + [task])
  {
    MoreAreAsked(asked, task, s.db);
    assert Stems(task, s.next, task);
  }

  lemma StepIsAsked(s: System, l: Label, asked: seq<Task>)
    requires AllAsked(s, asked) && Enabled(s, l)
    ensures AllAsked(Step(s, l), if l.Spawn? then asked + [l.task] else asked)
  {
    if l.Spawn? {
      SpawnIsAsked(s, l.task, asked);
    } else if l.Advance? {
      AdvanceIsAsked(s, l.t, l.ok, asked);
    }
  }

  lemma {:induction false} RunIsAsked(ls: seq<Label>)
    requires Run(Init(), ls).Some?
    ensures AllAsked(Run(Init(), ls).value, Asked(ls))
  {
    if |ls| > 0 {
      RunIsAsked(ls[..|ls|-1]);
      StepIsAsked(Run(Init(), ls[..|ls|-1]).value, ls[|ls|-1], Asked(ls[..|ls|-1]));
    }
  }

  /**
   * Every row of every reachable state is as some request of the run asked: an app as it was created, a
   * deployment of the app it was created for, failed only if a request failed it, ready only if it was
   * uploaded or a request marked it, and active only if a request activated it or it was uploaded.
   */
  lemma EveryRowIsAsked(ls: seq<Label>)
    requires Run(Init(), ls).Some?
    ensures var db, asked := Run(Init(), ls).value.db, Asked(ls);
            && (forall a | a in db.apps ::
                  && a < |asked| && asked[a] == AppLock(db.apps[a].name, db.apps[a].git)
                  && (db.apps[a].active.Some? ==> Activates(asked, a, db.apps[a].active.value)))
            && (forall d | d in db.deployments ::
                  var row := db.deployments[d];
                  && d < |asked| && (asked[d].UpStage? || asked[d].PendLock?) && Spells(asked[d].app, row.app)
                  && (row.status == Pending ==> asked[d].PendLock?)
                  && (row.status == Ready ==> asked[d].UpStage? || Edits(asked, d, ToReady))
                  && (row.status == Failed ==> Edits(asked, d, ToFailed))
                  && (row.gitInfo ==> Edits(asked, d, RecordGit)))
  {
    RunIsAsked(ls);
  }

  /** A row goes only by a request that deletes it, or its app. */
  lemma RowsGoAsAsked(ls: seq<Label>, l: Label, d: Uuid)
    requires Run(Init(), ls).Some? && Enabled(Run(Init(), ls).value, l)
    requires d in Run(Init(), ls).value.db.deployments && d !in Step(Run(Init(), ls).value, l).db.deployments
    ensures l.Advance? && l.t < |Asked(ls)|
    ensures var origin, row := Asked(ls)[l.t], Run(Init(), ls).value.db.deployments[d];
            (origin.DelLock? && Spells(origin.dep, d)) || (origin.GoneLock? && Spells(origin.app, row.app))
  {
    RunIsAsked(ls);
    ActDeletes(Run(Init(), ls).value, l.t, l.ok, d);
  }

  lemma ActDeletes(s: System, t: nat, ok: bool, d: Uuid)
    requires t in s.tasks && d in s.db.deployments
    requires d !in Act(s.db, s.disk, t, s.tasks[t], ok).db.deployments
    ensures || (s.tasks[t].GoneCommit? && s.tasks[t].a == s.db.deployments[d].app)
            || (s.tasks[t].DelRow? && s.tasks[t].d == d)
  {
  }

  // ---- App names ------------------------------------------------------------------------------------

  ghost predicate NameIsFree(db: Db, name: string) {
    forall a | a in db.apps :: db.apps[a].name != name
  }

  /** A creation that has checked its name. */
  predicate HasChecked(task: Task) {
    task.AppStage? || task.AppStageInner? || task.AppPlace? || task.AppInsert?
  }

  ghost predicate NamesDiffer(db: Db) {
    forall a, b | a in db.apps && b in db.apps && db.apps[a].name == db.apps[b].name :: a == b
  }

  ghost predicate NamesInv(s: System) {
    NamesDiffer(s.db) && forall t | t in s.tasks && HasChecked(s.tasks[t]) :: NameIsFree(s.db, s.tasks[t].name)
  }

  /** An app row after a step was there before with the same name, or is the one just created. */
  lemma ActAppRow(db: Db, disk: Disk, t: nat, task: Task, ok: bool, a: Uuid)
    requires a in Act(db, disk, t, task, ok).db.apps
    ensures var name := Act(db, disk, t, task, ok).db.apps[a].name;
            (a in db.apps && db.apps[a].name == name) || (task.AppInsert? && a == t && name == task.name)
  {
  }

  /** A name is only claimed after it was found to be free. */
  lemma ActChecks(db: Db, disk: Disk, t: nat, task: Task, ok: bool)
    requires Act(db, disk, t, task, ok).next.Some? && HasChecked(Act(db, disk, t, task, ok).next.value)
    ensures var name := Act(db, disk, t, task, ok).next.value.name;
            if HasChecked(task) then !task.AppInsert? && name == task.name else NameIsFree(db, name)
  {
    if task.AppCheck? || HasChecked(task) {
      CreationChecks(db, disk, t, task, ok);
    } else {
      OthersDoNotClaim(db, disk, t, task, ok);
    }
  }

  lemma CreationChecks(db: Db, disk: Disk, t: nat, task: Task, ok: bool)
    requires task.AppCheck? || HasChecked(task)
    requires Act(db, disk, t, task, ok).next.Some? && HasChecked(Act(db, disk, t, task, ok).next.value)
    ensures var name := Act(db, disk, t, task, ok).next.value.name;
            if HasChecked(task) then !task.AppInsert? && name == task.name else NameIsFree(db, name)
  {
  }

  lemma OthersDoNotClaim(db: Db, disk: Disk, t: nat, task: Task, ok: bool)
    requires !task.AppCheck? && !HasChecked(task)
    ensures var next := Act(db, disk, t, task, ok).next; next.Some? ==> !HasChecked(next.value)
  {
  }

  lemma ActKeepsNamesDiffer(db: Db, disk: Disk, t: nat, task: Task, ok: bool)
    requires NamesDiffer(db) && (HasChecked(task) ==> NameIsFree(db, task.name))
    ensures NamesDiffer(Act(db, disk, t, task, ok).db)
  {
    var after := Act(db, disk, t, task, ok).db;
    forall a, b | a in after.apps && b in after.apps && after.apps[a].name == after.apps[b].name
      ensures a == b
    {
      ActAppRow(db, disk, t, task, ok, a);
      ActAppRow(db, disk, t, task, ok, b);
    }
  }

  lemma ActKeepsFree(db: Db, disk: Disk, t: nat, task: Task, ok: bool, name: string)
    requires NameIsFree(db, name) && (task.AppInsert? ==> task.name != name)
    ensures NameIsFree(Act(db, disk, t, task, ok).db, name)
  {
    var after := Act(db, disk, t, task, ok).db;
    forall a | a in after.apps
      ensures after.apps[a].name != name
    {
      ActAppRow(db, disk, t, task, ok, a);
    }
  }

  /** Only one creation at a time is past its check. */
  lemma OneClaims(s: System, t: nat, u: nat)
    requires LockInv(s) && t in s.tasks && u in s.tasks && HasChecked(s.tasks[t]) && HasChecked(s.tasks[u])
    ensures t == u
  {
    assert Critical(s.tasks[t]) && Critical(s.tasks[u]);
  }

  lemma AdvanceKeepsNames(s: System, t: nat, ok: bool)
    requires LockInv(s) && NamesInv(s) && Enabled(s, Advance(t, ok))
    ensures NamesInv(Step(s, Advance(t, ok)))
  {
    var task, after, s' := s.tasks[t], Act(s.db, s.disk, t, s.tasks[t], ok), Step(s, Advance(t, ok));
    ActKeepsNamesDiffer(s.db, s.disk, t, task, ok);
    forall u | u in s'.tasks && HasChecked(s'.tasks[u])
      ensures NameIsFree(s'.db, s'.tasks[u].name)
    {
      if u == t {
        ActChecks(s.db, s.disk, t, task, ok);
      } else if HasChecked(task) && HasChecked(s.tasks[u]) {
        OneClaims(s, t, u);
      }
      ActKeepsFree(s.db, s.disk, t, task, ok, s'.tasks[u].name);
    }
  }

  lemma StepKeepsNames(s: System, l: Label)
    requires LockInv(s) && NamesInv(s) && Enabled(s, l)
    ensures NamesInv(Step(s, l))
  {
    if l.Advance? {
      AdvanceKeepsNames(s, l.t, l.ok);
    }
  }

  lemma {:induction false} RunKeepsNames(ls: seq<Label>)
    requires Run(Init(), ls).Some?
    ensures NamesInv(Run(Init(), ls).value)
  {
    if |ls| > 0 {
      RunKeepsNames(ls[..|ls|-1]);
      RunKeepsInv(ls[..|ls|-1]);
      StepKeepsNames(Run(Init(), ls[..|ls|-1]).value, ls[|ls|-1]);
    }
  }

  /** No two apps have the same name, in any reachable state. */
  lemma AppNamesAreUnique(ls: seq<Label>, a: Uuid, b: Uuid)
    requires Run(Init(), ls).Some?
    requires var db := Run(Init(), ls).value.db;
             a in db.apps && b in db.apps && db.apps[a].name == db.apps[b].name
    ensures a == b
  {
    RunKeepsNames(ls);
  }
}
