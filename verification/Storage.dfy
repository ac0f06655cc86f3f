/** The startup sweeps and `delete_deployment` as the hub runs them, over its database and its data directory. */
module Storages {
  import opened Wrappers
  import opened Store
  import opened StoreProofs
  import opened StorePointers

  datatype StoreError = AppNotFound | DeploymentNotFound | DeleteActiveDeployment | DatabaseFails | FileSystemFails

  /** A deployment directory lies inside an app directory. */
  ghost predicate Nested(disk: Disk) {
    forall p | p in disk.deployments :: p.0 in disk.apps
  }

  /** The directories that have rows. */
  function Swept(db: Db, disk: Disk): Disk {
    disk.(apps := (set a | a in disk.apps && BackedApp(db, a)),
          deployments := (set p | p in disk.deployments && BackedApp(db, p.0) && BackedDeployment(db, p.0, p.1)))
  }

  function OrphanApps(db: Db, apps: set<Uuid>): set<Uuid> {
    set a | a in apps && !BackedApp(db, a)
  }

  function OrphanDeployments(db: Db, deployments: set<(Uuid, Uuid)>): set<(Uuid, Uuid)> {
    set p | p in deployments && BackedApp(db, p.0) && !BackedDeployment(db, p.0, p.1)
  }

  predicate IsOrphan(db: Db, p: (Uuid, Uuid)) {
    BackedApp(db, p.0) && !BackedDeployment(db, p.0, p.1)
  }

  /** The deployment directories of app `a`. */
  function Under(deployments: set<(Uuid, Uuid)>, a: Uuid): set<(Uuid, Uuid)> {
    set p | p in deployments && p.0 == a
  }

  lemma CountDeployment(db: Db, todo: set<(Uuid, Uuid)>, p: (Uuid, Uuid))
    requires p in todo
    ensures |OrphanDeployments(db, todo)| == |OrphanDeployments(db, todo - {p})| + if IsOrphan(db, p) then 1 else 0
  {
    assert OrphanDeployments(db, todo) == OrphanDeployments(db, todo - {p}) + if IsOrphan(db, p) then {p} else {};
  }

  lemma CountApp(db: Db, todo: set<Uuid>, a: Uuid)
    requires a in todo
    ensures |OrphanApps(db, todo)| == |OrphanApps(db, todo - {a})| + if BackedApp(db, a) then 0 else 1
  {
    assert OrphanApps(db, todo) == OrphanApps(db, todo - {a}) + if BackedApp(db, a) then {} else {a};
  }

  lemma CountUnder(db: Db, deployments: set<(Uuid, Uuid)>, a: Uuid)
    ensures |OrphanDeployments(db, deployments)|
            == |OrphanDeployments(db, Under(deployments, a))|
               + |OrphanDeployments(db, deployments - Under(deployments, a))|
    ensures !BackedApp(db, a) ==> OrphanDeployments(db, Under(deployments, a)) == {}
  {
    assert OrphanDeployments(db, deployments)
        == OrphanDeployments(db, Under(deployments, a)) + OrphanDeployments(db, deployments - Under(deployments, a));
  }

  /** The tree part-way through a sweep: the app directories in `todo` have not been looked at yet. */
  function PartlySwept(db: Db, disk: Disk, todo: set<Uuid>): Disk {
    disk.(apps := (set a | a in disk.apps && (a in todo || BackedApp(db, a))),
          deployments := (set p | p in disk.deployments &&
                            (p.0 in todo || (BackedApp(db, p.0) && BackedDeployment(db, p.0, p.1)))))
  }

  /** Looking at one more app directory. */
  lemma SweepOne(db: Db, disk: Disk, todo: set<Uuid>, a: Uuid)
    requires a in todo && todo <= disk.apps
    ensures var now, next := PartlySwept(db, disk, todo), PartlySwept(db, disk, todo - {a});
            && Under(now.deployments, a) == Under(disk.deployments, a)
            && (BackedApp(db, a) ==>
                  next == now.(deployments :=
                    set p | p in now.deployments && (p.0 == a ==> BackedDeployment(db, a, p.1))))
            && (!BackedApp(db, a) ==> next == RemoveAppDir(now, a))
  {
    var now, next := PartlySwept(db, disk, todo), PartlySwept(db, disk, todo - {a});
    if BackedApp(db, a) {
      assert next.apps == now.apps;
    } else {
      assert next.apps == RemoveAppDir(now, a).apps;
    }
  }

  /**
   * What fails during startup: clearing `tmp/`, listing rows and directories, and removing a directory. Of an
   * app directory that cannot be removed, some deployments may be gone all the same.
   */
  datatype SweepFaults = SweepFaults(
    clears: bool, lists: bool, removes: Uuid -> bool, listsUnder: Uuid -> bool, removesUnder: ((Uuid, Uuid)) -> bool)

  predicate SweepableUnder(db: Db, deployments: set<(Uuid, Uuid)>, a: Uuid, f: SweepFaults) {
    f.listsUnder(a) && forall p | p in deployments && p.0 == a :: BackedDeployment(db, a, p.1) || f.removesUnder(p)
  }

  /** The sweep can deal with app directory `a`. */
  predicate SweepableApp(db: Db, disk: Disk, a: Uuid, f: SweepFaults) {
    if BackedApp(db, a) then SweepableUnder(db, disk.deployments, a, f) else f.removes(a)
  }

  predicate Sweepable(db: Db, disk: Disk, f: SweepFaults) {
    f.lists && forall a | a in disk.apps :: SweepableApp(db, disk, a, f)
  }

  /** From `before` to `after` nothing has come, and all that has gone had no row. */
  predicate OnlyOrphansGone(db: Db, before: Disk, after: Disk) {
    && after.apps <= before.apps && after.deployments <= before.deployments && after.tmp <= before.tmp
    && Swept(db, before).apps <= after.apps && Swept(db, before).deployments <= after.deployments
  }

  lemma RowsKeepDirs(db: Db, before: Disk, after: Disk)
    requires RowsHaveDirs(db, before) && OnlyOrphansGone(db, before, after)
    ensures RowsHaveDirs(db, after)
  {
    assert forall a | a in db.apps :: a in Swept(db, before).apps;
    assert forall d | d in db.deployments :: (db.deployments[d].app, d) in Swept(db, before).deployments;
  }

  /** Part-way through a sweep, some of an orphaned app directory goes. */
  lemma SomeGone(db: Db, start: Disk, todo: set<Uuid>, a: Uuid, now: Disk, after: Disk)
    requires Nested(start) && todo <= start.apps && now == PartlySwept(db, start, todo) && !BackedApp(db, a)
    requires after.apps == now.apps && after.tmp == now.tmp && after.deployments <= now.deployments
    requires now.deployments - after.deployments <= Under(now.deployments, a)
    ensures Nested(after) && OnlyOrphansGone(db, start, after)
  {
    forall p | p in Swept(db, start).deployments
      ensures p in after.deployments
    {
      assert p in now.deployments && p !in Under(now.deployments, a);
    }
  }

  lemma SameUnder(db: Db, now: set<(Uuid, Uuid)>, start: set<(Uuid, Uuid)>, a: Uuid, f: SweepFaults)
    requires Under(now, a) == Under(start, a)
    ensures SweepableUnder(db, now, a, f) <==> SweepableUnder(db, start, a, f)
  {
    assert forall p: (Uuid, Uuid) | p.0 == a :: p in now <==> p in Under(now, a);
    assert forall p: (Uuid, Uuid) | p.0 == a :: p in start <==> p in Under(start, a);
  }

  lemma {:induction false} RunKeepsNested(ls: seq<Label>)
    requires Run(Init(), ls).Some?
    ensures Nested(Run(Init(), ls).value.disk)
  {
    if |ls| > 0 {
      RunKeepsNested(ls[..|ls|-1]);
      var s, l := Run(Init(), ls[..|ls|-1]).value, ls[|ls|-1];
      if l.Advance? {
        ActKeepsNested(s.db, s.disk, l.t, s.tasks[l.t], l.ok);
      }
    }
  }

  lemma ActKeepsNested(db: Db, disk: Disk, t: nat, task: Task, ok: bool)
    requires Nested(disk)
    ensures Nested(Act(db, disk, t, task, ok).disk)
  {
  }

  lemma SweptIsClean(db: Db, disk: Disk)
    requires RowsHaveDirs(db, disk) && disk.tmp == {}
    ensures Clean(db, Swept(db, disk))
  {
    var swept := Swept(db, disk);
    assert swept.apps == db.apps.Keys;
    forall p | p in swept.deployments
      ensures p in (set d | d in db.deployments :: (db.deployments[d].app, d))
    {
      assert p == (db.deployments[p.1].app, p.1);
    }
  }

  /** What startup needs holds wherever the hub was stopped. */
  lemma StartupIsPossible(ls: seq<Label>)
    requires Run(Init(), ls).Some?
    ensures RowsHaveDirs(Run(Init(), ls).value.db, Run(Init(), ls).value.disk) && Nested(Run(Init(), ls).value.disk)
  {
    RunKeepsInv(ls);
    RunKeepsNested(ls);
  }

  /**
   * Wherever the hub was stopped, its startup sweeps leave exactly the directories of the rows and an empty
   * `tmp/`, and take away no directory a row needs.
   */
  lemma SweepsRestoreTheTree(ls: seq<Label>)
    requires Run(Init(), ls).Some?
    ensures var s := Run(Init(), ls).value;
            && Clean(s.db, Swept(s.db, s.disk.(tmp := {})))
            && (forall a | a in s.db.apps :: a in s.disk.apps && a in Swept(s.db, s.disk).apps)
            && (forall d | d in s.db.deployments ::
                  (s.db.deployments[d].app, d) in Swept(s.db, s.disk).deployments)
  {
    RunKeepsInv(ls);
    var s := Run(Init(), ls).value;
    SweptIsClean(s.db, s.disk.(tmp := {}));
  }

  /** `delete_deployment` when nothing else runs and no operation fails. */
  function AfterDelete(db: Db, app: IdText, dep: IdText): Db {
    if FindsApp(db, app) && !IsActiveText(db, app.uuid, dep) && FindsDeployment(db, app.uuid, dep)
    then db.(deployments := db.deployments - {dep.uuid})
    else db
  }

  /**
   * The guard against deleting the active deployment compares texts while the lookup compares ids. A
   * deletion therefore leaves the pointer dangling exactly when it spells the active id some other way.
   */
  lemma DeleteKeepsPointersIff(db: Db, app: IdText, dep: IdText)
    requires Pointers(db)
    ensures Pointers(AfterDelete(db, app, dep)) <==>
            !(FindsApp(db, app) && dep.Spelled? && !dep.canonical && db.apps[app.uuid].active == Some(dep.uuid))
  {
    var after := AfterDelete(db, app, dep);
    if FindsApp(db, app) && dep.Spelled? && db.apps[app.uuid].active == Some(dep.uuid) {
      assert PointsHome(db, app.uuid);
      if !dep.canonical {
        assert !PointsHome(after, app.uuid);
      }
    } else {
      forall a | a in after.apps ensures PointsHome(after, a) {
        assert PointsHome(db, a);
      }
    }
  }

  /** One app, one active deployment, deleted by a spelling of its id that `to_string` would not print. */
  lemma DanglingPointerExample()
    ensures var db := Db(map[1 := AppRow("site", true, Some(2))], map[2 := DeploymentRow(1, Ready, true)]);
            && Pointers(db)
            && !Pointers(AfterDelete(db, Spelled(1, true), Spelled(2, false)))
  {
    var db := Db(map[1 := AppRow("site", true, Some(2))], map[2 := DeploymentRow(1, Ready, true)]);
    assert forall a | a in db.apps :: PointsHome(db, a);
    DeleteKeepsPointersIff(db, Spelled(1, true), Spelled(2, false));
  }

  /** A deletion that can take the directory away: the row is found and not active, and the text names the directory. */
  predicate DirectoryGoes(db: Db, disk: Disk, app: IdText, dep: IdText) {
    && FindsApp(db, app) && FindsDeployment(db, app.uuid, dep) && dep.canonical
    && !IsActiveText(db, app.uuid, dep) && (app.uuid, dep.uuid) in disk.deployments
  }

  /** The request's own steps, taken one after another, delete what `AfterDelete` says. */
  lemma DeleteStepsAlone(db: Db, disk: Disk, t: nat, app: IdText, dep: IdText)
    ensures var found := Act(db, disk, t, DelFindApp(app, dep), true).next.value;
            if found.Unlock? then AfterDelete(db, app, dep) == db
            else
              var checked := Act(db, disk, t, found, true).next.value;
              if checked.Unlock? then AfterDelete(db, app, dep) == db
              else Act(db, disk, t, checked, true).db == AfterDelete(db, app, dep)
  {
  }

  class Storage {
    var db: Db
    var disk: Disk

    /**
     * Everything done to the data directory before the hub serves: the tree then is exactly the rows'. The
     * first operation that fails stops the hub, and leaves it a directory it can be started on again.
     */
    method Startup(f: SweepFaults) returns (r: Result<nat, StoreError>)
      requires RowsHaveDirs(db, disk) && Nested(disk)
      modifies this`disk
      ensures r.Ok? <==> f.clears && Sweepable(db, old(disk), f)
      ensures r.Ok? ==>
                && Clean(db, disk)
                && r.value == |old(disk.apps) - db.apps.Keys|
                              + |set p | p in old(disk.deployments) && p.0 in db.apps
                                         && !(p.1 in db.deployments && db.deployments[p.1].app == p.0)|
      ensures r.Err? ==> RowsHaveDirs(db, disk) && Nested(disk) && OnlyOrphansGone(db, old(disk), disk)
    {
      if !f.clears {
        var left :| left <= disk.tmp;
        disk := disk.(tmp := left);
        return Err(FileSystemFails);
      }
      disk := disk.(tmp := {});
      ghost var start := disk;
      SweptIsClean(db, disk);
      assert OrphanApps(db, disk.apps) == disk.apps - db.apps.Keys;
      assert OrphanDeployments(db, disk.deployments)
          == set p | p in disk.deployments && p.0 in db.apps
                     && !(p.1 in db.deployments && db.deployments[p.1].app == p.0);
      r := SweepOrphanedDirs(f);
      if r.Err? {
        RowsKeepDirs(db, start, disk);
      }
    }

    /** Removes the directories of app `a` that have no row; directories come in any order. */
    method SweepOrphanedDeploymentDirs(a: Uuid, f: SweepFaults) returns (r: Result<nat, StoreError>)
      requires BackedApp(db, a)
      modifies this`disk
      ensures r.Ok? <==> SweepableUnder(db, old(disk.deployments), a, f)
      ensures r.Ok? ==>
                && disk == old(disk).(deployments :=
                     set p | p in old(disk.deployments) && (p.0 == a ==> BackedDeployment(db, a, p.1)))
                && r.value == |OrphanDeployments(db, Under(old(disk.deployments), a))|
      ensures disk.apps == old(disk.apps) && disk.tmp == old(disk.tmp) && OnlyOrphansGone(db, old(disk), disk)
    {
      var removed := 0;
      var todo := Under(disk.deployments, a);
      if !f.listsUnder(a) {
        return Err(FileSystemFails);
      }
      while todo != {}
        invariant todo <= Under(old(disk.deployments), a)
        invariant disk == old(disk).(deployments :=
                    set p | p in old(disk.deployments) && (p.0 == a && p !in todo ==> BackedDeployment(db, a, p.1)))
        invariant removed + |OrphanDeployments(db, todo)| == |OrphanDeployments(db, Under(old(disk.deployments), a))|
        invariant forall p | p in old(disk.deployments) && p.0 == a && p !in todo ::
                    BackedDeployment(db, a, p.1) || f.removesUnder(p)
      {
        var p :| p in todo;
        CountDeployment(db, todo, p);
        todo := todo - {p};
        if !BackedDeployment(db, a, p.1) {
          if !f.removesUnder(p) {
            return Err(FileSystemFails);
          }
          disk := disk.(deployments := disk.deployments - {p});
          removed := removed + 1;
        }
      }
      return Ok(removed);
    }

    /** Leaves exactly the directories that have rows, and counts what it removed. */
    method SweepOrphanedDirs(f: SweepFaults) returns (r: Result<nat, StoreError>)
      requires Nested(disk)
      modifies this`disk
      ensures r.Ok? <==> Sweepable(db, old(disk), f)
      ensures r.Ok? ==>
                && disk == Swept(db, old(disk))
                && r.value == |OrphanApps(db, old(disk.apps))| + |OrphanDeployments(db, old(disk.deployments))|
      ensures disk.tmp == old(disk.tmp) && Nested(disk) && OnlyOrphansGone(db, old(disk), disk)
    {
      if !f.lists {
        return Err(DatabaseFails);
      }
      var removed := 0;
      var todo := disk.apps;
      ghost var start, left := disk, disk.deployments;
      assert disk == PartlySwept(db, start, todo);
      while todo != {}
        invariant todo <= start.apps && disk == PartlySwept(db, start, todo)
        invariant left == set p | p in start.deployments && p.0 in todo
        invariant removed + |OrphanApps(db, todo)| + |OrphanDeployments(db, left)|
                  == |OrphanApps(db, start.apps)| + |OrphanDeployments(db, start.deployments)|
        invariant forall a | a in start.apps - todo :: SweepableApp(db, start, a, f)
      {
        var a :| a in todo;
        SweepOne(db, start, todo, a);
        CountApp(db, todo, a);
        CountUnder(db, left, a);
        SameUnder(db, disk.deployments, start.deployments, a, f);
        assert Under(left, a) == Under(disk.deployments, a);
        todo, left := todo - {a}, left - Under(left, a);
        if BackedApp(db, a) {
          var n := SweepOrphanedDeploymentDirs(a, f);
          if n.Err? {
            return Err(n.error);
          }
          removed := removed + n.value;
        } else {
          if !f.removes(a) {
            ghost var now := disk;
            RemoveSome(a);
            SomeGone(db, start, todo + {a}, a, now, disk);
            return Err(FileSystemFails);
          }
          disk := RemoveAppDir(disk, a);
          removed := removed + 1;
        }
      }
      assert left == {};
      return Ok(removed);
    }

    /** A removal that fails has removed some of what is inside. */
    method RemoveSome(a: Uuid)
      requires !BackedApp(db, a)
      modifies this`disk
      ensures disk.apps == old(disk.apps) && disk.tmp == old(disk.tmp)
      ensures disk.deployments <= old(disk.deployments)
      ensures old(disk.deployments) - disk.deployments <= Under(old(disk.deployments), a)
    {
      var gone :| gone <= Under(disk.deployments, a);
      disk := disk.(deployments := disk.deployments - gone);
    }

    /**
     * `t` names a temporary path that is not in use; the flags say whether deleting the row, moving the
     * directory and removing it succeed.
     */
    method DeleteDeployment(t: nat, app: IdText, dep: IdText, deletes: bool, moves: bool, clears: bool)
      returns (r: Result<(), StoreError>)
      requires t !in disk.tmp
      modifies this
      ensures db == if deletes then AfterDelete(old(db), app, dep) else old(db)
      ensures DirectoryGoes(old(db), old(disk), app, dep) && deletes && moves ==>
                disk == old(disk).(deployments := old(disk.deployments) - {(app.uuid, dep.uuid)},
                                   tmp := if clears then old(disk.tmp) else old(disk.tmp) + {t})
      ensures !(DirectoryGoes(old(db), old(disk), app, dep) && deletes && moves) ==> disk == old(disk)
      ensures r.Ok? <==> DirectoryGoes(old(db), old(disk), app, dep) && deletes && moves && clears
      ensures r == Err(AppNotFound) <==> !FindsApp(old(db), app)
      ensures r == Err(DeleteActiveDeployment) <==> FindsApp(old(db), app) && IsActiveText(old(db), app.uuid, dep)
    {
      if !FindsApp(db, app) {
        return Err(AppNotFound);
      }
      if IsActiveText(db, app.uuid, dep) {
        return Err(DeleteActiveDeployment);
      }
      if !FindsDeployment(db, app.uuid, dep) {
        return Err(DeploymentNotFound);
      }
      if !deletes {
        return Err(DatabaseFails);
      }
      db := db.(deployments := db.deployments - {dep.uuid});

      if !(dep.canonical && (app.uuid, dep.uuid) in disk.deployments) {
        return Err(DeploymentNotFound);
      }
      if !moves {
        return Err(FileSystemFails);
      }
      disk := disk.(deployments := disk.deployments - {(app.uuid, dep.uuid)}, tmp := disk.tmp + {t});
      if !clears {
        return Err(FileSystemFails);
      }
      disk := disk.(tmp := disk.tmp - {t});
      assert disk.tmp == old(disk.tmp);
      return Ok(());
    }
  }
}
