/** What one reconciliation pass achieves, whatever goes wrong in it, and when a second one has nothing to do. */
module ReconcileTheorems {
  import opened Wrappers
  import opened Containers
  import opened Reconcile
  import A = Activation

  /** Rows belong to known apps, and containers are named after their deployments. */
  ghost predicate Consistent(s: Fleet) {
    && (forall a | a in s.apps :: |a| == A.UUID_TEXT_LENGTH)
    && (forall d | d in s.deployments ::
          && |d| == A.UUID_TEXT_LENGTH && s.deployments[d].app in s.apps
          && (s.deployments[d].container.Some? ==>
                s.deployments[d].container.value == A.ContainerName(s.deployments[d].app, d)))
  }

  /** `n` is the container of deployment `d`. */
  predicate Names(s: Fleet, d: string, n: string) {
    d in s.deployments && s.deployments[d].container == Some(n)
  }

  lemma NamesDiffer(s: Fleet, d: string, n: string, e: string, m: string)
    requires Consistent(s) && Names(s, d, n) && Names(s, e, m)
    ensures n == m <==> d == e
    ensures n != InstallContainerName(m)
    ensures InstallContainerName(n) == InstallContainerName(m) <==> d == e
  {
    A.NamesAreDistinct(s.deployments[d].app, d, s.deployments[e].app, e);
    assert InstallContainerName(n)[..|n|] == n && InstallContainerName(m)[..|m|] == m;
  }

  /** A pass looks at deployment `d` when it fails what was interrupted. */
  predicate Visits(s: Fleet, f: Faults, apps: seq<string>, deps: seq<string>, d: string)
    requires d in s.deployments
  {
    var row := s.deployments[d];
    row.app in apps && f.listsDeployments(row.app) && d in deps && row.status == Pending
  }

  // ---- Failing what was interrupted: rows ----------------------------------------------------------

  lemma FailingRow(s: Fleet, a: string, x: string, f: Faults, d: string)
    requires Wired(s) && a in s.apps && x in s.deployments && d in s.deployments
    ensures var row := s.deployments[d];
            Failing(s, a, x, f).deployments[d]
            == if x == d && row.app == a && row.status == Pending && f.updates(d) then row.(status := Failed) else row
  {
  }

  lemma {:induction false} FailingInRow(s: Fleet, a: string, deps: seq<string>, f: Faults, d: string)
    requires Wired(s) && a in s.apps && (forall x | x in deps :: x in s.deployments) && d in s.deployments
    ensures var row := s.deployments[d];
            FailingIn(s, a, deps, f).deployments[d]
            == if row.app == a && row.status == Pending && d in deps && f.updates(d)
               then row.(status := Failed) else row
  {
    if |deps| > 0 {
      FailingInRow(s, a, deps[..|deps|-1], f, d);
      FailingRow(FailingIn(s, a, deps[..|deps|-1], f), a, deps[|deps|-1], f, d);
    }
  }

  lemma {:induction false} FailingAllRow(s: Fleet, apps: seq<string>, deps: seq<string>, f: Faults, d: string)
    requires Wired(s) && (forall x | x in apps :: x in s.apps) && (forall x | x in deps :: x in s.deployments)
    requires d in s.deployments
    ensures FailingAll(s, apps, deps, f).deployments[d]
            == if Visits(s, f, apps, deps, d) && f.updates(d)
               then s.deployments[d].(status := Failed) else s.deployments[d]
  {
    if |apps| > 0 {
      FailingAllRow(s, apps[..|apps|-1], deps, f, d);
      FailingInRow(FailingAll(s, apps[..|apps|-1], deps, f), apps[|apps|-1], deps, f, d);
    }
  }

  // ---- Failing what was interrupted: containers ----------------------------------------------------

  lemma UninstalledIs(e: Engine, n: string, d: string, f: Faults, other: string)
    ensures other != InstallContainerName(n) ==> SameAt(Uninstalled(e, n, d, f), e, other)
    ensures InstallContainerName(n) in Uninstalled(e, n, d, f) <==>
            InstallContainerName(n) in e && !Clears(f, d)
  {
    if other != InstallContainerName(n) {
      StopIsSafe([e], InstallContainerName(n), f.stop(d), other);
    }
  }

  /** The request to remove an install container has its effect. */
  predicate Clears(f: Faults, d: string) {
    f.stopRpc(d) != A.NotSent && f.stop(d).stop == Done && f.stop(d).remove != Refused
  }

  /** No deployment but perhaps `d` has `n` as its install container. */
  ghost predicate OnlyInstalls(s: Fleet, d: string, n: string) {
    forall x | x in s.deployments && x != d && s.deployments[x].container.Some? ::
      InstallContainerName(s.deployments[x].container.value) != n
  }

  lemma FailingSpares(s: Fleet, a: string, x: string, f: Faults, h: Host, d: string, n: string)
    requires Wired(s) && a in s.apps && x in s.deployments && h in s.engines && OnlyInstalls(s, d, n)
    requires x != d || s.deployments[x].app != a
    ensures SameAt(Failing(s, a, x, f).engines[h], s.engines[h], n)
  {
    if s.deployments[x].container.Some? && s.apps[a].host in s.connected {
      UninstalledIs(s.engines[s.apps[a].host], s.deployments[x].container.value, x, f, n);
    }
  }

  lemma {:induction false} FailingInSpares(s: Fleet, a: string, deps: seq<string>, f: Faults, h: Host, d: string,
      n: string)
    requires Wired(s) && a in s.apps && (forall x | x in deps :: x in s.deployments) && h in s.engines
    requires OnlyInstalls(s, d, n) && (d in s.deployments ==> s.deployments[d].app != a)
    ensures SameAt(FailingIn(s, a, deps, f).engines[h], s.engines[h], n)
  {
    if |deps| > 0 {
      FailingInSpares(s, a, deps[..|deps|-1], f, h, d, n);
      FailingSpares(FailingIn(s, a, deps[..|deps|-1], f), a, deps[|deps|-1], f, h, d, n);
    }
  }

  lemma FailingUninstalls(s: Fleet, d: string, n: string, f: Faults)
    requires Wired(s) && Names(s, d, n) && s.deployments[d].app in s.apps
             && s.apps[s.deployments[d].app].host in s.connected
    ensures var a, h, i := s.deployments[d].app, s.apps[s.deployments[d].app].host, InstallContainerName(n);
            i in Failing(s, a, d, f).engines[h] <==>
            i in s.engines[h] && !(s.deployments[d].status == Pending && Clears(f, d))
  {
    UninstalledIs(s.engines[s.apps[s.deployments[d].app].host], n, d, f, n);
  }

  lemma {:induction false} FailingInUninstalls(s: Fleet, deps: seq<string>, f: Faults, d: string, n: string)
    requires Wired(s) && Consistent(s) && (forall x | x in deps :: x in s.deployments) && Names(s, d, n)
    requires s.apps[s.deployments[d].app].host in s.connected && OnlyInstalls(s, d, InstallContainerName(n))
    ensures var a, h, i := s.deployments[d].app, s.apps[s.deployments[d].app].host, InstallContainerName(n);
            i in FailingIn(s, a, deps, f).engines[h] <==>
            i in s.engines[h] && !(d in deps && s.deployments[d].status == Pending && Clears(f, d))
  {
    if |deps| > 0 {
      var a, h, i := s.deployments[d].app, s.apps[s.deployments[d].app].host, InstallContainerName(n);
      var before, x := deps[..|deps|-1], deps[|deps|-1];
      var u := FailingIn(s, a, before, f);
      FailingInUninstalls(s, before, f, d, n);
      FailingInRow(s, a, before, f, d);
      if x == d {
        FailingUninstalls(u, d, n, f);
      } else {
        FailingSpares(u, a, x, f, h, d, i);
      }
    }
  }

  lemma FailingAppUninstalls(s: Fleet, x: string, deps: seq<string>, f: Faults, d: string, n: string)
    requires Wired(s) && Consistent(s) && x in s.apps && (forall y | y in deps :: y in s.deployments) && Names(s, d, n)
    requires s.apps[s.deployments[d].app].host in s.connected && OnlyInstalls(s, d, InstallContainerName(n))
    ensures var h, i := s.apps[s.deployments[d].app].host, InstallContainerName(n);
            i in FailingApp(s, x, deps, f).engines[h] <==>
            i in s.engines[h]
            && !(x == s.deployments[d].app && f.listsDeployments(x) && d in deps
                 && s.deployments[d].status == Pending && Clears(f, d))
  {
    if f.listsDeployments(x) {
      if x == s.deployments[d].app {
        FailingInUninstalls(s, deps, f, d, n);
      } else {
        FailingInSpares(s, x, deps, f, s.apps[s.deployments[d].app].host, d, InstallContainerName(n));
      }
    }
  }

  lemma StillNamed(s: Fleet, t: Fleet, d: string, n: string)
    requires SameTables(s, t) && Consistent(s) && Names(s, d, n)
    ensures Consistent(t) && Names(t, d, n) && t.deployments[d].app == s.deployments[d].app
    ensures OnlyInstalls(s, d, InstallContainerName(n)) ==> OnlyInstalls(t, d, InstallContainerName(n))
  {
  }

  lemma {:induction false} FailingAllUninstalls(s: Fleet, apps: seq<string>, deps: seq<string>, f: Faults, d: string,
      n: string)
    requires Wired(s) && Consistent(s) && (forall x | x in apps :: x in s.apps)
             && (forall x | x in deps :: x in s.deployments)
    requires Names(s, d, n) && s.apps[s.deployments[d].app].host in s.connected
    requires OnlyInstalls(s, d, InstallContainerName(n))
    ensures var h, i := s.apps[s.deployments[d].app].host, InstallContainerName(n);
            i in FailingAll(s, apps, deps, f).engines[h] <==>
            i in s.engines[h] && !(Visits(s, f, apps, deps, d) && Clears(f, d))
  {
    if |apps| > 0 {
      var before, x := apps[..|apps|-1], apps[|apps|-1];
      var u := FailingAll(s, before, deps, f);
      FailingAllUninstalls(s, before, deps, f, d, n);
      FailingAllRow(s, before, deps, f, d);
      StillNamed(s, u, d, n);
      FailingAppUninstalls(u, x, deps, f, d, n);
    }
  }

  lemma {:induction false} FailingAllSpares(s: Fleet, apps: seq<string>, deps: seq<string>, f: Faults, h: Host,
      n: string)
    requires Wired(s) && (forall x | x in apps :: x in s.apps) && (forall x | x in deps :: x in s.deployments)
    requires h in s.engines && OnlyInstalls(s, "", n) && "" !in s.deployments
    ensures SameAt(FailingAll(s, apps, deps, f).engines[h], s.engines[h], n)
  {
    if |apps| > 0 {
      FailingAllSpares(s, apps[..|apps|-1], deps, f, h, n);
      FailingInSpares(FailingAll(s, apps[..|apps|-1], deps, f), apps[|apps|-1], deps, f, h, "", n);
    }
  }

  // ---- Starting what should run -------------------------------------------------------------------

  lemma CommandIsLocal(h: History, k: History, n: string, f: CommandFaults)
    requires |h| > 0 && |k| > 0 && SameAt(Now(h), Now(k), n)
    ensures CommandTrail(h, n, f).r == CommandTrail(k, n, f).r
    ensures SameAt(Now(CommandTrail(h, n, f).h), Now(CommandTrail(k, n, f).h), n)
  {
  }

  lemma LaunchIsLocal(h: History, k: History, n: string, f: StartFaults)
    requires |h| > 0 && |k| > 0 && SameAt(Now(h), Now(k), n)
    ensures SameAt(Now(LaunchTrail(h, n, f).h), Now(LaunchTrail(k, n, f).h), n)
  {
  }

  /** The last state of an operation that leaves `other` alone. */
  lemma LastUntouched(h: History, t: History, other: string)
    requires |h| > 0 && h <= t && Untouched(h, t, other)
    ensures SameAt(Now(t), Now(h), other)
  {
  }

  lemma InstallingIsLocal(e: Engine, g: Engine, n: string, f: StartFaults)
    requires SameAt(e, g, n) && SameAt(e, g, InstallContainerName(n)) && Installs(e, n, true, f)
    ensures SameAt(Started(e, n, true, f), Started(g, n, true, f), n)
    ensures SameAt(Started(e, n, true, f), Started(g, n, true, f), InstallContainerName(n))
  {
    var i := InstallContainerName(n);
    var c, k := CommandTrail([e], i, f.install), CommandTrail([g], i, f.install);
    InstallNameDiffers(n);
    CommandIsLocal([e], [g], i, f.install);
    CommandTouchesOnly([e], i, f.install, n);
    CommandTouchesOnly([g], i, f.install, n);
    LastUntouched([e], c.h, n);
    LastUntouched([g], k.h, n);
    LaunchIsLocal(c.h, k.h, n, f);
    LaunchTouchesOnly(c.h, n, f, i);
    LaunchTouchesOnly(k.h, n, f, i);
    LastUntouched(c.h, LaunchTrail(c.h, n, f).h, i);
    LastUntouched(k.h, LaunchTrail(k.h, n, f).h, i);
  }

  lemma PlainStartIsLocal(e: Engine, g: Engine, n: string, installs: bool, f: StartFaults)
    requires SameAt(e, g, n) && SameAt(e, g, InstallContainerName(n)) && !Installs(e, n, installs, f)
    ensures SameAt(Started(e, n, installs, f), Started(g, n, installs, f), n)
    ensures SameAt(Started(e, n, installs, f), Started(g, n, installs, f), InstallContainerName(n))
  {
    var i := InstallContainerName(n);
    InstallNameDiffers(n);
    LaunchIsLocal([e], [g], n, f);
    LaunchTouchesOnly([e], n, f, i);
    LaunchTouchesOnly([g], n, f, i);
    LastUntouched([e], LaunchTrail([e], n, f).h, i);
    LastUntouched([g], LaunchTrail([g], n, f).h, i);
  }

  /** What a start makes of its two containers depends on nothing but them. */
  lemma StartIsLocal(e: Engine, g: Engine, n: string, installs: bool, f: StartFaults)
    requires SameAt(e, g, n) && SameAt(e, g, InstallContainerName(n))
    ensures SameAt(Started(e, n, installs, f), Started(g, n, installs, f), n)
    ensures SameAt(Started(e, n, installs, f), Started(g, n, installs, f), InstallContainerName(n))
  {
    if Installs(e, n, installs, f) {
      InstallingIsLocal(e, g, n, f);
    } else {
      PlainStartIsLocal(e, g, n, installs, f);
    }
  }

  lemma StartTouchesItsOwn(e: Engine, n: string, installs: bool, f: StartFaults, other: string)
    requires other != n && other != InstallContainerName(n)
    ensures SameAt(Started(e, n, installs, f), e, other)
  {
    StartTouchesOnly([e], n, installs, f, other);
    LastUntouched([e], StartTrail([e], n, installs, f).h, other);
  }

  /** A start that is blocked changes nothing, whatever else happens. */
  lemma BlockedStartIsIdle(e: Engine, n: string, installs: bool, f: StartFaults)
    requires !Unblocked(e, n, installs)
    ensures Started(e, n, installs, f) == e
  {
  }

  /** App `a` runs, and `n` is the container of its active deployment. */
  predicate IsWanted(s: Fleet, a: string, n: string) {
    && a in s.apps && s.apps[a].runs && s.apps[a].active.Some?
    && Names(s, s.apps[a].active.value, n) && s.deployments[s.apps[a].active.value].app == a
  }

  /** A directory that must stay: its name is no id, or a deployment with a container has that id. */
  predicate Belongs(parse: A.Parser, s: Fleet, name: string) {
    parse(name).Some? ==> parse(name).value in s.deployments && s.deployments[parse(name).value].container.Some?
  }

  lemma OtherStartSpares(s: Fleet, b: string, f: Faults, a: string, n: string)
    requires Wired(s) && Consistent(s) && b in s.apps && IsWanted(s, a, n) && a != b && s.apps[a].host in s.connected
    ensures SameAt(Starting(s, b, f).engines[s.apps[a].host], s.engines[s.apps[a].host], n)
    ensures SameAt(Starting(s, b, f).engines[s.apps[a].host], s.engines[s.apps[a].host], InstallContainerName(n))
  {
    if Wanted(s, b).Some? && s.apps[b].host in s.connected {
      var m, e := Wanted(s, b).value, s.engines[s.apps[b].host];
      NamesDiffer(s, s.apps[a].active.value, n, s.apps[b].active.value, m);
      NamesDiffer(s, s.apps[b].active.value, m, s.apps[a].active.value, n);
      StartTouchesItsOwn(e, m, s.apps[b].installs, f.start(b), n);
      StartTouchesItsOwn(e, m, s.apps[b].installs, f.start(b), InstallContainerName(n));
    }
  }

  /** Two engines agree on a container and its install container. */
  predicate SamePair(e: Engine, g: Engine, n: string) {
    SameAt(e, g, n) && SameAt(e, g, InstallContainerName(n))
  }

  /** What an app's own start, if it is asked for, makes of its engine. */
  function Own(e: Engine, n: string, installs: bool, f: Faults, a: string, asked: bool): Engine {
    if asked && Asks(f, a) then Started(e, n, installs, f.start(a)) else e
  }

  lemma SamePairTwice(e: Engine, g: Engine, k: Engine, n: string)
    requires SamePair(e, g, n) && SamePair(g, k, n)
    ensures SamePair(e, k, n)
  {
  }

  lemma StartingIsOwn(s: Fleet, x: string, f: Faults, a: string, n: string)
    requires Wired(s) && Consistent(s) && x in s.apps && IsWanted(s, a, n) && s.apps[a].host in s.connected
    ensures var e := s.engines[s.apps[a].host];
            SamePair(Starting(s, x, f).engines[s.apps[a].host], Own(e, n, s.apps[a].installs, f, a, x == a), n)
  {
    if x != a {
      OtherStartSpares(s, x, f, a, n);
    }
  }

  lemma OwnIsLocal(e: Engine, g: Engine, n: string, installs: bool, f: Faults, a: string, asked: bool)
    requires SamePair(e, g, n)
    ensures SamePair(Own(e, n, installs, f, a, asked), Own(g, n, installs, f, a, asked), n)
  {
    if asked && Asks(f, a) {
      StartIsLocal(e, g, n, installs, f.start(a));
    }
  }

  lemma NoRepeatsBefore(apps: seq<string>)
    requires |apps| > 0 && NoRepeats(apps)
    ensures NoRepeats(apps[..|apps|-1]) && apps[|apps|-1] !in apps[..|apps|-1]
  {
  }

  /** What the starts leave of an app's two containers: what its own start makes of them, if there is one. */
  lemma {:induction false} StartingAllIsOwn(s: Fleet, apps: seq<string>, f: Faults, a: string, n: string)
    requires Wired(s) && Consistent(s) && (forall x | x in apps :: x in s.apps) && NoRepeats(apps)
    requires IsWanted(s, a, n) && s.apps[a].host in s.connected
    ensures var e := s.engines[s.apps[a].host];
            SamePair(StartingAll(s, apps, f).engines[s.apps[a].host], Own(e, n, s.apps[a].installs, f, a, a in apps), n)
  {
    if |apps| > 0 {
      var before, x := apps[..|apps|-1], apps[|apps|-1];
      var u, e, installs := StartingAll(s, before, f), s.engines[s.apps[a].host], s.apps[a].installs;
      var v := u.engines[s.apps[a].host];
      NoRepeatsBefore(apps);
      StartingAllIsOwn(s, before, f, a, n);
      StartingIsOwn(u, x, f, a, n);
      if x == a {
        OwnIsLocal(v, e, n, installs, f, a, true);
      }
      SamePairTwice(Starting(u, x, f).engines[s.apps[a].host], Own(v, n, installs, f, a, x == a),
                    Own(e, n, installs, f, a, a in apps), n);
    }
  }

  // ---- Sweeping the agents ------------------------------------------------------------------------

  lemma {:induction false} SweepingHostKeeps(parse: A.Parser, s: Fleet, h: Host, names: seq<string>, f: Faults,
      g: Host, n: string)
    requires h in s.dirs && g in s.dirs
    ensures n in SweepingHost(parse, s, h, names, f).dirs[g]
            <==> n in s.dirs[g] && !(g == h && n in names && !Belongs(parse, s, n) && f.removes(h, n))
  {
    if |names| > 0 {
      SweepingHostKeeps(parse, s, h, names[..|names|-1], f, g, n);
    }
  }

  lemma {:induction false} SweepingAllKeeps(parse: A.Parser, s: Fleet, hosts: seq<Host>, listing: Host -> seq<string>,
                                            f: Faults,
                                            g: Host, n: string)
    requires (forall h | h in hosts :: h in s.dirs) && g in s.dirs
    ensures n in SweepingAll(parse, s, hosts, listing, f).dirs[g]
            <==> n in s.dirs[g]
                 && !(g in hosts && f.listsDirs(g) && n in listing(g) && !Belongs(parse, s, n) && f.removes(g, n))
  {
    if |hosts| > 0 {
      var last := hosts[|hosts|-1];
      SweepingAllKeeps(parse, s, hosts[..|hosts|-1], listing, f, g, n);
      SweepingHostKeeps(parse, SweepingAll(parse, s, hosts[..|hosts|-1], listing, f), last, listing(last), f, g, n);
    }
  }

  // ---- Theorems --------------------------------------------------------------------------------------

  /**
   * A pass turns a row to failed exactly if it is pending and the listings and its own update succeed; no
   * other row changes, and what goes wrong elsewhere does not matter.
   */
  lemma RowsAfterAPass(parse: A.Parser, s: Fleet, l: Listing, f: Faults, d: string)
    requires Wired(s) && ListsAll(l, s) && Consistent(s) && d in s.deployments
    ensures var row := s.deployments[d];
            Pass(parse, s, l, f).deployments[d]
            == if row.status == Pending && f.listsApps && f.listsDeployments(row.app) && f.updates(d)
               then row.(status := Failed) else row
  {
    FailingAllRow(s, l.apps, l.deployments, f, d);
  }

  /** What the first part of a pass leaves of a wanted container and of its install container. */
  lemma FirstPartIs(s: Fleet, l: Listing, f: Faults, a: string, n: string)
    requires Wired(s) && ListsAll(l, s) && Consistent(s) && IsWanted(s, a, n) && s.apps[a].host in s.connected
    ensures var h, d := s.apps[a].host, s.apps[a].active.value;
            var e, g := s.engines[h], FirstPart(s, l, f).engines[h];
            && SameAt(g, e, n)
            && (InstallContainerName(n) in g <==>
                  InstallContainerName(n) in e
                  && !(f.listsApps && f.listsDeployments(a) && s.deployments[d].status == Pending && Clears(f, d)))
  {
    var d := s.apps[a].active.value;
    forall x | x in s.deployments && s.deployments[x].container.Some?
      ensures InstallContainerName(s.deployments[x].container.value) != n
      ensures x != d ==> InstallContainerName(s.deployments[x].container.value) != InstallContainerName(n)
    {
      NamesDiffer(s, d, n, x, s.deployments[x].container.value);
    }
    FailingAllSpares(s, l.apps, l.deployments, f, s.apps[a].host, n);
    FailingAllUninstalls(s, l.apps, l.deployments, f, d, n);
  }

  lemma StillWanted(s: Fleet, t: Fleet, a: string, n: string)
    requires SameTables(s, t) && Consistent(s) && IsWanted(s, a, n)
    ensures Consistent(t) && IsWanted(t, a, n)
  {
  }

  /** After a pass an app's two containers are as its own start left them, whatever goes wrong for other apps. */
  lemma PassIsOwn(parse: A.Parser, s: Fleet, l: Listing, f: Faults, a: string, n: string)
    requires Wired(s) && ListsAll(l, s) && Consistent(s) && IsWanted(s, a, n) && s.apps[a].host in s.connected
    ensures var e := FirstPart(s, l, f).engines[s.apps[a].host];
            SamePair(Pass(parse, s, l, f).engines[s.apps[a].host],
                     Own(e, n, s.apps[a].installs, f, a, f.listsAppsAgain), n)
  {
    var failed := FirstPart(s, l, f);
    StillWanted(s, failed, a, n);
    StartingAllIsOwn(failed, l.apps, f, a, n);
  }

  /** Nothing goes wrong for deployment `d` of app `a`; anything may for others. */
  predicate GoesWellFor(f: Faults, a: string, d: string) {
    && f.listsApps && f.listsDeployments(a) && Clears(f, d)
    && f.listsAppsAgain && f.prepares(a) && f.startRpc(a) != A.NotSent && f.start(a) == WORKS
  }

  /**
   * What should run on a connected host runs after a pass in which nothing goes wrong for it - if and only
   * if no install container from before is in the way. One is, if it was left behind by an install of a
   * deployment that is not pending.
   */
  lemma WhatShouldRunRunsIff(parse: A.Parser, s: Fleet, l: Listing, f: Faults, a: string, n: string)
    requires Wired(s) && ListsAll(l, s) && Consistent(s) && IsWanted(s, a, n) && s.apps[a].host in s.connected
    requires GoesWellFor(f, a, s.apps[a].active.value)
    ensures var e := s.engines[s.apps[a].host];
            IsRunning(Pass(parse, s, l, f).engines[s.apps[a].host], n) <==>
            Unblocked(e, n, s.apps[a].installs) || s.deployments[s.apps[a].active.value].status == Pending
  {
    FirstPartIs(s, l, f, a, n);
    PassIsOwn(parse, s, l, f, a, n);
    StartWithoutFaults([FirstPart(s, l, f).engines[s.apps[a].host]], n, s.apps[a].installs);
    BlockedOrStarted(FirstPart(s, l, f).engines[s.apps[a].host], n, s.apps[a].installs);
  }

  lemma BlockedOrStarted(e: Engine, n: string, installs: bool)
    ensures IsRunning(Started(e, n, installs, WORKS), n) <==> Unblocked(e, n, installs)
  {
    StartWithoutFaults([e], n, installs);
  }

  /** An app that is blocked stays blocked, pass after pass, whatever happens in them. */
  lemma BlockedStaysBlocked(parse: A.Parser, s: Fleet, l: Listing, f: Faults, a: string, n: string)
    requires Wired(s) && ListsAll(l, s) && Consistent(s) && IsWanted(s, a, n) && s.apps[a].host in s.connected
    requires !Unblocked(s.engines[s.apps[a].host], n, s.apps[a].installs)
    requires s.deployments[s.apps[a].active.value].status != Pending
    ensures var t := Pass(parse, s, l, f);
            && !Unblocked(t.engines[s.apps[a].host], n, s.apps[a].installs) && !IsRunning(t.engines[s.apps[a].host], n)
            && t.deployments[s.apps[a].active.value].status != Pending
  {
    FirstPartIs(s, l, f, a, n);
    PassIsOwn(parse, s, l, f, a, n);
    BlockedStartIsIdle(FirstPart(s, l, f).engines[s.apps[a].host], n, s.apps[a].installs, f.start(a));
    RowsAfterAPass(parse, s, l, f, s.apps[a].active.value);
  }

  /** One ready app, and the install container of its deployment left over on its host. */
  function LeftoverFleet(a: string, d: string): Fleet {
    var n := A.ContainerName(a, d);
    Fleet(map[a := AppRow(true, true, Some(d), 1)], map[d := DeploymentRow(a, Some(n), Ready)], {1},
          map[1 := map[InstallContainerName(n) := Stopped]], map[1 := {}])
  }

  lemma LeftoverFleetIsOk(a: string, d: string)
    requires |a| == |d| == A.UUID_TEXT_LENGTH
    ensures var s, n := LeftoverFleet(a, d), A.ContainerName(a, d);
            && Wired(s) && Consistent(s) && IsWanted(s, a, n) && 1 in s.connected && s.apps[a].host == 1
            && !Unblocked(s.engines[1], n, true) && s.deployments[d].status == Ready
  {
    InstallNameDiffers(A.ContainerName(a, d));
  }

  /** No pass over that fleet, however it goes, starts the app or makes way for it. */
  lemma LeftoverInstallBlocksForEver(parse: A.Parser, a: string, d: string, l: Listing, f: Faults)
    requires |a| == |d| == A.UUID_TEXT_LENGTH && ListsAll(l, LeftoverFleet(a, d))
    ensures Wired(LeftoverFleet(a, d)) && Consistent(LeftoverFleet(a, d))
    ensures var t, n := Pass(parse, LeftoverFleet(a, d), l, f), A.ContainerName(a, d);
            !IsRunning(t.engines[1], n) && !Unblocked(t.engines[1], n, true)
  {
    LeftoverFleetIsOk(a, d);
    BlockedStaysBlocked(parse, LeftoverFleet(a, d), l, f, a, A.ContainerName(a, d));
  }

  lemma SameOwners(parse: A.Parser, s: Fleet, t: Fleet, n: string)
    requires SameTables(s, t)
    ensures Belongs(parse, t, n) == Belongs(parse, s, n)
  {
  }

  /**
   * A directory goes exactly if its name spells an id that no deployment with a container has, its host is
   * connected, and the listings and its own removal succeed.
   */
  lemma ExactlyTheOrphansGo(parse: A.Parser, s: Fleet, l: Listing, f: Faults, h: Host, n: string)
    requires Wired(s) && ListsAll(l, s) && h in s.dirs
    ensures n in Pass(parse, s, l, f).dirs[h] <==>
            n in s.dirs[h]
            && !(h in s.connected && f.listsRows && f.listsDirs(h) && !Belongs(parse, s, n) && f.removes(h, n))
  {
    var restarted := SecondPart(FirstPart(s, l, f), l.apps, f);
    SweepingAllKeeps(parse, restarted, l.hosts, l.dirs, f, h, n);
    SameOwners(parse, s, restarted, n);
  }

  /**
   * A directory whose name is no id, or that of a deployment with a container, is never swept, whatever goes
   * wrong.
   */
  lemma LiveContentStays(parse: A.Parser, s: Fleet, l: Listing, f: Faults, h: Host, n: string)
    requires Wired(s) && ListsAll(l, s) && h in s.dirs && n in s.dirs[h]
    requires parse(n).Some? ==> parse(n).value in s.deployments && s.deployments[parse(n).value].container.Some?
    ensures n in Pass(parse, s, l, f).dirs[h]
  {
    ExactlyTheOrphansGo(parse, s, l, f, h, n);
  }

  /** After a pass without faults, every directory on a connected host that is named by an id has its deployment. */
  lemma OnlyLiveContentIsLeft(parse: A.Parser, s: Fleet, l: Listing, f: Faults, h: Host, n: string)
    requires Wired(s) && ListsAll(l, s) && FaultFree(f) && h in s.connected
    requires n in Pass(parse, s, l, f).dirs[h] && parse(n).Some?
    ensures parse(n).value in s.deployments && s.deployments[parse(n).value].container.Some?
  {
    ExactlyTheOrphansGo(parse, s, l, f, h, n);
  }

  /** An app whose start is not asked for keeps its containers as the first part of the pass leaves them. */
  lemma UnaskedIsLeftAlone(parse: A.Parser, s: Fleet, l: Listing, f: Faults, a: string, n: string)
    requires Wired(s) && ListsAll(l, s) && Consistent(s) && IsWanted(s, a, n) && s.apps[a].host in s.connected
    requires !(f.listsAppsAgain && f.prepares(a) && f.startRpc(a) != A.NotSent)
    ensures SamePair(Pass(parse, s, l, f).engines[s.apps[a].host], FirstPart(s, l, f).engines[s.apps[a].host], n)
  {
    PassIsOwn(parse, s, l, f, a, n);
  }

  lemma {:induction false} FailingInSparesHost(s: Fleet, a: string, deps: seq<string>, f: Faults, h: Host)
    requires Wired(s) && a in s.apps && (forall x | x in deps :: x in s.deployments)
    requires h in s.engines && h !in s.connected
    ensures FailingIn(s, a, deps, f).engines[h] == s.engines[h]
  {
    if |deps| > 0 {
      FailingInSparesHost(s, a, deps[..|deps|-1], f, h);
    }
  }

  lemma {:induction false} FailingAllSparesHost(s: Fleet, apps: seq<string>, deps: seq<string>, f: Faults, h: Host)
    requires Wired(s) && (forall x | x in apps :: x in s.apps) && (forall x | x in deps :: x in s.deployments)
    requires h in s.engines && h !in s.connected
    ensures FailingAll(s, apps, deps, f).engines[h] == s.engines[h]
  {
    if |apps| > 0 {
      FailingAllSparesHost(s, apps[..|apps|-1], deps, f, h);
      FailingInSparesHost(FailingAll(s, apps[..|apps|-1], deps, f), apps[|apps|-1], deps, f, h);
    }
  }

  lemma {:induction false} StartingAllSparesHost(s: Fleet, apps: seq<string>, f: Faults, h: Host)
    requires Wired(s) && (forall x | x in apps :: x in s.apps) && h in s.engines && h !in s.connected
    ensures StartingAll(s, apps, f).engines[h] == s.engines[h]
  {
    if |apps| > 0 {
      StartingAllSparesHost(s, apps[..|apps|-1], f, h);
    }
  }

  /** Nothing happens on a host that is not connected. */
  lemma DisconnectedHostsAreLeftAlone(parse: A.Parser, s: Fleet, l: Listing, f: Faults, h: Host)
    requires Wired(s) && ListsAll(l, s) && h in s.engines && h in s.dirs && h !in s.connected
    ensures Pass(parse, s, l, f).engines[h] == s.engines[h] && Pass(parse, s, l, f).dirs[h] == s.dirs[h]
  {
    FailingAllSparesHost(s, l.apps, l.deployments, f, h);
    StartingAllSparesHost(FirstPart(s, l, f), l.apps, f, h);
    forall n
      ensures n in Pass(parse, s, l, f).dirs[h] <==> n in s.dirs[h]
    {
      ExactlyTheOrphansGo(parse, s, l, f, h, n);
    }
  }

  /** A container that is neither wanted, nor the install container of any deployment. */
  ghost predicate Bystander(s: Fleet, n: string) {
    && (forall a | a in s.apps :: !IsWanted(s, a, n))
    && (forall d | d in s.deployments && s.deployments[d].container.Some? ::
          InstallContainerName(s.deployments[d].container.value) != n)
  }

  lemma StillBystander(s: Fleet, t: Fleet, n: string)
    requires SameTables(s, t) && Bystander(s, n)
    ensures Bystander(t, n)
  {
  }

  lemma StartSparesBystanders(s: Fleet, a: string, f: Faults, h: Host, n: string)
    requires Wired(s) && a in s.apps && h in s.engines && Bystander(s, n)
    ensures SameAt(Starting(s, a, f).engines[h], s.engines[h], n)
  {
    if Wanted(s, a).Some? && s.apps[a].host in s.connected {
      StartTouchesItsOwn(s.engines[s.apps[a].host], Wanted(s, a).value, s.apps[a].installs, f.start(a), n);
    }
  }

  lemma {:induction false} StartingAllSpares(s: Fleet, apps: seq<string>, f: Faults, h: Host, n: string)
    requires Wired(s) && (forall x | x in apps :: x in s.apps) && h in s.engines && Bystander(s, n)
    ensures SameAt(StartingAll(s, apps, f).engines[h], s.engines[h], n)
  {
    if |apps| > 0 {
      StartingAllSpares(s, apps[..|apps|-1], f, h, n);
      StartSparesBystanders(StartingAll(s, apps[..|apps|-1], f), apps[|apps|-1], f, h, n);
    }
  }

  /** A pass leaves every container alone that it has no reason to touch, on every host, whatever goes wrong. */
  lemma BystandersAreLeftAlone(parse: A.Parser, s: Fleet, l: Listing, f: Faults, h: Host, n: string)
    requires Wired(s) && ListsAll(l, s) && Consistent(s) && h in s.engines && Bystander(s, n)
    ensures SameAt(Pass(parse, s, l, f).engines[h], s.engines[h], n)
  {
    var failed := FirstPart(s, l, f);
    FailingAllSpares(s, l.apps, l.deployments, f, h, n);
    StillBystander(s, failed, n);
    StartingAllSpares(failed, l.apps, f, h, n);
  }

  // ---- A second pass ---------------------------------------------------------------------------------

  lemma {:induction false} FailingInIsIdle(s: Fleet, a: string, deps: seq<string>, f: Faults)
    requires Wired(s) && a in s.apps && (forall x | x in deps :: x in s.deployments)
    requires forall d | d in s.deployments :: s.deployments[d].status != Pending
    ensures FailingIn(s, a, deps, f) == s
  {
    if |deps| > 0 {
      FailingInIsIdle(s, a, deps[..|deps|-1], f);
    }
  }

  lemma {:induction false} FailingIsIdle(s: Fleet, apps: seq<string>, deps: seq<string>, f: Faults)
    requires Wired(s) && (forall x | x in apps :: x in s.apps) && (forall x | x in deps :: x in s.deployments)
    requires forall d | d in s.deployments :: s.deployments[d].status != Pending
    ensures FailingAll(s, apps, deps, f) == s
  {
    if |apps| > 0 {
      FailingIsIdle(s, apps[..|apps|-1], deps, f);
      FailingInIsIdle(s, apps[|apps|-1], deps, f);
    }
  }

  /** Starting an app's container again would change nothing: it runs, or it cannot be started. */
  ghost predicate Settled(s: Fleet, a: string)
    requires Wired(s) && a in s.apps
  {
    forall n | IsWanted(s, a, n) && s.apps[a].host in s.connected ::
      var e := s.engines[s.apps[a].host]; IsRunning(e, n) || !Unblocked(e, n, s.apps[a].installs)
  }

  lemma SettledIsIdle(s: Fleet, a: string, f: Faults)
    requires Wired(s) && a in s.apps && Settled(s, a)
    ensures Starting(s, a, f) == s
  {
    if Wanted(s, a).Some? && s.apps[a].host in s.connected {
      var e, n := s.engines[s.apps[a].host], Wanted(s, a).value;
      if IsRunning(e, n) {
        StartSucceeds([e], n, s.apps[a].installs, f.start(a));
      } else {
        BlockedStartIsIdle(e, n, s.apps[a].installs, f.start(a));
      }
    }
  }

  lemma {:induction false} StartingIsIdle(s: Fleet, apps: seq<string>, f: Faults)
    requires Wired(s) && (forall x | x in apps :: x in s.apps) && (forall a | a in s.apps :: Settled(s, a))
    ensures StartingAll(s, apps, f) == s
  {
    if |apps| > 0 {
      StartingIsIdle(s, apps[..|apps|-1], f);
      SettledIsIdle(s, apps[|apps|-1], f);
    }
  }

  lemma SweepingIsIdle(parse: A.Parser, s: Fleet, l: Listing, f: Faults)
    requires Wired(s) && ListsAll(l, s)
    requires forall h, n | h in s.connected && n in s.dirs[h] :: Belongs(parse, s, n)
    ensures SweepingAll(parse, s, l.hosts, l.dirs, f) == s
  {
    var t := SweepingAll(parse, s, l.hosts, l.dirs, f);
    forall h | h in s.dirs
      ensures t.dirs[h] == s.dirs[h]
    {
      forall n
        ensures n in t.dirs[h] <==> n in s.dirs[h]
      {
        SweepingAllKeeps(parse, s, l.hosts, l.dirs, f, h, n);
      }
    }
    assert t.dirs == s.dirs;
  }

  /** Nothing goes wrong at all. */
  ghost predicate FaultFree(f: Faults) {
    && f.listsRows && (forall a, d :: GoesWellFor(f, a, d) && f.updates(d))
    && (forall h :: f.listsDirs(h)) && (forall h, n :: f.removes(h, n))
  }

  lemma OwnSettles(e: Engine, g: Engine, n: string, installs: bool)
    requires SamePair(g, Started(e, n, installs, WORKS), n)
    ensures IsRunning(g, n) || !Unblocked(g, n, installs)
  {
    if Unblocked(e, n, installs) {
      BlockedOrStarted(e, n, installs);
    } else {
      BlockedStartIsIdle(e, n, installs, WORKS);
    }
  }

  /** After a pass without faults, every app is settled. */
  lemma PassSettles(parse: A.Parser, s: Fleet, l: Listing, f: Faults, a: string)
    requires Wired(s) && ListsAll(l, s) && Consistent(s) && FaultFree(f) && a in s.apps
    ensures Settled(Pass(parse, s, l, f), a)
  {
    if Wanted(s, a).Some? && s.apps[a].host in s.connected {
      var n, h := Wanted(s, a).value, s.apps[a].host;
      assert GoesWellFor(f, a, "");
      StillWanted(s, Pass(parse, s, l, f), a, n);
      PassIsOwn(parse, s, l, f, a, n);
      OwnSettles(FirstPart(s, l, f).engines[h], Pass(parse, s, l, f).engines[h], n, s.apps[a].installs);
    }
  }

  lemma PassFailsAllPending(parse: A.Parser, s: Fleet, l: Listing, f: Faults, d: string)
    requires Wired(s) && ListsAll(l, s) && Consistent(s) && FaultFree(f) && d in s.deployments
    ensures Pass(parse, s, l, f).deployments[d].status != Pending
  {
    assert GoesWellFor(f, s.deployments[d].app, d);
    RowsAfterAPass(parse, s, l, f, d);
  }

  lemma PassLeavesNoOrphan(parse: A.Parser, s: Fleet, l: Listing, f: Faults, h: Host, n: string)
    requires Wired(s) && ListsAll(l, s) && FaultFree(f) && h in s.connected
    requires n in Pass(parse, s, l, f).dirs[h]
    ensures Belongs(parse, Pass(parse, s, l, f), n)
  {
    ExactlyTheOrphansGo(parse, s, l, f, h, n);
    SameOwners(parse, s, Pass(parse, s, l, f), n);
  }

  /** Nothing a pass would change. */
  ghost predicate Restful(parse: A.Parser, s: Fleet) {
    && Wired(s)
    && (forall d | d in s.deployments :: s.deployments[d].status != Pending)
    && (forall a | a in s.apps :: Settled(s, a))
    && (forall h, n | h in s.connected && n in s.dirs[h] :: Belongs(parse, s, n))
  }

  lemma RestfulIsIdle(parse: A.Parser, s: Fleet, l: Listing, f: Faults)
    requires Restful(parse, s) && ListsAll(l, s)
    ensures Pass(parse, s, l, f) == s
  {
    FailingIsIdle(s, l.apps, l.deployments, f);
    StartingIsIdle(s, l.apps, f);
    SweepingIsIdle(parse, s, l, f);
  }

  lemma PassBringsRest(parse: A.Parser, s: Fleet, l: Listing, f: Faults)
    requires Wired(s) && ListsAll(l, s) && Consistent(s) && FaultFree(f)
    ensures Restful(parse, Pass(parse, s, l, f))
  {
    var t := Pass(parse, s, l, f);
    forall d | d in t.deployments
      ensures t.deployments[d].status != Pending
    {
      PassFailsAllPending(parse, s, l, f, d);
    }
    forall a | a in t.apps
      ensures Settled(t, a)
    {
      PassSettles(parse, s, l, f, a);
    }
    forall h, n | h in t.connected && n in t.dirs[h]
      ensures Belongs(parse, t, n)
    {
      PassLeavesNoOrphan(parse, s, l, f, h, n);
    }
  }

  /**
   * After a pass without faults a second one changes nothing - in whatever order things are listed then, and
   * whatever goes wrong in it.
   */
  lemma SecondPassIsIdle(parse: A.Parser, s: Fleet, l: Listing, f: Faults, again: Listing, g: Faults)
    requires Wired(s) && ListsAll(l, s) && Consistent(s) && FaultFree(f) && ListsAll(again, Pass(parse, s, l, f))
    ensures Wired(Pass(parse, s, l, f)) && Pass(parse, Pass(parse, s, l, f), again, g) == Pass(parse, s, l, f)
  {
    PassBringsRest(parse, s, l, f);
    RestfulIsIdle(parse, Pass(parse, s, l, f), again, g);
  }

  /** A fleet is at rest if and only if a pass in which all goes well changes nothing of it. */
  lemma RestfulIff(parse: A.Parser, s: Fleet, l: Listing)
    requires Wired(s) && ListsAll(l, s) && Consistent(s)
    ensures Restful(parse, s) <==> Pass(parse, s, l, NoFaults()) == s
  {
    PassBringsRest(parse, s, l, NoFaults());
    if Restful(parse, s) {
      RestfulIsIdle(parse, s, l, NoFaults());
    }
  }
}
