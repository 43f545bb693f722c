/**
 * The per-app lock: which processes go by it, when a lock may be dropped without harm, and which steps
 * of the machine keep the deploys of one app apart. Timelines play no part here.
 */
module Locks {
  import opened Wrappers
  import opened Specs
  import opened Slugs
  import opened Tables
  import opened Protocol

  // ---- the invariant -----------------------------------------------------------------------

  /** Between a successful reservation and the terminal write. */
  predicate Holding(pc: Pc) {
    pc.Queued? || pc.Advancing? || Executing(pc)
  }

  /** Executing stages: the first stage has been recorded, and the terminal write is still to come. */
  predicate Executing(pc: Pc) {
    pc.Starting? || pc.Working? || pc.Succeeding? || pc.Breaking? || pc.Undoing? || pc.Storing? || pc.Finishing?
  }

  predicate Holds(t: Tables, id: int) {
    id in t.deploys && t.deploys[id].app in t.locks && t.locks[t.deploys[id].app] == id
  }

  /** A process that relies on its app's lock: its row is in progress, and it was granted the lock. */
  predicate Active(s: State, id: int) {
    Live(s.t, id) && id in s.procs && (Holding(s.procs[id]) || s.procs[id] == Releasing)
  }

  /** A process whose row has finished: it starts no stage, but may still release the app's lock. */
  predicate Doomed(s: State, id: int) {
    && id in s.t.deploys && !Live(s.t, id)
    && id in s.procs && (s.procs[id].Queued? || s.procs[id].Advancing? || s.procs[id] == Releasing)
  }

  /** Somebody is going to release the app's lock, whoever holds it by then. */
  ghost predicate Window(s: State, app: string) {
    app in s.releases || exists id :: Doomed(s, id) && s.t.deploys[id].app == app
  }

  /** Stages run on rows in progress, and what a stage ends in is an end. */
  ghost predicate ExecutingIsLive(s: State) {
    forall id | id in s.procs && Executing(s.procs[id]) ::
      Live(s.t, id) && (s.procs[id].Finishing? ==> s.procs[id].status != InProgress)
  }

  /** Every lock names a deploy of its app. */
  ghost predicate LocksNamed(s: State) {
    forall app | app in s.t.locks :: s.t.locks[app] in s.t.deploys && s.t.deploys[s.t.locks[app]].app == app
  }

  ghost predicate HoldersHold(s: State) {
    forall id | Active(s, id) :: Holds(s.t, id)
  }

  /** In the window, nobody relies on the lock of the app. */
  ghost predicate WindowsClear(s: State) {
    forall app | app in s.t.locks && Window(s, app) :: !Active(s, s.t.locks[app])
  }

  ghost predicate LocksAgree(s: State) {
    && Consistent(s.t) && s.procs.Keys <= s.t.deploys.Keys
    && ExecutingIsLive(s) && LocksNamed(s) && HoldersHold(s) && WindowsClear(s)
  }

  /**
   * The two conditions lock safety needs. A live deploy is granted the lock outside the window between
   * a terminal transaction of the app and the release that follows it; and a reconciler finishes only a
   * row that is not executing stages, while no other process relies on the lock it will release.
   */
  ghost predicate Clean(s: State, step: Step) {
    match step
    case Own(id, TryLock) =>
      Live(s.t, id) && s.t.deploys[id].app !in s.t.locks ==> !Window(s, s.t.deploys[id].app)
    case RecFinish(id, _) =>
      && (id in s.procs ==> !Executing(s.procs[id]))
      && (id in s.t.deploys && s.t.deploys[id].app in s.t.locks && s.t.locks[s.t.deploys[id].app] != id ==>
            !Active(s, s.t.locks[s.t.deploys[id].app]))
    case _ => true
  }

  // ---- the steps that keep it --------------------------------------------------------------

  /** Acts that leave the locks table alone. */
  predicate KeepsLocks(act: Act) {
    !act.TryLock? && !act.Finish? && !act.HookFinish? && !act.Release?
  }

  lemma KeptLocks(s: State, id: int, act: Act)
    requires LocksAgree(s) && id in s.procs && DoOwn(s, id, act).Some? && KeepsLocks(act)
    ensures var u := DoOwn(s, id, act).value;
            && u.t.locks == s.t.locks
            && (Active(u, id) ==> Active(s, id)) && (Doomed(u, id) ==> Doomed(s, id))
            && (id in u.procs && Executing(u.procs[id]) ==>
                  Live(u.t, id) && (u.procs[id].Finishing? ==> u.procs[id].status != InProgress))
  {
    hide SlugTaken;
    hide HoldersHold;
    hide WindowsClear;
    hide LocksNamed;
    hide Consistent;
  }

  /** A step of one process, seen from any other. */
  lemma OthersStay(s: State, id: int, act: Act, k: int)
    requires LocksAgree(s) && id in s.procs && DoOwn(s, id, act).Some? && k != id
    ensures var u := DoOwn(s, id, act).value;
            Active(u, k) == Active(s, k) && Doomed(u, k) == Doomed(s, k) && PcOf(u, k) == PcOf(s, k)
                && Live(u.t, k) == Live(s.t, k)
  {
    hide DoOwn;
    OwnLog(s, id, act);
    OwnProcs(s, id, act);
  }

  lemma StepStaysConsistent(s: State, step: Step)
    requires Consistent(s.t) && Do(s, step).Some?
    ensures Consistent(Do(s, step).value.t)
  {
    match step {
      case Own(id, act) =>
        hide DoOwn;
        hide Emits;
        OwnLog(s, id, act);
      case _ =>
    }
  }

  /** What is left to show of a step of one process, once its own part is known. */
  lemma OwnLocks(s: State, id: int, act: Act)
    requires LocksAgree(s) && id in s.procs && DoOwn(s, id, act).Some?
    requires var u := DoOwn(s, id, act).value;
             && LocksNamed(u)
             && (id in u.procs && Executing(u.procs[id]) ==>
                   Live(u.t, id) && (u.procs[id].Finishing? ==> u.procs[id].status != InProgress))
             && (Active(u, id) ==> Holds(u.t, id))
             && (forall k | k != id && Active(s, k) :: Holds(u.t, k))
             && WindowsClear(u)
    ensures LocksAgree(DoOwn(s, id, act).value)
  {
    hide DoOwn;
    hide Consistent;
    StepStaysConsistent(s, Own(id, act));
    OwnLog(s, id, act);
    OwnProcs(s, id, act);
    var u := DoOwn(s, id, act).value;
    forall k | k in u.procs && Executing(u.procs[k])
      ensures Live(u.t, k) && (u.procs[k].Finishing? ==> u.procs[k].status != InProgress)
    {
      if k != id {
        OthersStay(s, id, act, k);
      }
    }
    forall k | Active(u, k) ensures Holds(u.t, k) {
      if k != id {
        OthersStay(s, id, act, k);
      }
    }
  }

  /** The window after a step of one process, when that process was in it before or is not in it after. */
  lemma SameWindow(s: State, id: int, act: Act, app: string)
    requires LocksAgree(s) && id in s.procs && DoOwn(s, id, act).Some?
    requires Doomed(DoOwn(s, id, act).value, id) ==> Doomed(s, id)
    ensures Window(DoOwn(s, id, act).value, app) ==> Window(s, app)
  {
    hide DoOwn;
    hide HoldersHold;
    hide WindowsClear;
    hide Consistent;
    var u := DoOwn(s, id, act).value;
    OwnLog(s, id, act);
    OwnProcs(s, id, act);
    if k :| Doomed(u, k) && u.t.deploys[k].app == app {
      if k != id {
        OthersStay(s, id, act, k);
      }
      assert Doomed(s, k) && s.t.deploys[k].app == app;
    }
  }

  lemma KeepingKeepsLocks(s: State, id: int, act: Act)
    requires LocksAgree(s) && id in s.procs && DoOwn(s, id, act).Some? && KeepsLocks(act)
    ensures LocksAgree(DoOwn(s, id, act).value)
  {
    hide DoOwn;
    hide Window;
    hide Consistent;
    var u := DoOwn(s, id, act).value;
    KeptLocks(s, id, act);
    OwnLog(s, id, act);
    OwnProcs(s, id, act);
    forall app | app in u.t.locks && Window(u, app) ensures !Active(u, u.t.locks[app]) {
      SameWindow(s, id, act, app);
      if u.t.locks[app] != id {
        OthersStay(s, id, act, u.t.locks[app]);
      }
    }
    OwnLocks(s, id, act);
  }

  /** A grant to a live deploy outside the window, or to one that will run no stage. */
  lemma GrantKeepsLocks(s: State, id: int)
    requires LocksAgree(s) && id in s.procs && DoOwn(s, id, TryLock).Some? && Clean(s, Own(id, TryLock))
    ensures LocksAgree(DoOwn(s, id, TryLock).value)
  {
    hide Consistent;
    var u, app := DoOwn(s, id, TryLock).value, s.t.deploys[id].app;
    forall a | a in u.t.locks && Window(u, a) ensures !Active(u, u.t.locks[a]) {
      if Live(s.t, id) {
        SameWindow(s, id, TryLock, a);
      } else if a != app {
        assert Window(s, a) by {
          if k :| Doomed(u, k) && u.t.deploys[k].app == a {
            OthersStay(s, id, TryLock, k);
          }
        }
      }
      if u.t.locks[a] != id {
        OthersStay(s, id, TryLock, u.t.locks[a]);
      }
    }
    OwnLocks(s, id, TryLock);
  }

  /** The deploy-scoped delete frees this deploy's lock and no other. */
  lemma FinishKeepsLocks(s: State, id: int, act: Act)
    requires LocksAgree(s) && id in s.procs && DoOwn(s, id, act).Some? && (act == Finish || act == HookFinish)
    ensures LocksAgree(DoOwn(s, id, act).value)
  {
    hide Consistent;
    var u, app := DoOwn(s, id, act).value, s.t.deploys[id].app;
    assert u.t.locks == DropLocksOf(s.t.locks, id) && !Live(u.t, id);
    forall a | a in u.t.locks && Window(u, a) ensures !Active(u, u.t.locks[a]) {
      var k := u.t.locks[a];
      OthersStay(s, id, act, k);
      if a == app {
        assert act == Finish ==> Holds(s.t, id);
      }
      if act == HookFinish || a != app {
        assert Window(s, a) by {
          if j :| Doomed(u, j) && u.t.deploys[j].app == a {
            OthersStay(s, id, act, j);
            assert Doomed(s, j);
          }
        }
      }
    }
    OwnLocks(s, id, act);
  }

  /** The app-scoped release takes no lock that anybody else relies on. */
  lemma ReleaseKeepsLocks(s: State, id: int)
    requires LocksAgree(s) && id in s.procs && DoOwn(s, id, Release).Some?
    ensures LocksAgree(DoOwn(s, id, Release).value)
  {
    hide Consistent;
    var u, app := DoOwn(s, id, Release).value, s.t.deploys[id].app;
    assert Active(s, id) || Doomed(s, id);
    assert Active(s, id) || Window(s, app);
    forall k | k != id && Active(s, k) ensures Holds(u.t, k) {
      assert Holds(s.t, k);
    }
    forall a | a in u.t.locks && Window(u, a) ensures !Active(u, u.t.locks[a]) {
      SameWindow(s, id, Release, a);
    }
    OwnLocks(s, id, Release);
  }

  lemma CreateKeepsLocks(s: State, app: string, pc: Pc)
    requires LocksAgree(s) && (pc == Locking || pc == Refusing)
    ensures LocksAgree(Create(s, app, pc))
  {
    var u := Create(s, app, pc);
    assert s.t.nextDeploy !in s.t.deploys;
    forall a | Window(u, a) ensures Window(s, a) {
      if k :| Doomed(u, k) && u.t.deploys[k].app == a {
        assert Doomed(s, k);
      }
    }
    forall k | Active(u, k) ensures Holds(u.t, k) {
      assert Active(s, k);
    }
  }

  lemma RecoverKeepsLocks(s: State, id: int, status: Status)
    requires LocksAgree(s) && Clean(s, RecFinish(id, status)) && Do(s, RecFinish(id, status)).Some?
    ensures LocksAgree(Do(s, RecFinish(id, status)).value)
  {
    hide Consistent;
    var u, app := Do(s, RecFinish(id, status)).value, s.t.deploys[id].app;
    StepStaysConsistent(s, RecFinish(id, status));
    assert u.t.locks == DropLocksOf(s.t.locks, id) && !Live(u.t, id);
    forall k | Active(u, k) ensures Holds(u.t, k) {
      assert Active(s, k);
    }
    forall a | a in u.t.locks && Window(u, a) ensures !Active(u, u.t.locks[a]) {
      if a != app {
        assert Window(s, a) by {
          if k :| Doomed(u, k) && u.t.deploys[k].app == a {
            assert Doomed(s, k);
          }
        }
      }
    }
  }

  /** The orphan pass takes exactly the locks of finished deploys, and so none that anybody relies on. */
  lemma SweepKeepsLocks(s: State)
    requires LocksAgree(s)
    ensures LocksAgree(Do(s, OrphanPass).value)
    ensures forall app | app in s.t.locks :: app in Do(s, OrphanPass).value.t.locks <==>
              Live(s.t, s.t.locks[app]) || s.t.locks[app] !in s.t.deploys
  {
    forall app | app in s.t.locks ensures app in Do(s, OrphanPass).value.t.locks <==>
        Live(s.t, s.t.locks[app]) || s.t.locks[app] !in s.t.deploys {
      OrphanPassSparesTheLiving(s.t, app);
    }
    hide Consistent;
    StepStaysConsistent(s, OrphanPass);
    var u := Do(s, OrphanPass).value;
    forall a | Window(u, a) ensures Window(s, a) {
      if k :| Doomed(u, k) && u.t.deploys[k].app == a {
        assert Doomed(s, k);
      }
    }
    forall k | Active(u, k) ensures Holds(u.t, k) {
      assert Active(s, k);
    }
  }

  lemma RecReleaseKeepsLocks(s: State, app: string)
    requires LocksAgree(s) && app in s.releases
    ensures LocksAgree(Do(s, RecRelease(app)).value)
    ensures LocksAgree(Do(s, RecCrash(app)).value)
  {
    hide Consistent;
    StepStaysConsistent(s, RecRelease(app));
    assert Window(s, app);
    var u, v := Do(s, RecRelease(app)).value, Do(s, RecCrash(app)).value;
    forall a | Window(u, a) || Window(v, a) ensures Window(s, a) {
      if a !in s.releases {
        var k :| Doomed(s, k) && s.t.deploys[k].app == a;
      }
    }
    forall k | Active(u, k) ensures Holds(u.t, k) {
      assert Active(s, k);
    }
    forall k | Active(v, k) ensures Holds(v.t, k) {
      assert Active(s, k);
    }
  }

  /** An unclean step leaves a lock that somebody relies on to be released by somebody else. */
  lemma UncleanBreaksLocks(s: State, step: Step)
    requires LocksAgree(s) && !Clean(s, step) && Do(s, step).Some?
    ensures !LocksAgree(Do(s, step).value)
  {
    hide Consistent;
    var u := Do(s, step).value;
    match step {
      case Own(id, act) =>
        var app := s.t.deploys[id].app;
        assert Active(u, id) && u.t.locks[app] == id;
        if app !in s.releases {
          var k :| Doomed(s, k) && s.t.deploys[k].app == app;
          assert Doomed(u, k);
        }
        assert Window(u, app);
      case RecFinish(id, _) =>
        var app := s.t.deploys[id].app;
        if id in s.procs && Executing(s.procs[id]) {
          assert Executing(u.procs[id]) && !Live(u.t, id);
        } else {
          assert Window(u, app) && Active(u, s.t.locks[app]);
        }
    }
  }

  /**
   * The clean steps are exactly those that keep the locks in agreement with the processes that rely on
   * them.
   */
  lemma StepKeepsLocks(s: State, step: Step)
    requires LocksAgree(s) && Do(s, step).Some?
    ensures LocksAgree(Do(s, step).value) <==> Clean(s, step)
  {
    hide LocksAgree;
    hide DoOwn;
    if !Clean(s, step) {
      UncleanBreaksLocks(s, step);
      return;
    }
    match step {
      case Reserve(app) => CreateKeepsLocks(s, app, Locking);
      case Refuse(app) => CreateKeepsLocks(s, app, Refusing);
      case Own(id, TryLock) => GrantKeepsLocks(s, id);
      case Own(id, Finish) => FinishKeepsLocks(s, id, Finish);
      case Own(id, HookFinish) => FinishKeepsLocks(s, id, HookFinish);
      case Own(id, Release) => ReleaseKeepsLocks(s, id);
      case Own(id, act) => KeepingKeepsLocks(s, id, act);
      case RecFinish(id, status) => RecoverKeepsLocks(s, id, status);
      case RecRelease(app) => RecReleaseKeepsLocks(s, app);
      case RecCrash(app) => RecReleaseKeepsLocks(s, app);
      case OrphanPass => SweepKeepsLocks(s);
    }
  }
}
