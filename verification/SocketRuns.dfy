/** Any number of daemons, crashes at any step: at most one serves. */
module SocketRuns {
  import opened Options
  import opened Socket

  predicate Locking(a: Act) { a.Open? || a.TryLock? || a.ReadPid? }

  predicate Naming(a: Act) { a.Truncate? || a.WritePid? || a.Lstat? || a.Dial? }

  predicate Binding(a: Act) { a.RemoveStale? || a.Bind? || a.Listen? || a.Chmod? }

  predicate Leaving(a: Act) { a.Crash? || a.Exit? }

  predicate Closing(a: Act) { a.UnlinkListener? || a.CloseListener? || a.Remove? || a.Release? }

  lemma {:induction false} LockingProcess(w: World, a: Act, q: Pid)
    requires Inv(w) && Locking(a)
    ensures ProcessOk(Step(w, a), q)
  {
    assert ProcessOk(w, q) && ProcessOk(w, a.p);
  }

  lemma {:induction false} NamingProcess(w: World, a: Act, q: Pid)
    requires Inv(w) && Naming(a)
    ensures ProcessOk(Step(w, a), q)
  {
    assert ProcessOk(w, q) && ProcessOk(w, a.p);
  }

  lemma {:induction false} BindingProcess(w: World, a: Act, q: Pid)
    requires Inv(w) && Binding(a)
    ensures ProcessOk(Step(w, a), q)
  {
    assert ProcessOk(w, q) && ProcessOk(w, a.p);
  }

  lemma {:induction false} ClosingProcess(w: World, a: Act, q: Pid)
    requires Inv(w) && Closing(a)
    ensures ProcessOk(Step(w, a), q)
  {
    assert ProcessOk(w, q) && ProcessOk(w, a.p);
  }

  lemma {:induction false} LeavingProcess(w: World, a: Act, q: Pid)
    requires Inv(w) && Leaving(a)
    ensures ProcessOk(Step(w, a), q)
  {
    assert ProcessOk(w, q) && ProcessOk(w, a.p);
  }

  lemma {:induction false} LockingFiles(w: World, a: Act)
    requires Inv(w) && Locking(a)
    ensures FilesOk(Step(w, a))
  {
    assert ProcessOk(w, a.p);
  }

  lemma {:induction false} NamingFiles(w: World, a: Act)
    requires Inv(w) && Naming(a)
    ensures FilesOk(Step(w, a))
  {
    assert ProcessOk(w, a.p);
  }

  lemma {:induction false} BindingFiles(w: World, a: Act)
    requires Inv(w) && Binding(a)
    ensures FilesOk(Step(w, a))
  {
    assert ProcessOk(w, a.p);
  }

  lemma {:induction false} ClosingFiles(w: World, a: Act)
    requires Inv(w) && Closing(a)
    ensures FilesOk(Step(w, a))
  {
    assert ProcessOk(w, a.p);
  }

  lemma {:induction false} LeavingFiles(w: World, a: Act)
    requires Inv(w) && Leaving(a)
    ensures FilesOk(Step(w, a))
  {
  }

  lemma {:induction false} StepKeeps(w: World, a: Act)
    requires Inv(w) && !a.CloseAgain?
    ensures Inv(Step(w, a))
  {
    hide Step, ProcessOk;
    forall q ensures ProcessOk(Step(w, a), q) {
      if Locking(a) { LockingProcess(w, a, q); }
      else if Naming(a) { NamingProcess(w, a, q); }
      else if Binding(a) { BindingProcess(w, a, q); }
      else if Closing(a) { ClosingProcess(w, a, q); }
      else { LeavingProcess(w, a, q); }
    }
    if Locking(a) { LockingFiles(w, a); }
    else if Naming(a) { NamingFiles(w, a); }
    else if Binding(a) { BindingFiles(w, a); }
    else if Closing(a) { ClosingFiles(w, a); }
    else { LeavingFiles(w, a); }
  }

  lemma {:induction false} RunKeeps(w: World, acts: seq<Act>)
    requires Inv(w) && ClosedOnce(acts)
    ensures Inv(RunFrom(w, acts))
  {
    if acts != [] {
      RunKeeps(w, acts[..|acts| - 1]);
      StepKeeps(RunFrom(w, acts[..|acts| - 1]), acts[|acts| - 1]);
    }
  }

  // ---- at most one daemon ----

  /** What serving is worth: q has the lock, the socket path is its own live socket,
      the pid file names it, and nobody else serves. */
  ghost predicate Rules(w: World, q: Pid) {
    var pc := w.At(q);
    && pc.Serving? && w.lock == Some(q) && w.pidText == Some(q)
    && w.path == Some(pc.ino) && pc.ino in w.live && w.live[pc.ino] == q
    && forall r :: r != q ==> !Holds(w.At(r))
  }

  lemma {:induction false} AtMostOneDaemon(acts: seq<Act>, q: Pid)
    requires ClosedOnce(acts) && RunFrom(START, acts).At(q).Serving?
    ensures Rules(RunFrom(START, acts), q)
  {
    RunKeeps(START, acts);
    ServingRules(RunFrom(START, acts), q);
  }

  lemma {:induction false} ServingRules(w: World, q: Pid)
    requires Inv(w) && w.At(q).Serving?
    ensures Rules(w, q)
  {
    assert ProcessOk(w, q);
    forall r | r != q ensures !Holds(w.At(r)) {
      assert ProcessOk(w, r);
    }
  }

  /** A process that was refused the lock while somebody serves reads that daemon's pid. */
  lemma {:induction false} RefusalNamesTheDaemon(acts: seq<Act>, p: Pid, q: Pid)
    requires ClosedOnce(acts)
    requires var w := RunFrom(START, acts); w.At(p) == Refused && w.At(q).Serving?
    ensures RunFrom(START, acts).pidText == Some(q)
  {
    AtMostOneDaemon(acts, q);
  }

  /** Whatever a step unlinks is its own socket, or one whose daemon is gone or going;
      and the os.Remove of Close itself finds nothing to remove. */
  lemma {:induction false} UnlinksOnlyItsOwn(acts: seq<Act>, a: Act)
    requires ClosedOnce(acts) && !a.CloseAgain?
    requires RunFrom(START, acts).path.Some? && Step(RunFrom(START, acts), a).path != RunFrom(START, acts).path
    ensures var w := RunFrom(START, acts);
      || (a.RemoveStale? && Abandoned(w, w.path.value))
      || (a.UnlinkListener? && HasFile(w.At(a.p)) && w.At(a.p).ino == w.path.value)
  {
    RunKeeps(START, acts);
    Unlinks(RunFrom(START, acts), a);
  }

  /** Nobody listens at i but, perhaps, a crashed process whose listener is still to be
      closed. */
  predicate Abandoned(w: World, i: Ino) { i in w.live ==> w.At(w.live[i]) == Dying }

  /** Whoever listens has the lock or is dying. */
  lemma {:induction false} OwnersHold(w: World)
    requires Inv(w)
    ensures forall i :: i in w.live && !Abandoned(w, i) ==> w.lock == Some(w.live[i]) && Accepts(w.At(w.live[i]))
  {
    forall i | i in w.live && !Abandoned(w, i) ensures w.lock == Some(w.live[i]) {
      assert ProcessOk(w, w.live[i]);
    }
  }

  lemma {:induction false} Unlinks(w: World, a: Act)
    requires Inv(w) && !a.CloseAgain? && w.path.Some? && Step(w, a).path != w.path
    ensures || (a.RemoveStale? && Abandoned(w, w.path.value))
            || (a.UnlinkListener? && HasFile(w.At(a.p)) && w.At(a.p).ino == w.path.value)
  {
    assert ProcessOk(w, a.p);
    OwnersHold(w);
  }

  /** Under the lock, a socket left at the path is a dead daemon's, or a dying one's. */
  lemma {:induction false} LeftoverIsDead(w: World, p: Pid)
    requires Inv(w) && (w.At(p) == Named || w.At(p) == Found)
    ensures w.path.Some? ==> Abandoned(w, w.path.value)
  {
    assert ProcessOk(w, p);
    OwnersHold(w);
  }

  /** So a dial under the lock is answered exactly while the exit of a crashed daemon is
      under way whose socket is at the path: between the closing of its lock file and
      that of its listener. */
  lemma {:induction false} AnsweredByTheDying(w: World, p: Pid)
    requires Inv(w) && w.At(p) == Found
    ensures Step(w, Dial(p, true)).At(p) == GivingUp <==>
      w.path.Some? && w.path.value in w.live && w.At(w.live[w.path.value]) == Dying
  {
    LeftoverIsDead(w, p);
  }

  // ---- starting and stopping undisturbed ----

  /** The calls of a Listen in which nothing fails. */
  function StartUp(p: Pid): seq<Act> {
    [Open(p), TryLock(p), Truncate(p, true), WritePid(p, true), Lstat(p, true), Dial(p, true),
     RemoveStale(p, true), Bind(p, true), Listen(p, true), Chmod(p, true)]
  }

  function ShutDown(p: Pid): seq<Act> { [UnlinkListener(p), CloseListener(p), Remove(p), Release(p)] }

  lemma {:induction false} RunNext(w: World, acts: seq<Act>, n: nat)
    requires n < |acts|
    ensures RunFrom(w, acts[..n + 1]) == Step(RunFrom(w, acts[..n]), acts[n])
  {
    assert acts[..n + 1][..n] == acts[..n];
  }

  lemma {:induction false} RunConcat(w: World, a: seq<Act>, b: seq<Act>)
    ensures RunFrom(w, a + b) == RunFrom(RunFrom(w, a), b)
  {
    if b == [] {
      assert a + b == a;
    } else {
      assert (a + b)[..|a + b| - 1] == a + b[..|b| - 1];
      RunConcat(w, a, b[..|b| - 1]);
    }
  }

  /** Only p has moved since w. */
  ghost predicate OnlyMoved(w: World, v: World, p: Pid) { forall q :: q != p ==> v.At(q) == w.At(q) }

  lemma {:induction false} OthersStay(w: World, a: Act, q: Pid)
    requires q != a.p
    ensures Step(w, a).At(q) == w.At(q)
  {
  }

  lemma {:induction false} StepMovesOne(w: World, v: World, a: Act)
    requires OnlyMoved(w, v, a.p)
    ensures OnlyMoved(w, Step(v, a), a.p)
  {
    hide Step;
    forall q | q != a.p ensures Step(v, a).At(q) == w.At(q) {
      OthersStay(v, a, q);
    }
  }

  lemma {:induction false} RunMovesOne(w: World, acts: seq<Act>, p: Pid)
    requires forall i :: 0 <= i < |acts| ==> acts[i].p == p
    ensures OnlyMoved(w, RunFrom(w, acts), p)
  {
    if acts != [] {
      hide Step, OnlyMoved;
      RunMovesOne(w, acts[..|acts| - 1], p);
      StepMovesOne(w, RunFrom(w, acts[..|acts| - 1]), acts[|acts| - 1]);
    } else {
      NobodyMoved(w, p);
    }
  }

  lemma {:induction false} NobodyMoved(w: World, p: Pid)
    ensures OnlyMoved(w, w, p)
  {
  }

  lemma {:induction false} TakesLock(w: World, p: Pid)
    requires w.lock == None && w.At(p) == Out
    ensures RunFrom(w, StartUp(p)[..2]) == w.(lock := Some(p), pcs := w.pcs[p := Opened][p := Locked])
  {
    var acts := StartUp(p);
    RunNext(w, acts, 0);
    RunNext(w, acts, 1);
    assert acts[..0] == [] && RunFrom(w, []) == w;
  }

  lemma {:induction false} LocksUp(w: World, p: Pid)
    requires w.lock == None && w.At(p) == Out
    ensures var v := RunFrom(w, StartUp(p)[..4]); v.At(p) == Named && v.path == w.path && v.live == w.live
  {
    hide RunFrom;
    var acts := StartUp(p);
    TakesLock(w, p);
    RunNext(w, acts, 2);
    RunNext(w, acts, 3);
    var w3 := RunFrom(w, acts[..3]);
    assert w3.At(p) == Truncated && w3.path == w.path && w3.live == w.live;
  }

  lemma {:induction false} ClearsPath(w: World, p: Pid)
    requires RunFrom(w, StartUp(p)[..4]).At(p) == Named
    requires var v := RunFrom(w, StartUp(p)[..4]); v.path.Some? ==> v.path.value !in v.live
    ensures var v := RunFrom(w, StartUp(p)[..7]); v.At(p) == Ready && v.path == None
  {
    hide RunFrom;
    var acts := StartUp(p);
    RunNext(w, acts, 4);
    RunNext(w, acts, 5);
    RunNext(w, acts, 6);
    var w4, w5, w6 := RunFrom(w, acts[..4]), RunFrom(w, acts[..5]), RunFrom(w, acts[..6]);
    if w4.path.Some? {
      assert w5.At(p) == Found && w5.path == w4.path && w5.live == w4.live;
      assert w6.At(p) == Stale;
    } else {
      assert w5.At(p) == Ready && w5.path == None;
      assert w6 == w5;
    }
  }

  lemma {:induction false} Binds(w: World, p: Pid)
    requires var v := RunFrom(w, StartUp(p)[..7]); v.At(p) == Ready && v.path == None
    ensures RunFrom(w, StartUp(p)).At(p).Serving?
  {
    hide RunFrom;
    var acts := StartUp(p);
    RunNext(w, acts, 7);
    RunNext(w, acts, 8);
    RunNext(w, acts, 9);
    assert acts[..10] == acts;
    assert RunFrom(w, acts[..8]).At(p).Bound?;
    assert RunFrom(w, acts[..9]).At(p).Listening?;
  }

  /** Whenever the lock is free and no exit is under way, an undisturbed Listen ends up
      serving: no crash leaves anything behind that stops a later daemon. */
  lemma {:induction false} StartsUp(w: World, p: Pid)
    requires Inv(w) && w.lock == None && w.At(p) == Out && forall q :: w.At(q) != Dying
    ensures RunFrom(w, StartUp(p)).At(p).Serving? && OnlyMoved(w, RunFrom(w, StartUp(p)), p)
  {
    hide Step, RunFrom;
    LocksUp(w, p);
    OwnersHold(w);
    ClearsPath(w, p);
    Binds(w, p);
    RunMovesOne(w, StartUp(p), p);
  }

  /** It does happen: a daemon starts and crashes, and before its listener is closed
      another process takes the lock, finds the socket, and is answered. */
  lemma {:induction false} DyingDaemonAnswers(p: Pid, q: Pid)
    requires p != q
    ensures var acts := StartUp(p) + [Crash(p)] + StartUp(q)[..5];
      var w := RunFrom(START, acts);
      ClosedOnce(acts) && w.At(q) == Found && Step(w, Dial(q, true)).At(q) == GivingUp
  {
    hide Step, RunFrom, Inv, OnlyMoved;
    var up, first := StartUp(p), StartUp(q)[..5];
    NothingRunning();
    StartsUp(START, p);
    RunKeeps(START, up);
    var w1 := RunFrom(START, up);
    ServingRules(w1, p);
    MovedNot(START, w1, p, q);
    CrashLeaves(w1, p, q);
    RunConcat(START, up, [Crash(p)]);
    OneStep(w1, Crash(p));
    var w2 := RunFrom(START, up + [Crash(p)]);
    LocksUp(w2, q);
    RunNext(w2, StartUp(q), 4);
    RunConcat(START, up + [Crash(p)], first);
    RunMovesOne(w2, first, q);
    FindsLeftover(w2, RunFrom(w2, StartUp(q)[..4]), RunFrom(w2, first), p, q);
    RunKeeps(START, up + [Crash(p)] + first);
    AnsweredByTheDying(RunFrom(w2, first), q);
  }

  lemma {:induction false} OneStep(w: World, a: Act)
    ensures RunFrom(w, [a]) == Step(w, a)
  {
    assert [a][..0] == [];
  }

  lemma {:induction false} CrashLeaves(w: World, p: Pid, q: Pid)
    requires Rules(w, p) && q != p && w.At(q) == Out
    ensures var v := Step(w, Crash(p));
      && v.lock == None && v.At(p) == Dying && v.At(q) == Out
      && v.path.Some? && v.path.value in v.live && v.live[v.path.value] == p
  {
  }

  lemma {:induction false} FindsLeftover(w: World, v: World, u: World, p: Pid, q: Pid)
    requires v.At(q) == Named && v.path == w.path && v.live == w.live && u == Step(v, Lstat(q, true))
    requires w.path.Some? && w.path.value in w.live && w.live[w.path.value] == p && w.At(p) == Dying
    requires OnlyMoved(w, u, q) && p != q
    ensures u.At(q) == Found && u.path == w.path && u.live == w.live && u.At(p) == Dying
  {
  }

  lemma {:induction false} ShutDownSteps(w: World, p: Pid)
    ensures RunFrom(w, ShutDown(p)) ==
      Step(Step(Step(Step(w, UnlinkListener(p)), CloseListener(p)), Remove(p)), Release(p))
  {
    hide Step;
    var acts := ShutDown(p);
    RunNext(w, acts, 0);
    RunNext(w, acts, 1);
    RunNext(w, acts, 2);
    RunNext(w, acts, 3);
    assert acts[..0] == [] && acts[..4] == acts && RunFrom(w, []) == w;
  }

  lemma {:induction false} ShutsDown(w: World, p: Pid)
    requires w.At(p).Serving? && w.lock == Some(p)
    ensures var v := RunFrom(w, ShutDown(p)); v.At(p) == Done && v.lock == None && OnlyMoved(w, v, p)
  {
    hide RunFrom, OnlyMoved;
    ShutDownSteps(w, p);
    RunMovesOne(w, ShutDown(p), p);
    var w1 := Step(w, UnlinkListener(p));
    assert w1.At(p).Closing? && w1.lock == Some(p);
    var w2 := Step(w1, CloseListener(p));
    assert w2.At(p) == Closed && w2.lock == Some(p);
  }

  // ---- a second Close ----

  /** A second Close unlinks without the lock: everything still holds after it exactly
      when no other process has its socket file at the path. */
  lemma {:induction false} CloseAgainKeeps(w: World, p: Pid)
    requires Inv(w) && w.At(p) == Done
    ensures Inv(Step(w, CloseAgain(p))) <==> forall q :: !HasFile(w.At(q))
  {
    var v := Step(w, CloseAgain(p));
    forall q ensures ProcessOk(v, q) <==> !HasFile(w.At(q)) {
      assert ProcessOk(w, q);
    }
  }

  /** It does happen: one daemon starts, stops, another starts, and the first is closed
      once more; the second serves on a path that is gone. */
  lemma {:induction false} CloseAgainUnlinksASuccessor(p: Pid, q: Pid)
    requires p != q
    ensures var acts := StartUp(p) + ShutDown(p) + StartUp(q) + [CloseAgain(p)];
      var w := RunFrom(START, acts);
      w.At(q).Serving? && w.path == None && !Inv(w)
  {
    hide Step, RunFrom, Inv, OnlyMoved;
    var up, down := StartUp(p), ShutDown(p);
    NothingRunning();
    StartsUp(START, p);
    RunConcat(START, up, down);
    var w1 := RunFrom(START, up);
    RunKeeps(START, up);
    ServingRules(w1, p);
    ShutsDown(w1, p);
    var w2 := RunFrom(START, up + down);
    RunKeeps(START, up + down);
    assert w2.At(q) == Out by { MovedNot(START, w1, p, q); MovedNot(w1, w2, p, q); }
    forall r ensures w2.At(r) != Dying {
      if r != p {
        MovedNot(START, w1, p, r);
        MovedNot(w1, w2, p, r);
      }
    }
    StartsUp(w2, q);
    RunConcat(START, up + down, StartUp(q));
    RunKeeps(START, up + down + StartUp(q));
    var w3 := RunFrom(w2, StartUp(q));
    MovedNot(w2, w3, q, p);
    RunConcat(START, up + down + StartUp(q), [CloseAgain(p)]);
    CloseOnceMore(w3, p, q);
  }

  lemma {:induction false} NothingRunning()
    ensures Inv(START) && forall q :: START.At(q) == Out
  {
  }

  lemma {:induction false} MovedNot(w: World, v: World, p: Pid, q: Pid)
    requires OnlyMoved(w, v, p) && q != p
    ensures v.At(q) == w.At(q)
  {
  }

  lemma {:induction false} CloseOnceMore(w: World, p: Pid, q: Pid)
    requires Inv(w) && w.At(p) == Done && w.At(q).Serving?
    ensures var v := RunFrom(w, [CloseAgain(p)]); v.At(q).Serving? && v.path == None && !Inv(v)
  {
    RunNext(w, [CloseAgain(p)], 0);
    assert [CloseAgain(p)][..0] == [] && [CloseAgain(p)][..1] == [CloseAgain(p)];
    assert HasFile(w.At(q));
    CloseAgainKeeps(w, p);
  }
}
