/** Listen and Close as the source writes them, one system call after another. Every
    call is a step of Socket, so an undisturbed call is a run of that machine. */
module SocketObject {
  import opened Options
  import opened Socket
  import opened SocketRuns

  /** Which calls succeed where the files do not settle it. */
  datatype Luck = Luck(
    open: bool, truncate: bool, write: bool, lstat: bool, dial: bool, remove: bool,
    bind: bool, listen: bool, chmod: bool)

  datatype Outcome = Listens | AlreadyRunning(pid: Option<Pid>) | Failed

  const ALL_WELL := Luck(true, true, true, true, true, true, true, true, true)

  /** acts lead from w to v, are all made by p, and are no second Close. */
  ghost predicate Leads(w: World, acts: seq<Act>, v: World, p: Pid) {
    && v == RunFrom(w, acts)
    && forall i :: 0 <= i < |acts| ==> acts[i].p == p && !acts[i].CloseAgain?
  }

  lemma {:induction false} LeadsMore(w: World, acts: seq<Act>, v: World, a: Act)
    requires Leads(w, acts, v, a.p) && !a.CloseAgain?
    ensures Leads(w, acts + [a], Step(v, a), a.p)
  {
    assert (acts + [a])[..|acts|] == acts;
  }

  class Host {
    var world: World
    /** The calls made so far, from the world start. */
    ghost var acts: seq<Act>
    ghost var start: World

    ghost predicate Tracks(p: Pid)
      reads this
    {
      Leads(start, acts, world, p) && Inv(world)
    }

    constructor (w: World, ghost p: Pid)
      requires Inv(w)
      ensures world == w && start == w && acts == [] && Tracks(p)
    {
      world, start, acts := w, w, [];
    }

    method Call(a: Act)
      requires Tracks(a.p) && !a.CloseAgain?
      modifies this`world, this`acts
      ensures Tracks(a.p) && world == Step(old(world), a) && acts == old(acts) + [a]
    {
      hide Leads, Inv, Step;
      LeadsMore(start, acts, world, a);
      StepKeeps(world, a);
      world, acts := Step(world, a), acts + [a];
    }

    /** acquireLock. */
    method AcquireLock(p: Pid, luck: Luck) returns (r: Outcome)
      requires Tracks(p) && world.At(p) == Out
      modifies this`world, this`acts
      ensures Tracks(p)
      ensures world.path == old(world.path) && world.live == old(world.live)
      ensures old(world.lock).Some? ==>
        world.At(p) == Out && world.lock == old(world.lock) && world.pidText == old(world.pidText)
      ensures old(world.lock).Some? ==> r == if luck.open then AlreadyRunning(old(world.pidText)) else Failed
      ensures old(world.lock) == None ==>
        if luck.open && luck.truncate && luck.write
        then r == Listens && world.At(p) == Named && world.lock == Some(p) && world.pidText == Some(p)
        else r == Failed && world.At(p) == Out && world.lock == None
      ensures old(world.lock) == None && luck.open && luck.truncate && !luck.write ==> world.pidText == None
      ensures !luck.open || !luck.truncate ==> world.pidText == old(world.pidText)
    {
      hide Leads, Inv;
      if !luck.open {
        return Failed;
      }
      Call(Open(p));
      Call(TryLock(p));
      if world.At(p) == Refused {
        var pid := world.pidText;
        Call(ReadPid(p));
        return AlreadyRunning(pid);
      }
      var named := WriteOwnPid(p, luck);
      if !named {
        return Failed;
      }
      return Listens;
    }

    /** The lock file is emptied and given this process's pid. */
    method WriteOwnPid(p: Pid, luck: Luck) returns (named: bool)
      requires Tracks(p) && world.At(p) == Locked && world.lock == Some(p)
      modifies this`world, this`acts
      ensures Tracks(p) && world.path == old(world.path) && world.live == old(world.live)
      ensures named <==> luck.truncate && luck.write
      ensures named ==> world.At(p) == Named && world.lock == Some(p) && world.pidText == Some(p)
      ensures !named ==> world.At(p) == Out && world.lock == None
      ensures !luck.truncate ==> world.pidText == old(world.pidText)
      ensures luck.truncate && !luck.write ==> world.pidText == None
    {
      hide Leads, Inv;
      Call(Truncate(p, luck.truncate));
      if luck.truncate {
        Call(WritePid(p, luck.write));
        if luck.write {
          return true;
        }
      }
      Call(Release(p));
      return false;
    }

    /** A leftover at the path is dialled and removed. */
    method ClearPath(p: Pid, luck: Luck) returns (r: Outcome)
      requires Tracks(p) && world.At(p) == Named && world.lock == Some(p)
      modifies this`world, this`acts
      ensures Tracks(p)
      ensures world.At(p) == (if r == Listens then Ready else Out) && world.live == old(world.live)
      ensures world.lock == if r == Listens then Some(p) else None
      ensures var found := luck.lstat && old(world.path).Some?;
        var answered := found && luck.dial && old(world.path).value in old(world.live);
        && r == (if answered then AlreadyRunning(None) else if found && !luck.remove then Failed else Listens)
        && world.path == (if found && !answered && luck.remove then None else old(world.path))
        && world.pidText == old(world.pidText)
    {
      hide Leads, Inv;
      Call(Lstat(p, luck.lstat));
      if world.At(p) == Found {
        r := RemoveLeftover(p, luck);
        return;
      }
      return Listens;
    }

    method RemoveLeftover(p: Pid, luck: Luck) returns (r: Outcome)
      requires Tracks(p) && world.At(p) == Found && world.lock == Some(p)
      modifies this`world, this`acts
      ensures Tracks(p) && world.live == old(world.live)
      ensures r == Listens ==> world.At(p) == Ready && world.lock == Some(p)
      ensures r != Listens ==> world.At(p) == Out && world.lock == None
      ensures var answered := luck.dial && old(world.path).Some? && old(world.path).value in old(world.live);
        && r == (if answered then AlreadyRunning(None) else if luck.remove then Listens else Failed)
        && world.path == (if !answered && luck.remove then None else old(world.path))
        && world.pidText == old(world.pidText)
    {
      hide Leads, Inv;
      var answered := luck.dial && world.path.Some? && world.path.value in world.live;
      Call(Dial(p, luck.dial));
      if answered {
        Call(Release(p));
        return AlreadyRunning(None);
      }
      Call(RemoveStale(p, luck.remove));
      if luck.remove {
        return Listens;
      }
      Call(Release(p));
      return Failed;
    }

    /** net.Listen and the chmod. */
    method BindSocket(p: Pid, luck: Luck) returns (r: Outcome)
      requires Tracks(p) && world.At(p) == Ready && world.lock == Some(p)
      modifies this`world, this`acts
      ensures Tracks(p)
      ensures r == Listens <==> luck.bind && luck.listen && luck.chmod && old(world.path) == None
      ensures r == Listens ==> world.At(p).Serving? && world.lock == Some(p)
      ensures r != Listens ==> r == Failed && world.At(p) == Out && world.lock == None
      ensures r == Listens ==>
        world.path == Some(old(world.next)) && world.live == old(world.live)[old(world.next) := p]
      ensures r != Listens ==> world.live == old(world.live)
      ensures r != Listens ==>
        world.path == if !luck.bind || old(world.path).Some? then old(world.path) else if luck.listen then None else Some(old(world.next))
      ensures world.pidText == old(world.pidText)
    {
      hide Leads, Inv;
      NoListenerOf(world, p);
      var bound := luck.bind && world.path == None;
      Call(Bind(p, luck.bind));
      if bound {
        Call(Socket.Listen(p, luck.listen));
        if luck.listen {
          Call(Chmod(p, luck.chmod));
          if luck.chmod {
            return Listens;
          }
          BackOut(p);
          return Failed;
        }
      }
      Call(Release(p));
      return Failed;
    }

    /** The mode could not be set: the listener is closed, which unlinks its path. */
    method BackOut(p: Pid)
      requires Tracks(p) && world.At(p).ChmodFailed? && world.lock == Some(p)
      modifies this`world, this`acts
      ensures Tracks(p) && world.At(p) == Out && world.lock == None && world.path == None
      ensures world.pidText == old(world.pidText)
      ensures world.live == map i | i in old(world.live) && old(world.live)[i] != p :: old(world.live)[i]
    {
      hide Leads, Inv;
      Call(UnlinkListener(p));
      Call(CloseListener(p));
      Call(Release(p));
    }

    /** Listen ends either serving, with everything serving promises, or without the
        lock; with the lock free, no dying listener at the path and no call failing it
        serves; when another process has the lock it reports the pid in the lock file and
        touches nothing. */
    method Listen(p: Pid, luck: Luck) returns (r: Outcome)
      requires Tracks(p) && world.At(p) == Out
      modifies this`world, this`acts
      ensures Tracks(p)
      ensures r == Listens ==> Rules(world, p)
      ensures r != Listens ==> world.At(p) == Out && world.lock != Some(p)
      ensures old(world.lock) == None && luck == ALL_WELL && (old(world.path).Some? ==> old(world.path).value !in old(world.live)) ==>
        r == Listens
      ensures old(world.lock).Some? ==>
        && world.path == old(world.path) && world.live == old(world.live)
        && world.lock == old(world.lock) && world.pidText == old(world.pidText)
        && r == if luck.open then AlreadyRunning(old(world.pidText)) else Failed
      ensures r.AlreadyRunning? ==>
        old(world.lock).Some? || (old(world.path).Some? && old(world.path).value in old(world.live))
    {
      hide Leads, Inv, Rules;
      NotTheHolder(world, p);
      r := AcquireLock(p, luck);
      if r != Listens {
        return;
      }
      r := ClearPath(p, luck);
      if r != Listens {
        return;
      }
      r := BindSocket(p, luck);
      if r == Listens {
        ServingRules(world, p);
      }
    }

    /** Close, once: the socket is gone, the lock is free, and the path that was
        unlinked was the daemon's own. */
    method Close(p: Pid)
      requires Tracks(p) && world.At(p).Serving?
      modifies this`world, this`acts
      ensures Tracks(p) && world.At(p) == Done
      ensures old(world.path) == Some(old(world.At(p).ino)) && world.path == None
      ensures old(world.lock) == Some(p) && world.lock == None
      ensures world.live == map i | i in old(world.live) && old(world.live)[i] != p :: old(world.live)[i]
    {
      hide Leads, Inv;
      ServingRules(world, p);
      Call(UnlinkListener(p));
      Call(CloseListener(p));
      Call(Remove(p));
      Call(Release(p));
    }
  }

  /** A process about to bind has no listener. */
  lemma {:induction false} NoListenerOf(w: World, p: Pid)
    requires Inv(w) && w.At(p) == Ready
    ensures (forall i :: i in w.live ==> w.live[i] != p) && w.next !in w.live
  {
  }

  lemma {:induction false} NotTheHolder(w: World, p: Pid)
    requires Inv(w) && w.At(p) == Out
    ensures w.lock != Some(p)
  {
    assert ProcessOk(w, p);
  }
}
