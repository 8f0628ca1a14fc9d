/** The single-daemon protocol of internal/daemon/socket.go: any number of processes run
    Listen and Close, one system call at a time, and may crash between any two. */
module Socket {
  import opened Options

  type Pid = nat
  /** The identity of a socket file. */
  type Ino = nat

  /** Where a process stands. */
  datatype Pc =
    | Out                     // not running Listen, or it returned an error
    | Opened                  // the lock file is open
    | Refused                 // somebody else has the lock; the pid is still to be read
    | Locked | Truncated | Named  // has the lock; the pid file is emptied; it is written
    | Found | Stale           // something is at the socket path; nobody answers on it
    | Ready                   // about to bind
    | Bound(ino: Ino)         // the socket file exists
    | Listening(ino: Ino)     // and accepts connections; its mode is still to be set
    | Serving(ino: Ino)       // Listen has returned
    | ChmodFailed(ino: Ino) | Backing(ino: Ino)  // Listen closes its listener: unlink, then the descriptor
    | Closing(ino: Ino)       // Close: the listener has unlinked its path
    | Closed | Removed        // its descriptor is closed; the path is removed
    | GivingUp                // Listen failed, the lock is still to be released
    | Done                    // Close has returned
    | Dying                   // crashed: its lock is gone, a listener it had still accepts

  /** The shared files and every process. live maps a socket that accepts connections to
      its owner; pidText is what the lock file names. */
  datatype World = World(
    pcs: map<Pid, Pc>,
    lock: Option<Pid>, pidText: Option<Pid>,
    path: Option<Ino>, live: map<Ino, Pid>, next: Ino)
  {
    function At(p: Pid): Pc { if p in pcs then pcs[p] else Out }
    function Go(p: Pid, pc: Pc): World { this.(pcs := pcs[p := pc]) }
  }

  const START := World(map[], None, None, None, map[], 0)

  /** One system call of process p, a crash, or a second Close. ok says whether the
      call succeeds where that is not determined by the files. The descriptors of a
      crashed process are closed one after another, the lock file, which was opened
      first, before the listener. */
  datatype Act =
    | Open(p: Pid) | TryLock(p: Pid) | ReadPid(p: Pid)
    | Truncate(p: Pid, ok: bool) | WritePid(p: Pid, ok: bool)
    | Lstat(p: Pid, ok: bool) | Dial(p: Pid, ok: bool) | RemoveStale(p: Pid, ok: bool)
    | Bind(p: Pid, ok: bool) | Listen(p: Pid, ok: bool) | Chmod(p: Pid, ok: bool)
    | UnlinkListener(p: Pid) | CloseListener(p: Pid) | Remove(p: Pid) | Release(p: Pid)
    | Crash(p: Pid) | Exit(p: Pid)
    | CloseAgain(p: Pid)

  function Unlocked(w: World, p: Pid): World { if w.lock == Some(p) then w.(lock := None) else w }

  function Hangup(w: World, p: Pid): World {
    w.(live := map i | i in w.live && w.live[i] != p :: w.live[i])
  }

  /** One step; a call that p is not about to make changes nothing. */
  function Step(w: World, a: Act): World {
    var p, pc := a.p, w.At(a.p);
    match a
    case Open(_) => if pc == Out then w.Go(p, Opened) else w
    case TryLock(_) =>
      if pc != Opened then w
      else if w.lock == None then w.(lock := Some(p)).Go(p, Locked) else w.Go(p, Refused)
    case ReadPid(_) => if pc == Refused then w.Go(p, Out) else w
    case Truncate(_, ok) =>
      if pc != Locked then w else if ok then w.(pidText := None).Go(p, Truncated) else w.Go(p, GivingUp)
    case WritePid(_, ok) =>
      if pc != Truncated then w else if ok then w.(pidText := Some(p)).Go(p, Named) else w.Go(p, GivingUp)
    case Lstat(_, ok) =>
      if pc != Named then w else if ok && w.path.Some? then w.Go(p, Found) else w.Go(p, Ready)
    case Dial(_, ok) =>
      if pc != Found then w
      else if ok && w.path.Some? && w.path.value in w.live then w.Go(p, GivingUp) else w.Go(p, Stale)
    case RemoveStale(_, ok) =>
      if pc != Stale then w else if ok then w.(path := None).Go(p, Ready) else w.Go(p, GivingUp)
    case Bind(_, ok) =>
      if pc != Ready then w
      else if ok && w.path == None then w.(path := Some(w.next), next := w.next + 1).Go(p, Bound(w.next))
      else w.Go(p, GivingUp)
    case Listen(_, ok) =>
      if !pc.Bound? then w
      else if ok then w.(live := w.live[pc.ino := p]).Go(p, Listening(pc.ino)) else w.Go(p, GivingUp)
    case Chmod(_, ok) =>
      if !pc.Listening? then w else if ok then w.Go(p, Serving(pc.ino)) else w.Go(p, ChmodFailed(pc.ino))
    case UnlinkListener(_) =>
      if pc.Serving? then w.(path := None).Go(p, Closing(pc.ino))
      else if pc.ChmodFailed? then w.(path := None).Go(p, Backing(pc.ino)) else w
    case CloseListener(_) =>
      if pc.Closing? then Hangup(w, p).Go(p, Closed)
      else if pc.Backing? then Hangup(w, p).Go(p, GivingUp) else w
    case Remove(_) => if pc == Closed then w.(path := None).Go(p, Removed) else w
    case Release(_) =>
      if pc == Removed then Unlocked(w, p).Go(p, Done)
      else if pc == GivingUp then Unlocked(w, p).Go(p, Out) else w
    case Crash(_) => Unlocked(w, p).Go(p, Dying)
    case Exit(_) => if pc == Dying then Hangup(w, p).Go(p, Out) else w
    case CloseAgain(_) => if pc == Done then w.(path := None) else w
  }

  function RunFrom(w: World, acts: seq<Act>): World {
    if acts == [] then w else Step(RunFrom(w, acts[..|acts| - 1]), acts[|acts| - 1])
  }

  /** Each Close is called once. */
  ghost predicate ClosedOnce(acts: seq<Act>) { forall i :: 0 <= i < |acts| ==> !acts[i].CloseAgain? }

  // ---- the invariant ----

  predicate Holds(pc: Pc) { !(pc.Out? || pc.Opened? || pc.Refused? || pc.Done? || pc.Dying?) }

  /** Its listener accepts connections. */
  predicate Accepts(pc: Pc) {
    pc.Listening? || pc.Serving? || pc.ChmodFailed? || pc.Backing? || pc.Closing?
  }

  /** Its socket file is at the path. */
  predicate HasFile(pc: Pc) { pc.Bound? || pc.Listening? || pc.Serving? || pc.ChmodFailed? }

  /** Its listener has unlinked the path, or it is about to be created. */
  predicate PathGone(pc: Pc) { pc.Backing? || pc.Closing? || pc.Closed? || pc.Removed? }

  /** The pid file names it. */
  predicate IsNamed(pc: Pc) { Holds(pc) && !(pc.Locked? || pc.Truncated? || pc.GivingUp?) }

  ghost predicate ProcessOk(w: World, p: Pid) {
    var pc := w.At(p);
    && (Holds(pc) <==> w.lock == Some(p))
    && (IsNamed(pc) ==> w.pidText == Some(p))
    && (HasFile(pc) ==> w.path == Some(pc.ino))
    && (PathGone(pc) ==> w.path == None)
    && (Accepts(pc) ==> pc.ino in w.live && w.live[pc.ino] == p)
    && (pc.Bound? ==> pc.ino !in w.live)
  }

  /** Its listener at i accepts connections, or has not been closed yet. */
  predicate Owns(pc: Pc, i: Ino) { pc.Dying? || (Accepts(pc) && pc.ino == i) }

  /** Every live listener is its owner's, and inodes are not reused. */
  ghost predicate FilesOk(w: World) {
    && (forall i :: i in w.live ==> i < w.next && Owns(w.At(w.live[i]), i))
    && (w.path.Some? ==> w.path.value < w.next)
  }

  ghost predicate Inv(w: World) { (forall p :: ProcessOk(w, p)) && FilesOk(w) }
}
