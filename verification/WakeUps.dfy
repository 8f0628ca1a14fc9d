/** No wake-up is lost: NetworkManager, the client's signal loop and one waiter, step
    by step. */
module WakeUps {
  import opened Options
  import opened Waiter

  datatype Stage = Before | Registered | Waiting | Finished(how: Ending)

  /** phase is NetworkManager's own; signals are sent but not yet handled; chan is the
      waiter's channel; open says that it waits in the client's map, which it does until
      the client is closed (a waiter added after that is not closed by anyone). The rest
      is history: the events sent
      since the registration, whether the live read succeeded, and of the events handled
      since the registration those that went into the channel and those that met a full
      one. */
  datatype World = World(
    phase: Phase, signals: seq<Event>, chan: seq<Event>, open: bool,
    stage: Stage, emitted: seq<Event>, atRead: bool, passed: seq<Event>, refused: seq<Event>)

  function Begin(phase: Phase, signals: seq<Event>): World {
    World(phase, signals, [], true, Before, [], false, [], [])
  }

  datatype Act =
    | Change(e: Event)   // NetworkManager changes state and sends a signal
    | Handle             // the client's loop handles the oldest signal
    | AddWaiter
    | ReadLive(ok: bool)
    | Take               // the waiter takes an event, or notices the closed channel
    | CloseClient

  /** notifyWaiters, for this waiter. */
  function Deliver(w: World, e: Event): World {
    if |w.chan| < SLOTS then w.(chan := Offer(w.chan, e), passed := w.passed + [e])
    else w.(chan := Offer(w.chan, e), refused := w.refused + [e])
  }

  function Step(w: World, a: Act): World {
    match a
    case Change(e) =>
      w.(phase := e.phase, signals := w.signals + [e], emitted := if w.stage == Before then [] else w.emitted + [e])
    case Handle =>
      if w.signals == [] then w
      else if w.stage == Before || !w.open then w.(signals := w.signals[1..])
      else Deliver(w.(signals := w.signals[1..]), w.signals[0])
    case AddWaiter => if w.stage == Before then w.(stage := Registered, open := true) else w
    case ReadLive(ok) =>
      if w.stage != Registered then w
      else if !ok then w.(stage := Waiting)
      else if w.phase == Activated then w.(stage := Finished(Ok))
      else if w.phase == Deactivated then w.(stage := Finished(Ended(0)))
      else w.(stage := Waiting, atRead := true)
    case Take =>
      if w.stage != Waiting then w
      else if w.chan == [] then if w.open then w else w.(stage := Finished(Unavailable))
      else if Settled(w.chan[0].phase) then w.(chan := w.chan[1..], stage := Finished(EndingOf(w.chan[0])))
      else w.(chan := w.chan[1..])
    case CloseClient => w.(open := false)
  }

  function Run(w: World, acts: seq<Act>): World {
    if acts == [] then w else Step(Run(w, acts[..|acts| - 1]), acts[|acts| - 1])
  }

  // ---- what every step keeps ----

  ghost predicate HasSettled(es: seq<Event>) { exists i :: 0 <= i < |es| && Settled(es[i].phase) }

  predicate Listens(w: World) { w.stage == Registered || w.stage == Waiting }

  /** What the waiter has taken so far did not settle. */
  ghost predicate TakenUnsettled(w: World) { Listens(w) ==> (HasSettled(w.chan) <==> HasSettled(w.passed)) }

  /** Every settling event since the registration was handled or is still to be. */
  ghost predicate Accounted(w: World) {
    w.open && Listens(w) && HasSettled(w.emitted) ==>
      HasSettled(w.passed) || HasSettled(w.refused) || HasSettled(w.signals)
  }

  /** Once the live read has succeeded without settling the wait, a settled phase comes
      with an event since registration. */
  ghost predicate ReadCovers(w: World) {
    w.stage == Waiting && w.atRead && Settled(w.phase) ==> HasSettled(w.emitted)
  }

  ghost predicate Inv(w: World) {
    && TakenUnsettled(w) && Accounted(w) && ReadCovers(w) && |w.chan| <= SLOTS
    && (w.stage == Before ==> w.emitted == [] && w.chan == [] && w.passed == [] && w.refused == [])
    && (w.stage == Before || w.stage == Registered ==> !w.atRead)
  }

  lemma {:induction false} SettledConcat(xs: seq<Event>, ys: seq<Event>)
    ensures HasSettled(xs + ys) <==> HasSettled(xs) || HasSettled(ys)
  {
    if i :| 0 <= i < |xs| && Settled(xs[i].phase) {
      assert (xs + ys)[i] == xs[i];
    }
    if i :| 0 <= i < |ys| && Settled(ys[i].phase) {
      assert (xs + ys)[|xs| + i] == ys[i];
    }
  }

  lemma {:induction false} SettledMore(es: seq<Event>, e: Event)
    ensures HasSettled(es + [e]) <==> HasSettled(es) || Settled(e.phase)
  {
    if HasSettled(es) {
      var i :| 0 <= i < |es| && Settled(es[i].phase);
      assert (es + [e])[i] == es[i];
    }
    if Settled(e.phase) {
      assert (es + [e])[|es|] == e;
    }
  }

  lemma {:induction false} SettledLess(es: seq<Event>)
    requires es != []
    ensures HasSettled(es) <==> Settled(es[0].phase) || HasSettled(es[1..])
  {
    if HasSettled(es[1..]) {
      var i :| 0 <= i < |es[1..]| && Settled(es[1..][i].phase);
      assert es[i + 1] == es[1..][i];
    }
    if HasSettled(es) {
      var i :| 0 <= i < |es| && Settled(es[i].phase);
      assert i > 0 ==> es[1..][i - 1] == es[i];
    }
  }

  lemma {:induction false} StepKeeps(w: World, a: Act)
    requires Inv(w)
    ensures Inv(Step(w, a))
  {
    hide HasSettled;
    match a
    case Change(e) =>
      SettledMore(w.signals, e);
      SettledMore(w.emitted, e);
    case Handle =>
      if w.signals != [] {
        var e := w.signals[0];
        SettledLess(w.signals);
        SettledMore(w.chan, e);
        SettledMore(w.passed, e);
        SettledMore(w.refused, e);
      }
    case Take =>
      if w.chan != [] {
        SettledLess(w.chan);
      }
    case AddWaiter => NoneSettled();
    case ReadLive(ok) =>
    case CloseClient =>
  }

  lemma {:induction false} NoneSettled()
    ensures !HasSettled([])
  {
  }

  lemma {:induction false} RunKeeps(phase: Phase, signals: seq<Event>, acts: seq<Act>)
    ensures Inv(Run(Begin(phase, signals), acts))
  {
    if acts != [] {
      RunKeeps(phase, signals, acts[..|acts| - 1]);
      StepKeeps(Run(Begin(phase, signals), acts[..|acts| - 1]), acts[|acts| - 1]);
    }
  }

  /** What a waiter can still be woken by, exactly: nothing settling is in the channel or
      among the signals if and only if every settling event handled since the
      registration met a full channel, and none is among the signals. */
  lemma {:induction false} MissesExactly(phase: Phase, signals: seq<Event>, acts: seq<Act>)
    requires Run(Begin(phase, signals), acts).stage == Waiting
    ensures var w := Run(Begin(phase, signals), acts);
      !HasSettled(w.chan + w.signals) <==> !HasSettled(w.passed) && !HasSettled(w.signals)
  {
    hide HasSettled, Run;
    RunKeeps(phase, signals, acts);
    var w := Run(Begin(phase, signals), acts);
    SettledConcat(w.chan, w.signals);
  }

  /** An activation that settled since the registration, or after a successful live read,
      is missed if and only if a settling event was refused, none was let in, and none is
      still to be handled. */
  lemma {:induction false} LostExactly(phase: Phase, signals: seq<Event>, acts: seq<Act>)
    requires var w := Run(Begin(phase, signals), acts);
      w.stage == Waiting && w.open && (HasSettled(w.emitted) || (w.atRead && Settled(w.phase)))
    ensures var w := Run(Begin(phase, signals), acts);
      !HasSettled(w.chan + w.signals) <==>
        HasSettled(w.refused) && !HasSettled(w.passed) && !HasSettled(w.signals)
  {
    hide HasSettled, Run;
    RunKeeps(phase, signals, acts);
    MissesExactly(phase, signals, acts);
  }

  /** No lost wake-up: while no settling event has met a full channel, an activation that
      settled since the registration, or after a successful live read, always has a
      settling event in the channel or among the signals of an open client. */
  lemma {:induction false} NoLostWakeUp(phase: Phase, signals: seq<Event>, acts: seq<Act>)
    requires var w := Run(Begin(phase, signals), acts);
      w.stage == Waiting && w.open && !HasSettled(w.refused) && (HasSettled(w.emitted) || (w.atRead && Settled(w.phase)))
    ensures var w := Run(Begin(phase, signals), acts); HasSettled(w.chan + w.signals)
  {
    hide HasSettled, Run;
    LostExactly(phase, signals, acts);
  }

  // ---- the event is then seen ----

  /** The first event that settles. */
  function FirstSettled(es: seq<Event>): Option<Event> {
    if es == [] then None else if Settled(es[0].phase) then Some(es[0]) else FirstSettled(es[1..])
  }

  lemma {:induction false} FirstIsSettled(es: seq<Event>)
    ensures FirstSettled(es).Some? <==> HasSettled(es)
    ensures FirstSettled(es).Some? ==> Settled(FirstSettled(es).value.phase)
  {
    if es == [] {
      NoneSettled();
    } else {
      SettledLess(es);
      FirstIsSettled(es[1..]);
    }
  }

  function Repeat<T>(x: T, n: nat): (r: seq<T>)
    ensures |r| == n && forall i :: 0 <= i < n ==> r[i] == x
  {
    seq(n, i => x)
  }

  lemma {:induction false} RunNext(w: World, a: Act, n: nat)
    ensures Run(w, Repeat(a, n + 1)) == Step(Run(w, Repeat(a, n)), a)
  {
    assert Repeat(a, n + 1)[..n] == Repeat(a, n);
  }

  lemma {:induction false} RunFirst(w: World, a: Act, n: nat)
    ensures Run(w, Repeat(a, n + 1)) == Run(Step(w, a), Repeat(a, n))
  {
    RunNext(w, a, n);
    if n > 0 {
      RunFirst(w, a, n - 1);
      RunNext(Step(w, a), a, n - 1);
    } else {
      assert Run(w, Repeat(a, 0)) == w;
    }
  }

  lemma {:induction false} Stays(w: World, n: nat)
    requires w.stage.Finished?
    ensures Run(w, Repeat(Take, n)) == w
  {
    if n > 0 {
      RunNext(w, Take, n - 1);
      Stays(w, n - 1);
    }
  }

  /** A waiter that drains a channel holding a settled event ends with the first one. */
  lemma {:induction false} DrainEnds(w: World)
    requires w.stage == Waiting && FirstSettled(w.chan).Some?
    ensures Settled(FirstSettled(w.chan).value.phase)
    ensures Run(w, Repeat(Take, |w.chan|)).stage == Finished(EndingOf(FirstSettled(w.chan).value))
    decreases |w.chan|
  {
    FirstIsSettled(w.chan);
    RunFirst(w, Take, |w.chan| - 1);
    var v := Step(w, Take);
    if Settled(w.chan[0].phase) {
      Stays(v, |w.chan| - 1);
    } else {
      DrainEnds(v);
    }
  }

  lemma {:induction false} RunNothing(w: World)
    ensures Run(w, []) == w
  {
  }

  /** Handling the signals moves them, in order, into a channel with room for them. */
  lemma {:induction false} HandleAll(w: World)
    requires w.stage == Waiting && w.open && |w.chan| + |w.signals| <= SLOTS
    ensures Run(w, Repeat(Handle, |w.signals|)) == w.(signals := [], chan := w.chan + w.signals, passed := w.passed + w.signals)
    decreases |w.signals|
  {
    hide Run;
    if w.signals != [] {
      var n := |w.signals| - 1;
      RunFirst(w, Handle, n);
      var v := Step(w, Handle);
      assert v == w.(signals := w.signals[1..], chan := w.chan + [w.signals[0]], passed := w.passed + [w.signals[0]]);
      hide Step;
      HandleAll(v);
      assert w.chan + [w.signals[0]] + w.signals[1..] == w.chan + w.signals;
      assert w.passed + [w.signals[0]] + w.signals[1..] == w.passed + w.signals;
    } else {
      assert w.chan + [] == w.chan && w.passed + [] == w.passed && Repeat(Handle, 0) == [];
      RunNothing(w);
    }
  }

  lemma {:induction false} RunConcat(w: World, a: seq<Act>, b: seq<Act>)
    ensures Run(w, a + b) == Run(Run(w, a), b)
  {
    if b == [] {
      assert a + b == a;
    } else {
      assert (a + b)[..|a + b| - 1] == a + b[..|b| - 1];
      RunConcat(w, a, b[..|b| - 1]);
    }
  }

  lemma {:induction false} RunHead(w: World, a: Act, acts: seq<Act>)
    ensures Run(w, [a] + acts) == Run(Step(w, a), acts)
  {
    RunConcat(w, [a], acts);
    assert [a][..0] == [];
  }

  lemma {:induction false} StaysFinished(w: World, acts: seq<Act>)
    requires w.stage.Finished?
    ensures Run(w, acts).stage == w.stage
  {
    if acts != [] {
      StaysFinished(w, acts[..|acts| - 1]);
    }
  }

  /** The loop handles a signal, the waiter takes it, n times. */
  function Pump(n: nat): seq<Act> { if n == 0 then [] else [Handle, Take] + Pump(n - 1) }

  lemma {:induction false} PumpEnds(w: World)
    requires w.stage == Waiting && w.open && w.chan == [] && FirstSettled(w.signals).Some?
    ensures Settled(FirstSettled(w.signals).value.phase)
    ensures Run(w, Pump(|w.signals|)).stage == Finished(EndingOf(FirstSettled(w.signals).value))
    decreases |w.signals|
  {
    hide Run;
    var more := Pump(|w.signals| - 1);
    var e := w.signals[0];
    assert Pump(|w.signals|) == [Handle] + ([Take] + more);
    RunHead(w, Handle, [Take] + more);
    var v := Step(w, Handle);
    assert v.chan == [e] && v.signals == w.signals[1..];
    RunHead(v, Take, more);
    var u := Step(v, Take);
    if Settled(e.phase) {
      StaysFinished(u, more);
    } else {
      assert u.chan == [] && u.stage == Waiting && u.signals == w.signals[1..];
      hide Step;
      PumpEnds(u);
    }
  }

  /** A waiter that takes everything from its channel waits on when nothing settles. */
  lemma {:induction false} DrainGoesOn(w: World)
    requires w.stage == Waiting && FirstSettled(w.chan) == None
    ensures Run(w, Repeat(Take, |w.chan|)) == w.(chan := [])
    decreases |w.chan|
  {
    if w.chan != [] {
      RunFirst(w, Take, |w.chan| - 1);
      DrainGoesOn(Step(w, Take));
    }
  }

  lemma {:induction false} FirstOfConcat(xs: seq<Event>, ys: seq<Event>)
    ensures FirstSettled(xs + ys) == if FirstSettled(xs).Some? then FirstSettled(xs) else FirstSettled(ys)
  {
    if xs == [] {
      assert xs + ys == ys;
    } else {
      assert (xs + ys)[1..] == xs[1..] + ys;
      FirstOfConcat(xs[1..], ys);
    }
  }

  /** The event at i settles and none before it does. */
  ghost predicate FirstAt(es: seq<Event>, i: int) {
    && 0 <= i < |es| && (es[i].phase == Activated || es[i].phase == Deactivated)
    && forall j :: 0 <= j < i ==> es[j].phase != Activated && es[j].phase != Deactivated
  }

  lemma {:induction false} FirstIsFirst(es: seq<Event>)
    requires HasSettled(es)
    ensures exists i :: FirstAt(es, i) && FirstSettled(es) == Some(es[i])
  {
    SettledLess(es);
    if Settled(es[0].phase) {
      assert FirstAt(es, 0);
    } else {
      FirstIsFirst(es[1..]);
      var i :| FirstAt(es[1..], i) && FirstSettled(es[1..]) == Some(es[1..][i]);
      FirstShifts(es, i);
    }
  }

  lemma {:induction false} FirstShifts(es: seq<Event>, i: int)
    requires es != [] && !Settled(es[0].phase) && FirstAt(es[1..], i)
    ensures FirstAt(es, i + 1) && es[i + 1] == es[1..][i]
  {
    forall j | 0 <= j < i + 1 ensures es[j].phase != Activated && es[j].phase != Deactivated {
      assert j > 0 ==> es[j] == es[1..][j - 1];
    }
  }

  /** A settling event on its way ends the wait, however many events there are: the waiter
      drains its channel, then takes each signal as it is handled, and ends with the
      first that settles: with success if the connection was activated, with the reason if
      it was deactivated. */
  lemma {:induction false} SettledIsSeen(w: World)
    requires w.stage == Waiting && w.open && HasSettled(w.chan + w.signals)
    ensures exists i :: FirstAt(w.chan + w.signals, i) && var e := (w.chan + w.signals)[i];
      Run(w, Repeat(Take, |w.chan|) + Pump(|w.signals|)).stage
        == Finished(if e.phase == Activated then Ok else Ended(e.reason))
  {
    hide Run, Step, FirstSettled, Pump, FirstAt;
    FirstIsFirst(w.chan + w.signals);
    FirstIsSettled(w.chan + w.signals);
    FirstOfConcat(w.chan, w.signals);
    RunConcat(w, Repeat(Take, |w.chan|), Pump(|w.signals|));
    if FirstSettled(w.chan).Some? {
      DrainEnds(w);
      StaysFinished(Run(w, Repeat(Take, |w.chan|)), Pump(|w.signals|));
    } else {
      DrainGoesOn(w);
      PumpEnds(w.(chan := []));
    }
  }

  /** The live read ends the wait at once exactly when the connection is activated or
      deactivated by then, and says which. */
  lemma {:induction false} LiveReadExactly(w: World, ok: bool)
    requires w.stage == Registered
    ensures var s := Step(w, ReadLive(ok)).stage;
      && (s == Finished(Ok) <==> ok && w.phase == Activated)
      && (s == Finished(Ended(0)) <==> ok && w.phase == Deactivated)
      && (s == Waiting <==> !ok || (w.phase != Activated && w.phase != Deactivated))
  {
  }

  /** What the waiter makes of what it takes: an activated or deactivated event ends the
      wait with success or its reason, any other is passed over; an empty channel ends it
      only when it is closed. */
  lemma {:induction false} TakeExactly(w: World)
    requires w.stage == Waiting
    ensures var v := Step(w, Take);
      && (w.chan == [] ==> v.chan == [] && v.stage == if w.open then Waiting else Finished(Unavailable))
      && (w.chan != [] ==>
           v.chan == w.chan[1..] &&
           var e := w.chan[0];
           v.stage == if e.phase == Activated then Finished(Ok)
                      else if e.phase == Deactivated then Finished(Ended(e.reason)) else Waiting)
  {
  }

  // ---- the guards are needed ----

  lemma {:induction false} ChangeRepeatedly(w: World, e: Event, n: nat)
    requires w.stage != Before && w.phase == e.phase && w.signals == [] && w.emitted == []
    ensures Run(w, Repeat(Change(e), n)) == w.(signals := Repeat(e, n), emitted := Repeat(e, n))
  {
    if n == 0 {
      assert Repeat(Change(e), 0) == [] && Repeat(e, 0) == [];
    } else {
      ChangeRepeatedly(w, e, n - 1);
      RunNext(w, Change(e), n - 1);
      assert Repeat(e, n - 1) + [e] == Repeat(e, n);
    }
  }

  lemma {:induction false} StepFrom(w: World, acts: seq<Act>, a: Act)
    ensures Run(w, acts + [a]) == Step(Run(w, acts), a)
  {
    assert (acts + [a])[..|acts|] == acts;
  }

  /** Sixteen unread events fill the channel; the settling one after them is lost, and
      the waiter waits on for an activation that has settled. */
  lemma {:induction false} FullChannelLoses(busy: Event, e: Event)
    requires busy.phase == Activating && Settled(e.phase)
    ensures exists acts :: var w := Run(Begin(Activating, []), acts);
      w.stage == Waiting && w.atRead && w.open && |w.chan| == 16 && Settled(w.phase) && !HasSettled(w.chan + w.signals)
  {
    hide Run, Step;
    var start := [AddWaiter, ReadLive(true)];
    var fill, move := Repeat(Change(busy), SLOTS), Repeat(Handle, SLOTS);
    var w0 := Begin(Activating, []).(stage := Waiting, atRead := true);
    var full := Repeat(busy, SLOTS);
    WaitStarts();
    ChangeRepeatedly(w0, busy, SLOTS);
    RunConcat(Begin(Activating, []), start, fill);
    HandleAll(w0.(signals := full, emitted := full));
    assert [] + full == full;
    RunConcat(Begin(Activating, []), start + fill, move);
    var acts := start + fill + move;
    StepFrom(Begin(Activating, []), acts, Change(e));
    StepFrom(Begin(Activating, []), acts + [Change(e)], Handle);
    var w := Run(Begin(Activating, []), acts);
    assert w == w0.(chan := full, emitted := full, passed := full);
    LosesTheNext(w, e);
  }

  lemma {:induction false} WaitStarts()
    ensures Run(Begin(Activating, []), [AddWaiter, ReadLive(true)]) == Begin(Activating, []).(stage := Waiting, atRead := true)
  {
    var w := Begin(Activating, []);
    assert [AddWaiter, ReadLive(true)][..1] == [AddWaiter] && [AddWaiter][..0] == [];
    assert Run(w, [AddWaiter]) == Step(w, AddWaiter);
  }

  lemma {:induction false} LosesTheNext(w: World, e: Event)
    requires w.stage == Waiting && w.open && |w.chan| == SLOTS && !HasSettled(w.chan) && w.signals == [] && Settled(e.phase)
    ensures var v := Step(Step(w, Change(e)), Handle);
      v == w.(phase := e.phase, emitted := v.emitted, refused := w.refused + [e]) && !HasSettled(v.chan + v.signals)
  {
    assert [e][1..] == [] && w.chan + [] == w.chan;
  }

  /** Without the live read, an activation that settled before the registration is
      missed: nothing is on its way. */
  lemma {:induction false} WithoutReadMisses(phase: Phase)
    requires Settled(phase)
    ensures var w := Run(Begin(phase, []), [AddWaiter, ReadLive(false)]);
      w.stage == Waiting && Settled(w.phase) && w.chan + w.signals == []
  {
    var acts := [AddWaiter, ReadLive(false)];
    assert acts[..1] == [AddWaiter] && acts[..1][..0] == [];
    assert Run(Begin(phase, []), acts[..1]) == Step(Begin(phase, []), AddWaiter);
  }
}
