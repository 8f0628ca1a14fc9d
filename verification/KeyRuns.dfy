/** How the state of a network key follows its anchors, and which events the
    monitor makes of it (internal/monitor/engine.go settle and deriveKeyState,
    internal/monitor/monitor.go eventFor). */
module KeyRuns {
  import opened Engine
  import opened EngineRuns

  datatype KeyEvent = NoEvent | DegradedEvent | RecoveredEvent

  /** The user-facing event of a transition, if it has one. */
  function EventFor(tr: Transition): KeyEvent {
    if tr.to == Degraded then DegradedEvent
    else if tr.from == Degraded && tr.to == OK then RecoveredEvent
    else NoEvent
  }

  function Events(trs: seq<Transition>): seq<KeyEvent> {
    if trs == [] then []
    else
      var rest := Events(trs[..|trs| - 1]);
      if EventFor(trs[|trs| - 1]) == NoEvent then rest else rest + [EventFor(trs[|trs| - 1])]
  }

  // ---- what every Add keeps ----

  /** A judged anchor has a full learning window behind it. */
  predicate AnchorOk(c: Config, a: AnchorState) {
    && |a.samples| <= c.window
    && (a.m.state == Learning || a.m.state == OK || a.m.state == Degraded)
    && (a.m.state != Learning ==> |a.samples| >= c.minSamples)
    && (a.m.state == Degraded ==> a.m.lastReason != NoReason)
    && (a.m.badStreak > 0 ==> a.m.lastReason != NoReason)
  }

  ghost predicate KeyOk(c: Config, ks: KeyState) {
    && ks.state == Derived(ks.anchors)
    && forall n :: n in ks.anchors ==> AnchorOk(c, ks.anchors[n])
  }

  lemma {:induction false} MachineKeeps(c: Config, a: AnchorState, w: seq<Sample>, v: Verdict, at: int, b: Baseline)
    requires Effective(c) && AnchorOk(c, a)
    requires |w| <= c.window && |a.samples| <= |w|
    ensures var m := MachineStep(c, a.m, |w| >= c.minSamples, v, at);
      && AnchorOk(c, AnchorState(w, m, b))
      && (a.m.state != Learning ==> m.state != Learning)
  {
  }

  lemma {:induction false} AnchorKeeps(c: Config, a: AnchorState, s: Sample)
    requires Effective(c) && AnchorOk(c, a)
    ensures AnchorOk(c, AnchorStep(c, a, s))
    ensures a.m.state != Learning ==> AnchorStep(c, a, s).m.state != Learning
  {
    hide Judge, Snapshot;
    var w := Last(a.samples + [s], c.window);
    MachineKeeps(c, a, w, Judge(c, w), s.time, AnchorStep(c, a, s).baseline);
  }

  /** One sample: the key stays derived from its anchors; degraded is entered only
      through a public anchor whose own streak completed, and left only to ok. */
  lemma {:induction false} KeyKeeps(c: Config, ks: KeyState, s: Sample)
    requires Effective(c) && KeyOk(c, ks)
    ensures var (ks', trs) := KeyStep(c, ks, s);
      && KeyOk(c, ks')
      && |trs| <= 1 && (trs == [] <==> ks'.state == ks.state)
      && (trs != [] ==> trs[0].key == s.key && trs[0].from == ks.state && trs[0].to == ks'.state)
      && (ks.state == Degraded ==> ks'.state == Degraded || ks'.state == OK)
      && (trs != [] && ks'.state == Degraded ==>
        && s.anchor != GATEWAY && trs[0].anchor == s.anchor && trs[0].reason != NoReason
        && ks'.anchors[s.anchor].m.state == Degraded && trs[0].baseline == ks'.anchors[s.anchor].baseline)
  {
    hide Judge, Snapshot;
    var old', a := AnchorOf(ks, s), AnchorStep(c, AnchorOf(ks, s), s);
    AnchorKeeps(c, old', s);
    var anchors := ks.anchors[s.anchor := a];
    DerivedMoves(ks.anchors, s.anchor, a);
    assert s.anchor in anchors;
  }

  /** Replacing one anchor: a key can turn degraded only through that anchor, and
      stop being degraded only because that anchor did. */
  lemma {:induction false} DerivedMoves(anchors: map<string, AnchorState>, name: string, a: AnchorState)
    ensures var next := anchors[name := a];
      && (Derived(next) == Degraded && Derived(anchors) != Degraded ==> name != GATEWAY && a.m.state == Degraded)
      && (Derived(anchors) == Degraded && Derived(next) != Degraded ==>
        name in anchors && anchors[name].m.state == Degraded && a.m.state != Degraded)
      && (a.m.state != Learning && Derived(next) != Degraded ==> Derived(next) == OK)
  {
    var next := anchors[name := a];
    assert name in next;
    forall n | n in anchors && n != name ensures n in next && next[n] == anchors[n] {
    }
  }

  // ---- over a whole run ----

  ghost predicate Linked(trs: seq<Transition>, st: State) {
    && (trs == [] ==> st == Idle)
    && (trs != [] ==> trs[0].from == Idle && trs[|trs| - 1].to == st)
    && (forall i :: 0 <= i < |trs| - 1 ==> trs[i].to == trs[i + 1].from)
    && (forall i :: 0 <= i < |trs| ==> trs[i].from != trs[i].to)
  }

  ghost predicate Alternating(es: seq<KeyEvent>) {
    forall i :: 0 <= i < |es| ==> es[i] == if i % 2 == 0 then DegradedEvent else RecoveredEvent
  }

  lemma {:induction false} EventsAppend(trs: seq<Transition>, tr: Transition)
    ensures Events(trs + [tr]) == if EventFor(tr) == NoEvent then Events(trs) else Events(trs) + [EventFor(tr)]
  {
    assert (trs + [tr])[..|trs|] == trs;
  }

  lemma {:induction false} ExtendHistory(trs: seq<Transition>, tr: Transition)
    requires Linked(trs, tr.from) && tr.from != tr.to
    requires Alternating(Events(trs)) && (|Events(trs)| % 2 == 1 <==> tr.from == Degraded)
    requires tr.from == Degraded ==> tr.to == OK
    ensures Linked(trs + [tr], tr.to)
    ensures Alternating(Events(trs + [tr])) && (|Events(trs + [tr])| % 2 == 1 <==> tr.to == Degraded)
  {
    EventsAppend(trs, tr);
  }

  /** On a fresh engine, for every key: its state is always the one derived from
      its anchors, its transitions form a chain starting at idle, and its
      degraded and recovered events strictly alternate, degraded first. */
  lemma {:induction false} KeyHistory(c: Config, ss: seq<Sample>, k: string)
    requires Effective(c) && k != ""
    ensures var (keys, trs) := Run(c, ss); var own, es := Of(trs, k), Events(Of(trs, k));
      && KeyOk(c, KeyOf(keys, k))
      && Linked(own, KeyOf(keys, k).state)
      && Alternating(es)
      && (|es| % 2 == 1 <==> KeyOf(keys, k).state == Degraded)
  {
    hide Judge, Snapshot;
    if ss != [] {
      var before, s := ss[..|ss| - 1], ss[|ss| - 1];
      var (keys, trs) := Run(c, before);
      KeyHistory(c, before, k);
      StepReportsItsKey(c, keys, s, k);
      OfAppend(trs, AddStep(c, keys, s).1, k);
      if Accepted(s) && s.key == k {
        KeyKeeps(c, KeyOf(keys, k), s);
        var new' := KeyStep(c, KeyOf(keys, k), s).1;
        if new' != [] {
          assert Of(trs, k) + new' == Of(trs, k) + [new'[0]];
          ExtendHistory(Of(trs, k), new'[0]);
        } else {
          assert Of(trs, k) + new' == Of(trs, k);
        }
      } else {
        assert Of(trs, k) + [] == Of(trs, k);
      }
    }
  }

  /** The gateway alone never degrades a key: a degraded key has a degraded public
      anchor, and the sample that degraded it was a public anchor's. */
  lemma {:induction false} GatewayAloneNeverDegrades(c: Config, ss: seq<Sample>, s: Sample)
    requires Effective(c) && Accepted(s)
    ensures var (keys, _) := Run(c, ss); var (keys', trs) := AddStep(c, keys, s);
      && (KeyOf(keys', s.key).state == Degraded <==> PublicDegraded(KeyOf(keys', s.key).anchors))
      && (forall tr :: tr in trs && tr.to == Degraded ==>
           tr.anchor == s.anchor != GATEWAY && tr.reason != NoReason)
  {
    hide Judge, Snapshot;
    var keys := Run(c, ss).0;
    KeyHistory(c, ss, s.key);
    KeyKeeps(c, KeyOf(keys, s.key), s);
    assert s.anchor in KeyStep(c, KeyOf(keys, s.key), s).0.anchors;
  }
}
