/** What the records of the engine say: the figures of a baseline, the transitions of a
    key, and the key's state over whole runs. */
module Figures {
  import opened Engine
  import opened EngineRuns
  import KeyRuns
  import opened Median

  // ---- the figures of a window ----

  /** The answered times are those of the answered samples, in order. */
  lemma {:induction false} AnsweredExactly(ss: seq<Sample>, x: real)
    ensures x in Answered(ss) <==> x >= 0.0 && exists i :: 0 <= i < |ss| && ss[i].rtt == x
    ensures |Answered(ss)| == |ss| <==> forall i :: 0 <= i < |ss| ==> ss[i].rtt >= 0.0
    ensures |Answered(ss)| <= |ss|
  {
    if ss != [] {
      AnsweredExactly(ss[..|ss| - 1], x);
    }
  }

  /** The DNS figure is the latest one measured, -1 when none was. */
  lemma {:induction false} LastDnsExactly(ss: seq<Sample>, i: nat)
    requires i <= |ss| && (forall j :: i < j < |ss| ==> ss[j].dns < 0.0) && (i < |ss| ==> ss[i].dns >= 0.0)
    requires i == |ss| ==> forall j :: 0 <= j < |ss| ==> ss[j].dns < 0.0
    ensures LastDns(ss) == if i < |ss| then ss[i].dns else -1.0
    decreases |ss|
  {
    if ss != [] && i != |ss| - 1 {
      LastDnsExactly(ss[..|ss| - 1], if i < |ss| then i else |ss| - 1);
    }
  }

  /** Every baseline the engine reports: state and since of its anchor, the number of
      samples in its window, the window's median and mean loss, and median, mean loss and
      latest DNS time of the last CurrentWindow of them. */
  lemma {:induction false} BaselineSays(c: Config, ss: seq<Sample>, k: string, a: string)
    requires Effective(c) && k != "" && a != "" && Sub(ss, k, a) != []
    ensures var keys, own := Run(c, ss).0, Sub(ss, k, a);
      k in keys && a in keys[k].anchors && (
      var b, m := keys[k].anchors[a].baseline, keys[k].anchors[a].m;
      var w, cur := Last(own, c.window), Last(Last(own, c.window), c.currentWindow);
      && b.key == k && b.anchor == a && b.state == m.state && b.since == m.since
      && b.count == |w| && b.updatedAt == own[|own| - 1].time
      && b.baseRtt == MedianOf(Answered(w)) && b.baseLoss == LossSum(w) / (|w| as real)
      && b.curRtt == MedianOf(Answered(cur)) && b.curLoss == LossSum(cur) / (|cur| as real)
      && b.curDns == LastDns(cur))
  {
    hide MedianOf, Answered, LossSum, LastDns, Judge, MachineStep;
    var own := Sub(ss, k, a);
    AnchorIsItsOwnReplay(c, ss, k, a);
    SubIsOwn(ss, k, a);
    WindowIsSuffix(c, own);
    hide Run, Sub;
    assert Replay(c, own).baseline == Snapshot(c, k, a, Replay(c, own).samples, Replay(c, own).m, own[|own| - 1].time);
  }

  lemma {:induction false} SubIsOwn(ss: seq<Sample>, k: string, a: string)
    ensures forall i :: 0 <= i < |Sub(ss, k, a)| ==> Sub(ss, k, a)[i].key == k && Sub(ss, k, a)[i].anchor == a
  {
    if ss != [] {
      SubIsOwn(ss[..|ss| - 1], k, a);
    }
  }

  // ---- the state of a key ----

  /** Idle without anchors; degraded exactly when a public anchor is; learning exactly when
      all of them are; ok otherwise. */
  lemma {:induction false} DerivedExactly(anchors: map<string, AnchorState>)
    ensures Derived(anchors) == Idle <==> anchors == map[]
    ensures Derived(anchors) == Degraded <==> exists a :: a in anchors && a != "gateway" && anchors[a].m.state == Degraded
    ensures Derived(anchors) == Learning <==> anchors != map[] && forall a :: a in anchors ==> anchors[a].m.state == Learning
    ensures Derived(anchors) in {Idle, Degraded, Learning, OK}
  {
  }

  /** What the run makes of one anchor: it is known when it has samples, and learning while
      they are fewer than MinSamples. */
  ghost predicate Known(c: Config, anchors: map<string, AnchorState>, ss: seq<Sample>, k: string, a: string) {
    && (a in anchors <==> Sub(ss, k, a) != [])
    && (a in anchors ==> (anchors[a].m.state == Learning <==> |Sub(ss, k, a)| < c.minSamples))
  }

  lemma {:induction false} AnchorLearns(c: Config, ss: seq<Sample>, k: string, a: string)
    requires Effective(c) && k != "" && a != ""
    ensures Known(c, KeyOf(Run(c, ss).0, k).anchors, ss, k, a)
  {
    hide Run, Sub, Replay;
    AnchorIsItsOwnReplay(c, ss, k, a);
    if Sub(ss, k, a) != [] {
      LearningLasts(c, Sub(ss, k, a));
    }
  }

  /** Over any run: a key is learning exactly while it has samples and none of its anchors
      has MinSamples of them. */
  lemma {:induction false} KeyLearnsExactly(c: Config, ss: seq<Sample>, k: string)
    requires Effective(c) && k != ""
    ensures KeyOf(Run(c, ss).0, k).state == Learning <==> Short(c, ss, k)
  {
    hide Run, Sub, Replay, Known, Derived;
    var ks := KeyOf(Run(c, ss).0, k);
    KeyRuns.KeyHistory(c, ss, k);
    DerivedExactly(ks.anchors);
    AnchorsAreNamed(c, ss, k);
    forall a | a != "" ensures Known(c, ks.anchors, ss, k, a) {
      AnchorLearns(c, ss, k, a);
    }
    hide KeyOf, Run;
    if ks.state == Learning {
      LearnersAreShort(c, ks.anchors, ss, k);
    }
    if Short(c, ss, k) {
      ShortAreLearners(c, ks.anchors, ss, k);
    }
  }

  ghost predicate Learners(anchors: map<string, AnchorState>) {
    anchors != map[] && forall a :: a in anchors ==> anchors[a].m.state == Learning
  }

  /** The key has samples, and none of its anchors has MinSamples of them. */
  ghost predicate Short(c: Config, ss: seq<Sample>, k: string) {
    && (exists a :: a != "" && Sub(ss, k, a) != [])
    && forall a :: a != "" ==> |Sub(ss, k, a)| < c.minSamples
  }

  lemma {:induction false} LearnersAreShort(c: Config, anchors: map<string, AnchorState>, ss: seq<Sample>, k: string)
    requires Effective(c) && "" !in anchors && forall a :: a != "" ==> Known(c, anchors, ss, k, a)
    requires Learners(anchors)
    ensures Short(c, ss, k)
  {
    hide Sub;
    var a :| a in anchors;
    assert Known(c, anchors, ss, k, a);
    forall a | a != "" ensures |Sub(ss, k, a)| < c.minSamples {
      assert Known(c, anchors, ss, k, a);
      if a !in anchors {
        assert |Sub(ss, k, a)| == 0;
      }
    }
  }

  lemma {:induction false} ShortAreLearners(c: Config, anchors: map<string, AnchorState>, ss: seq<Sample>, k: string)
    requires "" !in anchors && (forall a :: a != "" ==> Known(c, anchors, ss, k, a)) && Short(c, ss, k)
    ensures Learners(anchors)
  {
    hide Sub;
    var a :| a != "" && Sub(ss, k, a) != [];
    assert Known(c, anchors, ss, k, a);
    forall a | a in anchors ensures anchors[a].m.state == Learning {
      assert Known(c, anchors, ss, k, a);
    }
  }

  lemma {:induction false} AnchorsAreNamed(c: Config, ss: seq<Sample>, k: string)
    requires Effective(c)
    ensures "" !in KeyOf(Run(c, ss).0, k).anchors
  {
    hide AnchorStep, Derived, Report;
    if ss != [] {
      AnchorsAreNamed(c, ss[..|ss| - 1], k);
    }
  }

  // ---- transitions ----

  /** A sample reports a transition exactly when it moves its key's state, with the old and
      new state and its instant; the sample's anchor and its baseline are named when
      degraded is entered or left, the anchor's last reason when it is entered. */
  lemma {:induction false} TransitionSays(c: Config, keys: Keys, s: Sample)
    requires Effective(c) && s.key != "" && s.anchor != ""
    ensures var (after, trs) := AddStep(c, keys, s);
      var from, to := KeyOf(keys, s.key).state, KeyOf(after, s.key).state;
      s.key in after && s.anchor in after[s.key].anchors && (
      var a := after[s.key].anchors[s.anchor];
      && (from == to ==> trs == [])
      && (from != to ==>
           |trs| == 1 &&
           var tr := trs[0];
           && tr.key == s.key && tr.from == from && tr.to == to && tr.at == s.time
           && (to == Degraded ==> tr.anchor == s.anchor && tr.reason == a.m.lastReason && tr.baseline == a.baseline)
           && (from == Degraded ==> tr.anchor == s.anchor && tr.reason == NoReason && tr.baseline == a.baseline)
           && (from != Degraded && to != Degraded ==> tr.anchor == "" && tr.reason == NoReason && tr.baseline == NO_BASELINE)))
  {
    hide AnchorStep, Derived;
  }

  /** The event of a transition: degraded when it goes to degraded, recovered when it goes
      from degraded to ok, none otherwise. */
  lemma {:induction false} EventSays(tr: Transition)
    ensures tr.to == Degraded <==> KeyRuns.EventFor(tr) == KeyRuns.DegradedEvent
    ensures tr.from == Degraded && tr.to == OK <==> KeyRuns.EventFor(tr) == KeyRuns.RecoveredEvent
  {
  }

  // ---- the configuration ----

  /** The numbers an engine runs with, one by one: what is given when it is positive, and
      the default when it is not; learning never asks for more than the window holds. */
  lemma {:induction false} DefaultsExactly(c: Config)
    ensures var r := WithDefaults(c);
      && r.window == (if c.window > 0 then c.window else 200)
      && (var asked := if c.minSamples > 0 then c.minSamples else 40;
          r.minSamples == if asked <= r.window then asked else r.window)
      && r.currentWindow == (if c.currentWindow > 0 then c.currentWindow else 10)
      && r.degradeFactor == (if c.degradeFactor > 0.0 then c.degradeFactor else 2.0)
      && r.degradeDelta == (if c.degradeDelta > 0.0 then c.degradeDelta else 20.0)
      && r.degradeLoss == (if c.degradeLoss > 0.0 then c.degradeLoss else 0.1)
      && r.degradeBaseLoss == (if c.degradeBaseLoss > 0.0 then c.degradeBaseLoss else 0.02)
      && r.degradeStreak == (if c.degradeStreak > 0 then c.degradeStreak else 3)
      && r.recoverFactor == (if c.recoverFactor > 0.0 then c.recoverFactor else 1.3)
      && r.recoverLoss == (if c.recoverLoss > 0.0 then c.recoverLoss else 0.03)
      && r.recoverStreak == (if c.recoverStreak > 0 then c.recoverStreak else 10)
  {
  }
}
