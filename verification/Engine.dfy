/** The baseline engine of internal/monitor/engine.go: a sliding window, a median
    round-trip time and a mean loss per (network key, anchor), a
    learning/ok/degraded machine per anchor, and a state per network key. */
module Engine {
  import opened Median

  const GATEWAY := "gateway"

  datatype State = Unset | Learning | OK | Degraded | Idle
  datatype Reason = NoReason | Rtt | Loss

  /** One probe round against one anchor. A negative rtt says every echo was
      lost, a negative dns that no resolve was measured. */
  datatype Sample = Sample(time: int, key: string, anchor: string, rtt: real, loss: real, dns: real)

  datatype Config = Config(
    window: int, minSamples: int, currentWindow: int,
    degradeFactor: real, degradeDelta: real, degradeLoss: real, degradeBaseLoss: real, degradeStreak: int,
    recoverFactor: real, recoverLoss: real, recoverStreak: int)

  const DEFAULTS := Config(200, 40, 10, 2.0, 20.0, 0.10, 0.02, 3, 1.3, 0.03, 10)

  datatype Baseline = Baseline(
    key: string, anchor: string, state: State, count: nat,
    baseRtt: real, baseLoss: real, curRtt: real, curLoss: real, curDns: real,
    since: int, updatedAt: int)

  const NO_BASELINE := Baseline("", "", Unset, 0, 0.0, 0.0, 0.0, 0.0, 0.0, 0, 0)

  /** The learning/ok/degraded machine of one anchor. */
  datatype Machine = Machine(state: State, since: int, badStreak: nat, goodStreak: nat, lastReason: Reason)

  datatype AnchorState = AnchorState(samples: seq<Sample>, m: Machine, baseline: Baseline)

  datatype KeyState = KeyState(state: State, since: int, anchors: map<string, AnchorState>)

  datatype Transition = Transition(
    key: string, from: State, to: State, at: int,
    anchor: string, reason: Reason, baseline: Baseline)

  type Keys = map<string, KeyState>

  // ---- configuration ----

  /** What every engine runs with: each knob positive, and the learning threshold
      reachable inside the window. */
  predicate Effective(c: Config) {
    && 0 < c.minSamples <= c.window && 0 < c.currentWindow
    && 0.0 < c.degradeFactor && 0.0 < c.degradeDelta && 0.0 < c.degradeLoss && 0.0 < c.degradeBaseLoss
    && 0 < c.degradeStreak && 0.0 < c.recoverFactor && 0.0 < c.recoverLoss && 0 < c.recoverStreak
  }

  function PosInt(v: int, d: int): int { if v <= 0 then d else v }
  function PosReal(v: real, d: real): real { if v <= 0.0 then d else v }

  /** Non-positive knobs take the defaults, then the learning threshold is capped
      by the window; a configuration that is already effective is left alone. */
  function WithDefaults(c: Config): (r: Config)
    ensures Effective(r)
    ensures Effective(c) ==> r == c
  {
    var window := PosInt(c.window, DEFAULTS.window);
    var minSamples := PosInt(c.minSamples, DEFAULTS.minSamples);
    Config(
      window,
      if minSamples > window then window else minSamples,
      PosInt(c.currentWindow, DEFAULTS.currentWindow),
      PosReal(c.degradeFactor, DEFAULTS.degradeFactor),
      PosReal(c.degradeDelta, DEFAULTS.degradeDelta),
      PosReal(c.degradeLoss, DEFAULTS.degradeLoss),
      PosReal(c.degradeBaseLoss, DEFAULTS.degradeBaseLoss),
      PosInt(c.degradeStreak, DEFAULTS.degradeStreak),
      PosReal(c.recoverFactor, DEFAULTS.recoverFactor),
      PosReal(c.recoverLoss, DEFAULTS.recoverLoss),
      PosInt(c.recoverStreak, DEFAULTS.recoverStreak))
  }

  // ---- statistics of a window ----

  function Last<T>(s: seq<T>, n: nat): (r: seq<T>)
    ensures |r| == if |s| <= n then |s| else n
  {
    if |s| <= n then s else s[|s| - n..]
  }

  function Answered(ss: seq<Sample>): seq<real> {
    if ss == [] then []
    else
      var rest := Answered(ss[..|ss| - 1]);
      if ss[|ss| - 1].rtt >= 0.0 then rest + [ss[|ss| - 1].rtt] else rest
  }

  function LossSum(ss: seq<Sample>): real {
    if ss == [] then 0.0 else LossSum(ss[..|ss| - 1]) + ss[|ss| - 1].loss
  }

  function MedianRtt(ss: seq<Sample>): real { MedianOf(Answered(ss)) }

  function MeanLoss(ss: seq<Sample>): real {
    if ss == [] then 0.0 else LossSum(ss) / (|ss| as real)
  }

  /** The most recent DNS measurement, -1 when there is none. */
  function LastDns(ss: seq<Sample>): real {
    if ss == [] then -1.0
    else if ss[|ss| - 1].dns >= 0.0 then ss[|ss| - 1].dns
    else LastDns(ss[..|ss| - 1])
  }

  method ComputeMedianRtt(samples: seq<Sample>) returns (rtt: real)
    ensures rtt == MedianRtt(samples)
  {
    var vals: seq<real> := [];
    for i := 0 to |samples|
      invariant vals == Answered(samples[..i])
    {
      assert samples[..i + 1][..i] == samples[..i];
      if samples[i].rtt >= 0.0 {
        vals := vals + [samples[i].rtt];
      }
    }
    assert samples[..|samples|] == samples;
    rtt := MedianOf(vals);
  }

  method ComputeMeanLoss(samples: seq<Sample>) returns (loss: real)
    ensures loss == MeanLoss(samples)
  {
    if |samples| == 0 {
      return 0.0;
    }
    var sum := 0.0;
    for i := 0 to |samples|
      invariant sum == LossSum(samples[..i])
    {
      assert samples[..i + 1][..i] == samples[..i];
      sum := sum + samples[i].loss;
    }
    assert samples[..|samples|] == samples;
    loss := sum / (|samples| as real);
  }

  method ComputeCurrentStats(c: Config, samples: seq<Sample>) returns (rtt: real, loss: real, dns: real)
    requires Effective(c)
    ensures rtt == MedianRtt(Last(samples, c.currentWindow))
    ensures loss == MeanLoss(Last(samples, c.currentWindow))
    ensures dns == LastDns(Last(samples, c.currentWindow))
  {
    hide MedianRtt, MeanLoss;
    var cur := samples;
    if |cur| > c.currentWindow {
      cur := cur[|cur| - c.currentWindow..];
    }
    dns := -1.0;
    var i := |cur| - 1;
    assert cur[..|cur|] == cur;
    while i >= 0
      invariant -1 <= i < |cur|
      invariant LastDns(cur) == LastDns(cur[..i + 1])
      invariant dns == -1.0
    {
      assert cur[..i + 1][..i] == cur[..i];
      if cur[i].dns >= 0.0 {
        dns := cur[i].dns;
        break;
      }
      i := i - 1;
    }
    rtt := ComputeMedianRtt(cur);
    loss := ComputeMeanLoss(cur);
  }

  // ---- the verdict on a window ----

  datatype Verdict = Verdict(rttBad: bool, lossBad: bool, good: bool) {
    predicate Bad() { rttBad || lossBad }
  }

  /** The degrade and recover rules over four numbers. */
  function Rules(c: Config, baseRtt: real, baseLoss: real, curRtt: real, curLoss: real): Verdict {
    var known := curRtt >= 0.0 && baseRtt >= 0.0;
    Verdict(
      known && curRtt > c.degradeFactor * baseRtt && curRtt > baseRtt + c.degradeDelta,
      curLoss > c.degradeLoss && baseLoss < c.degradeBaseLoss,
      known && curRtt < c.recoverFactor * baseRtt && curLoss < c.recoverLoss)
  }

  function Judge(c: Config, w: seq<Sample>): Verdict
    requires Effective(c)
  {
    var cur := Last(w, c.currentWindow);
    Rules(c, MedianRtt(w), MeanLoss(w), MedianRtt(cur), MeanLoss(cur))
  }

  // ---- one anchor ----

  function FreshMachine(at: int): Machine { Machine(Learning, at, 0, 0, NoReason) }

  function Fresh(at: int): AnchorState { AnchorState([], FreshMachine(at), NO_BASELINE) }

  /** From ok: count consecutive bad verdicts, degrade on a full streak. */
  function FromOk(c: Config, m: Machine, v: Verdict, at: int): Machine {
    var counted :=
      if v.Bad() then m.(badStreak := m.badStreak + 1, lastReason := if v.rttBad then Rtt else Loss)
      else m.(badStreak := 0);
    if counted.badStreak >= c.degradeStreak
    then counted.(state := Degraded, since := at, goodStreak := 0)
    else counted
  }

  /** From degraded: count consecutive good verdicts, recover on a full streak. */
  function FromDegraded(c: Config, m: Machine, v: Verdict, at: int): Machine {
    var counted := m.(goodStreak := if v.good then m.goodStreak + 1 else 0);
    if counted.goodStreak >= c.recoverStreak
    then counted.(state := OK, since := at, badStreak := 0)
    else counted
  }

  /** One evaluation; enough says the window holds MinSamples. */
  function MachineStep(c: Config, m: Machine, enough: bool, v: Verdict, at: int): Machine {
    if !enough then
      m.(state := Learning, since := if m.state != Learning then at else m.since, badStreak := 0, goodStreak := 0)
    else match m.state
      case Learning | Idle => FromOk(c, m.(state := OK, since := at, badStreak := 0, goodStreak := 0), v, at)
      case OK => FromOk(c, m, v, at)
      case Degraded => FromDegraded(c, m, v, at)
      case Unset => m
  }

  function Snapshot(c: Config, key: string, anchor: string, w: seq<Sample>, m: Machine, at: int): Baseline
    requires Effective(c)
  {
    if w == [] then
      Baseline(key, anchor, m.state, 0, -1.0, 0.0, -1.0, 0.0, -1.0, m.since, at)
    else
      var cur := Last(w, c.currentWindow);
      Baseline(key, anchor, m.state, |w|, MedianRtt(w), MeanLoss(w),
               MedianRtt(cur), MeanLoss(cur), LastDns(cur), m.since, at)
  }

  /** One sample of one anchor: slide the window, judge it, take the snapshot. */
  function AnchorStep(c: Config, a: AnchorState, s: Sample): AnchorState
    requires Effective(c)
  {
    var w := Last(a.samples + [s], c.window);
    var m := MachineStep(c, a.m, |w| >= c.minSamples, Judge(c, w), s.time);
    AnchorState(w, m, Snapshot(c, s.key, s.anchor, w, m, s.time))
  }

  // ---- one network key ----

  ghost predicate PublicDegraded(anchors: map<string, AnchorState>) {
    exists name :: name in anchors && name != GATEWAY && anchors[name].m.state == Degraded
  }

  ghost predicate AllLearning(anchors: map<string, AnchorState>) {
    forall name :: name in anchors ==> anchors[name].m.state == Learning
  }

  ghost function Derived(anchors: map<string, AnchorState>): State {
    if anchors == map[] then Idle
    else if PublicDegraded(anchors) then Degraded
    else if AllLearning(anchors) then Learning
    else OK
  }

  function KeyOf(keys: Keys, k: string): KeyState {
    if k in keys then keys[k] else KeyState(Idle, 0, map[])
  }

  function AnchorOf(ks: KeyState, s: Sample): AnchorState {
    if s.anchor in ks.anchors then ks.anchors[s.anchor] else Fresh(s.time)
  }

  /** The transition reported when a key moves from one state to another because
      of anchor a, which is then in state as'. */
  function Report(key: string, from: State, to: State, anchor: string, a: AnchorState, at: int): Transition {
    var decided := to == Degraded || from == Degraded;
    Transition(key, from, to, at,
               if decided then anchor else "",
               if to == Degraded then a.m.lastReason else NoReason,
               if decided then a.baseline else NO_BASELINE)
  }

  ghost function KeyStep(c: Config, ks: KeyState, s: Sample): (KeyState, seq<Transition>)
    requires Effective(c)
  {
    var a := AnchorStep(c, AnchorOf(ks, s), s);
    var anchors := ks.anchors[s.anchor := a];
    var next := Derived(anchors);
    if next == ks.state then (ks.(anchors := anchors), [])
    else (KeyState(next, s.time, anchors), [Report(s.key, ks.state, next, s.anchor, a, s.time)])
  }

  // ---- the engine ----

  predicate Accepted(s: Sample) { s.key != "" && s.anchor != "" }

  ghost function AddStep(c: Config, keys: Keys, s: Sample): (Keys, seq<Transition>)
    requires Effective(c)
  {
    if !Accepted(s) then (keys, [])
    else
      var (ks, trs) := KeyStep(c, KeyOf(keys, s.key), s);
      (keys[s.key := ks], trs)
  }
}
