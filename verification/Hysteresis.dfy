/** The learning/ok/degraded machine of internal/monitor/engine.go on its own:
    a function of the verdicts it is shown, whatever statistics produced them. */
module Hysteresis {
  import opened Engine

  datatype Judged = Judged(v: Verdict, at: int)

  /** The machine after a history of verdicts, one per sample. */
  function Drive(c: Config, js: seq<Judged>): Machine
    requires js != []
    decreases |js|
  {
    var j := js[|js| - 1];
    MachineStep(c, if |js| == 1 then FreshMachine(j.at) else Drive(c, js[..|js| - 1]),
                |js| >= c.minSamples, j.v, j.at)
  }

  /** All of the last n verdicts are bad (good). */
  predicate LastBad(js: seq<Judged>, n: nat) { n <= |js| && forall i :: |js| - n <= i < |js| ==> js[i].v.Bad() }
  predicate LastGood(js: seq<Judged>, n: nat) { n <= |js| && forall i :: |js| - n <= i < |js| ==> js[i].v.good }

  /** What the machine's fields say about the history: learning lasts exactly
      until MinSamples, and a streak counts that many consecutive verdicts. */
  ghost predicate Meaning(c: Config, js: seq<Judged>, m: Machine) {
    && (m.state == Learning <==> |js| < c.minSamples)
    && (m.state == Learning || m.state == OK || m.state == Degraded)
    && (m.state == Learning ==> m.badStreak == 0)
    && (m.state == OK ==>
      && m.badStreak < c.degradeStreak && m.badStreak <= |js| - c.minSamples + 1
      && LastBad(js, m.badStreak))
    && (m.state == Degraded ==>
      && m.goodStreak < c.recoverStreak && m.goodStreak <= |js| - c.minSamples
      && LastGood(js, m.goodStreak))
  }

  lemma {:induction false} DriveMeaning(c: Config, js: seq<Judged>)
    requires Effective(c) && js != []
    ensures Meaning(c, js, Drive(c, js))
    decreases |js|
  {
    if |js| > 1 {
      DriveMeaning(c, js[..|js| - 1]);
    }
  }

  ghost predicate In(c: Config, js: seq<Judged>, st: State) { js != [] && Drive(c, js).state == st }

  /** Entering degraded takes DegradeStreak consecutive bad verdicts, the first of
      them no earlier than the MinSamples-th sample. */
  lemma {:induction false} EntryStreak(c: Config, js: seq<Judged>)
    requires Effective(c) && js != []
    requires In(c, js, Degraded) && !In(c, js[..|js| - 1], Degraded)
    ensures |js| >= c.minSamples - 1 + c.degradeStreak && LastBad(js, c.degradeStreak)
  {
    DriveMeaning(c, js);
    if |js| > 1 {
      DriveMeaning(c, js[..|js| - 1]);
    }
  }

  /** Leaving degraded takes RecoverStreak consecutive good verdicts and leads to ok. */
  lemma {:induction false} RecoveryStreak(c: Config, js: seq<Judged>)
    requires Effective(c) && js != []
    requires In(c, js[..|js| - 1], Degraded) && !In(c, js, Degraded)
    ensures In(c, js, OK) && LastGood(js, c.recoverStreak)
  {
    DriveMeaning(c, js);
    DriveMeaning(c, js[..|js| - 1]);
  }

  /** How many times the machine entered degraded. */
  ghost function Entries(c: Config, js: seq<Judged>): nat {
    if js == [] then 0
    else
      var before := js[..|js| - 1];
      Entries(c, before) + if In(c, js, Degraded) && !In(c, before, Degraded) then 1 else 0
  }

  /** The samples a machine must have consumed to be in m after its entries;
      cycle is the length of a full degrade-and-recover round. */
  function Spent(c: Config, m: Machine, entries: nat): int {
    var cycle := c.degradeStreak + c.recoverStreak;
    match m.state
    case OK => c.minSamples - 1 + entries * cycle + m.badStreak
    case Degraded => c.minSamples - 1 + c.degradeStreak + (entries - 1) * cycle + m.goodStreak
    case _ => 0
  }

  /** One more verdict pays for what the machine then stands for. */
  lemma {:induction false} SpentStep(c: Config, m: Machine, entries: nat, n: nat, j: Judged)
    requires Effective(c) && n >= Spent(c, m, entries)
    requires m.state == Learning || m.state == OK || m.state == Degraded
    requires m.state == Learning ==> entries == 0 && n < c.minSamples
    requires m.state == OK ==> m.badStreak < c.degradeStreak
    requires m.state == Degraded ==> entries > 0 && m.goodStreak < c.recoverStreak
    ensures var r := MachineStep(c, m, n + 1 >= c.minSamples, j.v, j.at);
      n + 1 >= c.minSamples ==>
        n + 1 >= Spent(c, r, entries + if r.state == Degraded && m.state != Degraded then 1 else 0)
  {
    var cycle := c.degradeStreak + c.recoverStreak;
    assert (entries + 1 - 1) * cycle == entries * cycle;
    assert entries > 0 ==> (entries - 1) * cycle + cycle == entries * cycle;
  }

  lemma {:induction false} SpentIsPaid(c: Config, js: seq<Judged>)
    requires Effective(c) && js != []
    ensures In(c, js, Learning) ==> Entries(c, js) == 0
    ensures In(c, js, Degraded) ==> Entries(c, js) > 0
    ensures |js| >= Spent(c, Drive(c, js), Entries(c, js))
    decreases |js|
  {
    DriveMeaning(c, js);
    var before, j := js[..|js| - 1], js[|js| - 1];
    if |js| > 1 {
      DriveMeaning(c, before);
      SpentIsPaid(c, before);
      hide MachineStep, Spent;
      SpentStep(c, Drive(c, before), Entries(c, before), |before|, j);
      LearningIsFree(c, Drive(c, js), Entries(c, js));
    } else {
      assert before == [];
      SpentStep(c, FreshMachine(j.at), 0, 0, j);
    }
  }

  lemma {:induction false} LearningIsFree(c: Config, m: Machine, entries: nat)
    ensures m.state == Learning ==> Spent(c, m, entries) == 0
  {
  }

  /** m entries need at least MinSamples-1 + D + (m-1)(D+R) verdicts. */
  lemma {:induction false} EntriesAreSlow(c: Config, js: seq<Judged>)
    requires Effective(c) && Entries(c, js) > 0
    ensures |js| >= c.minSamples - 1 + c.degradeStreak
                    + (Entries(c, js) - 1) * (c.degradeStreak + c.recoverStreak)
  {
    SpentIsPaid(c, js);
    DriveMeaning(c, js);
    CycleBound(c, Drive(c, js), Entries(c, js), |js|);
  }

  lemma {:induction false} CycleBound(c: Config, m: Machine, entries: nat, n: nat)
    requires Effective(c) && entries > 0 && (m.state == OK || m.state == Degraded)
    requires n >= Spent(c, m, entries)
    ensures n >= c.minSamples - 1 + c.degradeStreak + (entries - 1) * (c.degradeStreak + c.recoverStreak)
  {
    var cycle := c.degradeStreak + c.recoverStreak;
    assert (entries - 1) * cycle + cycle == entries * cycle;
  }

  /** From n on no verdict is good, and only the first DegradeStreak may be bad. */
  ghost predicate Silent(c: Config, js: seq<Judged>, n: nat)
    requires Effective(c)
  {
    && (forall i :: n <= i < |js| ==> !js[i].v.good)
    && (forall i :: n + c.degradeStreak <= i < |js| ==> !js[i].v.Bad())
  }

  predicate AllBad(js: seq<Judged>, from: nat, to: int) {
    to <= |js| && forall i :: from <= i < to ==> js[i].v.Bad()
  }

  /** From ok, when only the next DegradeStreak verdicts may be bad: the machine ends up
      degraded if the streak it had is completed by verdicts that are bad from the first
      on (and no good ones follow), and otherwise it stays ok. */
  lemma {:induction false} FirstVerdictsDecide(c: Config, js: seq<Judged>, n: nat)
    requires Effective(c) && 0 < n <= |js| && Drive(c, js[..n]).state == OK
    requires Silent(c, js, n)
    ensures var b, m := Drive(c, js[..n]).badStreak, Drive(c, js);
      && b < c.degradeStreak
      && m.state == (if AllBad(js, n, n + c.degradeStreak - b) then Degraded else OK)
      && Decided(c, js, n, b, m)
    decreases |js|
  {
    hide StreakIs, MachineStep, Meaning, Silent;
    FirstStreak(c, js, n);
    if n == |js| {
      assert js[..n] == js;
      Undecided(c, js, Drive(c, js));
    } else {
      var before, j := js[..|js| - 1], js[|js| - 1];
      assert before[..n] == js[..n];
      SilentBefore(c, js, n);
      FirstVerdictsDecide(c, before, n);
      DriveMore(c, js, n);
      hide Drive;
      DecideStep(c, js, n, Drive(c, js[..n]).badStreak, Drive(c, before));
    }
  }

  lemma {:induction false} FirstStreak(c: Config, js: seq<Judged>, n: nat)
    requires Effective(c) && 0 < n <= |js| && Drive(c, js[..n]).state == OK
    ensures Drive(c, js[..n]).badStreak < c.degradeStreak && n >= c.minSamples
  {
    hide Drive;
    DriveMeaning(c, js[..n]);
  }

  lemma {:induction false} DriveMore(c: Config, js: seq<Judged>, n: nat)
    requires 0 < n < |js| && n >= c.minSamples
    ensures Drive(c, js) == MachineStep(c, Drive(c, js[..|js| - 1]), true, js[|js| - 1].v, js[|js| - 1].at)
  {
    hide MachineStep;
  }

  lemma {:induction false} SilentBefore(c: Config, js: seq<Judged>, n: nat)
    requires Effective(c) && n < |js| && Silent(c, js, n)
    ensures Silent(c, js[..|js| - 1], n)
  {
  }

  lemma {:induction false} Undecided(c: Config, js: seq<Judged>, m: Machine)
    requires m.badStreak < c.degradeStreak && m.state == OK
    ensures Decided(c, js, |js|, m.badStreak, m) && !AllBad(js, |js|, |js| + c.degradeStreak - m.badStreak)
  {
  }

  /** The machine m that was ok with streak b at n. */
  ghost predicate Decided(c: Config, js: seq<Judged>, n: nat, b: nat, m: Machine) {
    && m.state == (if AllBad(js, n, n + c.degradeStreak - b) then Degraded else OK)
    && (m.state == OK ==> StreakIs(c, js, n, b, m.badStreak))
  }

  lemma {:induction false} DecideStep(c: Config, js: seq<Judged>, n: nat, b: nat, m: Machine)
    requires Effective(c) && n < |js| && b < c.degradeStreak && Silent(c, js, n)
    requires Decided(c, js[..|js| - 1], n, b, m)
    ensures var j := js[|js| - 1]; Decided(c, js, n, b, MachineStep(c, m, true, j.v, j.at))
  {
    hide MachineStep, StreakIs;
    var before, j := js[..|js| - 1], js[|js| - 1];
    OneVerdict(c, m, j);
    assert !j.v.good by { assert js[|js| - 1] == j; }
    if AllBad(before, n, n + c.degradeStreak - b) {
      assert AllBad(js, n, n + c.degradeStreak - b);
    } else {
      StreakMoves(c, js, n, b, m.badStreak);
    }
  }

  lemma {:induction false} OneVerdict(c: Config, m: Machine, j: Judged)
    requires Effective(c)
    ensures var r, bad := MachineStep(c, m, true, j.v, j.at), if j.v.Bad() then m.badStreak + 1 else 0;
      && (m.state == OK ==> r.state == (if bad >= c.degradeStreak then Degraded else OK) && r.badStreak == bad)
      && (m.state == Degraded && !j.v.good ==> r.state == Degraded)
  {
  }

  /** A streak of x, where it was b at n: unbroken since, or broken, and then shorter
      than the number of verdicts since and over after DegradeStreak of them. */
  ghost predicate StreakIs(c: Config, js: seq<Judged>, n: nat, b: nat, x: nat) {
    var k := |js| - n;
    if AllBad(js, n, |js|) then x == b + k
    else x < k && (k > c.degradeStreak ==> x == 0)
  }

  lemma {:induction false} StreakMoves(c: Config, js: seq<Judged>, n: nat, b: nat, x: nat)
    requires Effective(c) && n < |js| && b < c.degradeStreak
    requires Silent(c, js, n)
    requires StreakIs(c, js[..|js| - 1], n, b, x) && !AllBad(js[..|js| - 1], n, n + c.degradeStreak - b)
    ensures var y := if js[|js| - 1].v.Bad() then x + 1 else 0;
      StreakIs(c, js, n, b, y) && (y >= c.degradeStreak <==> AllBad(js, n, n + c.degradeStreak - b))
  {
    var before := js[..|js| - 1];
    assert AllBad(js, n, |js|) <==> AllBad(before, n, |before|) && js[|js| - 1].v.Bad();
    assert AllBad(js, n, n + c.degradeStreak - b) ==> n + c.degradeStreak - b == |js|;
  }

  /** Without a good verdict nothing recovers. */
  lemma {:induction false} DegradedStays(c: Config, js: seq<Judged>, n: nat)
    requires Effective(c) && 0 < n <= |js| && Drive(c, js[..n]).state == Degraded
    requires Silent(c, js, n)
    ensures Drive(c, js).state == Degraded
    decreases |js|
  {
    DriveMeaning(c, js[..n]);
    if n == |js| {
      assert js[..n] == js;
    } else {
      assert js[..|js| - 1][..n] == js[..n];
      DegradedStays(c, js[..|js| - 1], n);
      DriveMeaning(c, js[..|js| - 1]);
    }
  }

  /** A machine that has never been shown a bad verdict since it stopped learning is ok. */
  lemma {:induction false} NeverBadIsOk(c: Config, js: seq<Judged>)
    requires Effective(c) && |js| >= c.minSamples
    requires forall i :: c.minSamples - 1 <= i < |js| ==> !js[i].v.Bad()
    ensures Drive(c, js).state == OK && Drive(c, js).badStreak == 0
    decreases |js|
  {
    if |js| > c.minSamples {
      NeverBadIsOk(c, js[..|js| - 1]);
    } else if |js| > 1 {
      DriveMeaning(c, js[..|js| - 1]);
    }
  }
}
