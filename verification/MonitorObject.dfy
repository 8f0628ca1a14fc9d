/** The monitor of internal/monitor/monitor.go as the object that owns the engine and
    writes the store, proved against the steps of WarmStart. Probing and the clock are
    inputs; the store answers its queries as WarmStart says. */
module MonitorObject {
  import opened Options
  import opened Engine
  import opened EngineObject
  import opened KeyRuns
  import opened WarmStart
  import opened Loading

  datatype Probe = Measured(rtt: real, loss: real) | ProbeFailed

  /** The gateway, when its address is known, and then the configured anchors. */
  function Targets(gateway: string, anchors: seq<string>): seq<string> {
    (if gateway != "" then [GATEWAY] else []) + anchors
  }

  function SampleOf(now: int, key: string, target: string, p: Probe, dns: real): Sample {
    match p
    case Measured(rtt, loss) => Sample(now, key, target, rtt, loss, dns)
    case ProbeFailed => Sample(now, key, target, -1.0, 1.0, dns)
  }

  /** One sample per target; the first carries the resolver's answer time. */
  function RoundSamples(now: int, key: string, targets: seq<string>, probes: seq<Probe>, dns: Option<real>): (r: seq<Sample>)
    requires |probes| == |targets|
    ensures |r| == |targets|
    ensures forall i :: 0 <= i < |r| ==> r[i].time == now && r[i].key == key && r[i].anchor == targets[i]
  {
    seq(|targets|, i requires 0 <= i < |targets| =>
      SampleOf(now, key, targets[i], probes[i], if i == 0 && dns.Some? then dns.value else -1.0))
  }

  /** The capacity of the events channel. */
  const EVENTS: nat := 32

  /** Sends without blocking: what does not fit is dropped. */
  function Emitted(queue: seq<KeyEvent>, es: seq<KeyEvent>): seq<KeyEvent> {
    if es == [] then queue
    else
      var q := Emitted(queue, es[..|es| - 1]);
      if |q| < EVENTS then q + [es[|es| - 1]] else q
  }

  /** The channel takes the first events that fit, in order, and loses the others. */
  lemma {:induction false} FirstFit(queue: seq<KeyEvent>, es: seq<KeyEvent>)
    requires |queue| <= 32
    ensures var room := 32 - |queue|;
      Emitted(queue, es) == queue + es[..if |es| <= room then |es| else room]
  {
    if es == [] {
      assert queue + [] == queue;
    } else {
      var before, last, room := es[..|es| - 1], es[|es| - 1], EVENTS - |queue|;
      FirstFit(queue, before);
      if |es| <= room {
        assert before[..|before|] == before && es[..|es|] == before + [last];
        assert queue + before + [last] == queue + (before + [last]);
      } else {
        assert es[..room] == before[..room];
      }
    }
  }

  class Monitor {
    const engine: BaselineEngine
    const anchors: seq<string>
    var db: Db
    var network: string
    var gateway: string
    /** The events channel. */
    var events: seq<KeyEvent>

    ghost predicate Valid()
      reads this, engine
    {
      engine.Valid() && |events| <= EVENTS
    }

    ghost function Now(): World
      reads this, engine
    {
      World(db, engine.keys, network)
    }

    /** The anchor names a warm start asks the store for. */
    function Names(): seq<string> { [GATEWAY] + anchors }

    constructor (c: Config, anchors: seq<string>, db: Db)
      ensures Valid() && fresh(engine) && engine.cfg == WithDefaults(c)
      ensures this.anchors == anchors && Now() == World(db, map[], "") && events == []
    {
      engine := new BaselineEngine(c);
      this.anchors := anchors;
      this.db, network, gateway, events := db, "", "", [];
    }

    /** bs is what the store lists for the key. */
    method SetNetwork(key: string, gatewayIp: string, bs: seq<Baseline>)
      requires Valid() && Lists(bs, db, key)
      modifies this`network, this`gateway, engine`keys
      ensures Valid() && gateway == gatewayIp
      ensures Next(engine.cfg, Names(), old(Now()), WarmStart.SetNetwork(key, bs), Now())
    {
      hide Warmed;
      var changed := key != network;
      network := key;
      gateway := gatewayIp;
      if changed && key != "" {
        ghost var was := Now();
        Warm(key, bs);
        assert was == old(Now()).(network := key);
      }
    }

    method Warm(key: string, bs: seq<Baseline>)
      requires Valid() && Lists(bs, db, key)
      modifies engine`keys
      ensures Valid() && Warmed(engine.cfg, Names(), old(Now()), key, bs, Now())
    {
      hide Loaded, Recall, StoredSamples;
      engine.Reset(key);
      var samples := ReadHistory(key);
      engine.Load(bs, samples);
    }

    /** One query per anchor name. */
    method ReadHistory(key: string) returns (samples: seq<Sample>)
      requires Valid()
      ensures samples == Recall(db, Names(), key, engine.cfg.window)
    {
      hide StoredSamples;
      var names := Names();
      samples := [];
      for i := 0 to |names|
        invariant samples == Recall(db, names[..i], key, engine.cfg.window)
      {
        samples := samples + StoredSamples(db, key, names[i], engine.cfg.window);
        assert names[..i + 1][..i] == names[..i];
      }
      assert names[..|names|] == names;
    }

    /** One round that began on the network start with the given gateway: what its
        probes measured is stored and learnt and its events are sent, unless the monitor is idle or paused, is
        stopping, or has moved to another network meanwhile. */
    method Round(now: int, start: string, gatewayIp: string, paused: bool, stopping: bool,
                 probes: seq<Probe>, dns: Option<real>)
      requires Valid() && |probes| == |Targets(gatewayIp, anchors)|
      modifies this`db, this`events, engine`keys
      ensures Valid()
      ensures var c, was := engine.cfg, old(Now());
        var ss := RoundSamples(now, start, Targets(gatewayIp, anchors), probes, dns);
        if start == "" || paused || stopping || ss == [] || start != was.network
        then Now() == was && events == old(events)
        else Now() == Rounded(c, was, ss) && events == Emitted(old(events), Events(Reported(c, was.keys, ss)))
    {
      hide Rounded, Reported, RoundSamples, Events, AddAll, Emitted;
      if start == "" || paused {
        return;
      }
      var targets := Targets(gatewayIp, anchors);
      var samples := RoundSamples(now, start, targets, probes, dns);
      if |targets| == 0 || stopping || network != start {
        return;
      }
      var trs := Learn(samples);
      PutBaselines();
      RoundedIs(engine.cfg, old(Now()), samples);
      var es := EventsOf(trs);
      Emit(es);
    }

    /** The select with a default branch, for each event. */
    method Emit(es: seq<KeyEvent>)
      requires |events| <= EVENTS
      modifies this`events
      ensures events == Emitted(old(events), es) && |events| <= EVENTS
    {
      for i := 0 to |es|
        invariant events == Emitted(old(events), es[..i]) && |events| <= EVENTS
      {
        assert es[..i + 1][..i] == es[..i];
        if |events| < EVENTS {
          events := events + [es[i]];
        }
      }
      assert es[..|es|] == es;
    }

    /** The samples go to the store and to the engine, one by one. */
    method Learn(samples: seq<Sample>) returns (trs: seq<Transition>)
      requires Valid()
      modifies this`db, engine`keys
      ensures Valid() && db == old(db).(samples := old(db).samples + samples)
      ensures engine.keys == AddAll(engine.cfg, old(engine.keys), samples)
      ensures trs == Reported(engine.cfg, old(engine.keys), samples)
    {
      hide AddStep;
      trs := [];
      for i := 0 to |samples|
        invariant Valid() && db == old(db).(samples := old(db).samples + samples[..i])
        invariant engine.keys == AddAll(engine.cfg, old(engine.keys), samples[..i])
        invariant trs == Reported(engine.cfg, old(engine.keys), samples[..i])
      {
        var s := samples[i];
        db := db.(samples := db.samples + [s]);
        var more := engine.Add(s);
        trs := trs + more;
        assert samples[..i + 1][..i] == samples[..i];
        assert samples[..i + 1] == samples[..i] + [s];
      }
      assert samples[..|samples|] == samples;
    }

    /** Every baseline of the current key goes to the store. */
    method PutBaselines()
      requires Valid()
      modifies this`db
      ensures db == Put(old(db), network, KeyOf(engine.keys, network).anchors)
    {
      var all := KeyOf(engine.keys, network).anchors;
      var todo := all.Keys;
      NoneStored(db.baselines, network, all);
      while todo != {}
        invariant todo <= all.Keys && db.samples == old(db).samples
        invariant Stored(old(db).baselines, network, all, all.Keys - todo, db.baselines)
        decreases |todo|
      {
        var a :| a in todo;
        StoreOne(old(db).baselines, network, all, all.Keys - todo, db.baselines, a);
        assert all.Keys - (todo - {a}) == all.Keys - todo + {a};
        todo := todo - {a};
        db := db.(baselines := db.baselines[(network, a) := all[a].baseline]);
      }
      assert all.Keys - todo == all.Keys;
      AllStored(old(db), network, all, db);
    }
  }

  /** now is was with the baselines of the anchors in done put over it. */
  ghost predicate Stored(was: map<(string, string), Baseline>, k: string, all: map<string, AnchorState>,
                         done: set<string>, now: map<(string, string), Baseline>)
    requires done <= all.Keys
  {
    && (forall x :: x in now <==> x in was || (x.0 == k && x.1 in done))
    && (forall x :: x in now ==> now[x] == if x.0 == k && x.1 in done then all[x.1].baseline else was[x])
  }

  lemma {:induction false} NoneStored(was: map<(string, string), Baseline>, k: string, all: map<string, AnchorState>)
    ensures Stored(was, k, all, all.Keys - all.Keys, was)
  {
  }

  lemma {:induction false} StoreOne(was: map<(string, string), Baseline>, k: string, all: map<string, AnchorState>,
                                    done: set<string>, now: map<(string, string), Baseline>, a: string)
    requires done <= all.Keys && Stored(was, k, all, done, now) && a in all
    ensures Stored(was, k, all, done + {a}, now[(k, a) := all[a].baseline])
  {
  }

  lemma {:induction false} AllStored(was: Db, k: string, all: map<string, AnchorState>, now: Db)
    requires now.samples == was.samples && Stored(was.baselines, k, all, all.Keys, now.baselines)
    ensures now == Put(was, k, all)
  {
    var put := Put(was, k, all).baselines;
    forall x ensures x in now.baselines <==> x in put {
      assert x.0 == k && x.1 in all ==> (k, x.1) == x;
    }
    assert now.baselines == put;
  }

  method EventsOf(trs: seq<Transition>) returns (events: seq<KeyEvent>)
    ensures events == Events(trs)
  {
    events := [];
    for i := 0 to |trs|
      invariant events == Events(trs[..i])
    {
      assert trs[..i + 1][..i] == trs[..i];
      if EventFor(trs[i]) != NoEvent {
        events := events + [EventFor(trs[i])];
      }
    }
    assert trs[..|trs|] == trs;
  }

  lemma {:induction false} RoundedIs(c: Config, w: World, ss: seq<Sample>)
    requires Effective(c)
    ensures var keys := AddAll(c, w.keys, ss);
      Rounded(c, w, ss) == World(Put(w.db.(samples := w.db.samples + ss), w.network, KeyOf(keys, w.network).anchors), keys, w.network)
  {
  }

  /** The samples of a round are ones the warm start proofs speak of, as long as the
      clock is positive and not behind the store. */
  lemma {:induction false} RoundFits(m: Monitor, w: World, now: int, gatewayIp: string, probes: seq<Probe>, dns: Option<real>)
    requires |probes| == |Targets(gatewayIp, m.anchors)| && w.network != "" && now > 0
    requires TimeOrdered(w.db.samples) && forall s :: s in w.db.samples ==> s.time <= now
    ensures FitsRound(m.Names(), w, RoundSamples(now, w.network, Targets(gatewayIp, m.anchors), probes, dns))
  {
    hide RoundSamples;
    var targets := Targets(gatewayIp, m.anchors);
    var ss := RoundSamples(now, w.network, targets, probes, dns);
    var all := w.db.samples + ss;
    forall s | s in ss ensures s.key == w.network && s.anchor in m.Names() && s.time > 0 {
      var i :| 0 <= i < |ss| && ss[i] == s;
      assert targets[i] in m.Names();
    }
    forall i, j | 0 <= i < j < |all| ensures all[i].time <= all[j].time {
      assert i < |w.db.samples| ==> all[i] in w.db.samples;
    }
  }

  /** A round, sample by sample: the gateway comes first when it has an address, and then
      the anchors as configured; a target that answered is recorded with its time and loss,
      one that could not be probed with no time and everything lost; the resolver's answer
      time goes with the first sample alone. */
  lemma {:induction false} RoundExactly(now: int, key: string, gatewayIp: string, anchors: seq<string>, probes: seq<Probe>, dns: Option<real>, i: nat)
    requires |probes| == |Targets(gatewayIp, anchors)|
    ensures |probes| == if gatewayIp == "" then |anchors| else |anchors| + 1
    ensures i < |probes| ==>
      var s := RoundSamples(now, key, Targets(gatewayIp, anchors), probes, dns)[i];
      && s.time == now && s.key == key
      && s.anchor == (if gatewayIp == "" then anchors[i] else if i == 0 then "gateway" else anchors[i - 1])
      && (probes[i].Measured? ==> s.rtt == probes[i].rtt && s.loss == probes[i].loss)
      && (probes[i] == ProbeFailed ==> s.rtt == -1.0 && s.loss == 1.0)
      && s.dns == (if i == 0 && dns.Some? then dns.value else -1.0)
  {
    if i < |probes| {
      var ss := RoundSamples(now, key, Targets(gatewayIp, anchors), probes, dns);
      assert ss[i] == SampleOf(now, key, Targets(gatewayIp, anchors)[i], probes[i], if i == 0 && dns.Some? then dns.value else -1.0);
    }
  }

  /** Of a dead round the verdicts see nothing but loss. */
  lemma {:induction false} DeadRound(now: int, key: string, targets: seq<string>, probes: seq<Probe>, dns: Option<real>)
    requires |probes| == |targets| && forall i :: 0 <= i < |probes| ==> probes[i] == ProbeFailed
    ensures var ss := RoundSamples(now, key, targets, probes, dns);
      Answered(ss) == [] && LossSum(ss) == |targets| as real
  {
    var ss := RoundSamples(now, key, targets, probes, dns);
    if targets != [] {
      var n := |targets| - 1;
      DeadRound(now, key, targets[..n], probes[..n], dns);
      assert ss[..n] == RoundSamples(now, key, targets[..n], probes[..n], dns);
    }
  }
}
