/** The activation waiter: waitActive and waitEvents of internal/nm/wifi.go with the
    waiter channels of internal/nm/client.go. */
module Waiter {
  import opened Options

  /** NetworkManager's active connection states. */
  datatype Phase = Unknown | Activating | Activated | Deactivating | Deactivated

  datatype Event = Event(phase: Phase, reason: nat)

  predicate Settled(p: Phase) { p == Activated || p == Deactivated }

  /** How a wait ends. */
  datatype Ending = Ok | Ended(reason: nat) | TimedOut | Cancelled | Unavailable

  function EndingOf(e: Event): Ending
    requires Settled(e.phase)
  {
    if e.phase == Activated then Ok else Ended(e.reason)
  }

  const SLOTS: nat := 16

  /** The select with a default branch. */
  function Offer(chan: seq<Event>, e: Event): seq<Event> { if |chan| < SLOTS then chan + [e] else chan }

  // ---- waitEvents: one select after another ----

  /** What the select picks: the context ended, the timer fired (with what secretPending
      answers then), an event, or the closed channel. */
  datatype Input = Done | Tick(now: int, pending: bool) | Got(e: Event) | ChannelClosed

  /** When the timer fires next, and whether the wait was last extended. */
  datatype Timer = Timer(deadline: int, extended: bool)

  /** timeout is activateTimeout, poll is secretPollInterval. */
  datatype Limits = Limits(timeout: int, poll: int)

  datatype Progress = Waits(timer: Timer) | Ends(how: Ending)

  function Select(l: Limits, t: Timer, input: Input): Progress {
    match input
    case Done => Ends(Cancelled)
    case Tick(now, pending) =>
      if pending then Waits(Timer(now + l.poll, true))
      else if t.extended then Waits(Timer(now + l.timeout, false))
      else Ends(TimedOut)
    case Got(e) => if Settled(e.phase) then Ends(EndingOf(e)) else Waits(t)
    case ChannelClosed => Ends(Unavailable)
  }

  /** The wait after these inputs; it takes none after its end. */
  function WaitOn(l: Limits, start: int, inputs: seq<Input>): Progress {
    if inputs == [] then Waits(Timer(start + l.timeout, false))
    else
      match WaitOn(l, start, inputs[..|inputs| - 1])
      case Waits(t) => Select(l, t, inputs[|inputs| - 1])
      case Ends(how) => Ends(how)
  }

  /** The loop of the source; None when the inputs run out first. */
  method WaitEvents(l: Limits, start: int, inputs: seq<Input>) returns (r: Option<Ending>, used: nat)
    ensures used <= |inputs| && WaitOn(l, start, inputs) == WaitOn(l, start, inputs[..used])
    ensures match WaitOn(l, start, inputs) case Waits(_) => r == None case Ends(how) => r == Some(how)
    ensures r.Some? ==> used > 0 && WaitOn(l, start, inputs[..used - 1]).Waits? && EndedBy(inputs[used - 1], r.value)
  {
    hide WaitOn;
    NothingYet(l, start, inputs);
    var deadline, extended := start + l.timeout, false;
    used := 0;
    while used < |inputs|
      invariant used <= |inputs| && WaitOn(l, start, inputs[..used]) == Waits(Timer(deadline, extended))
    {
      NextInput(l, start, inputs, used);
      var input := inputs[used];
      used := used + 1;
      match input {
        case Done =>
          EndIsEnd(l, start, inputs, used);
          return Some(Cancelled), used;
        case Tick(now, pending) =>
          if pending {
            extended := true;
            deadline := now + l.poll;
          } else if extended {
            extended := false;
            deadline := now + l.timeout;
          } else {
            EndIsEnd(l, start, inputs, used);
            return Some(TimedOut), used;
          }
        case Got(e) =>
          if Settled(e.phase) {
            EndIsEnd(l, start, inputs, used);
            return Some(EndingOf(e)), used;
          }
        case ChannelClosed =>
          EndIsEnd(l, start, inputs, used);
          return Some(Unavailable), used;
      }
    }
    assert inputs[..used] == inputs;
    return None, used;
  }

  /** What an input that ends a wait makes of it: success for an activated connection, the
      reason for a deactivated one, and so on; nothing else ends one. */
  predicate EndedBy(input: Input, how: Ending) {
    match input
    case Done => how == Cancelled
    case Tick(_, pending) => how == TimedOut && !pending
    case Got(e) => if e.phase == Activated then how == Ok else e.phase == Deactivated && how == Ended(e.reason)
    case ChannelClosed => how == Unavailable
  }

  /** How a wait ends, exactly, by the input that ends it (for the timeout see
      TimesOutExactly); on every other input it goes on. */
  lemma {:induction false} EndsExactly(l: Limits, start: int, inputs: seq<Input>, input: Input)
    requires WaitOn(l, start, inputs).Waits?
    ensures var p := WaitOn(l, start, inputs + [input]);
      && (p == Ends(Ok) <==> input.Got? && input.e.phase == Activated)
      && (forall r :: p == Ends(Ended(r)) <==> input.Got? && input.e.phase == Deactivated && input.e.reason == r)
      && (p == Ends(Cancelled) <==> input == Done)
      && (p == Ends(Unavailable) <==> input == ChannelClosed)
      && (input.Got? && input.e.phase != Activated && input.e.phase != Deactivated ==> p == WaitOn(l, start, inputs))
  {
    assert (inputs + [input])[..|inputs|] == inputs;
  }

  lemma {:induction false} NothingYet(l: Limits, start: int, inputs: seq<Input>)
    ensures WaitOn(l, start, inputs[..0]) == Waits(Timer(start + l.timeout, false))
  {
  }

  lemma {:induction false} NextInput(l: Limits, start: int, inputs: seq<Input>, n: nat)
    requires n < |inputs| && WaitOn(l, start, inputs[..n]).Waits?
    ensures inputs[..n + 1][..n] == inputs[..n]
    ensures WaitOn(l, start, inputs[..n + 1]) == Select(l, WaitOn(l, start, inputs[..n]).timer, inputs[n])
  {
    assert inputs[..n + 1][..n] == inputs[..n];
  }

  lemma {:induction false} EndIsEnd(l: Limits, start: int, inputs: seq<Input>, n: nat)
    requires n <= |inputs| && WaitOn(l, start, inputs[..n]).Ends?
    ensures WaitOn(l, start, inputs) == WaitOn(l, start, inputs[..n])
    decreases |inputs|
  {
    if n < |inputs| {
      assert inputs[..|inputs| - 1][..n] == inputs[..n];
      EndIsEnd(l, start, inputs[..|inputs| - 1], n);
    } else {
      assert inputs[..n] == inputs;
    }
  }

  // ---- when a wait times out ----

  /** The timer never fires early. */
  ghost predicate TimerHolds(l: Limits, start: int, inputs: seq<Input>) {
    inputs == [] || (
      var before, last := inputs[..|inputs| - 1], inputs[|inputs| - 1];
      && TimerHolds(l, start, before)
      && (last.Tick? && WaitOn(l, start, before).Waits? ==> last.now >= WaitOn(l, start, before).timer.deadline))
  }

  /** The latest tick among the inputs. */
  function LastTick(inputs: seq<Input>): Option<Input> {
    if inputs == [] then None
    else if inputs[|inputs| - 1].Tick? then Some(inputs[|inputs| - 1])
    else LastTick(inputs[..|inputs| - 1])
  }

  /** A waiting wait is extended exactly when the last tick found a secret open; its
      deadline counts from that tick, or from the start when none has come yet. */
  lemma {:induction false} DeadlineCounts(l: Limits, start: int, inputs: seq<Input>)
    requires WaitOn(l, start, inputs).Waits?
    ensures var t := WaitOn(l, start, inputs).timer;
      match LastTick(inputs)
      case None => t == Timer(start + l.timeout, false)
      case Some(tick) => tick.Tick? && t == Timer(tick.now + if tick.pending then l.poll else l.timeout, tick.pending)
  {
    if inputs != [] {
      DeadlineCounts(l, start, inputs[..|inputs| - 1]);
    }
  }

  /** A wait times out at an input exactly when that input is a tick without an open
      secret request and no request was open at the tick before, if there was one. */
  lemma {:induction false} TimesOutExactly(l: Limits, start: int, inputs: seq<Input>, input: Input)
    requires WaitOn(l, start, inputs).Waits?
    ensures WaitOn(l, start, inputs + [input]) == Ends(TimedOut) <==>
      && input.Tick? && !input.pending
      && (LastTick(inputs).None? || (LastTick(inputs).value.Tick? && !LastTick(inputs).value.pending))
  {
    assert (inputs + [input])[..|inputs|] == inputs;
    DeadlineCounts(l, start, inputs);
  }

  /** And then the full timeout has passed since the start, or since the tick that
      found the extension over: the tick before that one found a secret open. */
  lemma {:induction false} TimeoutIsFull(l: Limits, start: int, inputs: seq<Input>, now: int)
    requires WaitOn(l, start, inputs).Waits? && TimerHolds(l, start, inputs + [Tick(now, false)])
    requires WaitOn(l, start, inputs + [Tick(now, false)]) == Ends(TimedOut)
    ensures match LastTick(inputs)
      case None => now >= start + l.timeout
      case Some(tick) => tick.Tick? && !tick.pending && now >= tick.now + l.timeout && OverAt(inputs)
  {
    assert (inputs + [Tick(now, false)])[..|inputs|] == inputs;
    TimesOutExactly(l, start, inputs, Tick(now, false));
    DeadlineCounts(l, start, inputs);
    if LastTick(inputs).Some? {
      SecondLastTick(l, start, inputs);
    }
  }

  /** The last two ticks: a secret was open at the earlier one and not at the later. */
  predicate OverAt(inputs: seq<Input>) {
    inputs != [] && (
      var before, last := inputs[..|inputs| - 1], inputs[|inputs| - 1];
      if last.Tick? then
        !last.pending && LastTick(before).Some? && LastTick(before).value.Tick? && LastTick(before).value.pending
      else OverAt(before))
  }

  lemma {:induction false} SecondLastTick(l: Limits, start: int, inputs: seq<Input>)
    requires WaitOn(l, start, inputs).Waits?
    requires LastTick(inputs).Some? && LastTick(inputs).value.Tick? && !LastTick(inputs).value.pending
    ensures OverAt(inputs)
  {
    var before := inputs[..|inputs| - 1];
    DeadlineCounts(l, start, before);
    if !inputs[|inputs| - 1].Tick? {
      SecondLastTick(l, start, before);
    }
  }
}
