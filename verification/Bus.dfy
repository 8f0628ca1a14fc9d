/** The fan-out bus of internal/daemon/bus.go. A publish never blocks: a subscriber
    with a full channel loses the newest item. K names a subscriber, T is an item. */
module Bus {

  const CAPACITY: nat := 128

  /** How far a subscriber's cancel function has come: it unlists the subscriber under
      the lock and closes the channel after it. */
  datatype Cancelling = NotYet | Unlisted | Done

  /** A subscriber: its channel's unread items, its drop counter, whether the bus lists
      it, and (history) the items it has received. */
  datatype Sub<T> = Sub(buffer: seq<T>, dropped: nat, listed: bool, closed: bool, cancel: Cancelling, got: seq<T>)

  /** All subscribers ever made; broken says that a publish met a closed channel, on
      which a send panics. */
  datatype State<K, T> = State(subs: map<K, Sub<T>>, broken: bool)

  ghost function Fresh<T>(): Sub<T> { Sub([], 0, true, false, NotYet, []) }

  /** The non-blocking send. */
  ghost function Offer<T>(s: Sub<T>, item: T): Sub<T> {
    if |s.buffer| < CAPACITY then s.(buffer := s.buffer + [item]) else s.(dropped := s.dropped + 1)
  }

  ghost function Take<T>(s: Sub<T>): Sub<T> {
    if s.buffer == [] then s else s.(buffer := s.buffer[1..], got := s.got + [s.buffer[0]])
  }

  /** The locked half of cancel, which sync.Once lets through one time. */
  ghost function Unlist<T>(s: Sub<T>): Sub<T> {
    if s.cancel == NotYet then s.(cancel := Unlisted, listed := false) else s
  }

  ghost function CloseChannel<T>(s: Sub<T>): Sub<T> {
    if s.cancel == Unlisted then s.(cancel := Done, closed := true) else s
  }

  datatype Action<K, T> =
    | Subscribe(k: K)
    | Publish(item: T)
    | Receive(k: K)
    | CancelUnlist(k: K)
    | CancelClose(k: K)

  ghost function Step<K, T>(st: State<K, T>, a: Action<K, T>): State<K, T> {
    match a
    case Subscribe(k) => st.(subs := st.subs[k := Fresh()])
    case Publish(item) =>
      State(map k | k in st.subs :: if st.subs[k].listed then Offer(st.subs[k], item) else st.subs[k],
            st.broken || exists k :: k in st.subs && st.subs[k].listed && st.subs[k].closed)
    case Receive(k) => if k in st.subs then st.(subs := st.subs[k := Take(st.subs[k])]) else st
    case CancelUnlist(k) => if k in st.subs then st.(subs := st.subs[k := Unlist(st.subs[k])]) else st
    case CancelClose(k) => if k in st.subs then st.(subs := st.subs[k := CloseChannel(st.subs[k])]) else st
  }

  /** A step as k's subscriber sees it. */
  ghost function SubStep<K, T>(s: Sub<T>, a: Action<K, T>, k: K): Sub<T> {
    match a
    case Publish(item) => if s.listed then Offer(s, item) else s
    case Subscribe(k') => if k' == k then Fresh() else s
    case Receive(k') => if k' == k then Take(s) else s
    case CancelUnlist(k') => if k' == k then Unlist(s) else s
    case CancelClose(k') => if k' == k then CloseChannel(s) else s
  }

  lemma {:induction false} StepAt<K, T>(st: State<K, T>, a: Action<K, T>, k: K)
    ensures k in Step(st, a).subs <==> k in st.subs || a == Subscribe(k)
    ensures k in st.subs ==> Step(st, a).subs[k] == SubStep(st.subs[k], a, k)
    ensures a == Subscribe(k) ==> Step(st, a).subs[k] == Fresh()
  {
    hide Offer, Take, Unlist, CloseChannel;
  }

  ghost function Run<K, T>(acts: seq<Action<K, T>>): State<K, T> {
    if acts == [] then State(map[], false) else Step(Run(acts[..|acts| - 1]), acts[|acts| - 1])
  }

  // ---- what every step keeps ----

  ghost predicate SubOk<T>(s: Sub<T>) {
    && |s.buffer| <= CAPACITY
    && (s.listed <==> s.cancel == NotYet)
    && (s.closed <==> s.cancel == Done)
  }

  ghost predicate Inv<K, T>(st: State<K, T>) {
    !st.broken && forall k :: k in st.subs ==> SubOk(st.subs[k])
  }

  lemma {:induction false} StepKeeps<K, T>(st: State<K, T>, a: Action<K, T>)
    requires Inv(st)
    ensures Inv(Step(st, a))
  {
  }

  /** No publish of any run sends on a closed channel, and no channel overflows. */
  lemma {:induction false} NeverSendsOnClosed<K, T>(acts: seq<Action<K, T>>)
    ensures Inv(Run(acts))
  {
    if acts != [] {
      NeverSendsOnClosed(acts[..|acts| - 1]);
      StepKeeps(Run(acts[..|acts| - 1]), acts[|acts| - 1]);
    }
  }

  // ---- conservation ----

  /** Each subscribe makes a new subscriber. */
  ghost predicate NewEachTime<K, T>(acts: seq<Action<K, T>>) {
    acts == [] || (
      var before, last := acts[..|acts| - 1], acts[|acts| - 1];
      NewEachTime(before) && (last.Subscribe? ==> last.k !in Run(before).subs))
  }

  /** k has subscribed and its cancel has not unlisted it yet. */
  ghost predicate Subscribed<K, T>(acts: seq<Action<K, T>>, k: K) {
    if acts == [] then false
    else
      var last := acts[|acts| - 1];
      if last == Subscribe(k) then true
      else if last == CancelUnlist(k) then false
      else Subscribed(acts[..|acts| - 1], k)
  }

  /** The items published while k was subscribed, in publish order. */
  ghost function Due<K, T>(acts: seq<Action<K, T>>, k: K): seq<T> {
    if acts == [] then []
    else
      var before, last := acts[..|acts| - 1], acts[|acts| - 1];
      if last.Publish? && Subscribed(before, k) then Due(before, k) + [last.item] else Due(before, k)
  }

  /** xs is ys with some items left out. */
  ghost predicate Within<T>(xs: seq<T>, ys: seq<T>) {
    if xs == [] then true
    else if ys == [] then false
    else if xs[|xs| - 1] == ys[|ys| - 1] then Within(xs[..|xs| - 1], ys[..|ys| - 1])
    else Within(xs, ys[..|ys| - 1])
  }

  /** Everything that went into k's channel, received or not. */
  ghost function Delivered<T>(s: Sub<T>): seq<T> { s.got + s.buffer }

  lemma {:induction false} DropLast<T>(xs: seq<T>, ys: seq<T>)
    requires Within(xs, ys)
    ensures xs != [] ==> Within(xs[..|xs| - 1], ys)
    decreases |ys|, 0
  {
    if xs != [] && ys != [] {
      var x', y' := xs[..|xs| - 1], ys[..|ys| - 1];
      if xs[|xs| - 1] == ys[|ys| - 1] {
        SkipMore(x', y', ys[|ys| - 1]);
        assert y' + [ys[|ys| - 1]] == ys;
      } else {
        DropLast(xs, y');
        SkipMore(x', y', ys[|ys| - 1]);
        assert y' + [ys[|ys| - 1]] == ys;
      }
    }
  }

  lemma {:induction false} SkipMore<T>(xs: seq<T>, ys: seq<T>, y: T)
    requires Within(xs, ys)
    ensures Within(xs, ys + [y])
    decreases |ys|, 1
  {
    assert (ys + [y])[..|ys|] == ys;
    if xs != [] && xs[|xs| - 1] == y {
      DropLast(xs, ys);
    }
  }

  lemma {:induction false} KeepMore<T>(xs: seq<T>, ys: seq<T>, y: T)
    requires Within(xs, ys)
    ensures Within(xs + [y], ys + [y])
  {
    assert (ys + [y])[..|ys|] == ys && (xs + [y])[..|xs|] == xs;
  }

  /** k's books balance. */
  ghost predicate Balanced<K, T>(acts: seq<Action<K, T>>, k: K) {
    var st := Run(acts);
    if k !in st.subs then !Subscribed(acts, k) && Due(acts, k) == []
    else Books(st.subs[k], Subscribed(acts, k), Due(acts, k))
  }

  ghost predicate Books<T>(s: Sub<T>, subscribed: bool, due: seq<T>) {
    && (s.listed <==> subscribed)
    && Within(Delivered(s), due)
    && |due| == |Delivered(s)| + s.dropped
  }

  lemma {:induction false} BooksStep<K, T>(s: Sub<T>, a: Action<K, T>, k: K, subscribed: bool, due: seq<T>)
    requires Books(s, subscribed, due) && SubOk(s) && a != Subscribe(k)
    ensures Books(SubStep(s, a, k), subscribed && a != CancelUnlist(k),
                  if a.Publish? && subscribed then due + [a.item] else due)
  {
    hide Within;
    TakeConserves(s);
    if a.Publish? && s.listed {
      OfferConserves(s, due, a.item);
    }
  }

  lemma {:induction false} TakeConserves<T>(s: Sub<T>)
    ensures Delivered(Take(s)) == Delivered(s)
  {
  }

  lemma {:induction false} OfferConserves<T>(s: Sub<T>, due: seq<T>, item: T)
    requires Within(Delivered(s), due) && |due| == |Delivered(s)| + s.dropped
    ensures var t := Offer(s, item);
      Within(Delivered(t), due + [item]) && |due + [item]| == |Delivered(t)| + t.dropped
  {
    hide Within;
    if |s.buffer| < CAPACITY {
      assert Delivered(Offer(s, item)) == Delivered(s) + [item];
      KeepMore(Delivered(s), due, item);
    } else {
      SkipMore(Delivered(s), due, item);
    }
  }

  /** For every subscriber of every run: what it was given, received or still unread,
      is an in-order selection of the items published while it was subscribed, and
      the ones it was not given are exactly its drop count. */
  lemma {:induction false} Conservation<K, T>(acts: seq<Action<K, T>>, k: K)
    requires NewEachTime(acts)
    ensures Balanced(acts, k)
  {
    if acts != [] {
      var before, last := acts[..|acts| - 1], acts[|acts| - 1];
      Conservation(before, k);
      NeverSendsOnClosed(before);
      StepBalances(acts, k);
    }
  }

  lemma {:induction false} StepBalances<K, T>(acts: seq<Action<K, T>>, k: K)
    requires acts != [] && NewEachTime(acts) && Balanced(acts[..|acts| - 1], k) && Inv(Run(acts[..|acts| - 1]))
    ensures Balanced(acts, k)
  {
    hide Within, Step, Inv, SubStep;
    var before, last := acts[..|acts| - 1], acts[|acts| - 1];
    var st := Run(before);
    StepAt(st, last, k);
    assert Run(acts) == Step(st, last);
    if last == Subscribe(k) {
      EmptyWithin<T>([]);
      assert Delivered(Fresh<T>()) == [] && Due(acts, k) == [];
    } else if k in st.subs {
      hide Run, NewEachTime, Books;
      InvAt(st, k);
      BooksStep(st.subs[k], last, k, Subscribed(before, k), Due(before, k));
    }
  }

  lemma {:induction false} InvAt<K, T>(st: State<K, T>, k: K)
    requires Inv(st) && k in st.subs
    ensures SubOk(st.subs[k])
  {
  }

  lemma {:induction false} EmptyWithin<T>(ys: seq<T>)
    ensures Within([], ys)
  {
  }

  lemma {:induction false} WithinShorter<T>(xs: seq<T>, ys: seq<T>)
    requires Within(xs, ys)
    ensures |xs| <= |ys|
    ensures |xs| == |ys| ==> xs == ys
    decreases |ys|
  {
    if xs != [] {
      if xs[|xs| - 1] == ys[|ys| - 1] {
        WithinShorter(xs[..|xs| - 1], ys[..|ys| - 1]);
        assert xs == xs[..|xs| - 1] + [xs[|xs| - 1]] && ys == ys[..|ys| - 1] + [ys[|ys| - 1]];
      } else {
        WithinShorter(xs, ys[..|ys| - 1]);
      }
    }
  }

  // ---- a reader that keeps up ----

  ghost function GotBy<K, T>(acts: seq<Action<K, T>>, k: K): nat {
    if k in Run(acts).subs then |Run(acts).subs[k].got| else 0
  }

  /** At every publish while k is subscribed, k has fewer than 128 of the items
      published for it still to receive. */
  ghost predicate KeepsUp<K, T>(acts: seq<Action<K, T>>, k: K) {
    if acts == [] then true
    else
      var before := acts[..|acts| - 1];
      && KeepsUp(before, k)
      && (acts[|acts| - 1].Publish? && Subscribed(before, k) ==> |Due(before, k)| - GotBy(before, k) < 128)
  }

  lemma {:induction false} NoDropIffKeepsUp<K, T>(acts: seq<Action<K, T>>, k: K)
    requires NewEachTime(acts) && k in Run(acts).subs
    ensures Run(acts).subs[k].dropped == 0 <==> KeepsUp(acts, k)
  {
    var before := acts[..|acts| - 1];
    Conservation(before, k);
    NeverSendsOnClosed(before);
    if k in Run(before).subs {
      NoDropIffKeepsUp(before, k);
      hide Run, KeepsUp, Due, NewEachTime, Subscribed, Within;
      DropStep(acts, k);
    } else {
      UnknownKeepsUp(before, k);
    }
  }

  /** The step drops exactly when k, owed 128 items, is published another. */
  lemma {:induction false} DropStep<K, T>(acts: seq<Action<K, T>>, k: K)
    requires acts != [] && NewEachTime(acts)
    requires k in Run(acts[..|acts| - 1]).subs && Balanced(acts[..|acts| - 1], k) && Inv(Run(acts[..|acts| - 1]))
    ensures k in Run(acts).subs
    ensures var before, last := acts[..|acts| - 1], acts[|acts| - 1];
      var s, t := Run(before).subs[k], Run(acts).subs[k];
      var inTime := last.Publish? && Subscribed(before, k) ==> |Due(before, k)| - |s.got| < 128;
      && s.dropped <= t.dropped
      && (KeepsUp(acts, k) <==> KeepsUp(before, k) && inTime)
      && (s.dropped == 0 ==> (t.dropped == 0 <==> inTime))
  {
    hide Within, Due, Step, Inv;
    var st := Run(acts[..|acts| - 1]);
    StepAt(st, acts[|acts| - 1], k);
    InvAt(st, k);
  }

  lemma {:induction false} UnknownKeepsUp<K, T>(acts: seq<Action<K, T>>, k: K)
    requires NewEachTime(acts) && k !in Run(acts).subs
    ensures KeepsUp(acts, k)
  {
    if acts != [] {
      Conservation(acts[..|acts| - 1], k);
      UnknownKeepsUp(acts[..|acts| - 1], k);
    }
  }

  /** A subscriber gets every item published while it is subscribed, in publish order,
      exactly when it never has 128 items unread at a publish. */
  lemma {:induction false} FastReaderGetsAll<K, T>(acts: seq<Action<K, T>>, k: K)
    requires NewEachTime(acts) && k in Run(acts).subs
    ensures Delivered(Run(acts).subs[k]) == Due(acts, k) <==> KeepsUp(acts, k)
  {
    hide Run, KeepsUp, Due, Within;
    Conservation(acts, k);
    NoDropIffKeepsUp(acts, k);
    WithinShorter(Delivered(Run(acts).subs[k]), Due(acts, k));
  }

  // ---- subscribers do not touch each other ----

  /** The publishes and k's own actions. */
  ghost function OwnActions<K, T>(acts: seq<Action<K, T>>, k: K): seq<Action<K, T>> {
    if acts == [] then []
    else
      var rest, last := OwnActions(acts[..|acts| - 1], k), acts[|acts| - 1];
      if last.Publish? || last.k == k then rest + [last] else rest
  }

  lemma {:induction false} RunMore<K, T>(acts: seq<Action<K, T>>, a: Action<K, T>)
    ensures Run(acts + [a]) == Step(Run(acts), a)
  {
    assert (acts + [a])[..|acts|] == acts;
  }

  /** What becomes of a subscriber depends on the publishes and its own actions alone:
      no other subscriber, however slow, changes it. */
  lemma {:induction false} OthersDoNotMatter<K, T>(acts: seq<Action<K, T>>, k: K)
    ensures k in Run(acts).subs <==> k in Run(OwnActions(acts, k)).subs
    ensures k in Run(acts).subs ==> Run(acts).subs[k] == Run(OwnActions(acts, k)).subs[k]
  {
    if acts != [] {
      var before, last := acts[..|acts| - 1], acts[|acts| - 1];
      OthersDoNotMatter(before, k);
      hide Run, Step;
      var own := OwnActions(before, k);
      RunMore(before, last);
      RunMore(own, last);
      StepAt(Run(before), last, k);
      StepAt(Run(own), last, k);
      assert acts == before + [last];
    }
  }
}
