/** The bus as the object its goroutines share. */
module BusObject {
  import opened Bus

  class Subscriber<T> {
    var buffer: seq<T>
    var dropped: nat
    var closed: bool
    var cancel: Cancelling
    ghost var got: seq<T>

    ghost function View(listed: bool): Sub<T>
      reads this
    {
      Sub(buffer, dropped, listed, closed, cancel, got)
    }

    constructor ()
      ensures View(true) == Fresh()
    {
      buffer, dropped, closed, cancel, got := [], 0, false, NotYet, [];
    }

    /** The select with a default branch: never blocks. */
    method Offer(item: T)
      modifies this
      ensures forall listed :: View(listed) == Bus.Offer(old(View(listed)), item)
    {
      if |buffer| < CAPACITY {
        buffer := buffer + [item];
      } else {
        dropped := dropped + 1;
      }
    }

    /** A receive; without an unread item it would block, or report a closed channel. */
    method Receive() returns (items: seq<T>)
      modifies this
      ensures forall listed :: View(listed) == Take(old(View(listed)))
      ensures got == old(got) + items && items + buffer == old(buffer) && |items| <= 1
    {
      if buffer == [] {
        return [];
      }
      items := [buffer[0]];
      got := got + items;
      buffer := buffer[1..];
    }
  }

  class EventBus<T> {
    var subs: set<Subscriber<T>>
    ghost var known: set<Subscriber<T>>

    ghost predicate Valid()
      reads this, known
    {
      subs <= known && Inv(Now())
    }

    ghost function Now(): State<Subscriber<T>, T>
      reads this, known
    {
      State(map s | s in known :: s.View(s in subs), false)
    }

    constructor ()
      ensures Valid() && Now() == Run([]) && known == {}
    {
      subs, known := {}, {};
    }

    method Subscribe() returns (s: Subscriber<T>)
      requires Valid()
      modifies this
      ensures Valid() && fresh(s) && known == old(known) + {s}
      ensures Now() == Step(old(Now()), Action.Subscribe(s))
    {
      s := new Subscriber();
      subs := subs + {s};
      known := known + {s};
      StepKeeps(old(Now()), Action.Subscribe(s));
      assert Now().subs == Step(old(Now()), Action.Subscribe(s)).subs;
    }

    /** Offers the item to every listed subscriber; none of their channels is closed. */
    method Publish(item: T)
      requires Valid()
      modifies known
      ensures Valid()
      ensures Now() == Step(old(Now()), Action.Publish(item))
    {
      var todo := subs;
      while todo != {}
        invariant todo <= subs && subs == old(subs) && known == old(known)
        invariant forall s :: s in known ==>
          s.View(s in subs) ==
          if s in subs && s !in todo then Bus.Offer(old(s.View(s in subs)), item) else old(s.View(s in subs))
        decreases |todo|
      {
        var s :| s in todo;
        assert old(s.View(true)) == old(Now()).subs[s] && !s.closed;
        s.Offer(item);
        todo := todo - {s};
      }
      StepKeeps(old(Now()), Action.Publish(item));
      assert Now().subs == Step(old(Now()), Action.Publish(item)).subs;
    }

    /** The locked half of a subscriber's cancel function. */
    method Unlist(s: Subscriber<T>)
      requires Valid() && s in known
      modifies this`subs, s`cancel
      ensures Valid() && Now() == Step(old(Now()), CancelUnlist(s))
    {
      if s.cancel == NotYet {
        subs := subs - {s};
        s.cancel := Unlisted;
      } else {
        assert old(Now()).subs[s] == s.View(s in subs);
      }
      StepKeeps(old(Now()), CancelUnlist(s));
      assert Now().subs == Step(old(Now()), CancelUnlist(s)).subs;
    }

    /** What follows it: the channel is closed, once. */
    method CloseChannel(s: Subscriber<T>)
      requires Valid() && s in known
      modifies s`cancel, s`closed
      ensures Valid() && Now() == Step(old(Now()), CancelClose(s))
    {
      if s.cancel == Unlisted {
        s.closed := true;
        s.cancel := Done;
      }
      StepKeeps(old(Now()), CancelClose(s));
      assert Now().subs == Step(old(Now()), CancelClose(s)).subs;
    }
  }
}
