/** The waiters map of internal/nm/client.go, as every method leaves it. */
module WaiterObject {
  import opened Waiter

  /** One waiter's buffered channel. */
  class Channel {
    var events: seq<Event>
    var open: bool

    constructor ()
      ensures events == [] && open
    {
      events, open := [], true;
    }
  }

  type Path = string

  class Client {
    var waiters: map<Path, seq<Channel>>

    /** The channels that wait on some path. */
    ghost function All(): set<Channel>
      reads this
    {
      set p, i | p in waiters && 0 <= i < |waiters[p]| :: waiters[p][i]
    }

    ghost predicate Valid()
      reads this, All()
    {
      WaitOnce(waiters) && forall p, i :: p in waiters && 0 <= i < |waiters[p]| ==> waiters[p][i].open
    }

    constructor ()
      ensures Valid() && waiters == map[]
    {
      waiters := map[];
    }

    function WaitersOn(p: Path): seq<Channel>
      reads this
    {
      if p in waiters then waiters[p] else []
    }

    method AddWaiter(p: Path) returns (ch: Channel)
      requires Valid()
      modifies this
      ensures Valid() && fresh(ch) && ch.open && ch.events == []
      ensures waiters == old(waiters)[p := old(WaitersOn(p)) + [ch]]
    {
      hide WaitOnce;
      ch := new Channel();
      assert forall q, i :: q in waiters && 0 <= i < |waiters[q]| ==> waiters[q][i] in old(All());
      assert ch !in old(All());
      OneMore(waiters, p, ch);
      waiters := waiters[p := WaitersOn(p) + [ch]];
    }

    /** ch no longer waits on p; the others keep their order; an entry that becomes
        empty goes away. */
    method RemoveWaiter(p: Path, ch: Channel)
      requires Valid()
      modifies this
      ensures Valid()
      ensures var rest := Without(old(WaitersOn(p)), ch);
        waiters == if rest == [] then old(waiters) - {p} else old(waiters)[p := rest]
    {
      hide WaitOnce, Without;
      var ws := WaitersOn(p);
      var at := |ws|;
      for i := 0 to |ws|
        invariant ch !in ws[..i] && at == |ws|
      {
        if ws[i] == ch {
          at := i;
          break;
        }
      }
      OneLess(waiters, p, ws, ch, at);
      if at < |ws| {
        waiters := waiters[p := ws[..at] + ws[at + 1..]];
      }
      if p in waiters && waiters[p] == [] {
        waiters := waiters - {p};
      }
      assert waiters == Less(old(waiters), p, ch);
    }

    /** Every channel waiting on p is offered the event, and no other channel. */
    method NotifyWaiters(p: Path, e: Event)
      requires Valid()
      modifies WaitersOn(p)
      ensures Valid()
      ensures forall i :: 0 <= i < |WaitersOn(p)| ==>
        var ch := WaitersOn(p)[i]; ch.events == Offer(old(ch.events), e) && ch.open
    {
      var ws := WaitersOn(p);
      for i := 0 to |ws|
        invariant waiters == old(waiters) && forall j :: 0 <= j < |ws| ==> ws[j].open
        invariant forall j :: 0 <= j < i ==> ws[j].events == Offer(old(ws[j].events), e)
        invariant forall j :: i <= j < |ws| ==> ws[j].events == old(ws[j].events)
      {
        if |ws[i].events| < SLOTS {
          ws[i].events := ws[i].events + [e];
        }
      }
    }

    /** The client goes away: every waiting channel is closed, and none waits. */
    method CloseAll()
      requires Valid()
      modifies this, All()
      ensures Valid() && waiters == map[]
      ensures forall ch :: ch in old(All()) ==> !ch.open && ch.events == old(ch.events)
    {
      ghost var all := All();
      while waiters != map[]
        invariant Valid() && All() <= all
        invariant forall ch :: ch in all ==> ch.events == old(ch.events)
        invariant forall ch :: ch in all && ch !in All() ==> !ch.open
        decreases |waiters|
      {
        var p :| p in waiters;
        CloseEach(p);
      }
    }

    method CloseEach(p: Path)
      requires Valid() && p in waiters
      modifies this, waiters[p]
      ensures Valid() && waiters == old(waiters) - {p}
      ensures All() <= old(All())
      ensures forall ch :: ch in old(All()) && ch !in All() ==> ch in old(waiters[p])
      ensures forall ch :: ch in old(waiters[p]) ==> !ch.open && ch.events == old(ch.events)
    {
      var ws := waiters[p];
      for i := 0 to |ws|
        invariant waiters == old(waiters)
        invariant forall j :: 0 <= j < |ws| ==> ws[j].events == old(ws[j].events)
        invariant forall j :: 0 <= j < i ==> !ws[j].open
      {
        ws[i].open := false;
      }
      waiters := waiters - {p};
      forall ch | ch in old(All()) && ch !in ws ensures ch in All() {
        var q, i :| q in old(waiters) && 0 <= i < |old(waiters)[q]| && old(waiters)[q][i] == ch;
        assert q in waiters && waiters[q][i] == ch;
      }
    }
  }

  /** A channel waits once, and no entry is empty. */
  ghost predicate WaitOnce(m: map<Path, seq<Channel>>) {
    && (forall p :: p in m ==> m[p] != [])
    && (forall p, i, q, j :: p in m && q in m && 0 <= i < |m[p]| && 0 <= j < |m[q]| && m[p][i] == m[q][j] ==>
         p == q && i == j)
  }

  lemma {:induction false} OneMore(m: map<Path, seq<Channel>>, p: Path, ch: Channel)
    requires WaitOnce(m) && forall q, i :: q in m && 0 <= i < |m[q]| ==> m[q][i] != ch
    ensures WaitOnce(m[p := (if p in m then m[p] else []) + [ch]])
  {
  }

  ghost function Less(m: map<Path, seq<Channel>>, p: Path, ch: Channel): map<Path, seq<Channel>> {
    var rest := Without(if p in m then m[p] else [], ch);
    if rest == [] then m - {p} else m[p := rest]
  }

  /** What finding ch at index at (or not at all) means for the map. */
  lemma {:induction false} OneLess(m: map<Path, seq<Channel>>, p: Path, ws: seq<Channel>, ch: Channel, at: nat)
    requires WaitOnce(m) && ws == if p in m then m[p] else []
    requires at <= |ws| && ch !in ws[..at] && (at < |ws| ==> ws[at] == ch)
    ensures Without(ws, ch) == if at < |ws| then ws[..at] + ws[at + 1..] else ws
    ensures WaitOnce(Less(m, p, ch))
    ensures var l := Less(m, p, ch);
      forall q, i :: q in l && 0 <= i < |l[q]| ==> q in m && l[q][i] in m[q]
  {
    if at < |ws| {
      WithoutAt(ws, ch, at);
      hide Without, WaitOnce;
      StillOnce(m, p, ch, at);
    } else {
      assert ws[..at] == ws;
      WithoutNone(ws, ch);
      hide Without;
    }
  }

  lemma {:induction false} StillOnce(m: map<Path, seq<Channel>>, p: Path, ch: Channel, at: nat)
    requires WaitOnce(m) && p in m && at < |m[p]| && Without(m[p], ch) == m[p][..at] + m[p][at + 1..]
    ensures WaitOnce(Less(m, p, ch))
    ensures var l := Less(m, p, ch);
      forall q, i :: q in l && 0 <= i < |l[q]| ==> q in m && l[q][i] in m[q]
  {
    hide Without;
    var l, ws := Less(m, p, ch), m[p];
    forall q, i | q in l && 0 <= i < |l[q]|
      ensures q in m && l[q][i] == m[q][if q == p && i >= at then i + 1 else i] {
    }
  }

  /** ws less ch, in order. */
  function Without(ws: seq<Channel>, ch: Channel): (r: seq<Channel>)
    ensures ch !in r
  {
    if ws == [] then []
    else if ws[0] == ch then Without(ws[1..], ch)
    else [ws[0]] + Without(ws[1..], ch)
  }

  lemma {:induction false} WithoutNone(ws: seq<Channel>, ch: Channel)
    requires ch !in ws
    ensures Without(ws, ch) == ws
  {
    if ws != [] {
      WithoutNone(ws[1..], ch);
    }
  }

  /** A channel that waits once is the only one taken out. */
  lemma {:induction false} WithoutAt(ws: seq<Channel>, ch: Channel, i: nat)
    requires i < |ws| && ws[i] == ch && forall j :: 0 <= j < |ws| && j != i ==> ws[j] != ch
    ensures Without(ws, ch) == ws[..i] + ws[i + 1..]
  {
    if i == 0 {
      assert forall j :: 0 <= j < |ws| - 1 ==> ws[1..][j] == ws[j + 1];
      WithoutNone(ws[1..], ch);
    } else {
      WithoutAt(ws[1..], ch, i - 1);
      assert ws[..i] == [ws[0]] + ws[1..][..i - 1];
      assert ws[i + 1..] == ws[1..][i..];
    }
  }
}
