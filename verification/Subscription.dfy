/** A consumer's queue: bounded, dropping its oldest item for room, or growing.

    `Subscription` keeps a history beside the queue: every item it accepted, in
    order, and what became of each one that left it. Nothing is lost without
    being accounted for, and nothing is delivered out of order or twice. */
module Subscriptions {

  datatype Item<+T> = Value(value: T) | Closed

  /** What became of an item that left the queue. */
  datatype Fate = Delivered | Dropped | Cleared

  function Count(fates: seq<Fate>, f: Fate): nat
  {
    if fates == [] then 0
    else Count(fates[..|fates| - 1], f) + if fates[|fates| - 1] == f then 1 else 0
  }

  lemma {:induction false} CountAppend(a: seq<Fate>, b: seq<Fate>, f: Fate)
    ensures Count(a + b, f) == Count(a, f) + Count(b, f)
  {
    if b == [] {
      assert a + b == a;
    } else {
      CountAppend(a, b[..|b| - 1], f);
      assert (a + b)[..|a + b| - 1] == a + b[..|b| - 1];
    }
  }

  /** `q` after one more item: a full queue first gives up its oldest.
      No limit is written 0. */
  function Offered<T>(q: seq<T>, limit: nat, x: T): (r: seq<T>)
  {
    if limit > 0 && |q| >= limit then q[1..] + [x] else q + [x]
  }

  lemma OfferedHolds<T>(q: seq<T>, limit: nat, x: T)
    ensures forall y :: y in Offered(q, limit, x) ==> y in q || y == x
  {
  }

  function OfferedAll<T>(q: seq<T>, limit: nat, xs: seq<T>): (r: seq<T>)
  {
    if xs == [] then q
    else Offered(OfferedAll(q, limit, xs[..|xs| - 1]), limit, xs[|xs| - 1])
  }

  function Newest<T>(xs: seq<T>, n: nat): (r: seq<T>)
  {
    if |xs| <= n then xs else xs[|xs| - n..]
  }

  /** A slow consumer is left the newest items, a whole number of them: what a
      bounded queue holds after any offers is the end of everything it was
      given, and an unbounded one holds it all. */
  lemma {:induction false} KeepsTheNewest<T>(q: seq<T>, limit: nat, xs: seq<T>)
    requires limit > 0 ==> |q| <= limit
    ensures OfferedAll(q, limit, xs) == if limit == 0 then q + xs else Newest(q + xs, limit)
  {
    if xs == [] {
      assert q + xs == q;
    } else {
      var front, last := xs[..|xs| - 1], xs[|xs| - 1];
      KeepsTheNewest(q, limit, front);
      hide Newest, Offered;
      assert q + xs == (q + front) + [last];
      OfferedNewest(q + front, limit, last);
    }
  }

  lemma OfferedNewest<T>(all: seq<T>, limit: nat, x: T)
    ensures Offered(if limit == 0 then all else Newest(all, limit), limit, x)
         == if limit == 0 then all + [x] else Newest(all + [x], limit)
  {
  }

  function Repeat(f: Fate, n: nat): (r: seq<Fate>)
    ensures |r| == n && forall i :: 0 <= i < n ==> r[i] == f
  {
    seq(n, _ => f)
  }

  lemma {:induction false} CountRepeat(f: Fate, n: nat, g: Fate)
    ensures Count(Repeat(f, n), g) == if f == g then n else 0
  {
    if n > 0 {
      CountRepeat(f, n - 1, g);
      assert Repeat(f, n)[..n - 1] == Repeat(f, n - 1);
    }
  }

  class Subscription<T> {
    var queue: seq<Item<T>>
    const limit: nat        // 0: unbounded
    var dropped: nat
    var closed: bool
    /** Every item accepted, in order; and the fate of each that left. */
    ghost var accepted: seq<T>
    ghost var fates: seq<Fate>

    /** The items still queued: what was accepted and has not left. */
    ghost function Pending(): seq<T>
      reads this
      requires |fates| <= |accepted|
    {
      accepted[|fates|..]
    }

    ghost predicate Valid()
      reads this
    {
      && |fates| <= |accepted|
      && |queue| == |Pending()| + (if closed then 1 else 0)
      && (forall i :: 0 <= i < |Pending()| ==> queue[i] == Value(Pending()[i]))
      && (closed ==> queue[|queue| - 1] == Closed)
      && (limit > 0 ==> |queue| <= limit)
      && dropped == Count(fates, Dropped)
    }

    constructor (limit: nat)
      ensures Valid() && this.limit == limit && !closed && dropped == 0 && accepted == [] && fates == []
    {
      this.limit := limit;
      queue, dropped, closed := [], 0, false;
      accepted, fates := [], [];
    }

    predicate Full()
      reads this
    {
      limit > 0 && |queue| >= limit
    }

    /** One item leaves without being read, and is counted. */
    method DropOne()
      requires Valid() && !closed
      modifies this
      ensures Valid() && accepted == old(accepted) && closed == old(closed)
      ensures old(queue) == [] ==> fates == old(fates) && queue == [] && dropped == old(dropped)
      ensures old(queue) != [] ==> fates == old(fates) + [Dropped] && queue == old(queue)[1..] && dropped == old(dropped) + 1
    {
      if queue == [] {
        return;
      }
      queue := queue[1..];
      dropped := dropped + 1;
      CountAppend(fates, [Dropped], Dropped);
      assert Count([Dropped], Dropped) == Count([], Dropped) + 1;
      fates := fates + [Dropped];
    }

    /** Accepts an item unless closed; the oldest makes room if it must. */
    method Offer(x: T)
      requires Valid()
      modifies this
      ensures Valid() && closed == old(closed)
      ensures old(closed) ==> queue == old(queue) && accepted == old(accepted) && fates == old(fates)
      ensures !old(closed) ==> accepted == old(accepted) + [x] && Pending() == Offered(old(Pending()), limit, x)
      ensures !old(closed) ==> fates == old(fates) + if old(Full()) then [Dropped] else []
    {
      if closed {
        return;
      }
      if Full() {
        DropOne();
      }
      queue := queue + [Value(x)];
      accepted := accepted + [x];
    }

    /** The next item, without waiting; none on an empty or closed queue. */
    method GetNowait() returns (item: Item<T>)
      requires Valid()
      modifies this
      ensures Valid() && accepted == old(accepted) && closed == old(closed) && dropped == old(dropped)
      ensures item.Closed? <==> old(Pending()) == []
      ensures item.Closed? ==> fates == old(fates) && queue == old(queue)
      ensures item.Value? ==>
                && item.value == old(Pending()[0])
                && Pending() == old(Pending())[1..]
                && fates == old(fates) + [Delivered]
    {
      if queue == [] {
        return Closed;
      }
      item := queue[0];
      queue := queue[1..];
      if item.Closed? {
        queue := queue + [Closed];
        return;
      }
      CountAppend(fates, [Delivered], Dropped);
      assert Count([Delivered], Dropped) == Count([], Dropped);
      fates := fates + [Delivered];
    }

    /** Waiting for an item ends with one in the queue: it is read, or the end
        of the queue is. */
    method Get() returns (item: Item<T>)
      requires Valid() && queue != []
      modifies this
      ensures Valid() && accepted == old(accepted) && closed == old(closed) && dropped == old(dropped)
      ensures item == old(queue[0])
      ensures item.Closed? ==> closed && queue == old(queue) && fates == old(fates)
      ensures item.Value? ==> Pending() == old(Pending())[1..] && fates == old(fates) + [Delivered]
    {
      item := GetNowait();
    }

    /** Voids everything queued; not counted as dropped. A closed queue keeps
        its end. */
    method Clear() returns (cleared: nat)
      requires Valid()
      modifies this
      ensures Valid() && accepted == old(accepted) && closed == old(closed) && dropped == old(dropped)
      ensures Pending() == [] && cleared == |old(Pending())|
      ensures fates == old(fates) + Repeat(Cleared, cleared)
    {
      cleared := 0;
      while queue != []
        invariant accepted == old(accepted) && closed == old(closed) && dropped == old(dropped)
        invariant Valid() && cleared <= |old(Pending())|
        invariant fates == old(fates) + Repeat(Cleared, cleared)
        decreases |Pending()|, |queue|
      {
        if queue[0].Closed? {
          return;
        }
        queue := queue[1..];
        CountAppend(fates, [Cleared], Dropped);
        assert Count([Cleared], Dropped) == Count([], Dropped);
        fates := fates + [Cleared];
        cleared := cleared + 1;
      }
    }

    /** Ends the queue: what is queued can still be read, nothing more gets in. */
    method Close()
      requires Valid()
      modifies this
      ensures Valid() && closed && accepted == old(accepted)
      ensures old(closed) ==> queue == old(queue) && fates == old(fates)
      ensures !old(closed) ==> fates == old(fates) + if old(Full()) then [Dropped] else []
    {
      if closed {
        return;
      }
      if Full() {
        DropOne();
      }
      closed := true;
      queue := queue + [Closed];
    }
  }
}
