/** The order queue and the table of waiters: the tables and what one call does
    to them. */
module Conveyer {
  import opened Basics

  const CAPACITY: nat := 32

  /** Milliseconds after which an unanswered waiter is dropped. */
  const WAITERS_TTL: nat := 20_000

  /** The sixteen bytes of a request's identifier, as one number. */
  type Id = nat

  datatype Package = Package(id: Id, body: Bytes)

  /** A one-shot channel as its receiver sees it. */
  datatype Channel = Open | Sent(response: Package) | Closed

  type Channels = map<Id, Channel>

  /** The waiter table, with the channel each entry's sender belongs to. */
  datatype Desk = Desk(waiters: map<Id, nat>, channels: Channels)

  function Registered(d: Desk, id: Id, now: nat): Desk
  {
    Desk(d.waiters[id := now], d.channels[id := Open])
  }

  /** Taking entries out of the table closes their channels. */
  function Dropped(d: Desk, ids: set<Id>): Desk
  {
    Desk(d.waiters - ids,
         map id | id in d.channels :: if id in ids && id in d.waiters then Closed else d.channels[id])
  }

  function Answered(d: Desk, response: Package): Desk
    requires response.id in d.waiters
  {
    Desk(d.waiters - {response.id}, d.channels[response.id := Sent(response)])
  }

  function Expired(d: Desk, now: nat): set<Id>
  {
    set id | id in d.waiters && now > d.waiters[id] + WAITERS_TTL
  }

  // ----------------------------------------------------------- the queue

  predicate Has(q: seq<Package>, id: Id)
  {
    exists i :: 0 <= i < |q| && q[i].id == id
  }

  function Without(q: seq<Package>, ids: set<Id>): (r: seq<Package>)
    ensures |r| <= |q|
  {
    if q == [] then []
    else
      var r := Without(q[..|q| - 1], ids);
      if q[|q| - 1].id in ids then r else r + [q[|q| - 1]]
  }

  /** Strictly increasing in the order of arrival. */
  ghost predicate InOrder(at: map<Id, nat>, q: seq<Package>)
  {
    && (forall i | 0 <= i < |q| :: q[i].id in at)
    && (forall i, j | 0 <= i < j < |q| :: at[q[i].id] < at[q[j].id])
  }

  lemma {:induction false} WithoutHas(q: seq<Package>, ids: set<Id>, p: Package)
    ensures p in Without(q, ids) <==> p in q && p.id !in ids
    ensures Has(Without(q, ids), p.id) <==> Has(q, p.id) && p.id !in ids
  {
    if q != [] {
      var init, last := q[..|q| - 1], q[|q| - 1];
      WithoutHas(init, ids, p);
      assert q == init + [last];
      HasSnoc(init, last, p.id);
      HasSnoc(Without(init, ids), last, p.id);
    }
  }

  lemma HasSnoc(q: seq<Package>, p: Package, id: Id)
    ensures Has(q + [p], id) <==> Has(q, id) || p.id == id
  {
    if Has(q, id) {
      var i :| 0 <= i < |q| && q[i].id == id;
      assert (q + [p])[i].id == id;
    }
    assert (q + [p])[|q|] == p;
    if Has(q + [p], id) && p.id != id {
      var i :| 0 <= i < |q + [p]| && (q + [p])[i].id == id;
      assert q[i].id == id;
    }
  }

  lemma {:induction false} WithoutInOrder(at: map<Id, nat>, q: seq<Package>, ids: set<Id>)
    requires InOrder(at, q)
    ensures InOrder(at, Without(q, ids))
  {
    if q != [] {
      var init, last := q[..|q| - 1], q[|q| - 1];
      WithoutInOrder(at, init, ids);
      forall i | 0 <= i < |Without(init, ids)| ensures at[Without(init, ids)[i].id] < at[last.id] {
        var p := Without(init, ids)[i];
        WithoutHas(init, ids, p);
        var j :| 0 <= j < |init| && init[j] == p;
        assert q[j] == p;
      }
    }
  }

  lemma {:induction false} WithoutTwice(q: seq<Package>, a: set<Id>, b: set<Id>)
    ensures Without(Without(q, a), b) == Without(q, a + b)
  {
    if q != [] {
      var init, last := q[..|q| - 1], q[|q| - 1];
      WithoutTwice(init, a, b);
      if last.id !in a {
        var r := Without(init, a);
        assert (r + [last])[..|r|] == r;
      }
    }
  }

  lemma {:induction false} WithoutNone(q: seq<Package>)
    ensures Without(q, {}) == q
  {
    if q != [] {
      WithoutNone(q[..|q| - 1]);
    }
  }

  lemma {:induction false} WithoutAbsent(q: seq<Package>, id: Id)
    ensures |Without(q, {id})| == |q| <==> !Has(q, id)
    ensures !Has(q, id) ==> Without(q, {id}) == q
  {
    if q != [] {
      var init, last := q[..|q| - 1], q[|q| - 1];
      WithoutAbsent(init, id);
      assert q == init + [last];
      HasSnoc(init, last, id);
    }
  }

  /** The queue after an order has arrived: the oldest makes room. */
  function Room(q: seq<Package>): seq<Package>
  {
    if |q| >= CAPACITY then q[1..] else q
  }

  // ------------------------------------------------------------ the calls

  class ConveyQueue {
    var orders: seq<Package>
    var desk: Desk
    /** The version of the watch channel: how often a producer has sent. */
    var version: nat

    constructor ()
      ensures orders == [] && desk == Desk(map[], map[]) && version == 0
    {
      orders, desk, version := [], Desk(map[], map[]), 0;
    }

    method ProduceOrder(order: Package)
      modifies this
      ensures orders == Room(old(orders)) + [order]
      ensures old(|orders|) < 32 ==> orders == old(orders) + [order] && desk == old(desk)
      ensures old(|orders|) >= 32 ==> [old(orders)[0]] + orders == old(orders) + [order]
      ensures old(|orders|) >= 32 ==> desk == Dropped(old(desk), {old(orders)[0].id})
      ensures old(|orders|) <= 32 ==> |orders| <= 32
      ensures version == old(version) + 1
    {
      if |orders| >= CAPACITY {
        var dropped := orders[0];
        orders := orders[1..];
        UnregisterWaiter(dropped.id);
      }
      orders := orders + [order];
      version := version + 1;
    }

    method ConsumeOrder() returns (order: Option<Package>)
      modifies this`orders
      ensures match order
              case None => old(orders) == [] && orders == []
              case Some(p) => old(orders) == [p] + orders
    {
      if orders == [] {
        return None;
      }
      order, orders := Some(orders[0]), orders[1..];
    }

    /** Answers the waiter of the response's own id, and only once. */
    method ProduceService(response: Package) returns (ok: bool)
      modifies this`desk
      ensures ok <==> response.id in old(desk).waiters
      ensures ok ==> desk == Answered(old(desk), response)
      ensures ok ==> response.id in desk.channels && desk.channels[response.id] == Sent(response)
      ensures !ok ==> desk == old(desk)
      ensures response.id !in desk.waiters
    {
      if response.id in desk.waiters {
        desk := Desk(desk.waiters - {response.id}, desk.channels[response.id := Sent(response)]);
        return true;
      }
      return false;
    }

    method RegisterWaiter(id: Id, now: nat) returns (ok: bool)
      modifies this`desk
      ensures ok <==> id !in old(desk).waiters
      ensures desk == if ok then Registered(old(desk), id, now) else old(desk)
      ensures ok ==> id in desk.waiters && desk.waiters[id] == now && id in desk.channels && desk.channels[id] == Open
    {
      if id in desk.waiters {
        return false;
      }
      desk := Desk(desk.waiters[id := now], desk.channels[id := Open]);
      return true;
    }

    method UnregisterWaiter(id: Id)
      modifies this`desk
      ensures desk == Dropped(old(desk), {id})
      ensures id !in desk.waiters && (id in old(desk).waiters && id in desk.channels ==> desk.channels[id] == Closed)
    {
      var channels := if id in desk.waiters && id in desk.channels then desk.channels[id := Closed] else desk.channels;
      desk := Desk(desk.waiters - {id}, channels);
    }

    method RemoveOrder(id: Id) returns (removed: bool)
      modifies this`orders
      ensures orders == Without(old(orders), {id})
      ensures removed <==> Has(old(orders), id)
      ensures forall p :: p in orders <==> p in old(orders) && p.id != id
      ensures removed <==> |orders| < |old(orders)|
    {
      var before := orders;
      orders := [];
      for i := 0 to |before|
        invariant orders == Without(before[..i], {id})
      {
        assert before[..i + 1][..i] == before[..i];
        if before[i].id != id {
          orders := orders + [before[i]];
        }
      }
      assert before[..|before|] == before;
      WithoutAbsent(before, id);
      forall p ensures p in orders <==> p in before && p.id != id { WithoutHas(before, {id}, p); }
      removed := |orders| != |before|;
    }

    method ExpireWaiters(now: nat) returns (expired: set<Id>)
      modifies this`desk
      ensures expired == Expired(old(desk), now)
      ensures desk == Dropped(old(desk), expired)
    {
      expired := {};
      var waiters := desk.waiters;
      var todo := waiters.Keys;
      while todo != {}
        invariant todo <= waiters.Keys
        invariant expired == set id | id in waiters.Keys - todo && now > waiters[id] + WAITERS_TTL
        invariant desk == Dropped(old(desk), expired)
        decreases todo
      {
        var id :| id in todo;
        todo := todo - {id};
        if now > waiters[id] + WAITERS_TTL {
          expired := expired + {id};
          UnregisterWaiter(id);
        }
      }
    }

    /** Every entry past its time is dropped, and its order with it. */
    method CleanupExpiredWaiters(now: nat)
      modifies this`orders, this`desk
      ensures desk == Dropped(old(desk), Expired(old(desk), now))
      ensures orders == Without(old(orders), Expired(old(desk), now))
      ensures forall id :: id in desk.waiters <==> id in old(desk).waiters && now <= old(desk).waiters[id] + 20_000
      ensures forall id | id in desk.waiters :: desk.waiters[id] == old(desk).waiters[id]
      ensures forall p :: p in orders <==> p in old(orders) && (p.id in old(desk).waiters ==> p.id in desk.waiters)
    {
      var expired := ExpireWaiters(now);
      WithoutNone(orders);
      var rest := expired;
      assert expired - rest == {};
      while rest != {}
        invariant rest <= expired && orders == Without(old(orders), expired - rest)
        invariant desk == Dropped(old(desk), expired)
        decreases rest
      {
        var id :| id in rest;
        WithoutTwice(old(orders), expired - rest, {id});
        assert (expired - rest) + {id} == expired - (rest - {id});
        var _ := RemoveOrder(id);
        rest := rest - {id};
      }
      assert expired - rest == expired;
      forall p ensures p in orders <==> p in old(orders) && p.id !in expired {
        WithoutHas(old(orders), expired, p);
      }
    }
  }
}
