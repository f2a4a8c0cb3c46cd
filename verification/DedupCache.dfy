/** The webhook delivery cache of internal/github/webhook_dedup.go against a history that
    forgets nothing. */
module DedupCaches {

  datatype Delivery = Delivery(id: string, at: int)

  // ---- the unbounded history ---------------------------------------------------------

  /** The ID was accepted less than ttl ago. */
  predicate Recent(accepted: seq<Delivery>, ttl: int, d: Delivery) {
    exists k | 0 <= k < |accepted| :: accepted[k].id == d.id && d.at - accepted[k].at < ttl
  }

  /** What a history without a cache accepts of a sequence of deliveries. */
  function Accepted(ttl: int, deliveries: seq<Delivery>): seq<Delivery> {
    if deliveries == [] then []
    else
      var last := deliveries[|deliveries| - 1];
      var before := Accepted(ttl, deliveries[..|deliveries| - 1]);
      if Recent(before, ttl, last) then before else before + [last]
  }

  ghost predicate InOrder(deliveries: seq<Delivery>) {
    forall i, j | 0 <= i < j < |deliveries| :: deliveries[i].at <= deliveries[j].at
  }

  lemma {:induction false} AcceptedWereDelivered(ttl: int, deliveries: seq<Delivery>)
    ensures forall k | 0 <= k < |Accepted(ttl, deliveries)| :: Accepted(ttl, deliveries)[k] in deliveries
  {
    if deliveries != [] {
      AcceptedWereDelivered(ttl, deliveries[..|deliveries| - 1]);
    }
  }

  /** Accepted deliveries come in order, and two of one ID are at least ttl apart. */
  lemma {:induction false} RepeatsAreSpaced(ttl: int, deliveries: seq<Delivery>)
    requires InOrder(deliveries)
    ensures var accepted := Accepted(ttl, deliveries);
            forall i, j | 0 <= i < j < |accepted| ::
              accepted[i].at <= accepted[j].at && (accepted[i].id == accepted[j].id ==> accepted[j].at - accepted[i].at >= ttl)
  {
    if deliveries != [] {
      var n := |deliveries| - 1;
      var init, last := deliveries[..n], deliveries[n];
      assert init + [last] == deliveries;
      RepeatsAreSpaced(ttl, init);
      AcceptedWereDelivered(ttl, init);
      var before := Accepted(ttl, init);
      forall k | 0 <= k < |before|
        ensures before[k].at <= last.at
        ensures !Recent(before, ttl, last) && before[k].id == last.id ==> last.at - before[k].at >= ttl
      {
        assert before[k] in init;
        var i :| 0 <= i < n && init[i] == before[k];
        assert deliveries[i].at <= deliveries[n].at;
      }
      OneMore(ttl, init, last);
      var accepted := Accepted(ttl, deliveries);
      forall i, j | 0 <= i < j < |accepted|
        ensures accepted[i].at <= accepted[j].at && (accepted[i].id == accepted[j].id ==> accepted[j].at - accepted[i].at >= ttl)
      {
        if j < |before| {
          assert before[i].at <= before[j].at;
        }
      }
    }
  }

  /** The first delivery of an ID is always accepted, and a delivery is turned away only
      when one of its ID was accepted less than ttl earlier. */
  lemma {:induction false} NothingIsLost(ttl: int, deliveries: seq<Delivery>, i: nat)
    requires InOrder(deliveries) && i < |deliveries|
    ensures deliveries[i] !in Accepted(ttl, deliveries) ==>
              exists k | 0 <= k < |Accepted(ttl, deliveries[..i])| ::
                && Accepted(ttl, deliveries[..i])[k].id == deliveries[i].id
                && deliveries[i].at - Accepted(ttl, deliveries[..i])[k].at < ttl
    ensures (forall j | 0 <= j < i :: deliveries[j].id != deliveries[i].id) ==> deliveries[i] in Accepted(ttl, deliveries)
  {
    hide Accepted;
    var n := |deliveries| - 1;
    var init, last := deliveries[..n], deliveries[n];
    assert init + [last] == deliveries;
    OneMore(ttl, init, last);
    if i < n {
      NothingIsLost(ttl, init, i);
      assert init[..i] == deliveries[..i];
    } else if Recent(Accepted(ttl, init), ttl, last) {
      SeenBefore(ttl, init, last);
    }
  }

  lemma SeenBefore(ttl: int, deliveries: seq<Delivery>, d: Delivery)
    requires Recent(Accepted(ttl, deliveries), ttl, d)
    ensures exists j | 0 <= j < |deliveries| :: deliveries[j].id == d.id
  {
    hide Accepted;
    var accepted := Accepted(ttl, deliveries);
    var k :| 0 <= k < |accepted| && accepted[k].id == d.id && d.at - accepted[k].at < ttl;
    AcceptedWereDelivered(ttl, deliveries);
    assert accepted[k] in deliveries;
  }

  // ---- the cache -----------------------------------------------------------------------

  /** What is left of the history at a given time: the expiry of every acceptance that
      has not expired, of others perhaps, and nothing else. */
  ghost predicate Remembers(items: map<string, int>, ttl: int, accepted: seq<Delivery>, now: int) {
    && (forall k | 0 <= k < |accepted| ::
          accepted[k].at + ttl < now || (accepted[k].id in items && accepted[k].at + ttl <= items[accepted[k].id]))
    && (forall id | id in items :: exists k | 0 <= k < |accepted| :: accepted[k].id == id && items[id] == accepted[k].at + ttl)
  }

  lemma RememberedIffRecent(items: map<string, int>, ttl: int, accepted: seq<Delivery>, d: Delivery)
    requires Remembers(items, ttl, accepted, d.at)
    ensures Recent(accepted, ttl, d) <==> d.id in items && d.at < items[d.id]
  {
  }

  lemma TimePasses(items: map<string, int>, ttl: int, accepted: seq<Delivery>, was: int, now: int)
    requires Remembers(items, ttl, accepted, was) && was <= now
    ensures Remembers(items, ttl, accepted, now)
  {
  }

  lemma Evicted(items: map<string, int>, after: map<string, int>, ttl: int, accepted: seq<Delivery>, was: int, now: int)
    requires Remembers(items, ttl, accepted, was) && was <= now
    requires forall id :: id in after <==> id in items && items[id] >= now
    requires forall id | id in after :: after[id] == items[id]
    ensures Remembers(after, ttl, accepted, now)
  {
  }

  lemma OneMore(ttl: int, deliveries: seq<Delivery>, d: Delivery)
    ensures var before := Accepted(ttl, deliveries);
            Accepted(ttl, deliveries + [d]) == if Recent(before, ttl, d) then before else before + [d]
  {
    assert (deliveries + [d])[..|deliveries|] == deliveries;
  }

  class MemDedupCache {
    const ttl: int
    var items: map<string, int>

    /** Every delivery so far, and the last reading of the clock. */
    ghost var deliveries: seq<Delivery>
    ghost var clock: int

    ghost predicate Valid()
      reads this
    {
      && Remembers(items, ttl, Accepted(ttl, deliveries), clock)
      && InOrder(deliveries) && forall i | 0 <= i < |deliveries| :: deliveries[i].at <= clock
    }

    constructor (ttl: int, now: int)
      ensures Valid() && deliveries == [] && clock == now && this.ttl == ttl
    {
      this.ttl := ttl;
      items := map[];
      deliveries, clock := [], now;
    }

    /** Accepts a delivery exactly when the unbounded history would. */
    method CheckAndAdd(id: string, now: int) returns (accepted: bool)
      requires Valid() && clock <= now
      modifies this
      ensures Valid() && clock == now
      ensures deliveries == old(deliveries) + [Delivery(id, now)]
      ensures accepted <==> !exists k | 0 <= k < |Accepted(ttl, old(deliveries))| ::
                  Accepted(ttl, old(deliveries))[k].id == id && now - Accepted(ttl, old(deliveries))[k].at < ttl
      ensures Accepted(ttl, deliveries) ==
                if accepted then Accepted(ttl, old(deliveries)) + [Delivery(id, now)] else Accepted(ttl, old(deliveries))
    {
      hide Remembers, Accepted, Recent;
      ghost var before := Accepted(ttl, deliveries);
      TimePasses(items, ttl, before, clock, now);
      RememberedIffRecent(items, ttl, before, Delivery(id, now));
      OneMore(ttl, deliveries, Delivery(id, now));
      deliveries, clock := deliveries + [Delivery(id, now)], now;
      if id in items && now < items[id] {
        return false;
      }
      items := items[id := now + ttl];
      AcceptedWereDelivered(ttl, old(deliveries));
      Renewed(old(items), ttl, before, Delivery(id, now));
      accepted := true;
    }

    /** Deletes what has expired. No later answer can tell. */
    method EvictExpired(now: int)
      requires Valid() && clock <= now
      modifies this`items, this`clock
      ensures Valid() && clock == now
      ensures forall id :: id in items <==> id in old(items) && old(items)[id] >= now
      ensures forall id | id in items :: items[id] == old(items)[id]
    {
      hide Remembers, Accepted, InOrder;
      ghost var was := clock;
      clock := now;
      var keys := items.Keys;
      while keys != {}
        invariant keys <= items.Keys <= old(items).Keys && clock == now
        invariant forall id | id in old(items) :: id in items <==> id in keys || old(items)[id] >= now
        invariant forall id | id in items :: items[id] == old(items)[id]
        decreases keys
      {
        var key :| key in keys;
        if now > items[key] {
          items := items - {key};
        }
        keys := keys - {key};
      }
      Evicted(old(items), items, ttl, Accepted(ttl, deliveries), was, now);
    }
  }

  lemma Renewed(items: map<string, int>, ttl: int, accepted: seq<Delivery>, d: Delivery)
    requires Remembers(items, ttl, accepted, d.at) && !Recent(accepted, ttl, d)
    requires forall k | 0 <= k < |accepted| :: accepted[k].at <= d.at
    ensures Remembers(items[d.id := d.at + ttl], ttl, accepted + [d], d.at)
  {
    var after, longer := items[d.id := d.at + ttl], accepted + [d];
    forall id | id in after
      ensures exists k | 0 <= k < |longer| :: longer[k].id == id && after[id] == longer[k].at + ttl
    {
      if id == d.id {
        assert longer[|accepted|].id == id;
      } else {
        var k :| 0 <= k < |accepted| && accepted[k].id == id && items[id] == accepted[k].at + ttl;
        assert longer[k].id == id;
      }
    }
  }
}
