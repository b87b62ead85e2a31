/** The limiter as the object behind the listener's lock. */
module ConnectionLimiter {
  import opened Common
  import opened ConnLimit

  class ConnectionLimiter {
    const settings: Settings
    var clients: map<Bucket, nat>
    var sites: map<nat, nat>
    var pendingTotal: int
    var pendingSources: map<Source, seq<Slot>>
    var available: nat
    var nextPendingId: nat
    var evictedTotal: nat

    function View(): Limiter
      reads this
    {
      Limiter(clients, sites, Pool(pendingTotal, pendingSources), available, nextPendingId, evictedTotal)
    }

    constructor (settings: Settings)
      ensures this.settings == settings && View() == Initial(settings).l
    {
      this.settings := settings;
      clients, sites, pendingTotal, pendingSources := map[], map[], 0, map[];
      available, nextPendingId, evictedTotal := settings.global, 1, 0;
    }

    /** A source with the most pending slots, in whatever order the map is visited. */
    method HeaviestSource() returns (heaviest: Option<Source>)
      ensures heaviest.None? <==> pendingSources == map[]
      ensures heaviest.Some? ==> Heaviest(View().pool, heaviest.value)
    {
      heaviest := None;
      var todo := pendingSources.Keys;
      while todo != {}
        invariant todo <= pendingSources.Keys
        invariant heaviest.None? <==> todo == pendingSources.Keys
        invariant heaviest.Some? ==> heaviest.value in pendingSources
        invariant heaviest.Some? ==>
          forall s :: s in pendingSources && s !in todo ==> |pendingSources[s]| <= |pendingSources[heaviest.value]|
        decreases todo
      {
        var s :| s in todo;
        todo := todo - {s};
        if heaviest.None? || |pendingSources[s]| >= |pendingSources[heaviest.value]| {
          heaviest := Some(s);
        }
      }
      assert pendingSources.Keys == {} ==> pendingSources == map[];
    }

    /** Makes room in a full pool at the cost of a source at least two slots ahead of the newcomer's. */
    method EvictFor(source: Source) returns (victim: Option<Source>)
      modifies this`pendingTotal, this`pendingSources, this`evictedTotal
      ensures victim.None? ==> View() == old(View())
      ensures victim.None? <==>
        forall s :: s in old(pendingSources) ==> |old(pendingSources)[s]| <= Pending(old(View()).pool, source) + 1
      ensures victim.Some? ==>
        && MayEvict(old(View()), victim.value)
        && View() == old(View()).(pool := Without(old(View()).pool, victim.value, 0), evictedTotal := old(evictedTotal) + 1)
    {
      victim := HeaviestSource();
      var held := if source in pendingSources then |pendingSources[source]| else 0;
      if victim.None? {
        return None;
      }
      var heaviest := victim.value;
      var queue := pendingSources[heaviest];
      if |queue| <= held + 1 {
        return None;
      }
      var rest := queue[1..];
      assert queue[..0] + queue[1..] == rest;
      pendingSources := if rest == [] then pendingSources - {heaviest} else pendingSources[heaviest := rest];
      pendingTotal, evictedTotal := pendingTotal - 1, evictedTotal + 1;
    }

    method Enter(b: Bucket) returns (slot: Slot)
      requires available > 0
      modifies this
      ensures slot == Slot(old(nextPendingId), b)
      ensures View() == Limiter(
                Increment(old(clients), b),
                if SiteOf(b).Some? then Increment(old(sites), SiteOf(b).value) else old(sites),
                Push(old(View()).pool, slot), old(available) - 1, old(nextPendingId) + 1, old(evictedTotal))
    {
      slot := Slot(nextPendingId, b);
      nextPendingId, available := nextPendingId + 1, available - 1;
      pendingTotal := pendingTotal + 1;
      var source := SourceOf(b);
      var queue := if source in pendingSources then pendingSources[source] else [];
      pendingSources := pendingSources[source := queue + [slot]];
      clients := clients[b := Count(clients, b) + 1];
      var site := SiteOf(b);
      if site.Some? {
        sites := sites[site.value := Count(sites, site.value) + 1];
      }
    }

    /**
     * Refused attempts change nothing; an admitted one gives the slot of a new id,
     * and `victim` is the source it evicted from, if the pool was full.
     */
    method TryAcquire(ip: Ip) returns (refused: Option<Rejection>, slot: Option<Slot>, victim: Option<Source>)
      modifies this
      ensures refused == Refusal(old(View()), settings, BucketOf(ip))
      ensures refused.Some? ==> View() == old(View()) && slot.None?
      ensures refused.None? ==>
        && slot == Some(Slot(old(nextPendingId), BucketOf(ip))) && old(available) > 0
        && (Full(old(View()), settings) <==> victim.Some?)
        && (victim.Some? ==> MayEvict(old(View()), victim.value))
        && View() == Admit(old(View()), settings, BucketOf(ip), if victim.Some? then victim.value else SourceOf(BucketOf(ip)))
    {
      refused, slot, victim := None, None, None;
      var b := BucketOf(ip);
      if Count(clients, b) >= settings.perClient {
        return Some(PerClient), None, None;
      }
      var site := SiteOf(b);
      if site.Some? && Count(sites, site.value) >= settings.perSite {
        return Some(PerSite), None, None;
      }
      if available == 0 {
        return Some(Global), None, None;
      }
      if pendingTotal >= settings.pending {
        victim := EvictFor(SourceOf(b));
        if victim.None? {
          return Some(PendingFull), None, None;
        }
      }
      var entered := Enter(b);
      slot := Some(entered);
    }

    /** Takes the slot out of its queue; one that is in no queue any more leaves everything as it is. */
    method ReleasePending(slot: Slot)
      modifies this`pendingTotal, this`pendingSources
      ensures View() == old(View()).(pool := Remove(old(View()).pool, slot))
    {
      var source := SourceOf(slot.bucket);
      if source !in pendingSources {
        return;
      }
      var queue, index := pendingSources[source], 0;
      while index < |queue| && queue[index].id != slot.id
        invariant index <= |queue|
        invariant PositionOf(queue, slot.id) == index + PositionOf(queue[index..], slot.id)
      {
        index := index + 1;
      }
      if index == |queue| {
        return;
      }
      var rest := queue[..index] + queue[index + 1..];
      pendingSources := if rest == [] then pendingSources - {source} else pendingSources[source := rest];
      pendingTotal := pendingTotal - 1;
    }

    method Release(b: Bucket)
      modifies this`clients, this`sites
      ensures View() == ReleaseCounts(old(View()), b)
    {
      clients := Decrement(clients, b);
      var site := SiteOf(b);
      if site.Some? {
        sites := Decrement(sites, site.value);
      }
    }
  }
}
