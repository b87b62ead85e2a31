/** What every run of the connection limiter keeps. */
module ConnInvariant {
  import opened Common
  import opened MapSums
  import opened ConnLimit

  // ---- The pool ----

  lemma WithoutKeepsPool(p: Pool, s: Source, i: nat)
    requires PoolOk(p) && s in p.sources && i < |p.sources[s]|
    ensures PoolOk(Without(p, s, i))
  {
    hide Total;
    var rest := p.sources[s][..i] + p.sources[s][i + 1..];
    var p' := Without(p, s, i);
    if rest == [] {
      TotalPick(Lengths(p.sources), s);
      assert Lengths(p'.sources) == Lengths(p.sources) - {s};
    } else {
      TotalSet(Lengths(p.sources), s, |rest|);
      assert Lengths(p'.sources) == Lengths(p.sources)[s := |rest|];
    }
  }

  lemma WithoutRemovesOne(p: Pool, s: Source, i: nat, slot: Slot)
    requires PoolOk(p) && s in p.sources && i < |p.sources[s]|
    ensures Contains(Without(p, s, i), slot) <==> Contains(p, slot) && slot != p.sources[s][i]
  {
    var queue := p.sources[s];
    var rest := queue[..i] + queue[i + 1..];
    assert QueueOk(s, queue);
    if SourceOf(slot.bucket) == s && slot in queue && slot != queue[i] {
      var j :| 0 <= j < |queue| && queue[j] == slot;
      assert if j < i then rest[j] == slot else rest[j - 1] == slot;
    }
    if slot in rest {
      var j :| 0 <= j < |rest| && rest[j] == slot;
      assert slot == queue[if j < i then j else j + 1];
    }
  }

  lemma PushCounts(p: Pool, slot: Slot)
    requires p.total == Total(Lengths(p.sources))
    ensures Push(p, slot).total == Total(Lengths(Push(p, slot).sources))
  {
    var s := SourceOf(slot.bucket);
    var queue := if s in p.sources then p.sources[s] else [];
    TotalSet(Lengths(p.sources), s, |queue| + 1);
    assert Lengths(Push(p, slot).sources) == Lengths(p.sources)[s := |queue| + 1];
  }

  lemma PushKeepsPool(p: Pool, slot: Slot)
    requires PoolOk(p) && forall other :: Contains(p, other) ==> other.id < slot.id
    ensures PoolOk(Push(p, slot))
  {
    PushCounts(p, slot);
    hide Total, Lengths;
    var s := SourceOf(slot.bucket);
    var queue := if s in p.sources then p.sources[s] else [];
    forall i | 0 <= i < |queue|
      ensures queue[i].id < slot.id
    {
      assert QueueOk(s, queue) && Contains(p, queue[i]);
    }
    QueueGrows(s, queue, slot);
    hide QueueOk;
  }

  lemma QueueGrows(s: Source, queue: seq<Slot>, slot: Slot)
    requires SourceOf(slot.bucket) == s && (queue == [] || QueueOk(s, queue))
    requires forall i :: 0 <= i < |queue| ==> queue[i].id < slot.id
    ensures QueueOk(s, queue + [slot])
  {
  }

  lemma PushAddsOne(p: Pool, slot: Slot, other: Slot)
    ensures Contains(Push(p, slot), other) <==> Contains(p, other) || other == slot
  {
  }

  lemma RemoveKeepsPool(p: Pool, slot: Slot)
    requires PoolOk(p)
    ensures PoolOk(Remove(p, slot))
  {
    var s := SourceOf(slot.bucket);
    if s in p.sources && PositionOf(p.sources[s], slot.id) < |p.sources[s]| {
      WithoutKeepsPool(p, s, PositionOf(p.sources[s], slot.id));
    }
  }

  /** A slot's id is its own: the queue entry found by the id is the slot. */
  predicate OwnId(p: Pool, slot: Slot) {
    SourceOf(slot.bucket) in p.sources ==>
      forall i :: 0 <= i < |p.sources[SourceOf(slot.bucket)]| ==>
        p.sources[SourceOf(slot.bucket)][i].id == slot.id ==> p.sources[SourceOf(slot.bucket)][i] == slot
  }

  lemma RemoveRemovesOne(p: Pool, slot: Slot, other: Slot)
    requires PoolOk(p) && OwnId(p, slot)
    ensures Contains(Remove(p, slot), other) <==> Contains(p, other) && other != slot
    ensures Remove(p, slot) != p <==> Contains(p, slot)
  {
    var s := SourceOf(slot.bucket);
    if s in p.sources {
      var i := PositionOf(p.sources[s], slot.id);
      if i < |p.sources[s]| {
        WithoutRemovesOne(p, s, i, other);
      }
    }
  }

  // ---- Counts ----

  function Held(permits: map<nat, Permit>, b: Bucket): set<nat> {
    set id | id in permits && permits[id].open && permits[id].bucket == b
  }

  function HeldBySite(permits: map<nat, Permit>, site: nat): set<nat> {
    set id | id in permits && permits[id].open && SiteOf(permits[id].bucket) == Some(site)
  }

  /** The maps count the open permits of each client and of each site, and forget those that have none. */
  ghost predicate CountsOk(w: World) {
    && (forall b :: Count(w.l.clients, b) == |Held(w.permits, b)|)
    && (forall site: nat :: Count(w.l.sites, site) == |HeldBySite(w.permits, site)|)
    && (forall b :: b in w.l.clients ==> w.l.clients[b] > 0)
    && (forall site: nat :: site in w.l.sites ==> w.l.sites[site] > 0)
  }

  ghost predicate CapsOk(w: World, settings: Settings) {
    && w.l.pool.total <= settings.pending
    && w.l.available + |w.permits| == settings.global
    && (forall b :: |Held(w.permits, b)| <= settings.perClient)
    && (forall site: nat :: |HeldBySite(w.permits, site)| <= settings.perSite)
  }

  // ---- Slots ----

  predicate Queued(w: World, id: nat) {
    id in w.slots && Contains(w.l.pool, Slot(id, w.slots[id]))
  }

  /** Every slot ever handed out is queued, was evicted or was released: exactly one of the three. */
  predicate SlotOk(w: World, id: nat) {
    && (Queued(w, id) ==> id in w.pendings && id !in w.evicted && id !in w.released)
    && (id in w.evicted ==> id !in w.released)
    && (id in w.released ==> id !in w.pendings)
    && (Queued(w, id) || id in w.evicted || id in w.released)
  }

  ghost predicate SlotsOk(w: World) {
    && w.l.nextId >= 1 && (forall id: nat :: id in w.slots <==> 1 <= id < w.l.nextId)
    && w.pendings <= w.slots.Keys && w.evicted <= w.slots.Keys && w.released <= w.slots.Keys && w.permits.Keys <= w.slots.Keys
    && (forall slot :: Contains(w.l.pool, slot) ==> slot.id in w.slots && w.slots[slot.id] == slot.bucket)
    && (forall id :: id in w.slots ==> SlotOk(w, id))
  }

  ghost predicate Inv(w: World, settings: Settings) {
    PoolOk(w.l.pool) && CountsOk(w) && CapsOk(w, settings) && SlotsOk(w)
  }

  // ---- Acquiring ----

  /** The pool once a full one has made room. */
  function Room(l: Limiter, settings: Settings, victim: Source): Pool
    requires Full(l, settings) ==> MayEvict(l, victim)
  {
    if Full(l, settings) then Without(l.pool, victim, 0) else l.pool
  }

  lemma RoomOk(w: World, settings: Settings, victim: Source)
    requires PoolOk(w.l.pool) && SlotsOk(w) && (Full(w.l, settings) ==> MayEvict(w.l, victim))
    ensures PoolOk(Room(w.l, settings, victim))
    ensures forall slot :: Contains(Room(w.l, settings, victim), slot) <==>
      Contains(w.l.pool, slot) && !(Full(w.l, settings) && slot == w.l.pool.sources[victim][0])
    ensures Full(w.l, settings) ==> Contains(w.l.pool, w.l.pool.sources[victim][0])
  {
    if Full(w.l, settings) {
      WithoutKeepsPool(w.l.pool, victim, 0);
      assert QueueOk(victim, w.l.pool.sources[victim]);
      forall slot
        ensures Contains(Room(w.l, settings, victim), slot) <==>
          Contains(w.l.pool, slot) && slot != w.l.pool.sources[victim][0]
      {
        WithoutRemovesOne(w.l.pool, victim, 0, slot);
      }
    }
  }

  lemma AcquireKeepsPool(w: World, settings: Settings, b: Bucket, victim: Source)
    requires PoolOk(w.l.pool) && SlotsOk(w) && w.l.available > 0 && (Full(w.l, settings) ==> MayEvict(w.l, victim))
    ensures PoolOk(AfterAcquire(w, settings, b, victim).l.pool)
  {
    RoomOk(w, settings, victim);
    hide PoolOk, Without, Contains;
    PushKeepsPool(Room(w.l, settings, victim), Slot(w.l.nextId, b));
  }

  predicate Evicts(w: World, settings: Settings, victim: Source, slot: Slot) {
    Full(w.l, settings) && MayEvict(w.l, victim) && slot == w.l.pool.sources[victim][0]
  }

  lemma AcquireContains(w: World, settings: Settings, b: Bucket, victim: Source, slot: Slot)
    requires PoolOk(w.l.pool) && SlotsOk(w) && w.l.available > 0 && (Full(w.l, settings) ==> MayEvict(w.l, victim))
    ensures Contains(AfterAcquire(w, settings, b, victim).l.pool, slot) <==>
      (Contains(w.l.pool, slot) && !Evicts(w, settings, victim, slot)) || slot == Slot(w.l.nextId, b)
    ensures Evicts(w, settings, victim, slot) ==> Contains(w.l.pool, slot)
  {
    RoomOk(w, settings, victim);
    hide PoolOk, Without, SlotsOk;
    PushAddsOne(Room(w.l, settings, victim), Slot(w.l.nextId, b), slot);
  }

  lemma VictimIsEvicted(w: World, settings: Settings, victim: Source, slot: Slot)
    requires Full(w.l, settings) && MayEvict(w.l, victim)
    ensures victim in w.l.pool.sources && w.l.pool.sources[victim] != []
    ensures Evicts(w, settings, victim, w.l.pool.sources[victim][0])
    ensures Evicts(w, settings, victim, slot) <==> slot == w.l.pool.sources[victim][0]
  {
  }

  lemma AcquireKeepsSlot(w: World, settings: Settings, b: Bucket, victim: Source, id: nat)
    requires PoolOk(w.l.pool) && SlotsOk(w) && w.l.available > 0 && (Full(w.l, settings) ==> MayEvict(w.l, victim))
    requires 1 <= id <= w.l.nextId
    ensures SlotOk(AfterAcquire(w, settings, b, victim), id)
  {
    hide PoolOk, Contains, Admit, MayEvict, Full;
    var slot := Slot(id, if id == w.l.nextId then b else w.slots[id]);
    AcquireContains(w, settings, b, victim, slot);
    if Full(w.l, settings) {
      VictimIsEvicted(w, settings, victim, slot);
      AcquireContains(w, settings, b, victim, w.l.pool.sources[victim][0]);
    }
    assert id != w.l.nextId ==> SlotOk(w, id);
  }

  lemma VictimIsSlot(w: World, victim: Source)
    requires PoolOk(w.l.pool) && SlotsOk(w) && MayEvict(w.l, victim)
    ensures w.l.pool.sources[victim][0].id in w.slots
  {
    assert QueueOk(victim, w.l.pool.sources[victim]);
    assert Contains(w.l.pool, w.l.pool.sources[victim][0]);
  }

  lemma AcquireKeepsSlots(w: World, settings: Settings, b: Bucket, victim: Source)
    requires PoolOk(w.l.pool) && SlotsOk(w) && w.l.available > 0 && (Full(w.l, settings) ==> MayEvict(w.l, victim))
    ensures SlotsOk(AfterAcquire(w, settings, b, victim))
  {
    hide PoolOk, Contains, Admit, Evicts, SlotOk, Heaviest;
    var w' := AfterAcquire(w, settings, b, victim);
    if Full(w.l, settings) {
      VictimIsSlot(w, victim);
    }
    AdmitNextId(w.l, settings, b, victim);
    forall id | id in w'.slots
      ensures SlotOk(w', id)
    {
      AcquireKeepsSlot(w, settings, b, victim, id);
    }
    forall slot | Contains(w'.l.pool, slot)
      ensures slot.id in w'.slots && w'.slots[slot.id] == slot.bucket
    {
      AcquireContains(w, settings, b, victim, slot);
    }
  }

  lemma AdmitNextId(l: Limiter, settings: Settings, b: Bucket, victim: Source)
    requires l.available > 0 && (Full(l, settings) ==> MayEvict(l, victim))
    ensures Admit(l, settings, b, victim).nextId == l.nextId + 1
  {
  }

  function Opened(permits: map<nat, Permit>, id: nat, b: Bucket): map<nat, Permit> {
    permits[id := Permit(b, true, false)]
  }

  lemma OpenedHeld(permits: map<nat, Permit>, id: nat, b: Bucket, c: Bucket)
    requires id !in permits
    ensures |Held(Opened(permits, id, b), c)| == |Held(permits, c)| + if c == b then 1 else 0
  {
    assert Held(Opened(permits, id, b), c) == if c == b then Held(permits, c) + {id} else Held(permits, c);
  }

  lemma OpenedBySite(permits: map<nat, Permit>, id: nat, b: Bucket, site: nat)
    requires id !in permits
    ensures |HeldBySite(Opened(permits, id, b), site)| == |HeldBySite(permits, site)| + if SiteOf(b) == Some(site) then 1 else 0
  {
    assert HeldBySite(Opened(permits, id, b), site) ==
      if SiteOf(b) == Some(site) then HeldBySite(permits, site) + {id} else HeldBySite(permits, site);
  }

  lemma AcquireCountsPermit(w: World, settings: Settings, b: Bucket, victim: Source)
    requires CountsOk(w) && w.l.nextId !in w.permits && w.l.available > 0 && (Full(w.l, settings) ==> MayEvict(w.l, victim))
    ensures CountsOk(AfterAcquire(w, settings, b, victim))
  {
    var w' := AfterAcquire(w, settings, b, victim);
    hide Held, HeldBySite, MayEvict, Without, Push;
    assert w'.permits == Opened(w.permits, w.l.nextId, b);
    forall c
      ensures Count(w'.l.clients, c) == |Held(w'.permits, c)|
    {
      OpenedHeld(w.permits, w.l.nextId, b, c);
    }
    forall site: nat
      ensures Count(w'.l.sites, site) == |HeldBySite(w'.permits, site)|
    {
      OpenedBySite(w.permits, w.l.nextId, b, site);
    }
  }

  lemma ClientCap(w: World, settings: Settings, b: Bucket, c: Bucket)
    requires CountsOk(w) && CapsOk(w, settings) && w.l.nextId !in w.permits && Count(w.l.clients, b) < settings.perClient
    ensures |Held(Opened(w.permits, w.l.nextId, b), c)| <= settings.perClient
  {
    OpenedHeld(w.permits, w.l.nextId, b, c);
    hide Held, HeldBySite, Opened;
    assert Count(w.l.clients, c) == |Held(w.permits, c)|;
  }

  lemma SiteCap(w: World, settings: Settings, b: Bucket, site: nat)
    requires CountsOk(w) && CapsOk(w, settings) && w.l.nextId !in w.permits
    requires SiteOf(b).Some? ==> Count(w.l.sites, SiteOf(b).value) < settings.perSite
    ensures |HeldBySite(Opened(w.permits, w.l.nextId, b), site)| <= settings.perSite
  {
    OpenedBySite(w.permits, w.l.nextId, b, site);
    hide Held, HeldBySite, Opened;
    assert Count(w.l.sites, site) == |HeldBySite(w.permits, site)|;
  }

  lemma AdmittedBelowLimits(l: Limiter, settings: Settings, b: Bucket)
    requires Refusal(l, settings, b).None?
    ensures Count(l.clients, b) < settings.perClient && l.available > 0
    ensures SiteOf(b).Some? ==> Count(l.sites, SiteOf(b).value) < settings.perSite
  {
  }

  lemma AcquireKeepsCaps(w: World, settings: Settings, b: Bucket, victim: Source)
    requires CountsOk(w) && CapsOk(w, settings) && w.l.nextId !in w.permits && Refusal(w.l, settings, b).None?
    requires Full(w.l, settings) ==> MayEvict(w.l, victim)
    ensures CapsOk(AfterAcquire(w, settings, b, victim), settings)
  {
    hide Held, HeldBySite, Heaviest, Refusal, MayEvict, CountsOk, Count, Increment, SiteOf;
    AdmittedBelowLimits(w.l, settings, b);
    assert Opened(w.permits, w.l.nextId, b).Keys == w.permits.Keys + {w.l.nextId};
    forall c
      ensures |Held(Opened(w.permits, w.l.nextId, b), c)| <= settings.perClient
    {
      ClientCap(w, settings, b, c);
    }
    forall site: nat
      ensures |HeldBySite(Opened(w.permits, w.l.nextId, b), site)| <= settings.perSite
    {
      SiteCap(w, settings, b, site);
    }
  }

  // ---- Dropping ----

  lemma DropPendingKeepsSlots(w: World, id: nat)
    requires PoolOk(w.l.pool) && SlotsOk(w) && id in w.pendings
    ensures SlotsOk(AfterDropPending(w, id))
  {
    var w', gone := AfterDropPending(w, id), Slot(id, w.slots[id]);
    forall i | SourceOf(gone.bucket) in w.l.pool.sources && 0 <= i < |w.l.pool.sources[SourceOf(gone.bucket)]|
      ensures w.l.pool.sources[SourceOf(gone.bucket)][i].id == id ==> w.l.pool.sources[SourceOf(gone.bucket)][i] == gone
    {
      assert QueueOk(SourceOf(gone.bucket), w.l.pool.sources[SourceOf(gone.bucket)]);
      assert Contains(w.l.pool, w.l.pool.sources[SourceOf(gone.bucket)][i]);
    }
    forall slot
      ensures Contains(w'.l.pool, slot) <==> Contains(w.l.pool, slot) && slot != gone
    {
      RemoveRemovesOne(w.l.pool, gone, slot);
    }
    RemoveRemovesOne(w.l.pool, gone, gone);
    hide PoolOk, Contains, Remove;
    forall other | other in w'.slots
      ensures SlotOk(w', other)
    {
      assert SlotOk(w, other);
    }
  }

  lemma RemoveShrinks(p: Pool, slot: Slot)
    ensures Remove(p, slot).total <= p.total
  {
  }

  lemma ClosePermit(permits: map<nat, Permit>, id: nat)
    requires id in permits && permits[id].open
    ensures
      var b := permits[id].bucket;
      var permits' := permits[id := permits[id].(open := false)];
      && |permits'| == |permits|
      && (forall c :: |Held(permits', c)| == |Held(permits, c)| - if c == b then 1 else 0)
      && (forall site: nat :: |HeldBySite(permits', site)| == |HeldBySite(permits, site)| - if SiteOf(b) == Some(site) then 1 else 0)
  {
    var b := permits[id].bucket;
    var permits' := permits[id := permits[id].(open := false)];
    assert permits'.Keys == permits.Keys;
    forall c
      ensures |Held(permits', c)| == |Held(permits, c)| - if c == b then 1 else 0
    {
      assert id in Held(permits, b);
      assert Held(permits', c) == if c == b then Held(permits, c) - {id} else Held(permits, c);
    }
    forall site: nat
      ensures |HeldBySite(permits', site)| == |HeldBySite(permits, site)| - if SiteOf(b) == Some(site) then 1 else 0
    {
      assert SiteOf(b).Some? ==> id in HeldBySite(permits, SiteOf(b).value);
      assert HeldBySite(permits', site) == if SiteOf(b) == Some(site) then HeldBySite(permits, site) - {id} else HeldBySite(permits, site);
    }
  }

  lemma DropCountsKeepsCounts(w: World, settings: Settings, id: nat)
    requires CountsOk(w) && CapsOk(w, settings) && id in w.permits && w.permits[id].open
    ensures
      var w' := w.(l := ReleaseCounts(w.l, w.permits[id].bucket), permits := w.permits[id := w.permits[id].(open := false)]);
      CountsOk(w') && CapsOk(w', settings)
  {
    ClosePermit(w.permits, id);
    hide Held, HeldBySite;
  }

  /** Neither moving a pending permit out nor giving back the global slot changes who is counted. */
  lemma SameHeld(permits: map<nat, Permit>, id: nat)
    requires id in permits
    ensures
      var taken := permits[id := permits[id].(taken := true)];
      && |taken| == |permits|
      && (forall b :: Held(taken, b) == Held(permits, b))
      && (forall site: nat :: HeldBySite(taken, site) == HeldBySite(permits, site))
    ensures !permits[id].open ==>
      && |permits - {id}| == |permits| - 1
      && (forall b :: Held(permits - {id}, b) == Held(permits, b))
      && (forall site: nat :: HeldBySite(permits - {id}, site) == HeldBySite(permits, site))
  {
    assert permits[id := permits[id].(taken := true)].Keys == permits.Keys;
    assert (permits - {id}).Keys == permits.Keys - {id};
  }

  lemma OtherDropsKeepCounts(w: World, settings: Settings, p: Step)
    requires CountsOk(w) && CapsOk(w, settings) && Enabled(w, settings, p)
    requires p.DropPending? || p.TakePending? || p.DropGlobal?
    ensures CountsOk(After(w, settings, p)) && CapsOk(After(w, settings, p), settings)
  {
    match p {
      case DropPending(id) => RemoveShrinks(w.l.pool, Slot(id, w.slots[id]));
      case TakePending(id) => SameHeld(w.permits, id);
      case DropGlobal(id) => SameHeld(w.permits, id);
      case _ =>
    }
    hide Held, HeldBySite, Remove;
  }

  lemma FreshId(w: World)
    requires SlotsOk(w)
    ensures w.l.nextId !in w.permits
  {
  }

  lemma SlotsUnchanged(w: World, w': World)
    requires SlotsOk(w) && w'.slots == w.slots && w'.l.pool == w.l.pool && w'.l.nextId == w.l.nextId
    requires w'.pendings == w.pendings && w'.evicted == w.evicted && w'.released == w.released && w'.permits.Keys <= w.permits.Keys
    ensures SlotsOk(w')
  {
    forall id | id in w.slots
      ensures SlotOk(w', id)
    {
      assert SlotOk(w, id);
    }
  }

  lemma StepKeepsInv(w: World, settings: Settings, p: Step)
    requires Inv(w, settings) && Enabled(w, settings, p)
    ensures Inv(After(w, settings, p), settings)
  {
    hide PoolOk, CountsOk, CapsOk, SlotsOk, Remove, Without, Push, Heaviest;
    match p {
      case Acquire(ip, victim) =>
        if Admitted(w, settings, p) {
          AcquireKeepsPool(w, settings, BucketOf(ip), victim);
          AcquireKeepsSlots(w, settings, BucketOf(ip), victim);
          assert w.l.nextId !in w.permits by {
            FreshId(w);
          }
          AcquireCountsPermit(w, settings, BucketOf(ip), victim);
          AcquireKeepsCaps(w, settings, BucketOf(ip), victim);
        }
      case DropPending(id) =>
        RemoveKeepsPool(w.l.pool, Slot(id, w.slots[id]));
        DropPendingKeepsSlots(w, id);
        OtherDropsKeepCounts(w, settings, p);
      case DropCounts(id) =>
        DropCountsKeepsCounts(w, settings, id);
        SlotsUnchanged(w, After(w, settings, p));
      case _ =>
        OtherDropsKeepCounts(w, settings, p);
        SlotsUnchanged(w, After(w, settings, p));
    }
  }

  /**
   * In every run the pool's counter is the sum of the queue lengths, the client
   * and site counts are those of the live permits, all four caps hold, and every
   * slot ever handed out is in exactly one place.
   */
  lemma {:induction false} RunKeepsInv(settings: Settings, steps: seq<Step>)
    requires Run(Initial(settings), settings, steps).Some?
    ensures Inv(Run(Initial(settings), settings, steps).value, settings)
  {
    if steps == [] {
      assert forall b :: Held(map[], b) == {};
      assert forall site: nat :: HeldBySite(map[], site) == {};
      assert Lengths(map[]) == map[];
    } else {
      hide Inv, Enabled, After;
      RunKeepsInv(settings, steps[..|steps| - 1]);
      StepKeepsInv(Run(Initial(settings), settings, steps[..|steps| - 1]).value, settings, steps[|steps| - 1]);
    }
  }

  lemma {:induction false} LeftStaysLeft(settings: Settings, steps: seq<Step>, more: seq<Step>)
    requires Run(Initial(settings), settings, steps + more).Some?
    ensures Run(Initial(settings), settings, steps).Some?
    ensures
      var w, w' := Run(Initial(settings), settings, steps).value, Run(Initial(settings), settings, steps + more).value;
      w.released <= w'.released && w.evicted <= w'.evicted
  {
    if more == [] {
      assert steps + more == steps;
    } else {
      assert (steps + more)[..|steps + more| - 1] == steps + more[..|more| - 1];
      LeftStaysLeft(settings, steps, more[..|more| - 1]);
    }
  }

  /** A released slot is never evicted or queued later, and dropping the permit of an evicted one releases nothing. */
  lemma SlotsLeaveOnce(settings: Settings, steps: seq<Step>, more: seq<Step>, id: nat)
    requires Run(Initial(settings), settings, steps + more).Some?
    ensures Run(Initial(settings), settings, steps).Some?
    ensures
      var w, w' := Run(Initial(settings), settings, steps).value, Run(Initial(settings), settings, steps + more).value;
      && (id in w.released ==> id !in w'.evicted && !Queued(w', id))
      && (id in w.evicted ==> id !in w'.released && !Queued(w', id))
  {
    LeftStaysLeft(settings, steps, more);
    RunKeepsInv(settings, steps + more);
    hide Run, Contains;
    var w' := Run(Initial(settings), settings, steps + more).value;
    assert id in w'.slots ==> SlotOk(w', id);
  }
}
