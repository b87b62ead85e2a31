/** The listener's connection limits: global, per client, per IPv6 site, and a fairly shared pending pool. */
module ConnLimit {
  import opened Common
  import opened MapSums

  // ---- Clients ----

  datatype Ip = Ip4(bits32: nat) | Ip6(bits128: nat)

  /** An IPv4 address or an IPv6 /64. */
  datatype Bucket = V4(addr: nat) | V6Prefix64(prefix: nat)

  /** The unit of fairness among pending slots. */
  datatype Source = SourceV4(addr: nat) | SourceV6(site: nat)

  const TWO_16: nat := 0x1_0000
  const TWO_32: nat := 0x1_0000_0000
  const TWO_64: nat := 0x1_0000_0000_0000_0000

  /** Mapped IPv6 addresses share the bucket of their low 32 bits; other ones go by their upper half. */
  function BucketOf(ip: Ip): Bucket {
    match ip
    case Ip4(bits) => V4(bits)
    case Ip6(bits) => if bits / TWO_32 == 0xFFFF then V4(bits % TWO_32) else V6Prefix64(bits / TWO_64)
  }

  function SiteOf(b: Bucket): Option<nat> {
    if b.V4? then None else Some(b.prefix / TWO_16)
  }

  function SourceOf(b: Bucket): Source {
    if b.V4? then SourceV4(b.addr) else SourceV6(b.prefix / TWO_16)
  }

  // ---- The pending pool ----

  datatype Slot = Slot(id: nat, bucket: Bucket)

  /** Pending slots per source, oldest first. */
  datatype Pool = Pool(total: int, sources: map<Source, seq<Slot>>)

  function Pending(p: Pool, s: Source): nat {
    if s in p.sources then |p.sources[s]| else 0
  }

  predicate Contains(p: Pool, slot: Slot) {
    SourceOf(slot.bucket) in p.sources && slot in p.sources[SourceOf(slot.bucket)]
  }

  function Lengths(sources: map<Source, seq<Slot>>): map<Source, nat> {
    map s | s in sources :: |sources[s]|
  }

  predicate QueueOk(s: Source, queue: seq<Slot>) {
    && queue != []
    && (forall i :: 0 <= i < |queue| ==> SourceOf(queue[i].bucket) == s)
    && (forall i, j :: 0 <= i < j < |queue| ==> queue[i].id < queue[j].id)
  }

  /** The counter is the number of queued slots, and no source keeps an empty queue. */
  ghost predicate PoolOk(p: Pool) {
    && p.total == Total(Lengths(p.sources))
    && forall s :: s in p.sources ==> QueueOk(s, p.sources[s])
  }

  function Without(p: Pool, s: Source, i: nat): Pool
    requires s in p.sources && i < |p.sources[s]|
  {
    var rest := p.sources[s][..i] + p.sources[s][i + 1..];
    Pool(p.total - 1, if rest == [] then p.sources - {s} else p.sources[s := rest])
  }

  function Push(p: Pool, slot: Slot): Pool {
    var s := SourceOf(slot.bucket);
    Pool(p.total + 1, p.sources[s := (if s in p.sources then p.sources[s] else []) + [slot]])
  }

  function PositionOf(queue: seq<Slot>, id: nat): (i: nat)
    ensures i <= |queue| && (i < |queue| ==> queue[i].id == id)
    ensures forall j :: 0 <= j < i ==> queue[j].id != id
  {
    if queue == [] || queue[0].id == id then 0 else 1 + PositionOf(queue[1..], id)
  }

  /** `release_pending`: a slot that already left is not there any more. */
  function Remove(p: Pool, slot: Slot): Pool {
    var s := SourceOf(slot.bucket);
    if s !in p.sources then p
    else
      var i := PositionOf(p.sources[s], slot.id);
      if i == |p.sources[s]| then p else Without(p, s, i)
  }

  predicate Heaviest(p: Pool, s: Source) {
    s in p.sources && forall other :: other in p.sources ==> |p.sources[other]| <= |p.sources[s]|
  }

  // ---- Admission ----

  datatype Settings = Settings(global: nat, perClient: nat, perSite: nat, pending: nat)

  datatype Rejection = Global | PerClient | PerSite | PendingFull

  datatype Limiter = Limiter(
    clients: map<Bucket, nat>, sites: map<nat, nat>, pool: Pool, available: nat, nextId: nat, evictedTotal: nat)

  function Count<K>(m: map<K, nat>, k: K): nat {
    if k in m then m[k] else 0
  }

  predicate Full(l: Limiter, settings: Settings) {
    l.pool.total >= settings.pending
  }

  /** The first of the four limits that turns a newcomer away; a full pool does not if some source is two ahead. */
  function Refusal(l: Limiter, settings: Settings, b: Bucket): Option<Rejection> {
    if Count(l.clients, b) >= settings.perClient then Some(PerClient)
    else if SiteOf(b).Some? && Count(l.sites, SiteOf(b).value) >= settings.perSite then Some(PerSite)
    else if l.available == 0 then Some(Global)
    else if Full(l, settings)
         && forall s :: s in l.pool.sources ==> |l.pool.sources[s]| <= Pending(l.pool, SourceOf(b)) + 1
    then Some(PendingFull)
    else None
  }

  function Decrement<K>(m: map<K, nat>, k: K): map<K, nat> {
    if k !in m then m else if m[k] <= 1 then m - {k} else m[k := m[k] - 1]
  }

  function Increment<K>(m: map<K, nat>, k: K): map<K, nat> {
    m[k := Count(m, k) + 1]
  }

  predicate MayEvict(l: Limiter, victim: Source) {
    Heaviest(l.pool, victim) && l.pool.sources[victim] != []
  }

  /** `victim` is the source that gives up its oldest slot when the pool is full. */
  function Admit(l: Limiter, settings: Settings, b: Bucket, victim: Source): Limiter
    requires l.available > 0 && (Full(l, settings) ==> MayEvict(l, victim))
  {
    var room := if Full(l, settings) then Without(l.pool, victim, 0) else l.pool;
    Limiter(
      Increment(l.clients, b),
      if SiteOf(b).Some? then Increment(l.sites, SiteOf(b).value) else l.sites,
      Push(room, Slot(l.nextId, b)),
      l.available - 1, l.nextId + 1,
      l.evictedTotal + if Full(l, settings) then 1 else 0)
  }

  function ReleaseCounts(l: Limiter, b: Bucket): Limiter {
    l.(clients := Decrement(l.clients, b),
       sites := if SiteOf(b).Some? then Decrement(l.sites, SiteOf(b).value) else l.sites)
  }

  // ---- Runs ----

  /** A connection permit: whether its counts are still held, and whether its pending permit was moved out of it. */
  datatype Permit = Permit(bucket: Bucket, open: bool, taken: bool)

  /**
   * The limiter and everything it handed out, by the id of the pending slot each
   * acquisition got. `pendings` are the pending permits not dropped yet; `evicted`
   * and `released` how slots left the pool.
   */
  datatype World = World(
    l: Limiter, slots: map<nat, Bucket>, permits: map<nat, Permit>,
    pendings: set<nat>, evicted: set<nat>, released: set<nat>)

  /**
   * A permit's drop is three steps: its own pending permit, if it still has it,
   * then the counts, then the global slot.
   */
  datatype Step =
    | Acquire(ip: Ip, victim: Source)
    | DropPending(id: nat)
    | TakePending(id: nat)
    | DropCounts(id: nat)
    | DropGlobal(id: nat)

  function Initial(settings: Settings): World {
    World(Limiter(map[], map[], Pool(0, map[]), settings.global, 1, 0), map[], map[], {}, {}, {})
  }

  predicate Admitted(w: World, settings: Settings, p: Step) {
    p.Acquire? && Refusal(w.l, settings, BucketOf(p.ip)).None?
  }

  predicate Enabled(w: World, settings: Settings, p: Step) {
    match p
    case Acquire(ip, victim) => Admitted(w, settings, p) && Full(w.l, settings) ==> MayEvict(w.l, victim)
    case DropPending(id) => id in w.pendings && id in w.slots
    case TakePending(id) => id in w.permits && w.permits[id].open
    case DropCounts(id) => id in w.permits && w.permits[id].open && (id in w.pendings ==> w.permits[id].taken)
    case DropGlobal(id) => id in w.permits && !w.permits[id].open
  }

  function AfterAcquire(w: World, settings: Settings, b: Bucket, victim: Source): World
    requires w.l.available > 0 && (Full(w.l, settings) ==> MayEvict(w.l, victim))
  {
    var id := w.l.nextId;
    World(
      Admit(w.l, settings, b, victim), w.slots[id := b], w.permits[id := Permit(b, true, false)], w.pendings + {id},
      if Full(w.l, settings) then w.evicted + {w.l.pool.sources[victim][0].id} else w.evicted, w.released)
  }

  function AfterDropPending(w: World, id: nat): World
    requires id in w.slots
  {
    var slot := Slot(id, w.slots[id]);
    var pool := Remove(w.l.pool, slot);
    w.(l := w.l.(pool := pool), pendings := w.pendings - {id},
       released := if pool == w.l.pool then w.released else w.released + {id})
  }

  function After(w: World, settings: Settings, p: Step): World
    requires Enabled(w, settings, p)
  {
    match p
    case Acquire(ip, victim) =>
      if Admitted(w, settings, p) then AfterAcquire(w, settings, BucketOf(ip), victim) else w
    case DropPending(id) => AfterDropPending(w, id)
    case TakePending(id) => w.(permits := w.permits[id := w.permits[id].(taken := true)])
    case DropCounts(id) =>
      w.(l := ReleaseCounts(w.l, w.permits[id].bucket), permits := w.permits[id := w.permits[id].(open := false)])
    case DropGlobal(id) => w.(l := w.l.(available := w.l.available + 1), permits := w.permits - {id})
  }

  /** The world after `steps`, or `None` when one of them could not happen. */
  function Run(start: World, settings: Settings, steps: seq<Step>): Option<World> {
    if steps == [] then Some(start)
    else
      var before := Run(start, settings, steps[..|steps| - 1]);
      if before.Some? && Enabled(before.value, settings, steps[|steps| - 1])
      then Some(After(before.value, settings, steps[|steps| - 1]))
      else None
  }
}
