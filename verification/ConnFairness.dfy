/** Fairness of the pending pool once it is full. */
module ConnFairness {
  import opened Common
  import opened MapSums
  import opened ConnLimit
  import opened ConnInvariant

  function Square(n: nat): nat { n * n }

  lemma SquareStep(n: nat)
    ensures Square(n + 1) == Square(n) + 2 * n + 1
  {
  }

  function SquareLengths(sources: map<Source, seq<Slot>>): map<Source, nat> {
    map s | s in sources :: Square(|sources[s]|)
  }

  /** The sum over sources of the square of their pending slots. */
  ghost function Squares(p: Pool): nat {
    Total(SquareLengths(p.sources))
  }

  lemma WithoutPending(p: Pool, s: Source, t: Source)
    requires s in p.sources && p.sources[s] != []
    ensures Pending(Without(p, s, 0), t) == Pending(p, t) - if t == s then 1 else 0
  {
  }

  lemma WithoutSquares(p: Pool, s: Source)
    requires s in p.sources && p.sources[s] != []
    ensures Squares(Without(p, s, 0)) == Squares(p) - 2 * |p.sources[s]| + 1
  {
    var n, squares := |p.sources[s]|, SquareLengths(p.sources);
    SquareStep(n - 1);
    if n == 1 {
      TotalPick(squares, s);
      assert SquareLengths(p.sources - {s}) == squares - {s};
    } else {
      hide Square;
      var rest := p.sources[s][..0] + p.sources[s][1..];
      TotalSet(squares, s, Square(n - 1));
      assert SquareLengths(p.sources[s := rest]) == squares[s := Square(n - 1)];
    }
  }

  lemma PushPending(p: Pool, slot: Slot, t: Source)
    ensures Pending(Push(p, slot), t) == Pending(p, t) + if t == SourceOf(slot.bucket) then 1 else 0
  {
  }

  lemma PushSquares(p: Pool, slot: Slot)
    ensures Squares(Push(p, slot)) == Squares(p) + 2 * Pending(p, SourceOf(slot.bucket)) + 1
  {
    var s := SourceOf(slot.bucket);
    var queue := if s in p.sources then p.sources[s] else [];
    SquareStep(|queue|);
    assert Square(0) == 0;
    hide Square;
    TotalSet(SquareLengths(p.sources), s, Square(|queue| + 1));
    assert SquareLengths(p.sources[s := queue + [slot]]) == SquareLengths(p.sources)[s := Square(|queue| + 1)];
  }

  /**
   * An eviction takes one slot, the oldest, from another source than the
   * newcomer's, leaves that source with no fewer slots than the newcomer's now
   * holds, touches no third source, and lowers the sum of squares.
   */
  lemma EvictionIsFair(l: Limiter, settings: Settings, b: Bucket, victim: Source)
    requires PoolOk(l.pool) && Refusal(l, settings, b).None? && Full(l, settings) && MayEvict(l, victim)
    ensures
      var pool', source := Admit(l, settings, b, victim).pool, SourceOf(b);
      && victim != source
      && Pending(pool', victim) == Pending(l.pool, victim) - 1
      && Pending(pool', source) == Pending(l.pool, source) + 1
      && Pending(pool', victim) >= Pending(pool', source)
      && (forall s :: s != victim && s != source ==> Pending(pool', s) == Pending(l.pool, s))
      && Squares(pool') + 2 <= Squares(l.pool)
    ensures forall i :: 0 < i < |l.pool.sources[victim]| ==> l.pool.sources[victim][0].id < l.pool.sources[victim][i].id
  {
    assert Pending(l.pool, victim) >= Pending(l.pool, SourceOf(b)) + 2;
    assert QueueOk(victim, l.pool.sources[victim]);
    hide PoolOk, Refusal, Heaviest, Squares, Without, Push;
    var room := Without(l.pool, victim, 0);
    WithoutSquares(l.pool, victim);
    PushSquares(room, Slot(l.nextId, b));
    forall s
      ensures Pending(Push(room, Slot(l.nextId, b)), s) ==
        Pending(l.pool, s) - (if s == victim then 1 else 0) + if s == SourceOf(b) then 1 else 0
      ensures s == SourceOf(b) && s != victim ==> Pending(room, s) == Pending(l.pool, s)
    {
      WithoutPending(l.pool, victim, s);
      PushPending(room, Slot(l.nextId, b), s);
    }
    assert Pending(room, SourceOf(b)) == Pending(l.pool, SourceOf(b));
  }

  // ---- Runs with a full pool ----

  /** No pending slot is given back: only slots already evicted are dropped. */
  predicate KeepsPool(w: World, p: Step) {
    p.DropPending? ==> !Queued(w, p.id)
  }

  ghost predicate NothingReleased(start: World, settings: Settings, steps: seq<Step>) {
    steps != [] ==>
      && NothingReleased(start, settings, steps[..|steps| - 1])
      && (Run(start, settings, steps[..|steps| - 1]).Some? ==>
            KeepsPool(Run(start, settings, steps[..|steps| - 1]).value, steps[|steps| - 1]))
  }

  function Admissions(start: World, settings: Settings, steps: seq<Step>): nat {
    if steps == [] then 0
    else
      var before := Run(start, settings, steps[..|steps| - 1]);
      Admissions(start, settings, steps[..|steps| - 1])
      + if before.Some? && Admitted(before.value, settings, steps[|steps| - 1]) then 1 else 0
  }

  lemma PoolStays(w: World, settings: Settings, p: Step)
    requires Inv(w, settings) && Enabled(w, settings, p) && KeepsPool(w, p) && !Admitted(w, settings, p)
    ensures After(w, settings, p).l.pool == w.l.pool
  {
    if p.DropPending? {
      var slot := Slot(p.id, w.slots[p.id]);
      DropOwnId(w, settings, p.id);
      RemoveRemovesOne(w.l.pool, slot, slot);
    }
    hide Inv, Remove;
  }

  lemma DropOwnId(w: World, settings: Settings, id: nat)
    requires Inv(w, settings) && id in w.slots
    ensures OwnId(w.l.pool, Slot(id, w.slots[id]))
  {
    var slot := Slot(id, w.slots[id]);
    var s := SourceOf(slot.bucket);
    if s in w.l.pool.sources {
      forall i | 0 <= i < |w.l.pool.sources[s]|
        ensures w.l.pool.sources[s][i].id == id ==> w.l.pool.sources[s][i] == slot
      {
        assert QueueOk(s, w.l.pool.sources[s]);
        assert Contains(w.l.pool, w.l.pool.sources[s][i]);
      }
    }
  }

  lemma AdmissionLowersSquares(w: World, settings: Settings, p: Step)
    requires Inv(w, settings) && Full(w.l, settings) && Enabled(w, settings, p) && Admitted(w, settings, p)
    ensures
      var pool' := After(w, settings, p).l.pool;
      Squares(pool') + 2 <= Squares(w.l.pool) && pool'.total == w.l.pool.total
  {
    EvictionIsFair(w.l, settings, BucketOf(p.ip), p.victim);
    hide Squares, Refusal, Heaviest;
  }

  /** While the pool is full and nothing is released, every admission uses up two of the sum of squares. */
  lemma {:induction false} FullPoolRun(start: World, settings: Settings, steps: seq<Step>)
    requires Inv(start, settings) && Full(start.l, settings)
    requires Run(start, settings, steps).Some? && NothingReleased(start, settings, steps)
    ensures
      var end := Run(start, settings, steps).value;
      && Inv(end, settings) && Full(end.l, settings)
      && 2 * Admissions(start, settings, steps) + Squares(end.l.pool) <= Squares(start.l.pool)
  {
    if steps != [] {
      hide Inv, Squares, After, Enabled, KeepsPool;
      FullPoolRun(start, settings, steps[..|steps| - 1]);
      var w, p := Run(start, settings, steps[..|steps| - 1]).value, steps[|steps| - 1];
      StepKeepsInv(w, settings, p);
      if Admitted(w, settings, p) {
        AdmissionLowersSquares(w, settings, p);
      } else {
        PoolStays(w, settings, p);
      }
    }
  }

  lemma SquaresAtLeastTotal(p: Pool)
    requires PoolOk(p)
    ensures Squares(p) >= p.total
  {
    var lengths, squares := Lengths(p.sources), SquareLengths(p.sources);
    forall s | s in lengths
      ensures lengths[s] <= squares[s]
    {
      assert QueueOk(s, p.sources[s]);
    }
    TotalAtLeast(lengths, squares);
  }

  /** So only finitely many admissions can succeed, a number the pool's state bounds in advance. */
  lemma BoundedAdmissions(start: World, settings: Settings, steps: seq<Step>)
    requires Inv(start, settings) && Full(start.l, settings)
    requires Run(start, settings, steps).Some? && NothingReleased(start, settings, steps)
    ensures 2 * Admissions(start, settings, steps) + settings.pending <= Squares(start.l.pool)
  {
    FullPoolRun(start, settings, steps);
    SquaresAtLeastTotal(Run(start, settings, steps).value.l.pool);
    hide Squares;
  }

  /**
   * A client whose source holds no pending slot, and who passes the other three
   * limits, is refused exactly when every slot of the pool belongs to a different
   * source.
   */
  lemma FreshSourceRefused(w: World, settings: Settings, b: Bucket)
    requires Inv(w, settings) && Pending(w.l.pool, SourceOf(b)) == 0
    requires Count(w.l.clients, b) < settings.perClient && w.l.available > 0
    requires SiteOf(b).Some? ==> Count(w.l.sites, SiteOf(b).value) < settings.perSite
    ensures Refusal(w.l, settings, b).Some? <==>
      |w.l.pool.sources| == settings.pending && forall s :: s in w.l.pool.sources ==> |w.l.pool.sources[s]| == 1
  {
    OneSlotEach(w.l.pool, settings.pending);
    hide CountsOk, SlotsOk, PoolOk;
  }

  lemma OneSlotEach(p: Pool, pending: nat)
    requires PoolOk(p) && p.total <= pending
    ensures p.total >= pending && (forall s :: s in p.sources ==> |p.sources[s]| <= 1) <==>
      |p.sources| == pending && forall s :: s in p.sources ==> |p.sources[s]| == 1
  {
    var lengths := Lengths(p.sources);
    forall s | s in lengths
      ensures lengths[s] >= 1
    {
      assert QueueOk(s, p.sources[s]);
    }
    TotalOfOnes(lengths);
    assert lengths.Keys == p.sources.Keys;
    assert |lengths| == |p.sources|;
    assert forall s :: s in lengths ==> lengths[s] == |p.sources[s]|;
  }
}
