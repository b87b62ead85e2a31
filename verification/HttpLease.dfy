/** What leases, holds and the generation fence guarantee over whole runs of the store. */
module HttpLease {
  import opened Common
  import opened HttpSnapshot
  import Clock = SnapshotClock

  // ---- Expiring lazily and expiring eagerly agree ----

  /** Calls that may drop an ended snapshot and are otherwise only observations. */
  predicate Housekeeping(op: Op) {
    op.Load? || op.Expire?
  }

  function Without(es: seq<Event>): seq<Event> {
    if es == [] then []
    else if Housekeeping(es[0].op) then Without(es[1..])
    else [es[0]] + Without(es[1..])
  }

  /** The answers a run from `s` gives to everything but housekeeping. */
  function Observed(s: State, es: seq<Event>): seq<Answer>
    decreases |es|
  {
    if es == [] then []
    else
      var (s1, answer) := Step(s, es[0]);
      (if Housekeeping(es[0].op) then [] else [answer]) + Observed(s1, es[1..])
  }

  /** No call reading `floor` or later learns anything from this snapshot. */
  predicate Dead(current: Option<Snapshot>, floor: int) {
    current.Some? ==> current.value.deadline <= floor || current.value.routes == map[]
  }

  /** The states differ at most in a snapshot that is dead from `floor` on. */
  predicate Alike(s: State, s': State, floor: int) {
    && s'.(current := s.current) == s
    && (s.current == s'.current || (Dead(s.current, floor) && Dead(s'.current, floor)))
  }

  lemma StoreKeepsAlike(s: State, s': State, floor: int, e: Event)
    requires Alike(s, s', floor) && floor <= e.at && e.op.Store?
    ensures Alike(Step(s, e).0, Step(s', e).0, floor) && Step(s, e).1 == Step(s', e).1
  {
    hide FreshRoutes, Clock.AbsoluteSnapshotRemaining;
    var Store(received, installedAt, wallNowMs) := e.op;
    var converted := FromReceived(received, e.at, wallNowMs, s.nextIncarnation);
    if converted.Ok? {
      assert InheritedRoutes(converted.value.routes, map[]) == converted.value.routes;
    }
  }

  lemma StepKeepsAlike(s: State, s': State, floor: int, e: Event)
    requires Alike(s, s', floor) && floor <= e.at
    ensures Alike(Step(s, e).0, Step(s', e).0, floor)
    ensures !Housekeeping(e.op) ==> Step(s, e).1 == Step(s', e).1
  {
    hide StoreStep;
    if e.op.Store? {
      StoreKeepsAlike(s, s', floor, e);
    }
  }

  /** The load or expiry `e` drops a snapshot that lists something. */
  predicate Drops(s: State, e: Event)
    requires Housekeeping(e.op)
  {
    && s.current.Some? && s.current.value.routes != map[]
    && if e.op.Load? then !s.current.value.Fresh(e.at) else ShouldExpire(s, e.op.lease, e.at)
  }

  lemma DropKeepsAlike(s: State, s': State, floor: int, later: int, e: Event)
    requires Alike(s, s', floor) && Housekeeping(e.op) && floor <= later
    requires Drops(s, e) ==> s.current.value.deadline <= later
    ensures Alike(Step(s, e).0, s', later)
  {
  }

  predicate ReadFrom(es: seq<Event>, floor: int) {
    forall i :: 0 <= i < |es| ==> floor <= es[i].at
  }

  /** No call after a load or an expiry reads a time at which what that dropped could still have been used. */
  predicate Harmless(s: State, es: seq<Event>)
    decreases |es|
  {
    es != [] ==>
      && (Housekeeping(es[0].op) && Drops(s, es[0]) ==> ReadFrom(es[1..], s.current.value.deadline))
      && Harmless(Step(s, es[0]).0, es[1..])
  }

  lemma {:induction false} HousekeepingIsInvisible(s: State, s': State, floor: int, es: seq<Event>)
    requires Alike(s, s', floor) && ReadFrom(es, floor) && Harmless(s, es)
    ensures Observed(s, es) == Observed(s', Without(es))
    decreases |es|
  {
    if es != [] {
      hide Alike, Step, Drops;
      var e, rest := es[0], es[1..];
      if Housekeeping(e.op) {
        var later := if Drops(s, e) && floor < s.current.value.deadline then s.current.value.deadline else floor;
        DropKeepsAlike(s, s', floor, later, e);
        HousekeepingIsInvisible(Step(s, e).0, s', later, rest);
      } else {
        StepKeepsAlike(s, s', floor, e);
        HousekeepingIsInvisible(Step(s, e).0, Step(s', e).0, floor, rest);
        assert ([e] + Without(rest))[1..] == Without(rest);
      }
    }
  }

  function Earliest(es: seq<Event>): (floor: int)
    ensures ReadFrom(es, floor)
  {
    if es == [] then 0
    else
      var rest := Earliest(es[1..]);
      if es[0].at < rest then es[0].at else rest
  }

  /** Runs that differ only in the loads and expiries they contain answer everything else alike. */
  lemma LazyAndEagerExpiryAgree(es: seq<Event>, es': seq<Event>)
    requires Harmless(INITIAL, es) && Harmless(INITIAL, es') && Without(es) == Without(es')
    ensures Observed(INITIAL, es) == Observed(INITIAL, es')
  {
    HousekeepingIsInvisible(INITIAL, INITIAL, Earliest(es), es);
    HousekeepingIsInvisible(INITIAL, INITIAL, Earliest(es'), es');
  }

  /** No call after a load or an expiry reads the clock earlier than it did; the others may be in any order. */
  predicate Settled(es: seq<Event>) {
    es != [] ==> (Housekeeping(es[0].op) ==> ReadFrom(es, es[0].at)) && Settled(es[1..])
  }

  lemma {:induction false} SettledIsHarmless(s: State, es: seq<Event>)
    requires Settled(es)
    ensures Harmless(s, es)
    decreases |es|
  {
    if es != [] {
      hide Step;
      SettledIsHarmless(Step(s, es[0]).0, es[1..]);
    }
  }

  lemma {:induction false} OrderedIsSettled(es: seq<Event>)
    requires Ordered(es)
    ensures Settled(es)
  {
    if es != [] {
      OrderedIsSettled(es[1..]);
    }
  }

  /** In particular while calls take the lock in clock order. */
  lemma OrderedExpiryAgrees(es: seq<Event>, es': seq<Event>)
    requires Ordered(es) && Ordered(es') && Without(es) == Without(es')
    ensures Observed(INITIAL, es) == Observed(INITIAL, es')
  {
    OrderedIsSettled(es);
    OrderedIsSettled(es');
    SettledIsHarmless(INITIAL, es);
    SettledIsHarmless(INITIAL, es');
    LazyAndEagerExpiryAgree(es, es');
  }

  // ---- Which load or expiry can be noticed ----

  lemma {:induction false} AlikeAnswersAlike(s: State, s': State, floor: int, es: seq<Event>)
    requires Alike(s, s', floor) && ReadFrom(es, floor)
    ensures Observed(s, es) == Observed(s', es)
    decreases |es|
  {
    if es != [] {
      hide Alike, Step;
      StepKeepsAlike(s, s', floor, es[0]);
      AlikeAnswersAlike(Step(s, es[0]).0, Step(s', es[0]).0, floor, es[1..]);
    }
  }

  /** Some continuation whose readings are `from` or later has an answer that depends on `e`. */
  ghost predicate Noticed(s: State, e: Event, from: int) {
    exists es :: ReadFrom(es, from) && Observed(s, es) != Observed(Step(s, e).0, es)
  }

  /**
   * A load or an expiry can be noticed by calls that read the clock at `from` or
   * later exactly when it drops a snapshot that lists something and whose lease
   * has not ended at `from`: the case `Harmless` rules out.
   */
  lemma NoticedExactly(s: State, e: Event, from: int)
    requires Housekeeping(e.op)
    ensures Noticed(s, e, from) <==> Drops(s, e) && from < s.current.value.deadline
  {
    var dropped := Step(s, e).0;
    if Drops(s, e) && from < s.current.value.deadline {
      var hostname :| hostname in s.current.value.routes;
      var es := [Event(from, AuthorizeRoute(hostname))];
      assert Observed(s, es)[0] != Observed(dropped, es)[0];
      assert ReadFrom(es, from);
    } else {
      DropKeepsAlike(s, s, from, from, e);
      forall es | ReadFrom(es, from)
        ensures Observed(s, es) == Observed(dropped, es)
      {
        AlikeAnswersAlike(s, dropped, from, es);
      }
    }
  }

  /** No load or expiry of the run can be noticed by calls that read a time some later call of the run read. */
  ghost predicate NeverNoticed(s: State, es: seq<Event>)
    decreases |es|
  {
    es != [] ==>
      && (Housekeeping(es[0].op) ==> forall i :: 0 <= i < |es[1..]| ==> !Noticed(s, es[0], es[1..][i].at))
      && NeverNoticed(Step(s, es[0]).0, es[1..])
  }

  /** `Harmless` is not only enough: it holds exactly of the runs none of whose loads and expiries can be noticed. */
  lemma {:induction false} HarmlessExactly(s: State, es: seq<Event>)
    ensures Harmless(s, es) <==> NeverNoticed(s, es)
    decreases |es|
  {
    if es != [] {
      hide Step, Drops, Noticed;
      var e, rest := es[0], es[1..];
      HarmlessExactly(Step(s, e).0, rest);
      if Housekeeping(e.op) {
        forall i | 0 <= i < |rest|
          ensures Noticed(s, e, rest[i].at) <==> Drops(s, e) && rest[i].at < s.current.value.deadline
        {
          NoticedExactly(s, e, rest[i].at);
        }
      }
    }
  }

  const SITE := Route("b", "site", "p", "10.0.0.9", 80, "o", "c", "n", "i", "running")

  function Frame(generation: nat): Received {
    Received(generation, 1, 10, [SITE], true)
  }

  /** A store whose reading (9) was taken before a load (at 12) took the lock: the lease ended at 10. */
  function LateStore(housekeeping: seq<Event>): seq<Event> {
    [Event(0, Store(Frame(1), 0, 0))] + housekeeping +
    [Event(9, Store(Frame(2), 9, 0)), Event(13, AuthorizationDeadline(AuthorizedRoute(SITE, 0)))]
  }

  lemma FrameRoutes(base: nat)
    ensures FreshRoutes([SITE], base) == map["site" := AuthorizedRoute(SITE, base)]
  {
    assert [SITE][..0] == [];
    assert FreshRoutes([], base) == map[];
  }

  lemma AfterOneMore(es: seq<Event>, e: Event)
    ensures After(es + [e]) == Step(After(es), e).0
    ensures AnswerAt(es + [e], |es|) == Step(After(es), e).1
  {
    assert (es + [e])[..|es|] == es;
  }

  lemma {:induction false} LateStoreStates(housekeeping: seq<Event>, s: State, id: nat)
    requires
      var current := Snapshot(1, 0, 10, map["site" := AuthorizedRoute(SITE, 0)]);
      After([Event(0, Store(Frame(1), 0, 0))] + housekeeping) == s && s.nextIncarnation == 1 && s.generationHighWater == Some(1)
      && ((s.current == Some(current) && id == 0) || (s.current == None && id == 1))
    ensures AnswerAt(LateStore(housekeeping), |housekeeping| + 2) == Deadline(if id == 0 then Some(19) else None)
  {
    FrameRoutes(1);
    var minted := map["site" := AuthorizedRoute(SITE, 1)];
    var kept := map["site" := AuthorizedRoute(SITE, 0)];
    assert InheritedRoutes(minted, kept) == kept;
    var es := [Event(0, Store(Frame(1), 0, 0))] + housekeeping;
    var late, ask := Event(9, Store(Frame(2), 9, 0)), Event(13, AuthorizationDeadline(AuthorizedRoute(SITE, 0)));
    AfterOneMore(es, late);
    AfterOneMore(es + [late], ask);
    assert LateStore(housekeeping) == es + [late] + [ask];
  }

  /** Clock order matters: with readings out of lock order, one load decides whether an exchange survives. */
  lemma OutOfOrderReadingsDiffer()
    ensures
      var lazy, eager := LateStore([]), LateStore([Event(12, Load)]);
      && Without(lazy) == Without(eager)
      && AnswerAt(lazy, 2) == Deadline(Some(19))
      && AnswerAt(eager, 3) == Deadline(None)
  {
    var first, load := Event(0, Store(Frame(1), 0, 0)), Event(12, Load);
    FrameRoutes(0);
    AfterOneMore([], first);
    assert [] + [first] == [first] == [first] + [];
    LateStoreStates([], After([first]), 0);
    AfterOneMore([first], load);
    assert [first] + [load] == [first, load];
    LateStoreStates([load], After([first, load]), 1);
    var lazy, eager := LateStore([]), LateStore([load]);
    assert Without(lazy) == [lazy[0]] + Without(lazy[1..]);
    assert Without(eager) == [eager[0]] + Without(eager[1..]);
    assert eager[1..][1..] == lazy[1..];
  }

  // ---- Bounds on how long a snapshot authorizes ----

  /** Nothing is authorized at or after `bound` from this state until a snapshot is accepted. */
  predicate EndsBy(s: State, bound: int) {
    s.current.Some? ==> s.current.value.deadline <= bound
  }

  predicate GrantsNothing(answer: Answer) {
    (answer.Authorized? ==> answer.authorization.None?) && (answer.Deadline? ==> answer.until.None?)
  }

  predicate NoneAccepted(es: seq<Event>, i: nat, j: nat)
    requires i <= j <= |es|
  {
    forall k :: i <= k < j ==> !AnswerAt(es, k).Installed?
  }

  lemma StepKeepsEnd(s: State, e: Event, bound: int)
    requires EndsBy(s, bound)
    ensures Step(s, e).1.Installed? || EndsBy(Step(s, e).0, bound)
    ensures e.at >= bound ==> GrantsNothing(Step(s, e).1)
  {
  }

  lemma {:induction false} EndIsKept(es: seq<Event>, i: nat, j: nat, bound: int)
    requires i <= j <= |es| && EndsBy(After(es[..i]), bound) && NoneAccepted(es, i, j)
    ensures EndsBy(After(es[..j]), bound)
    decreases j - i
  {
    if i < j {
      EndIsKept(es, i, j - 1, bound);
      assert es[..j][..j - 1] == es[..j - 1];
      StepKeepsEnd(After(es[..j - 1]), es[j - 1], bound);
      assert !AnswerAt(es, j - 1).Installed?;
    }
  }

  /**
   * After a hold of `hold` at time t0, and until the next accepted snapshot, no
   * lookup at or after the earlier of t0 + hold and the lease held then is
   * granted, whatever further holds, epochs, refusals and lookups come between.
   */
  lemma HoldBoundsAuthorization(es: seq<Event>, i: nat, j: nat)
    requires i < j < |es| && es[i].op.HoldAfterDisconnect? && es[i].op.hold > 0
    requires NoneAccepted(es, i + 1, j)
    requires
      var held := After(es[..i]).current;
      es[j].at >= es[i].at + es[i].op.hold || (held.Some? ==> es[j].at >= held.value.deadline)
    ensures GrantsNothing(AnswerAt(es, j))
  {
    assert es[..i + 1][..i] == es[..i];
    EndIsKept(es, i + 1, j, es[j].at);
    StepKeepsEnd(After(es[..j]), es[j], es[j].at);
  }

  /** A snapshot accepted at time t authorizes nothing from t + staleAfter + 30 s on, unless another one is accepted. */
  lemma LeaseBoundsAuthorization(es: seq<Event>, i: nat, j: nat)
    requires i < j < |es| && es[i].op.Store? && AnswerAt(es, i).Installed?
    requires NoneAccepted(es, i + 1, j)
    requires es[j].at >= es[i].at + es[i].op.received.staleAfterMs + Clock.MAX_SNAPSHOT_CLOCK_SKEW_MS
    ensures GrantsNothing(AnswerAt(es, j))
  {
    assert es[..i + 1][..i] == es[..i];
    EndIsKept(es, i + 1, j, es[j].at);
    StepKeepsEnd(After(es[..j]), es[j], es[j].at);
  }

  // ---- The generation fence ----

  predicate EndsEpoch(op: Op) {
    op.BeginControlEpoch? || op.ClearEpoch? || (op.HoldAfterDisconnect? && op.hold == 0)
  }

  lemma {:induction false} FenceHolds(es: seq<Event>, i: nat, j: nat)
    requires i < j <= |es| && es[i].op.Store? && AnswerAt(es, i).Installed?
    requires forall k :: i < k < j ==> !EndsEpoch(es[k].op)
    ensures
      var fence := After(es[..j]).generationHighWater;
      fence.Some? && fence.value >= es[i].op.received.generation
    decreases j
  {
    assert es[..j][..j - 1] == es[..j - 1];
    if i + 1 < j {
      FenceHolds(es, i, j - 1);
    }
  }

  /** Within one control epoch accepted generations strictly increase, expiry in between or not. */
  lemma AcceptedGenerationsIncrease(es: seq<Event>, i: nat, j: nat)
    requires i < j < |es|
    requires es[i].op.Store? && AnswerAt(es, i).Installed?
    requires es[j].op.Store? && AnswerAt(es, j).Installed?
    requires forall k :: i < k < j ==> !EndsEpoch(es[k].op)
    ensures es[i].op.received.generation < es[j].op.received.generation
  {
    FenceHolds(es, i, j);
  }
}
