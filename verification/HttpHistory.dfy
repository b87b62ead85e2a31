/**
 * What an incarnation stands for. The reference machine keeps no current
 * snapshot, no expiry and no incarnations: only the tenures of accepted
 * snapshots, each the half-open interval during which it could authorize, and
 * the generation fence. `AuthorizationIsHistory` shows that comparing
 * incarnations answers exactly the question asked of that history.
 */
module HttpHistory {
  import opened Common
  import opened HttpSnapshot
  import Clock = SnapshotClock

  datatype Tenure = Tenure(routes: map<string, Route>, from: int, until: int)

  datatype History = History(tenures: seq<Tenure>, fence: Option<nat>)

  function Listed(routes: seq<Route>): map<string, Route> {
    if routes == [] then map[]
    else
      var last := routes[|routes| - 1];
      Listed(routes[..|routes| - 1])[last.hostname := last]
  }

  predicate Admissible(r: Received, at: int, installedAt: int, wallNowMs: nat) {
    && 0 < r.staleAfterMs <= MAX_SNAPSHOT_STALE_AFTER_MS
    && wallNowMs + r.staleAfterMs + Clock.MAX_SNAPSHOT_CLOCK_SKEW_MS <= Clock.MAX_U64
    && wallNowMs < r.validUntilMs <= wallNowMs + r.staleAfterMs + Clock.MAX_SNAPSHOT_CLOCK_SKEW_MS
    && r.poolsValid
    && installedAt < at + (r.validUntilMs - wallNowMs)
  }

  predicate Accepted(h: History, e: Event) {
    && e.op.Store?
    && Admissible(e.op.received, e.at, e.op.installedAt, e.op.wallNowMs)
    && (h.fence.Some? ==> h.fence.value < e.op.received.generation)
  }

  /** The last tenure ends no later than `end`. */
  function EndBy(tenures: seq<Tenure>, end: int): seq<Tenure> {
    if tenures == [] then []
    else
      var last := tenures[|tenures| - 1];
      tenures[..|tenures| - 1] + [if end < last.until then last.(until := end) else last]
  }

  function Record(h: History, e: Event): History {
    match e.op
    case Store(r, _, wallNowMs) =>
      if Accepted(h, e)
      then History(h.tenures + [Tenure(Listed(r.routes), e.at, e.at + (r.validUntilMs - wallNowMs))], Some(r.generation))
      else h
    case BeginControlEpoch => h.(fence := None)
    case HoldAfterDisconnect(hold) =>
      if hold == 0 then History(EndBy(h.tenures, e.at), None) else h.(tenures := EndBy(h.tenures, e.at + hold))
    case ClearEpoch => History(EndBy(h.tenures, e.at), None)
    case _ => h
  }

  function HistoryOf(es: seq<Event>): History {
    if es == [] then History([], None) else Record(HistoryOf(es[..|es| - 1]), es[|es| - 1])
  }

  /**
   * The route granted for `hostname` by tenure `k` is still in force at `now`:
   * every snapshot accepted since was received before its predecessor ended and
   * carries the hostname with the granted authority, and the last one has not ended.
   */
  ghost predicate InForce(tenures: seq<Tenure>, k: nat, hostname: string, now: int)
    requires k < |tenures| && hostname in tenures[k].routes
  {
    && (forall m :: k <= m < |tenures| ==>
          hostname in tenures[m].routes && tenures[k].routes[hostname].SameAuthority(tenures[m].routes[hostname]))
    && (forall m :: k < m < |tenures| ==> InTime(tenures, m))
    && now < tenures[|tenures| - 1].until
  }

  /** Snapshot `m` was received before its predecessor ended. */
  predicate InTime(tenures: seq<Tenure>, m: int)
    requires 0 < m < |tenures|
  {
    tenures[m].from < tenures[m - 1].until
  }

  /** What the history answers about a grant: the end of the last tenure while it is in force. */
  ghost function Verdict(tenures: seq<Tenure>, k: nat, hostname: string, now: int): Option<int>
    requires k < |tenures| && hostname in tenures[k].routes
  {
    if InForce(tenures, k, hostname, now) then Some(tenures[|tenures| - 1].until) else None
  }

  // ---- Relating the store to the history ----

  ghost predicate Linked(tenures: seq<Tenure>, m: nat, n: nat, hostname: string)
    requires m <= n < |tenures|
  {
    && (forall i :: m <= i <= n ==> hostname in tenures[i].routes)
    && (forall i :: m < i <= n ==> InTime(tenures, i) && Carries(tenures, i, hostname))
  }

  predicate Carries(tenures: seq<Tenure>, i: int, hostname: string)
    requires 0 < i < |tenures|
  {
    && hostname in tenures[i - 1].routes
    && hostname in tenures[i].routes
    && tenures[i - 1].routes[hostname].SameAuthority(tenures[i].routes[hostname])
  }

  /** The incarnations each accepted snapshot was installed with. */
  ghost function Incarnations(es: seq<Event>): seq<map<string, nat>> {
    if es == [] then []
    else
      var before := es[..|es| - 1];
      var after := After(es);
      if Step(After(before), es[|es| - 1]).1.Installed? && after.current.Some?
      then Incarnations(before) + [IdsOf(after.current.value.routes)]
      else Incarnations(before)
  }

  ghost function IdsOf(routes: map<string, AuthorizedRoute>): map<string, nat> {
    map h | h in routes :: routes[h].incarnation
  }

  ghost predicate Shaped(tenures: seq<Tenure>, ids: seq<map<string, nat>>) {
    && |ids| == |tenures|
    && (forall m :: 0 <= m < |ids| ==> ids[m].Keys == tenures[m].routes.Keys)
  }

  ghost predicate Keyed(tenures: seq<Tenure>) {
    forall m, h :: 0 <= m < |tenures| && h in tenures[m].routes ==> tenures[m].routes[h].hostname == h
  }

  /** Two incarnations are the same allocation exactly when an unbroken chain links them. */
  ghost predicate Identity(tenures: seq<Tenure>, ids: seq<map<string, nat>>)
    requires Shaped(tenures, ids)
  {
    forall m: nat, n: nat, g, h :: Agree(tenures, ids, m, n, g, h)
  }

  ghost predicate Agree(tenures: seq<Tenure>, ids: seq<map<string, nat>>, m: nat, n: nat, g: string, h: string)
    requires Shaped(tenures, ids)
  {
    m <= n < |ids| && g in ids[m] && h in ids[n] ==>
      (ids[m][g] == ids[n][h] <==> g == h && Linked(tenures, m, n, g))
  }

  ghost predicate Below(ids: seq<map<string, nat>>, bound: nat) {
    forall m, h :: 0 <= m < |ids| && h in ids[m] ==> ids[m][h] < bound
  }

  ghost predicate CurrentIsLast(s: State, tenures: seq<Tenure>, ids: seq<map<string, nat>>, now: int)
    requires Shaped(tenures, ids)
  {
    if s.current.None? then tenures == [] || tenures[|tenures| - 1].until <= now
    else
      && tenures != []
      && var cur, last := s.current.value, tenures[|tenures| - 1];
      && cur.deadline == last.until
      && cur.routes.Keys == last.routes.Keys
      && ids[|ids| - 1] == IdsOf(cur.routes)
      && forall h :: h in cur.routes ==> cur.routes[h].route == last.routes[h]
  }

  ghost predicate Related(s: State, h: History, ids: seq<map<string, nat>>, now: int) {
    && Shaped(h.tenures, ids)
    && Keyed(h.tenures)
    && Identity(h.tenures, ids)
    && Below(ids, s.nextIncarnation)
    && CurrentIsLast(s, h.tenures, ids, now)
    && s.generationHighWater == h.fence
  }

  lemma {:induction false} FreshRoutesAreListed(routes: seq<Route>, base: nat)
    ensures FreshRoutes(routes, base).Keys == Listed(routes).Keys
    ensures forall h :: h in Listed(routes) ==>
      var minted := FreshRoutes(routes, base)[h];
      && minted.route == Listed(routes)[h]
      && minted.route.hostname == h
      && base <= minted.incarnation < base + |routes|
    ensures forall g, h :: g in Listed(routes) && h in Listed(routes) && g != h ==>
      FreshRoutes(routes, base)[g].incarnation != FreshRoutes(routes, base)[h].incarnation
  {
    if routes != [] {
      FreshRoutesAreListed(routes[..|routes| - 1], base);
    }
  }

  /** Links look at routes, receipt times and the ends of all but the last tenure. */
  lemma SameLinks(left: seq<Tenure>, right: seq<Tenure>, m: nat, n: nat, h: string)
    requires m <= n < |left| && n < |right|
    requires forall i :: 0 <= i <= n ==> left[i].routes == right[i].routes && left[i].from == right[i].from
    requires forall i :: 0 <= i < n ==> left[i].until == right[i].until
    ensures Linked(left, m, n, h) <==> Linked(right, m, n, h)
  {
    forall i | m < i <= n
      ensures InTime(left, i) <==> InTime(right, i)
      ensures Carries(left, i, h) <==> Carries(right, i, h)
    {
    }
  }

  lemma EndByKeepsTheRest(tenures: seq<Tenure>, end: int)
    ensures
      var ended := EndBy(tenures, end);
      && |ended| == |tenures|
      && (forall i :: 0 <= i < |tenures| ==> ended[i].routes == tenures[i].routes && ended[i].from == tenures[i].from)
      && (forall i :: 0 <= i < |tenures| - 1 ==> ended[i] == tenures[i])
      && (tenures != [] ==> ended[|ended| - 1].until == if end < tenures[|tenures| - 1].until then end else tenures[|tenures| - 1].until)
  {
  }

  lemma EndByKeepsIdentity(tenures: seq<Tenure>, ids: seq<map<string, nat>>, end: int)
    requires Shaped(tenures, ids) && Identity(tenures, ids)
    ensures Shaped(EndBy(tenures, end), ids) && Identity(EndBy(tenures, end), ids)
  {
    forall m: nat, n: nat, g, h
      ensures Agree(EndBy(tenures, end), ids, m, n, g, h)
    {
      assert Agree(tenures, ids, m, n, g, h);
      if m <= n < |ids| {
        EndByKeepsTheRest(tenures, end);
        SameLinks(EndBy(tenures, end), tenures, m, n, g);
      }
    }
  }

  lemma AppendExtendsLinks(tenures: seq<Tenure>, t: Tenure, m: nat, h: string)
    requires m < |tenures|
    ensures Linked(tenures + [t], m, |tenures|, h) <==>
      && Linked(tenures, m, |tenures| - 1, h)
      && Continues(tenures[|tenures| - 1], t, h)
  {
    var longer, n := tenures + [t], |tenures|;
    SameLinks(longer, tenures, m, n - 1, h);
    assert Continues(tenures[n - 1], t, h) <==> InTime(longer, n) && Carries(longer, n, h);
    assert Linked(longer, m, n, h) <==> Linked(longer, m, n - 1, h) && InTime(longer, n) && Carries(longer, n, h);
  }

  /** An accepted snapshot extends the identity: inherited exactly where the chain continues, fresh elsewhere. */
  lemma AppendKeepsIdentity(
      tenures: seq<Tenure>, ids: seq<map<string, nat>>, bound: nat, t: Tenure, minted: map<string, nat>, added: map<string, nat>)
    requires Shaped(tenures, ids) && Identity(tenures, ids) && Below(ids, bound)
    requires minted.Keys == added.Keys == t.routes.Keys
    requires forall h :: h in minted ==> minted[h] >= bound
    requires forall g, h :: g in minted && h in minted && g != h ==> minted[g] != minted[h]
    requires forall h :: h in added ==>
      added[h] == if tenures != [] && Continues(tenures[|tenures| - 1], t, h) then ids[|ids| - 1][h] else minted[h]
    ensures Shaped(tenures + [t], ids + [added]) && Identity(tenures + [t], ids + [added])
  {
    var longer, idsAfter := tenures + [t], ids + [added];
    forall m: nat, n: nat, g, h
      ensures Agree(longer, idsAfter, m, n, g, h)
    {
      if m <= n < |idsAfter| && g in idsAfter[m] && h in idsAfter[n] {
        if n < |ids| {
          SameLinks(longer, tenures, m, n, g);
          assert Agree(tenures, ids, m, n, g, h);
        } else if m < |ids| {
          AppendExtendsLinks(tenures, t, m, g);
          assert ids[m][g] < bound;
          assert Agree(tenures, ids, m, |ids| - 1, g, h);
        } else if |ids| > 0 {
          assert Agree(tenures, ids, |ids| - 1, |ids| - 1, g, h);
        }
      }
    }
  }

  predicate Continues(last: Tenure, t: Tenure, h: string) {
    && h in last.routes && h in t.routes
    && t.from < last.until
    && last.routes[h].SameAuthority(t.routes[h])
  }

  lemma AcceptanceAgrees(s: State, h: History, e: Event)
    requires s.generationHighWater == h.fence && e.op.Store?
    ensures Step(s, e).1.Installed? <==> Accepted(h, e)
    ensures Accepted(h, e) ==>
      var r, after := e.op.received, Step(s, e).0;
      var routes := FreshRoutes(r.routes, s.nextIncarnation);
      && after.generationHighWater == Some(r.generation)
      && after.nextIncarnation == s.nextIncarnation + |r.routes|
      && after.current.Some?
      && after.current.value.deadline == e.at + (r.validUntilMs - e.op.wallNowMs)
      && after.current.value.routes ==
           if s.current.Some? && s.current.value.Fresh(e.at) then InheritedRoutes(routes, s.current.value.routes) else routes
    ensures !Accepted(h, e) ==> Step(s, e).0 == s || Step(s, e).0 == DropExpired(s, e.at)
  {
  }

  /** The incarnations an accepted snapshot ends up with: kept where the last tenure continues, new elsewhere. */
  lemma AcceptedIncarnations(s: State, h: History, ids: seq<map<string, nat>>, now: int, e: Event, t: Tenure)
    requires Shaped(h.tenures, ids) && CurrentIsLast(s, h.tenures, ids, now) && s.generationHighWater == h.fence
    requires now <= e.at && Accepted(h, e)
    requires t == Tenure(Listed(e.op.received.routes), e.at, e.at + (e.op.received.validUntilMs - e.op.wallNowMs))
    ensures Step(s, e).0.current.Some?
    ensures
      var routes := Step(s, e).0.current.value.routes;
      var minted := FreshRoutes(e.op.received.routes, s.nextIncarnation);
      && routes.Keys == t.routes.Keys == minted.Keys
      && forall g :: g in routes ==>
           && routes[g].route == t.routes[g]
           && routes[g].incarnation ==
                if h.tenures != [] && Continues(h.tenures[|h.tenures| - 1], t, g)
                then ids[|ids| - 1][g] else minted[g].incarnation
  {
    AcceptanceAgrees(s, h, e);
    FreshRoutesAreListed(e.op.received.routes, s.nextIncarnation);
  }

  lemma AcceptingKeepsRelation(s: State, h: History, ids: seq<map<string, nat>>, now: int, e: Event)
    requires Related(s, h, ids, now) && now <= e.at && Accepted(h, e)
    ensures Step(s, e).0.current.Some?
    ensures Related(Step(s, e).0, Record(h, e), ids + [IdsOf(Step(s, e).0.current.value.routes)], e.at)
  {
    var r := e.op.received;
    var t := Tenure(Listed(r.routes), e.at, e.at + (r.validUntilMs - e.op.wallNowMs));
    AcceptanceAgrees(s, h, e);
    AcceptedIncarnations(s, h, ids, now, e, t);
    FreshRoutesAreListed(r.routes, s.nextIncarnation);
    var minted := IdsOf(FreshRoutes(r.routes, s.nextIncarnation));
    AcceptedRelation(h.tenures, ids, s.nextIncarnation, |r.routes|, t, minted, Step(s, e).0, Record(h, e), e.at);
  }

  lemma AcceptedRelation(
      tenures: seq<Tenure>, ids: seq<map<string, nat>>, bound: nat, more: nat, t: Tenure, minted: map<string, nat>,
      after: State, h: History, now: int)
    requires Shaped(tenures, ids) && Keyed(tenures) && Identity(tenures, ids) && Below(ids, bound)
    requires after.current.Some? && after.nextIncarnation == bound + more
    requires after.generationHighWater == h.fence && h.tenures == tenures + [t]
    requires after.current.value.deadline == t.until
    requires forall g :: g in t.routes ==> t.routes[g].hostname == g
    requires after.current.value.routes.Keys == t.routes.Keys == minted.Keys
    requires forall g :: g in minted ==> bound <= minted[g] < bound + more
    requires forall f, g :: f in minted && g in minted && f != g ==> minted[f] != minted[g]
    requires forall g :: g in after.current.value.routes ==>
      && after.current.value.routes[g].route == t.routes[g]
      && after.current.value.routes[g].incarnation ==
           if tenures != [] && Continues(tenures[|tenures| - 1], t, g) then ids[|ids| - 1][g] else minted[g]
    ensures Related(after, h, ids + [IdsOf(after.current.value.routes)], now)
  {
    var added := IdsOf(after.current.value.routes);
    AppendKeepsIdentity(tenures, ids, bound, t, minted, added);
    AcceptedBound(tenures, ids, bound, more, minted, added);
  }

  lemma AcceptedBound(
      tenures: seq<Tenure>, ids: seq<map<string, nat>>, bound: nat, more: nat, minted: map<string, nat>, added: map<string, nat>)
    requires Below(ids, bound)
    requires forall h :: h in added ==> h in minted
    requires forall h :: h in minted ==> minted[h] < bound + more
    requires forall h :: h in added ==> added[h] == minted[h] || (ids != [] && h in ids[|ids| - 1] && added[h] == ids[|ids| - 1][h])
    ensures Below(ids + [added], bound + more)
  {
  }

  /** Dropping an ended snapshot, or doing nothing, keeps the relation at any later time. */
  lemma DroppingKeepsRelation(s: State, s': State, h: History, ids: seq<map<string, nat>>, now: int, later: int)
    requires Related(s, h, ids, now) && now <= later
    requires s' == s || s' == DropExpired(s, later)
    ensures Related(s', h, ids, later)
  {
  }

  lemma EndingKeepsRelation(s: State, h: History, ids: seq<map<string, nat>>, now: int, e: Event)
    requires Related(s, h, ids, now) && now <= e.at
    requires e.op.HoldAfterDisconnect? || e.op.ClearEpoch?
    ensures Related(Step(s, e).0, Record(h, e), ids, e.at)
  {
    hide Identity, Keyed, Below, CurrentIsLast, EndBy, Shaped;
    var end := if e.op.HoldAfterDisconnect? then e.at + e.op.hold else e.at;
    EndByKeepsIdentity(h.tenures, ids, end);
    EndByKeepsKeyed(h.tenures, end);
    EndByKeepsCurrent(s, Step(s, e).0, h.tenures, ids, now, e.at, end);
  }

  lemma EndByKeepsKeyed(tenures: seq<Tenure>, end: int)
    requires Keyed(tenures)
    ensures Keyed(EndBy(tenures, end))
  {
    EndByKeepsTheRest(tenures, end);
    hide EndBy;
  }

  lemma EndByKeepsCurrent(
      s: State, s': State, tenures: seq<Tenure>, ids: seq<map<string, nat>>, now: int, at: int, end: int)
    requires Shaped(tenures, ids) && Shaped(EndBy(tenures, end), ids)
    requires CurrentIsLast(s, tenures, ids, now) && now <= at <= end
    requires s'.current ==
      if end == at then None
      else if s.current.Some? && end < s.current.value.deadline then Some(s.current.value.(deadline := end))
      else s.current
    ensures CurrentIsLast(s', EndBy(tenures, end), ids, at)
  {
    EndByKeepsTheRest(tenures, end);
  }

  lemma QuietStep(s: State, h: History, e: Event)
    requires s.generationHighWater == h.fence
    requires !Accepted(h, e) && !e.op.HoldAfterDisconnect? && !e.op.ClearEpoch?
    ensures !Step(s, e).1.Installed?
    ensures Record(h, e).tenures == h.tenures
    ensures
      var s1 := Step(s, e).0;
      && s1.nextIncarnation == s.nextIncarnation
      && s1.generationHighWater == Record(h, e).fence
      && (s1.current == s.current || s1.current == DropExpired(s, e.at).current)
  {
    if e.op.Store? {
      AcceptanceAgrees(s, h, e);
    }
  }

  lemma QuietKeepsRelation(
      s: State, s': State, h: History, h': History, ids: seq<map<string, nat>>, now: int, at: int, later: int)
    requires Related(s, h, ids, now) && now <= at <= later
    requires h'.tenures == h.tenures && s'.nextIncarnation == s.nextIncarnation && s'.generationHighWater == h'.fence
    requires s'.current == s.current || s'.current == DropExpired(s, at).current
    ensures Related(s', h', ids, later)
  {
  }

  /** Every run keeps the store related to its history. */
  lemma {:induction false} RunKeepsRelation(es: seq<Event>, now: int)
    requires Ordered(es)
    requires es == [] || es[|es| - 1].at <= now
    ensures Related(After(es), HistoryOf(es), Incarnations(es), now)
  {
    if es != [] {
      var before, e := es[..|es| - 1], es[|es| - 1];
      var last := if before == [] then e.at else before[|before| - 1].at;
      RunKeepsRelation(before, last);
      if e.op.Store? && Accepted(HistoryOf(before), e) {
        AcceptanceAgrees(After(before), HistoryOf(before), e);
        AcceptingKeepsRelation(After(before), HistoryOf(before), Incarnations(before), last, e);
        DroppingKeepsRelation(After(es), After(es), HistoryOf(es), Incarnations(es), e.at, now);
      } else if e.op.HoldAfterDisconnect? || e.op.ClearEpoch? {
        EndingKeepsRelation(After(before), HistoryOf(before), Incarnations(before), last, e);
        DroppingKeepsRelation(After(es), After(es), HistoryOf(es), Incarnations(es), e.at, now);
      } else {
        QuietStep(After(before), HistoryOf(before), e);
        QuietKeepsRelation(After(before), After(es), HistoryOf(before), HistoryOf(es), Incarnations(before), last, e.at, now);
      }
    }
  }

  // ---- Identity of incarnations is a statement about the whole history ----

  lemma {:induction false} ChainHasOneAuthority(tenures: seq<Tenure>, k: nat, n: nat, hostname: string)
    requires k <= n < |tenures| && Linked(tenures, k, n, hostname)
    ensures tenures[k].routes[hostname].SameAuthority(tenures[n].routes[hostname])
  {
    if k < n {
      ChainHasOneAuthority(tenures, k, n - 1, hostname);
      assert Carries(tenures, n, hostname);
    }
  }

  lemma LinkedIsInForce(tenures: seq<Tenure>, k: nat, hostname: string, now: int)
    requires k < |tenures| && hostname in tenures[k].routes
    ensures InForce(tenures, k, hostname, now) <==>
      Linked(tenures, k, |tenures| - 1, hostname) && now < tenures[|tenures| - 1].until
  {
    if Linked(tenures, k, |tenures| - 1, hostname) {
      forall m | k <= m < |tenures|
        ensures tenures[k].routes[hostname].SameAuthority(tenures[m].routes[hostname])
      {
        ChainHasOneAuthority(tenures, k, m, hostname);
      }
    }
  }

  /** Tenures only grow in number, and keep their routes. */
  lemma StepKeepsPast(h: History, e: Event)
    ensures
      var after := Record(h, e).tenures;
      |h.tenures| <= |after| && forall m :: 0 <= m < |h.tenures| ==> after[m].routes == h.tenures[m].routes
  {
  }

  /** Later events leave what a past tenure carried, and the incarnations it carried it with, alone. */
  lemma {:induction false} PastIsKept(es: seq<Event>, i: nat)
    requires i <= |es|
    ensures
      var past, present := HistoryOf(es[..i]).tenures, HistoryOf(es).tenures;
      && |past| <= |present|
      && forall m :: 0 <= m < |past| ==> present[m].routes == past[m].routes
    ensures Incarnations(es[..i]) <= Incarnations(es)
  {
    hide Record, Step, IdsOf;
    if i < |es| {
      var before := es[..|es| - 1];
      assert before[..i] == es[..i];
      PastIsKept(before, i);
      StepKeepsPast(HistoryOf(before), es[|es| - 1]);
    } else {
      assert es[..i] == es;
    }
  }

  lemma SameIncarnation(tenures: seq<Tenure>, ids: seq<map<string, nat>>, m: nat, n: nat, hostname: string)
    requires Shaped(tenures, ids) && Identity(tenures, ids) && m <= n < |ids| && hostname in ids[m]
    ensures hostname in ids[n] && ids[m][hostname] == ids[n][hostname] <==> Linked(tenures, m, n, hostname)
  {
    assert Agree(tenures, ids, m, n, hostname, hostname);
  }

  lemma CurrentByHistory(es: seq<Event>, now: int, k: nat, auth: AuthorizedRoute)
    requires Ordered(es) && (es == [] || es[|es| - 1].at <= now)
    requires k < |HistoryOf(es).tenures| && auth.route.hostname in HistoryOf(es).tenures[k].routes
    requires k < |Incarnations(es)| && auth.route.hostname in Incarnations(es)[k]
    requires Incarnations(es)[k][auth.route.hostname] == auth.incarnation
    ensures CurrentDeadline(DropExpired(After(es), now), auth) ==
      Verdict(HistoryOf(es).tenures, k, auth.route.hostname, now)
  {
    RunKeepsRelation(es, now);
    DeadlineByHistory(After(es), HistoryOf(es), Incarnations(es), now, k, auth);
  }

  lemma DeadlineByHistory(s: State, h: History, ids: seq<map<string, nat>>, now: int, k: nat, auth: AuthorizedRoute)
    requires Related(s, h, ids, now)
    requires k < |h.tenures| && auth.route.hostname in h.tenures[k].routes
    requires ids[k][auth.route.hostname] == auth.incarnation
    ensures CurrentDeadline(DropExpired(s, now), auth) == Verdict(h.tenures, k, auth.route.hostname, now)
  {
    hide InForce, Linked, Identity, Below, Keyed;
    LinkedIsInForce(h.tenures, k, auth.route.hostname, now);
    SameIncarnation(h.tenures, ids, k, |h.tenures| - 1, auth.route.hostname);
  }

  lemma GrantIsRecorded(es: seq<Event>, now: int, hostname: string, auth: AuthorizedRoute)
    requires Ordered(es) && (es == [] || es[|es| - 1].at <= now)
    requires Lookup(DropExpired(After(es), now), hostname) == Some(auth)
    ensures
      var k := |HistoryOf(es).tenures| - 1;
      && 0 <= k
      && hostname in HistoryOf(es).tenures[k].routes
      && HistoryOf(es).tenures[k].routes[hostname] == auth.route
      && auth.route.hostname == hostname
      && |Incarnations(es)| == k + 1
      && hostname in Incarnations(es)[k]
      && Incarnations(es)[k][hostname] == auth.incarnation
  {
    RunKeepsRelation(es, now);
  }

  /** A route is granted exactly when the last accepted snapshot lists its hostname and has not ended, and it is that route. */
  lemma GrantedExactly(es: seq<Event>, i: nat)
    requires Ordered(es) && i < |es| && es[i].op.AuthorizeRoute?
    ensures
      var hostname, tenures := es[i].op.hostname, HistoryOf(es[..i]).tenures;
      var granted := tenures != [] && es[i].at < tenures[|tenures| - 1].until && hostname in tenures[|tenures| - 1].routes;
      && AnswerAt(es, i).Authorized? && AnswerAt(es, i).authorization.Some? == granted
      && (granted ==> AnswerAt(es, i).authorization.value.route == tenures[|tenures| - 1].routes[hostname])
  {
    var before := es[..i];
    assert before != [] ==> before[|before| - 1] == es[i - 1];
    RunKeepsRelation(before, es[i].at);
    hide Identity, Below, Keyed, HistoryOf, Incarnations;
  }

  lemma FenceStep(s: State, h: History, e: Event)
    requires s.generationHighWater == h.fence
    ensures Step(s, e).0.generationHighWater == Record(h, e).fence
  {
    if e.op.Store? {
      AcceptanceAgrees(s, h, e);
    }
  }

  lemma {:induction false} FenceAgrees(es: seq<Event>)
    ensures After(es).generationHighWater == HistoryOf(es).fence
  {
    if es != [] {
      hide Step, Record;
      FenceAgrees(es[..|es| - 1]);
      FenceStep(After(es[..|es| - 1]), HistoryOf(es[..|es| - 1]), es[|es| - 1]);
    }
  }

  /**
   * A snapshot is installed exactly when it is admissible and passes the
   * generation fence, in whatever order the clock was read.
   */
  lemma InstalledExactly(es: seq<Event>, i: nat)
    requires i < |es| && es[i].op.Store?
    ensures AnswerAt(es, i).Installed? <==> Accepted(HistoryOf(es[..i]), es[i])
  {
    FenceAgrees(es[..i]);
    AcceptanceAgrees(After(es[..i]), HistoryOf(es[..i]), es[i]);
  }

  /**
   * Pointer identity refines history. The authorization granted at event `i`
   * is answered at event `j` exactly as the reference history answers it: a
   * deadline, the end of the last tenure, while the grant is in force; nothing
   * otherwise.
   */
  lemma AuthorizationIsHistory(es: seq<Event>, i: nat, j: nat, auth: AuthorizedRoute)
    requires Ordered(es) && i < j < |es|
    requires es[i].op.AuthorizeRoute? && AnswerAt(es, i) == Authorized(Some(auth))
    requires es[j].op == AuthorizationDeadline(auth)
    ensures
      var k, hostname, tenures := |HistoryOf(es[..i]).tenures| - 1, es[i].op.hostname, HistoryOf(es[..j]).tenures;
      && 0 <= k < |tenures|
      && hostname in tenures[k].routes
      && tenures[k].routes[hostname] == auth.route
      && AnswerAt(es, j) == Deadline(Verdict(tenures, k, hostname, es[j].at))
  {
    GrantInRun(es, i, j, es[i].op.hostname, auth);
    DeadlineAnswer(es, j, auth);
  }

  lemma GrantInRun(es: seq<Event>, i: nat, j: nat, hostname: string, auth: AuthorizedRoute)
    requires Ordered(es) && i < j < |es|
    requires Lookup(DropExpired(After(es[..i]), es[i].at), hostname) == Some(auth)
    ensures
      var k, tenures := |HistoryOf(es[..i]).tenures| - 1, HistoryOf(es[..j]).tenures;
      && 0 <= k < |tenures|
      && hostname in tenures[k].routes
      && tenures[k].routes[hostname] == auth.route
      && CurrentDeadline(DropExpired(After(es[..j]), es[j].at), auth) == Verdict(tenures, k, hostname, es[j].at)
  {
    hide HistoryOf, Incarnations, After, InForce, CurrentDeadline, Lookup, DropExpired;
    GrantIsRecorded(es[..i], es[i].at, hostname, auth);
    assert es[..j][..i] == es[..i];
    PastIsKept(es[..j], i);
    CurrentByHistory(es[..j], es[j].at, |HistoryOf(es[..i]).tenures| - 1, auth);
  }

  lemma DeadlineAnswer(es: seq<Event>, j: nat, auth: AuthorizedRoute)
    requires j < |es| && es[j].op == AuthorizationDeadline(auth)
    ensures AnswerAt(es, j) == Deadline(CurrentDeadline(DropExpired(After(es[..j]), es[j].at), auth))
  {
  }

  /** One accepted snapshot keeps a grant in force exactly when it carries that hostname with that authority. */
  lemma AcceptedKeepsInForce(h: History, e: Event, k: nat, hostname: string)
    requires k < |h.tenures| && hostname in h.tenures[k].routes && Accepted(h, e)
    ensures
      var routes := Listed(e.op.received.routes);
      InForce(Record(h, e).tenures, k, hostname, e.at) <==>
        && InForce(h.tenures, k, hostname, e.at)
        && hostname in routes
        && h.tenures[k].routes[hostname].SameAuthority(routes[hostname])
  {
    var after, n := Record(h, e).tenures, |h.tenures|;
    assert forall m :: 0 <= m < n ==> after[m] == h.tenures[m];
    assert forall m :: k < m < n ==> (InTime(after, m) <==> InTime(h.tenures, m));
    assert InTime(after, n) <==> e.at < h.tenures[n - 1].until;
    assert after[n].routes == Listed(e.op.received.routes);
  }

  lemma EndingStaysEnded(tenures: seq<Tenure>, end: int, k: nat, hostname: string, now: int, later: int)
    requires k < |tenures| && hostname in tenures[k].routes && !InForce(tenures, k, hostname, now) && now <= later
    ensures
      var ended := EndBy(tenures, end);
      k < |ended| && hostname in ended[k].routes && !InForce(ended, k, hostname, later) && !InForce(tenures, k, hostname, later)
  {
    EndByKeepsTheRest(tenures, end);
    hide EndBy;
    var ended := EndBy(tenures, end);
    assert forall m :: k < m < |tenures| ==> (InTime(ended, m) <==> InTime(tenures, m));
  }

  lemma EndedStaysEnded(h: History, e: Event, k: nat, hostname: string, now: int)
    requires k < |h.tenures| && hostname in h.tenures[k].routes
    requires !InForce(h.tenures, k, hostname, now) && now <= e.at
    ensures k < |Record(h, e).tenures| && hostname in Record(h, e).tenures[k].routes
    ensures !InForce(Record(h, e).tenures, k, hostname, e.at)
  {
    hide InForce, EndBy, Admissible;
    EndingStaysEnded(h.tenures, if e.op.HoldAfterDisconnect? then e.at + e.op.hold else e.at, k, hostname, now, e.at);
    if Accepted(h, e) {
      AcceptedKeepsInForce(h, e, k, hostname);
    }
  }

  lemma {:induction false} NotInForceLater(es: seq<Event>, j: nat, k: nat, hostname: string)
    requires Ordered(es) && j < |es|
    requires k < |HistoryOf(es[..j]).tenures| && hostname in HistoryOf(es[..j]).tenures[k].routes
    requires !InForce(HistoryOf(es[..j]).tenures, k, hostname, es[j].at)
    ensures k < |HistoryOf(es).tenures| && hostname in HistoryOf(es).tenures[k].routes
    ensures !InForce(HistoryOf(es).tenures, k, hostname, es[|es| - 1].at)
    decreases |es|
  {
    var before, e := es[..|es| - 1], es[|es| - 1];
    if j == |es| - 1 {
      EndedStaysEnded(HistoryOf(before), e, k, hostname, e.at);
    } else {
      assert before[..j] == es[..j];
      NotInForceLater(before, j, k, hostname);
      EndedStaysEnded(HistoryOf(before), e, k, hostname, before[|before| - 1].at);
    }
  }

  /** An exchange that was once told its authorization is over is never told otherwise again. */
  lemma NeverRevived(es: seq<Event>, i: nat, j: nat, l: nat, auth: AuthorizedRoute)
    requires Ordered(es) && i < j < l < |es|
    requires es[i].op.AuthorizeRoute? && AnswerAt(es, i) == Authorized(Some(auth))
    requires es[j].op == es[l].op == AuthorizationDeadline(auth)
    requires AnswerAt(es, j) == Deadline(None)
    ensures AnswerAt(es, l) == Deadline(None)
  {
    AuthorizationIsHistory(es, i, j, auth);
    AuthorizationIsHistory(es, i, l, auth);
    var k, hostname, sofar := |HistoryOf(es[..i]).tenures| - 1, es[i].op.hostname, es[..l];
    assert sofar[..j] == es[..j];
    NotInForceLater(sofar, j, k, hostname);
    assert sofar[|sofar| - 1].at <= es[l].at;
  }
}
