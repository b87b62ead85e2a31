/** Safety of the revocation protocol over every interleaving of its steps. */
module SshRevocation {
  import opened Common
  import opened SshRouting
  import opened SshProtocol

  // ---- What holds of one connection by itself ----

  predicate IdentityOk(c: Conn) {
    match c.phase
    case Connected => !c.login && c.key.None? && c.userId.None? && c.pinned.None?
    case Writing(k, identity) =>
      && k <= 3
      && c.login == (k > 0)
      && c.key == (if k > 1 then Some(identity.key) else None)
      && c.userId == (if k > 2 then Some(identity.userId) else None)
      && c.pinned.None?
    case _ => if c.login then c.key.Some? && c.userId.Some? else c.key.None? && c.userId.None? && c.pinned.None?
  }

  predicate SessionOk(c: Conn, history: seq<Option<Snapshot>>) {
    && IdentityOk(c)
    && (c.phase.Open? ==> c.phase.version < |history| && AuthorizationMatches(c, history[c.phase.version]))
    && (c.resolved.Some? ==> c.phase.Open? && c.login && c.userId == Some(c.resolved.value.userId))
    && (c.bridges != map[] ==> c.phase.Open? && c.login)
  }

  predicate IdsOk(c: Conn) {
    && (forall id :: id in c.children ==> id < c.nextChild)
    && (forall id :: id in c.aborted ==> id < c.nextChild)
    && (c.abort.Draining? ==> forall id :: id in c.abort.handles ==> id < c.nextChild)
    && (forall id :: id in c.doomed ==> id < c.nextChild)
    && (forall id :: id in c.bridges ==> id < c.nextChild)
    && (forall id :: id in c.routes ==> id < c.nextChild)
  }

  /** A child that registered is still registered, was aborted, or is about to be by the abort that took it: one of the three. */
  predicate HandlesOk(c: Conn) {
    && (c.abort.Draining? || c.abort.Down? ==> c.children == {})
    && c.aborted !! c.children
    && (c.abort.Draining? ==> c.aborted !! c.abort.handles)
    && forall id :: id in c.bridges && c.bridges[id].Registered() ==>
         id in c.children || id in c.aborted || (c.abort.Draining? && id in c.abort.handles)
  }

  /** A bound child's route is what revalidation will see, unless revalidation removed it. */
  predicate RoutesOk(c: Conn) {
    forall id :: id in c.bridges && c.bridges[id].HasRoute() ==>
      id in c.doomed || (id in c.routes && c.routes[id] == c.bridges[id].route)
  }

  predicate BridgeOk(c: Conn, b: Bridge, history: seq<Option<Snapshot>>) {
    && (b.Registered() ==> c.userId == Some(b.route.userId))
    && (b.Live() ==>
          && b.version < |history|
          && c.phase.Open? && c.phase.version <= b.version
          && history[b.version].Some? && StillAuthorized(b.route, history[b.version].value))
  }

  predicate LocalOk(c: Conn, history: seq<Option<Snapshot>>) {
    && SessionOk(c, history)
    && IdsOk(c)
    && HandlesOk(c)
    && RoutesOk(c)
    && forall id :: id in c.bridges ==> BridgeOk(c, c.bridges[id], history)
  }

  // ---- What holds of a connection and the control tasks ----

  /** A child whose route revalidation removed is aborted, or the backend loop is about to abort it. */
  predicate DoomedOk(c: Conn, cid: nat, backend: Pass) {
    && (forall id :: id in c.doomed && id in c.bridges && c.bridges[id].Registered() ==>
          id in c.aborted || c.Revoked() || (backend.KillingHandle? && backend.conn == cid && backend.id == id))
    && ((backend.Killing? || backend.KillingHandle?) && backend.conn == cid ==>
          (forall id :: id in backend.ids ==> id < c.nextChild) && (backend.KillingHandle? ==> backend.id < c.nextChild))
  }

  predicate AbortedBy(c: Conn, a: Actor) {
    (c.abort.Swapped? || c.abort.SessionDown? || c.abort.Draining?) && c.abort.owner == a
  }

  predicate OwnerOk(c: Conn, cid: nat, backend: Pass, timer: Pass) {
    && (AbortedBy(c, Backend) ==> backend.Waiting? && backend.conn == cid)
    && (AbortedBy(c, Timer) ==> timer.Waiting? && timer.conn == cid)
  }

  predicate SessionSafe(c: Conn, target: Option<Snapshot>) {
    c.Revoked() || AuthorizationMatches(c, target)
  }

  predicate SessionCovered(c: Conn, cid: nat, pass: Pass, history: seq<Option<Snapshot>>) {
    pass.HasTarget() && pass.target < |history| && c.phase.Open? && c.phase.version < pass.target ==>
      || pass.Listing?
      || (pass.Inspecting? && (cid in pass.todo || cid in pass.bad))
      || ((pass.Aborting? || pass.Waiting?) && cid in pass.bad)
      || SessionSafe(c, history[pass.target])
  }

  predicate BridgeSafe(c: Conn, id: nat, route: Route, target: Snapshot) {
    id in c.aborted || c.Revoked() || StillAuthorized(route, target)
  }

  predicate BridgeCovered(c: Conn, cid: nat, id: nat, b: Bridge, pass: Pass, history: seq<Option<Snapshot>>) {
    pass.HasTarget() && pass.target < |history| && history[pass.target].Some? && b.Live() && b.version < pass.target ==>
      || !(pass.Scanning? || pass.Killing? || pass.KillingHandle?)
      || cid in pass.todo
      || ((pass.Killing? || pass.KillingHandle?) && cid == pass.conn && id in pass.ids)
      || (pass.KillingHandle? && cid == pass.conn && id == pass.id)
      || BridgeSafe(c, id, b.route, history[pass.target].value)
  }

  predicate FinishedSession(c: Conn, w: nat, history: seq<Option<Snapshot>>) {
    w < |history| && (c.phase.Open? && c.phase.version < w ==> SessionSafe(c, history[w]))
  }

  predicate FinishedBridge(c: Conn, id: nat, b: Bridge, w: nat, history: seq<Option<Snapshot>>) {
    w < |history| && history[w].Some? && b.Live() && b.version < w ==> BridgeSafe(c, id, b.route, history[w].value)
  }

  predicate CoveredOk(c: Conn, cid: nat, s: State) {
    && SessionCovered(c, cid, s.backend, s.history)
    && SessionCovered(c, cid, s.timer, s.history)
    && (forall id :: id in c.bridges ==> BridgeCovered(c, cid, id, c.bridges[id], s.backend, s.history))
    && (forall w :: w in s.finished ==> FinishedSession(c, w, s.history))
    && (forall w, id :: w in s.finished && id in c.bridges ==> FinishedBridge(c, id, c.bridges[id], w, s.history))
  }

  predicate ConnInv(c: Conn, cid: nat, s: State) {
    && LocalOk(c, s.history)
    && DoomedOk(c, cid, s.backend)
    && OwnerOk(c, cid, s.backend, s.timer)
    && CoveredOk(c, cid, s)
  }

  // ---- What holds of the control tasks ----

  predicate ScansBridges(pass: Pass) {
    pass.ListingBridges? || pass.Scanning? || pass.Killing? || pass.KillingHandle?
  }

  predicate PassesOk(s: State) {
    && (s.backend.HasTarget() ==> s.backend.target < |s.history|)
    && (ScansBridges(s.backend) ==> s.history[s.backend.target].Some?)
    && (s.backend.Killing? || s.backend.KillingHandle? ==> s.backend.conn in s.conns)
    && (s.timer.HasTarget() ==> s.timer.target < |s.history| && s.history[s.timer.target].None?)
    && !ScansBridges(s.timer) && !s.timer.Stored?
    && (forall w :: w in s.finished ==> w < |s.history|)
  }

  predicate Covers(pass: Pass, latest: int) {
    pass.Stored? || pass.Expiring? || (pass.HasTarget() && pass.target == latest)
  }

  /** The store's last write has been revalidated or is going to be. */
  predicate LatestOk(s: State) {
    Version(s) <= 0 || Version(s) in s.finished || Covers(s.backend, Version(s)) || Covers(s.timer, Version(s))
  }

  predicate Inv(s: State) {
    && s.history != []
    && PassesOk(s)
    && LatestOk(s)
    && forall cid :: cid in s.conns ==> ConnInv(s.conns[cid], cid, s)
  }

  // ---- Session steps ----

  /** What a connection's own steps can change about what revalidation relies on. */
  predicate Evolves(c: Conn, c': Conn, version: nat) {
    && (c.phase.Open? ==>
          c'.phase == c.phase && c'.login == c.login && c'.key == c.key && c'.userId == c.userId && c'.pinned == c.pinned)
    && (c'.phase.Open? && !c.phase.Open? ==> c'.phase.version == version)
    && (c.Revoked() ==> c'.Revoked())
    && c.aborted <= c'.aborted
    && forall id :: id in c'.bridges ==> BridgeEvolves(c, id, c'.bridges[id], version)
  }

  predicate BridgeEvolves(c: Conn, id: nat, b': Bridge, version: nat) {
    b'.Live() ==>
      || b'.version == version
      || (id in c.bridges && c.bridges[id].Live() && c.bridges[id].route == b'.route && c.bridges[id].version == b'.version)
  }

  lemma EvolvingKeepsCovered(c: Conn, c': Conn, cid: nat, s: State)
    requires s.history != [] && PassesOk(s) && CoveredOk(c, cid, s) && Evolves(c, c', |s.history| - 1)
    ensures CoveredOk(c', cid, s)
  {
    hide StillAuthorized, UserMatches;
    forall id | id in c'.bridges
      ensures BridgeCovered(c', cid, id, c'.bridges[id], s.backend, s.history)
      ensures forall w :: w in s.finished ==> FinishedBridge(c', id, c'.bridges[id], w, s.history)
    {
      assert BridgeEvolves(c, id, c'.bridges[id], |s.history| - 1);
    }
  }

  /** Authentication and resolving a target touch neither the registry nor the abort. */
  lemma AuthKeepsConn(c: Conn, cid: nat, p: AuthStep, s: State)
    requires s.history != [] && PassesOk(s) && AuthEnabled(c, p) && ConnInv(c, cid, s)
    ensures ConnInv(AuthAfter(c, p, s.history[|s.history| - 1], |s.history| - 1), cid, s)
  {
    hide StillAuthorized, UserMatches, CoveredOk, DoomedOk, OwnerOk;
    var c' := AuthAfter(c, p, s.history[|s.history| - 1], |s.history| - 1);
    assert SessionOk(c', s.history);
    SameRegistry(c, c', cid, s);
    EvolvingKeepsCovered(c, c', cid, s);
  }

  lemma SameRegistry(c: Conn, c': Conn, cid: nat, s: State)
    requires s.history != [] && ConnInv(c, cid, s) && SessionOk(c', s.history)
    requires c'.abort == c.abort && c'.registered == c.registered && c'.nextChild == c.nextChild
    requires c'.children == c.children && c'.aborted == c.aborted && c'.doomed == c.doomed
    requires c'.routes == c.routes && c'.bridges == c.bridges
    requires c.phase.Open? ==>
      c'.phase == c.phase && c'.login == c.login && c'.key == c.key && c'.userId == c.userId && c'.pinned == c.pinned
    requires c'.phase.Open? && !c.phase.Open? ==> c'.phase.version == |s.history| - 1
    ensures LocalOk(c', s.history) && DoomedOk(c', cid, s.backend) && OwnerOk(c', cid, s.backend, s.timer)
    ensures Evolves(c, c', |s.history| - 1)
  {
    hide StillAuthorized, AuthorizationMatches, CoveredOk, SessionOk;
    assert c.bridges != map[] ==> c.phase.Open? by {
      assert SessionOk(c, s.history);
      BridgesNeedOpen(c, s.history);
    }
    forall id | id in c'.bridges
      ensures BridgeOk(c', c'.bridges[id], s.history)
    {
      assert BridgeOk(c, c.bridges[id], s.history);
    }
  }

  lemma BridgesNeedOpen(c: Conn, history: seq<Option<Snapshot>>)
    requires SessionOk(c, history)
    ensures c.bridges != map[] ==> c.phase.Open? && c.login
  {
  }

  lemma ChannelKeepsSession(c: Conn, p: ChannelStep, history: seq<Option<Snapshot>>)
    requires history != [] && SessionOk(c, history) && ChannelEnabled(c, p)
    ensures SessionOk(ChannelAfter(c, p, history[|history| - 1], |history| - 1), history)
  {
    hide StillAuthorized, UserMatches;
  }

  lemma ReserveKeepsIds(c: Conn, current: Option<Snapshot>, version: nat)
    requires IdsOk(c) && ChannelEnabled(c, Reserve)
    ensures IdsOk(ChannelAfter(c, Reserve, current, version))
  {
  }

  lemma ChannelKeepsIds(c: Conn, p: ChannelStep, current: Option<Snapshot>, version: nat)
    requires IdsOk(c) && ChannelEnabled(c, p)
    ensures IdsOk(ChannelAfter(c, p, current, version))
  {
    hide StillAuthorized, UserMatches, RegisterChild;
    if p.Reserve? {
      ReserveKeepsIds(c, current, version);
    }
  }

  lemma ChannelKeepsHandles(c: Conn, p: ChannelStep, current: Option<Snapshot>, version: nat)
    requires IdsOk(c) && HandlesOk(c) && ChannelEnabled(c, p)
    ensures HandlesOk(ChannelAfter(c, p, current, version))
  {
    hide StillAuthorized, UserMatches;
  }

  lemma ReserveKeepsRoutes(c: Conn, current: Option<Snapshot>, version: nat)
    requires RoutesOk(c) && ChannelEnabled(c, Reserve)
    ensures RoutesOk(ChannelAfter(c, Reserve, current, version))
  {
  }

  lemma ChannelKeepsRoutes(c: Conn, p: ChannelStep, current: Option<Snapshot>, version: nat)
    requires RoutesOk(c) && ChannelEnabled(c, p)
    ensures RoutesOk(ChannelAfter(c, p, current, version))
  {
    hide StillAuthorized, UserMatches, RegisterChild;
    if p.Reserve? {
      ReserveKeepsRoutes(c, current, version);
    }
  }

  /** A channel's step aborts nothing and dooms nothing, and only a reservation registers, under the next id. */
  lemma ChannelShape(c: Conn, p: ChannelStep, current: Option<Snapshot>, version: nat)
    requires ChannelEnabled(c, p)
    ensures
      var c' := ChannelAfter(c, p, current, version);
      && c'.abort == c.abort && c'.doomed == c.doomed && c'.aborted == c.aborted && c.nextChild <= c'.nextChild
      && forall id :: id in c'.bridges && c'.bridges[id].Registered() ==>
           id == c.nextChild || (id in c.bridges && c.bridges[id].Registered())
  {
    hide StillAuthorized, UserMatches;
  }

  lemma ChannelKeepsDoomed(c: Conn, cid: nat, p: ChannelStep, current: Option<Snapshot>, version: nat, backend: Pass, timer: Pass)
    requires IdsOk(c) && ChannelEnabled(c, p) && DoomedOk(c, cid, backend) && OwnerOk(c, cid, backend, timer)
    ensures
      var c' := ChannelAfter(c, p, current, version);
      DoomedOk(c', cid, backend) && OwnerOk(c', cid, backend, timer)
  {
    hide ChannelAfter, ChannelEnabled;
    ChannelShape(c, p, current, version);
  }

  lemma ReserveKeepsBridges(c: Conn, history: seq<Option<Snapshot>>)
    requires history != [] && LocalOk(c, history) && ChannelEnabled(c, Reserve)
    ensures
      var c' := ChannelAfter(c, Reserve, history[|history| - 1], |history| - 1);
      forall id :: id in c'.bridges ==> BridgeOk(c', c'.bridges[id], history)
  {
    hide StillAuthorized, AuthorizationMatches, IdsOk, HandlesOk, RoutesOk;
    var c' := ChannelAfter(c, Reserve, history[|history| - 1], |history| - 1);
    forall id | id in c'.bridges
      ensures BridgeOk(c', c'.bridges[id], history)
    {
      assert id in c.bridges ==> BridgeOk(c, c.bridges[id], history);
    }
  }

  lemma ChannelKeepsBridges(c: Conn, p: ChannelStep, history: seq<Option<Snapshot>>)
    requires history != [] && LocalOk(c, history) && ChannelEnabled(c, p)
    ensures
      var c' := ChannelAfter(c, p, history[|history| - 1], |history| - 1);
      forall id :: id in c'.bridges ==> BridgeOk(c', c'.bridges[id], history)
  {
    hide StillAuthorized, UserMatches, AuthorizationMatches, IdsOk, HandlesOk, RoutesOk, RegisterChild;
    var c' := ChannelAfter(c, p, history[|history| - 1], |history| - 1);
    if p.Reserve? {
      ReserveKeepsBridges(c, history);
      return;
    }
    forall id | id in c'.bridges
      ensures BridgeOk(c', c'.bridges[id], history)
    {
      assert id in c.bridges ==> BridgeOk(c, c.bridges[id], history);
    }
  }

  lemma ReserveEvolves(c: Conn, history: seq<Option<Snapshot>>)
    requires history != [] && IdsOk(c) && ChannelEnabled(c, Reserve)
    ensures Evolves(c, ChannelAfter(c, Reserve, history[|history| - 1], |history| - 1), |history| - 1)
  {
  }

  lemma ChannelEvolves(c: Conn, p: ChannelStep, history: seq<Option<Snapshot>>)
    requires history != [] && IdsOk(c) && ChannelEnabled(c, p)
    ensures Evolves(c, ChannelAfter(c, p, history[|history| - 1], |history| - 1), |history| - 1)
  {
    hide StillAuthorized, UserMatches, RegisterChild;
    if p.Reserve? {
      ReserveEvolves(c, history);
    }
  }

  lemma ChannelKeepsConn(c: Conn, cid: nat, p: ChannelStep, s: State)
    requires s.history != [] && PassesOk(s) && ChannelEnabled(c, p) && ConnInv(c, cid, s)
    ensures ConnInv(ChannelAfter(c, p, s.history[|s.history| - 1], |s.history| - 1), cid, s)
  {
    hide ChannelEnabled, ChannelAfter, SessionOk, IdsOk, HandlesOk, RoutesOk, BridgeOk, Evolves, CoveredOk, DoomedOk, OwnerOk;
    var v := |s.history| - 1;
    ChannelKeepsSession(c, p, s.history);
    ChannelKeepsIds(c, p, s.history[v], v);
    ChannelKeepsHandles(c, p, s.history[v], v);
    ChannelKeepsRoutes(c, p, s.history[v], v);
    ChannelKeepsDoomed(c, cid, p, s.history[v], v, s.backend, s.timer);
    ChannelKeepsBridges(c, p, s.history);
    ChannelEvolves(c, p, s.history);
    EvolvingKeepsCovered(c, ChannelAfter(c, p, s.history[v], v), cid, s);
  }

  lemma TeardownKeepsRegistry(c: Conn, p: TeardownStep)
    requires TeardownEnabled(c, p) && IdsOk(c) && HandlesOk(c) && RoutesOk(c)
    ensures IdsOk(TeardownAfter(c, p)) && HandlesOk(TeardownAfter(c, p)) && RoutesOk(TeardownAfter(c, p))
  {
  }

  lemma TeardownEvolves(c: Conn, p: TeardownStep, version: nat)
    requires TeardownEnabled(c, p)
    ensures Evolves(c, TeardownAfter(c, p), version)
  {
  }

  lemma TeardownKeepsDoomed(c: Conn, cid: nat, p: TeardownStep, backend: Pass)
    requires TeardownEnabled(c, p) && DoomedOk(c, cid, backend)
    ensures DoomedOk(TeardownAfter(c, p), cid, backend)
  {
  }

  lemma TeardownKeepsOwner(c: Conn, cid: nat, p: TeardownStep, backend: Pass, timer: Pass)
    requires TeardownEnabled(c, p) && OwnerOk(c, cid, backend, timer)
    ensures OwnerOk(TeardownAfter(c, p), cid, backend, timer)
  {
  }

  lemma TeardownKeepsSession(c: Conn, p: TeardownStep, history: seq<Option<Snapshot>>)
    requires TeardownEnabled(c, p) && SessionOk(c, history)
    requires forall id :: id in c.bridges ==> BridgeOk(c, c.bridges[id], history)
    ensures
      var c' := TeardownAfter(c, p);
      SessionOk(c', history) && forall id :: id in c'.bridges ==> BridgeOk(c', c'.bridges[id], history)
  {
    hide StillAuthorized, UserMatches;
    var c' := TeardownAfter(c, p);
    forall id | id in c'.bridges
      ensures BridgeOk(c', c'.bridges[id], history)
    {
      assert BridgeOk(c, c.bridges[id], history);
    }
  }

  /** Tearing a connection down only ever takes children out of the registry to abort them. */
  lemma TeardownKeepsConn(c: Conn, cid: nat, p: TeardownStep, s: State)
    requires s.history != [] && PassesOk(s) && TeardownEnabled(c, p) && ConnInv(c, cid, s)
    ensures ConnInv(TeardownAfter(c, p), cid, s)
  {
    hide TeardownEnabled, TeardownAfter, SessionOk, IdsOk, HandlesOk, RoutesOk, BridgeOk, Evolves, CoveredOk, DoomedOk, OwnerOk;
    TeardownKeepsRegistry(c, p);
    TeardownKeepsSession(c, p, s.history);
    TeardownKeepsDoomed(c, cid, p, s.backend);
    TeardownKeepsOwner(c, cid, p, s.backend, s.timer);
    TeardownEvolves(c, p, |s.history| - 1);
    EvolvingKeepsCovered(c, TeardownAfter(c, p), cid, s);
  }

  /** One connection changes and the rest of the proxy does not. */
  lemma OneConnKeepsInv(s: State, cid: nat, c': Conn)
    requires Inv(s) && ConnInv(c', cid, s)
    requires s.backend.Killing? || s.backend.KillingHandle? ==> s.backend.conn in s.conns
    ensures Inv(SetConn(s, cid, c'))
  {
    hide ConnInv;
    var s' := SetConn(s, cid, c');
    forall other | other in s'.conns
      ensures ConnInv(s'.conns[other], other, s')
    {
      SameControls(s'.conns[other], other, s, s');
    }
  }

  lemma SessionStepKeepsInv(s: State, p: Step)
    requires Inv(s) && (p.Auth? || p.Channel? || p.Teardown?) && Enabled(s, p)
    ensures Inv(After(s, p))
  {
    hide ConnInv, AuthEnabled, AuthAfter, ChannelEnabled, ChannelAfter, TeardownEnabled, TeardownAfter;
    var c, v := s.conns[p.c], |s.history| - 1;
    match p {
      case Auth(cid, auth) =>
        AuthKeepsConn(c, cid, auth, s);
        OneConnKeepsInv(s, cid, AuthAfter(c, auth, s.history[v], v));
      case Channel(cid, channel) =>
        ChannelKeepsConn(c, cid, channel, s);
        OneConnKeepsInv(s, cid, ChannelAfter(c, channel, s.history[v], v));
      case Teardown(cid, teardown) =>
        TeardownKeepsConn(c, cid, teardown, s);
        OneConnKeepsInv(s, cid, TeardownAfter(c, teardown));
    }
  }

  /** A connection's invariant reads only the history, the passes and the finished targets. */
  lemma SameControls(c: Conn, cid: nat, s: State, s': State)
    requires s'.history == s.history && s'.backend == s.backend && s'.timer == s.timer && s'.finished == s.finished
    ensures ConnInv(c, cid, s') <==> ConnInv(c, cid, s)
  {
    hide LocalOk, DoomedOk, OwnerOk, SessionCovered, BridgeCovered, FinishedSession, FinishedBridge;
  }

  lemma NewConnectionOk(cid: nat, s: State)
    requires PassesOk(s)
    requires (s.backend.Killing? || s.backend.KillingHandle?) ==> s.backend.conn != cid
    ensures ConnInv(NEW_CONNECTION, cid, s)
  {
  }

  lemma RegisterKeepsInv(s: State, c: nat)
    requires Inv(s) && c !in s.conns
    ensures Inv(SetConn(s, c, NEW_CONNECTION))
  {
    hide ConnInv;
    NewConnectionOk(c, s);
    OneConnKeepsInv(s, c, NEW_CONNECTION);
  }

  // ---- Store writes ----

  /** A new version obliges nobody until a pass targets it. */
  lemma HistoryGrows(c: Conn, cid: nat, s: State, s': State, added: Option<Snapshot>)
    requires s.history != [] && PassesOk(s) && ConnInv(c, cid, s)
    requires s'.history == s.history + [added] && s'.finished == s.finished
    requires s'.backend == s.backend || (s.backend.Idle? && (s'.backend.Stored? || s'.backend.Listing?))
    requires s'.timer == s.timer || ((s.timer.Idle? || s.timer.Expiring?) && (s'.timer.Expiring? || s'.timer.Listing?))
    ensures ConnInv(c, cid, s')
  {
    hide StillAuthorized, AuthorizationMatches;
    forall id | id in c.bridges
      ensures BridgeOk(c, c.bridges[id], s'.history)
      ensures BridgeCovered(c, cid, id, c.bridges[id], s'.backend, s'.history)
      ensures forall w :: w in s.finished ==> FinishedBridge(c, id, c.bridges[id], w, s'.history)
    {
      assert BridgeOk(c, c.bridges[id], s.history);
      assert BridgeCovered(c, cid, id, c.bridges[id], s.backend, s.history);
      assert forall w :: w in s.finished ==> FinishedBridge(c, id, c.bridges[id], w, s.history);
    }
  }

  lemma WriteKeepsInv(s: State, p: WriteStep)
    requires Inv(s) && WriteEnabled(s, p)
    ensures Inv(WriteAfter(s, p))
  {
    hide ConnInv;
    var s' := WriteAfter(s, p);
    forall cid | cid in s'.conns
      ensures ConnInv(s'.conns[cid], cid, s')
    {
      if p.LoadTarget? {
        PassKeepsConn(s.conns[cid], cid, s, s', Backend);
      } else {
        HistoryGrows(s.conns[cid], cid, s, s', s'.history[|s.history|]);
      }
    }
  }

  // ---- Revalidating connections ----

  /** One task moves on, and what it owes this connection it has done or still remembers. */
  lemma PassKeepsConn(c: Conn, cid: nat, s: State, s': State, a: Actor)
    requires ConnInv(c, cid, s) && !a.Other?
    requires s'.history == s.history && s'.finished == s.finished
    requires (a.Backend? && s'.timer == s.timer) || (a.Timer? && s'.backend == s.backend)
    requires !PassOf(s, a).KillingHandle? && !PassOf(s', a).Killing? && !PassOf(s', a).KillingHandle?
    requires PassOf(s, a).Waiting? && PassOf(s, a).conn == cid ==> !AbortedBy(c, a)
    requires SessionCovered(c, cid, PassOf(s', a), s.history)
    requires a.Backend? ==> forall id :: id in c.bridges ==> BridgeCovered(c, cid, id, c.bridges[id], s'.backend, s.history)
    ensures ConnInv(c, cid, s')
  {
    hide LocalOk, SessionCovered, BridgeCovered, FinishedSession, FinishedBridge;
  }

  lemma InspectCovers(c: Conn, cid: nat, s: State, a: Actor, p: PassStep)
    requires ConnInv(c, cid, s) && PassEnabled(s, a, p) && cid in s.conns && s.conns[cid] == c
    requires p.ListConnections? || p.Inspect? || p.EndInspect?
    ensures SessionCovered(c, cid, PassOf(PassAfter(s, a, p), a), s.history)
  {
    hide LocalOk, DoomedOk, OwnerOk, AuthorizationMatches, BridgeCovered, FinishedSession, FinishedBridge;
  }

  lemma InspectKeepsInv(s: State, a: Actor, p: PassStep)
    requires Inv(s) && PassEnabled(s, a, p)
    requires p.ListConnections? || p.Inspect? || p.EndInspect?
    ensures Inv(PassAfter(s, a, p))
  {
    hide ConnInv, SessionCovered, AuthorizationMatches;
    var s' := PassAfter(s, a, p);
    forall cid | cid in s.conns
      ensures ConnInv(s.conns[cid], cid, s')
    {
      InspectCovers(s.conns[cid], cid, s, a, p);
      PassKeepsConn(s.conns[cid], cid, s, s', a);
    }
  }

  /** Starting an abort makes its connection safe for every target. */
  lemma StartAbortKeepsConn(c: Conn, cid: nat, s: State, s': State, a: Actor)
    requires s.history != [] && ConnInv(c, cid, s) && !a.Other? && !c.Revoked()
    requires s'.history == s.history && s'.finished == s.finished
    requires (a.Backend? && s'.timer == s.timer) || (a.Timer? && s'.backend == s.backend)
    requires PassOf(s, a).Aborting? && PassOf(s', a).Waiting? && PassOf(s', a).conn == cid
    ensures ConnInv(c.(abort := Swapped(a)), cid, s')
  {
    hide StillAuthorized, UserMatches;
    var c' := c.(abort := Swapped(a));
    forall id | id in c'.bridges
      ensures BridgeOk(c', c'.bridges[id], s.history)
    {
      assert BridgeOk(c, c.bridges[id], s.history);
    }
  }

  lemma AbortCovers(c: Conn, cid: nat, s: State, s': State, a: Actor, hit: nat)
    requires ConnInv(c, cid, s) && PassOf(s, a).Aborting? && (cid != hit || c.Revoked())
    requires s'.history == s.history
    requires var p' := PassOf(s', a);
      (p'.Aborting? || p'.Waiting?) && p'.target == PassOf(s, a).target && p'.bad == PassOf(s, a).bad - {hit}
    ensures SessionCovered(c, cid, PassOf(s', a), s.history)
  {
    hide LocalOk, DoomedOk, OwnerOk, AuthorizationMatches, BridgeCovered, FinishedSession, FinishedBridge;
  }

  lemma AbortNextKeepsInv(s: State, a: Actor, p: PassStep)
    requires Inv(s) && PassEnabled(s, a, p) && p.AbortNext?
    ensures Inv(PassAfter(s, a, p))
  {
    hide ConnInv, SessionCovered;
    var s', hit := PassAfter(s, a, p), s.conns[p.c];
    forall cid | cid in s'.conns
      ensures ConnInv(s'.conns[cid], cid, s')
    {
      if cid == p.c && !hit.Revoked() {
        StartAbortKeepsConn(hit, cid, s, s', a);
      } else {
        AbortCovers(s.conns[cid], cid, s, s', a, p.c);
        PassKeepsConn(s.conns[cid], cid, s, s', a);
      }
    }
  }

  lemma AbortWaitedCovers(c: Conn, cid: nat, s: State, a: Actor)
    requires ConnInv(c, cid, s) && PassOf(s, a).Waiting?
    ensures SessionCovered(c, cid, Aborting(PassOf(s, a).target, PassOf(s, a).bad), s.history)
  {
    hide LocalOk, DoomedOk, OwnerOk, AuthorizationMatches, BridgeCovered, FinishedSession, FinishedBridge;
  }

  lemma AbortWaitedKeepsInv(s: State, a: Actor, p: PassStep)
    requires Inv(s) && PassEnabled(s, a, p) && p.AbortWaited?
    ensures Inv(PassAfter(s, a, p))
  {
    hide ConnInv, SessionCovered;
    var s' := PassAfter(s, a, p);
    forall cid | cid in s'.conns
      ensures ConnInv(s'.conns[cid], cid, s')
    {
      AbortWaitedCovers(s.conns[cid], cid, s, a);
      PassKeepsConn(s.conns[cid], cid, s, s', a);
    }
  }

  /** A pass that has nothing left to visit leaves every connection safe for its target. */
  lemma FinishKeepsConn(c: Conn, cid: nat, s: State, a: Actor)
    requires PassesOk(s) && ConnInv(c, cid, s) && !a.Other?
    requires
      || (PassOf(s, a).Aborting? && PassOf(s, a).bad == {} && s.history[PassOf(s, a).target].None?)
      || (a.Backend? && s.backend.Scanning? && s.backend.todo == {})
    ensures ConnInv(c, cid, Finish(s, a, PassOf(s, a).target))
  {
    hide LocalOk, AuthorizationMatches, StillAuthorized;
  }

  lemma EndAbortingCovers(c: Conn, cid: nat, s: State)
    requires ConnInv(c, cid, s) && s.backend.Aborting? && s.backend.bad == {}
    ensures SessionCovered(c, cid, ListingBridges(s.backend.target), s.history)
  {
    hide LocalOk, DoomedOk, OwnerOk, AuthorizationMatches, BridgeCovered, FinishedSession, FinishedBridge;
  }

  lemma EndAbortingKeepsInv(s: State, a: Actor, p: PassStep)
    requires Inv(s) && PassEnabled(s, a, p) && p.EndAborting?
    ensures Inv(PassAfter(s, a, p))
  {
    hide ConnInv, SessionCovered;
    var s' := PassAfter(s, a, p);
    forall cid | cid in s'.conns
      ensures ConnInv(s'.conns[cid], cid, s')
    {
      if s' == Finish(s, a, PassOf(s, a).target) {
        FinishKeepsConn(s.conns[cid], cid, s, a);
      } else {
        EndAbortingCovers(s.conns[cid], cid, s);
        PassKeepsConn(s.conns[cid], cid, s, s', a);
      }
    }
  }

  // ---- Revalidating bridges ----

  lemma ListBridgesCovers(c: Conn, cid: nat, s: State, p: ScanStep)
    requires ConnInv(c, cid, s) && ScanEnabled(s, p) && cid in s.conns && s.conns[cid] == c
    requires p.ListBridges? || p.EndKilling?
    ensures SessionCovered(c, cid, ScanAfter(s, p).backend, s.history)
    ensures forall id :: id in c.bridges ==> BridgeCovered(c, cid, id, c.bridges[id], ScanAfter(s, p).backend, s.history)
  {
    hide LocalOk, DoomedOk, OwnerOk, AuthorizationMatches, StillAuthorized, FinishedSession, FinishedBridge;
  }

  lemma ListBridgesKeepsInv(s: State, p: ScanStep)
    requires Inv(s) && ScanEnabled(s, p) && (p.ListBridges? || p.EndKilling?)
    ensures Inv(ScanAfter(s, p))
  {
    hide ConnInv, SessionCovered, BridgeCovered;
    var s' := ScanAfter(s, p);
    forall cid | cid in s'.conns
      ensures ConnInv(s'.conns[cid], cid, s')
    {
      ListBridgesCovers(s.conns[cid], cid, s, p);
      PassKeepsConn(s.conns[cid], cid, s, s', Backend);
    }
  }

  /** The scan of a connection finds every bridge its target does not authorize, by the bound routes. */
  lemma ScanCovers(c: Conn, cid: nat, s: State, s': State)
    requires ConnInv(c, cid, s) && PassesOk(s) && s.backend.Scanning?
    requires s'.history == s.history && s'.finished == s.finished && s'.timer == s.timer
    requires s'.backend == Killing(s.backend.target, s.backend.todo - {cid}, cid, RevokedRoutes(c, s.history[s.backend.target].value))
    ensures ConnInv(c, cid, s')
  {
    hide StillAuthorized, AuthorizationMatches, SessionOk, BridgeOk, HandlesOk, FinishedSession, FinishedBridge;
    forall id | id in c.bridges
      ensures BridgeCovered(c, cid, id, c.bridges[id], s'.backend, s.history)
    {
      assert BridgeCovered(c, cid, id, c.bridges[id], s.backend, s.history);
    }
  }

  /** While the backend loop works on another connection, this one owes nothing new. */
  lemma ScanElsewhere(c: Conn, cid: nat, s: State, s': State)
    requires ConnInv(c, cid, s)
    requires s'.history == s.history && s'.finished == s.finished && s'.timer == s.timer
    requires
      || (s.backend.Scanning? && s'.backend.Killing? && s'.backend.todo == s.backend.todo - {s'.backend.conn})
      || (s.backend.Killing? && s'.backend.KillingHandle? && s'.backend.todo == s.backend.todo && s'.backend.conn == s.backend.conn)
      || (s.backend.KillingHandle? && s'.backend.Killing? && s'.backend.todo == s.backend.todo && s'.backend.conn == s.backend.conn)
    requires s'.backend.target == s.backend.target && s'.backend.conn != cid
    ensures ConnInv(c, cid, s')
  {
    hide LocalOk, AuthorizationMatches, StillAuthorized, FinishedSession, FinishedBridge;
  }

  /** Revalidation's own changes to a connection: it loses a route entry, or one of its children is aborted. */
  lemma KillKeepsLocal(c: Conn, id: nat, history: seq<Option<Snapshot>>)
    requires LocalOk(c, history) && id < c.nextChild
    ensures LocalOk(RemoveRoute(c, id), history) && LocalOk(AbortChild(c, id), history)
  {
    hide StillAuthorized, UserMatches;
    forall i | i in c.bridges
      ensures BridgeOk(RemoveRoute(c, id), c.bridges[i], history) && BridgeOk(AbortChild(c, id), c.bridges[i], history)
    {
      assert BridgeOk(c, c.bridges[i], history);
    }
  }

  lemma KillRouteKeepsConn(c: Conn, cid: nat, s: State, s': State, id: nat)
    requires s.history != [] && ConnInv(c, cid, s) && s.backend.Killing? && s.backend.conn == cid && id in s.backend.ids
    requires s'.history == s.history && s'.finished == s.finished && s'.timer == s.timer
    requires s'.backend == KillingHandle(s.backend.target, s.backend.todo, cid, s.backend.ids - {id}, id)
    ensures ConnInv(RemoveRoute(c, id), cid, s')
  {
    hide StillAuthorized, UserMatches, LocalOk;
    KillKeepsLocal(c, id, s.history);
  }

  lemma KillHandleCovers(c: Conn, cid: nat, s: State, s': State)
    requires ConnInv(c, cid, s) && s.backend.KillingHandle? && s.backend.conn == cid
    requires s'.history == s.history && s'.finished == s.finished && s'.timer == s.timer
    requires s'.backend == Killing(s.backend.target, s.backend.todo, cid, s.backend.ids)
    ensures CoveredOk(AbortChild(c, s.backend.id), cid, s')
  {
    hide StillAuthorized, UserMatches, SessionOk, IdsOk, RoutesOk, BridgeOk;
    var id := s.backend.id;
    var c' := AbortChild(c, id);
    assert id in c.bridges && c.bridges[id].Registered() ==> id in c'.aborted || c'.Revoked();
    forall i | i in c'.bridges
      ensures BridgeCovered(c', cid, i, c'.bridges[i], s'.backend, s.history)
      ensures forall w :: w in s.finished ==> FinishedBridge(c', i, c'.bridges[i], w, s.history)
    {
      assert BridgeCovered(c, cid, i, c.bridges[i], s.backend, s.history);
    }
  }

  lemma KillHandleKeepsConn(c: Conn, cid: nat, s: State, s': State)
    requires ConnInv(c, cid, s) && s.backend.KillingHandle? && s.backend.conn == cid
    requires s'.history == s.history && s'.finished == s.finished && s'.timer == s.timer
    requires s'.backend == Killing(s.backend.target, s.backend.todo, cid, s.backend.ids)
    ensures ConnInv(AbortChild(c, s.backend.id), cid, s')
  {
    hide SessionOk, RoutesOk, BridgeOk, CoveredOk;
    KillHandleCovers(c, cid, s, s');
    KillKeepsLocal(c, s.backend.id, s.history);
    assert DoomedOk(AbortChild(c, s.backend.id), cid, s'.backend);
  }

  lemma ScanKeepsInv(s: State, p: ScanStep)
    requires Inv(s) && ScanEnabled(s, p) && (p.ScanConn? || p.KillRoute? || p.KillHandle?)
    ensures Inv(ScanAfter(s, p))
  {
    hide ConnInv, RevokedRoutes, RemoveRoute, AbortChild;
    var s', hit := ScanAfter(s, p), if p.ScanConn? then p.c else s.backend.conn;
    forall cid | cid in s'.conns
      ensures ConnInv(s'.conns[cid], cid, s')
    {
      if cid != hit {
        ScanElsewhere(s.conns[cid], cid, s, s');
      } else if p.ScanConn? {
        ScanCovers(s.conns[cid], cid, s, s');
      } else if p.KillRoute? {
        KillRouteKeepsConn(s.conns[cid], cid, s, s', p.id);
      } else {
        KillHandleKeepsConn(s.conns[cid], cid, s, s');
      }
    }
  }

  lemma EndScanKeepsInv(s: State, p: ScanStep)
    requires Inv(s) && ScanEnabled(s, p) && p.EndScan?
    ensures Inv(ScanAfter(s, p))
  {
    hide ConnInv;
    forall cid | cid in s.conns
      ensures ConnInv(s.conns[cid], cid, ScanAfter(s, p))
    {
      FinishKeepsConn(s.conns[cid], cid, s, Backend);
    }
  }

  // ---- Every run ----

  lemma StepKeepsInv(s: State, p: Step)
    requires Inv(s) && Enabled(s, p)
    ensures Inv(After(s, p))
  {
    hide Inv, WriteEnabled, WriteAfter, PassEnabled, PassAfter, ScanEnabled, ScanAfter;
    match p {
      case Register(c) =>
        RegisterKeepsInv(s, c);
      case Write(write) =>
        WriteKeepsInv(s, write);
      case Revalidate(a, pass) =>
        if pass.AbortNext? {
          AbortNextKeepsInv(s, a, pass);
        } else if pass.AbortWaited? {
          AbortWaitedKeepsInv(s, a, pass);
        } else if pass.EndAborting? {
          EndAbortingKeepsInv(s, a, pass);
        } else {
          InspectKeepsInv(s, a, pass);
        }
      case Scan(scan) =>
        if scan.ListBridges? || scan.EndKilling? {
          ListBridgesKeepsInv(s, scan);
        } else if scan.EndScan? {
          EndScanKeepsInv(s, scan);
        } else {
          ScanKeepsInv(s, scan);
        }
      case _ =>
        SessionStepKeepsInv(s, p);
    }
  }

  lemma {:induction false} RunKeepsInv(steps: seq<Step>)
    requires Run(steps).Some?
    ensures Inv(Run(steps).value)
  {
    if steps != [] {
      hide Inv, Enabled, After;
      RunKeepsInv(steps[..|steps| - 1]);
      StepKeepsInv(Run(steps[..|steps| - 1]).value, steps[|steps| - 1]);
    }
  }

  /** `AbortHandle::abort` was called for the session. */
  predicate SessionAborted(c: Conn) {
    c.abort.SessionDown? || c.abort.Draining? || c.abort.Down?
  }

  /**
   * Once the revalidation pass for version `w` has finished, every session that
   * passed `auth_succeeded` against an earlier version is authorized by `w` or
   * aborted, except exactly while the task that set the connection's revoked flag
   * has not yet made its next step, which aborts the session.
   */
  lemma SessionsAfterPass(steps: seq<Step>, w: nat, cid: nat)
    requires Run(steps).Some?
    requires
      var s := Run(steps).value;
      && w in s.finished && cid in s.conns
      && s.conns[cid].phase.Open? && s.conns[cid].phase.version < w
    ensures
      var s := Run(steps).value;
      && w < |s.history|
      && (AuthorizationMatches(s.conns[cid], s.history[w]) || (SessionAborted(s.conns[cid]) <==> !s.conns[cid].abort.Swapped?))
  {
    hide AuthorizationMatches, StillAuthorized;
    RunKeepsInv(steps);
    var s := Run(steps).value;
    assert ConnInv(s.conns[cid], cid, s);
    assert FinishedSession(s.conns[cid], w, s.history);
  }

  /** A task has begun to abort the connection and has yet to come to this child. */
  predicate AbortIsComing(c: Conn, id: nat) {
    || ((c.abort.Swapped? || c.abort.SessionDown?) && id in c.children)
    || (c.abort.Draining? && id in c.abort.handles)
  }

  /** Authorized by `target`: its user, the route its login pinned, and its own. */
  predicate BridgeAuthorized(c: Conn, id: nat, target: Option<Snapshot>)
    requires id in c.bridges && c.bridges[id].Live()
  {
    AuthorizationMatches(c, target) && target.Some? && StillAuthorized(c.bridges[id].route, target.value)
  }

  lemma AbortedOrComing(c: Conn, id: nat)
    requires HandlesOk(c) && id in c.bridges && c.bridges[id].Live() && (c.Revoked() || id in c.aborted)
    ensures id in c.aborted <==> !AbortIsComing(c, id)
  {
  }

  /**
   * Once the pass for version `w` has finished, every bridge that passed its
   * re-check against an earlier version is authorized by `w` or aborted, except
   * exactly while a task that has begun to abort its connection has not yet come
   * to it.
   */
  lemma BridgesAfterPass(steps: seq<Step>, w: nat, cid: nat, id: nat)
    requires Run(steps).Some?
    requires
      var s := Run(steps).value;
      && w in s.finished && cid in s.conns && id in s.conns[cid].bridges
      && s.conns[cid].bridges[id].Live() && s.conns[cid].bridges[id].version < w
    ensures
      var s := Run(steps).value;
      var c := s.conns[cid];
      && w < |s.history|
      && (BridgeAuthorized(c, id, s.history[w]) || (id in c.aborted <==> !AbortIsComing(c, id)))
  {
    hide Inv, ConnInv, AbortIsComing, BridgeAuthorized;
    RunKeepsInv(steps);
    var s := Run(steps).value;
    InvOf(s, cid);
    FinishedBridgeDecided(s.conns[cid], cid, id, w, s);
  }

  lemma InvOf(s: State, cid: nat)
    requires Inv(s) && cid in s.conns
    ensures s.history != [] && LatestOk(s) && ConnInv(s.conns[cid], cid, s)
  {
  }

  lemma FinishedBridgeDecided(c: Conn, cid: nat, id: nat, w: nat, s: State)
    requires ConnInv(c, cid, s) && w in s.finished && id in c.bridges && c.bridges[id].Live() && c.bridges[id].version < w
    ensures w < |s.history| && (BridgeAuthorized(c, id, s.history[w]) || (id in c.aborted <==> !AbortIsComing(c, id)))
  {
    hide StillAuthorized, AuthorizationMatches, AbortIsComing, IdsOk, HandlesOk, RoutesOk, DoomedOk, OwnerOk;
    assert BridgeOk(c, c.bridges[id], s.history);
    assert FinishedSession(c, w, s.history);
    assert FinishedBridge(c, id, c.bridges[id], w, s.history);
    if c.Revoked() || id in c.aborted {
      AbortedOrComing(c, id);
    } else {
      assert s.history[w].Some? by {
        LoginNeedsSnapshot(c, s.history, w);
      }
    }
  }

  /** A session with an identity is authorized by nothing if nothing is stored. */
  lemma LoginNeedsSnapshot(c: Conn, history: seq<Option<Snapshot>>, w: nat)
    requires SessionOk(c, history) && c.bridges != map[] && w < |history| && AuthorizationMatches(c, history[w])
    ensures history[w].Some?
  {
  }

  /**
   * With no revalidation under way, whatever is still running is authorized by
   * what the store holds now or aborted, except exactly while an abort outside any
   * revalidation pass has begun and not yet come to it.
   */
  lemma QuietMeansAuthorized(steps: seq<Step>, cid: nat)
    requires Run(steps).Some?
    requires
      var s := Run(steps).value;
      s.backend.Idle? && s.timer.Idle? && cid in s.conns && s.conns[cid].phase.Open?
    ensures
      var s := Run(steps).value;
      var c, current := s.conns[cid], s.history[|s.history| - 1];
      && (AuthorizationMatches(c, current) || (SessionAborted(c) <==> c.abort != Swapped(Other)))
      && forall id :: id in c.bridges && c.bridges[id].Live() ==> QuietBridge(c, id, s)
  {
    hide StillAuthorized, AuthorizationMatches, ConnInv;
    RunKeepsInv(steps);
    var s := Run(steps).value;
    QuietSession(s.conns[cid], cid, s);
    forall id | id in s.conns[cid].bridges && s.conns[cid].bridges[id].Live()
      ensures QuietBridge(s.conns[cid], id, s)
    {
      QuietBridges(s.conns[cid], cid, id, s);
    }
  }

  predicate QuietBridge(c: Conn, id: nat, s: State)
    requires id in c.bridges && c.bridges[id].Live() && s.history != []
  {
    || BridgeAuthorized(c, id, s.history[|s.history| - 1])
    || ((id in c.aborted <==> !AbortIsComing(c, id)) && (AbortIsComing(c, id) ==> c.abort.owner == Other))
  }

  lemma QuietSession(c: Conn, cid: nat, s: State)
    requires s.history != [] && LatestOk(s) && s.backend.Idle? && s.timer.Idle? && ConnInv(c, cid, s) && c.phase.Open?
    ensures AuthorizationMatches(c, s.history[|s.history| - 1]) || (SessionAborted(c) <==> c.abort != Swapped(Other))
    ensures AuthorizationMatches(c, s.history[|s.history| - 1]) || c.Revoked()
  {
    hide StillAuthorized, AuthorizationMatches;
    if c.phase.version < |s.history| - 1 {
      assert FinishedSession(c, |s.history| - 1, s.history);
    }
  }

  lemma QuietBridges(c: Conn, cid: nat, id: nat, s: State)
    requires s.history != [] && LatestOk(s) && s.backend.Idle? && s.timer.Idle? && ConnInv(c, cid, s) && c.phase.Open?
    requires id in c.bridges && c.bridges[id].Live()
    ensures QuietBridge(c, id, s)
  {
    hide StillAuthorized, AuthorizationMatches, IdsOk, HandlesOk, RoutesOk, DoomedOk;
    var v := |s.history| - 1;
    assert BridgeOk(c, c.bridges[id], s.history);
    QuietSession(c, cid, s);
    if c.bridges[id].version < v {
      FinishedBridgeDecided(c, cid, id, v, s);
    } else if c.Revoked() {
      AbortedOrComing(c, id);
    }
  }

  /** A registration racing an abort is refused or drained: after the abort every child that ever registered is aborted or gone. */
  lemma RefusedOrDrained(steps: seq<Step>, cid: nat, id: nat)
    requires Run(steps).Some?
    requires var s := Run(steps).value; cid in s.conns && s.conns[cid].abort.Down? && id in s.conns[cid].bridges
    ensures
      var c := Run(steps).value.conns[cid];
      && (c.bridges[id].Registered() ==> id in c.aborted)
      && RegisterChild(c) == (c, None)
  {
    RunKeepsInv(steps);
    assert ConnInv(Run(steps).value.conns[cid], cid, Run(steps).value);
  }

  /** A session that was let in without an identity never has a bridge, not even a reserved one. */
  lemma NoIdentityNoBridge(steps: seq<Step>, cid: nat)
    requires Run(steps).Some? && cid in Run(steps).value.conns && !Run(steps).value.conns[cid].login
    ensures Run(steps).value.conns[cid].bridges == map[]
  {
    RunKeepsInv(steps);
    assert ConnInv(Run(steps).value.conns[cid], cid, Run(steps).value);
  }
}
